/**
 Federation bootstrap: what one cluster's SPIRE server reports while it is watched reaches the Helm values of every
 cluster whose trust zone federates with it.
 */
module Bootstrap {
  import opened Wrappers
  import opened HelmValue
  import opened Configuration
  import opened Store
  import opened StoreInvariant
  import opened HelmGenerator
  import opened HelmEntries
  import opened HelmConservation
  import opened HelmSuccess
  import opened HelmProvider
  import opened TrustZoneClusters
  import opened SpireHelm
  import opened DeploymentReleases

  // ---------- what is covered ----------

  /** The items are the clusters of the trust zones. */
  ghost predicate Covers(c: Config, zones: seq<TrustZone>, items: seq<Item>) {
    && (forall x | x in items :: x.zone in zones && x.cluster in c.clusters && x.cluster.trustZoneId == x.zone.id)
    && (forall z, k | z in zones && k in c.clusters && k.trustZoneId == z.id :: Item(z, k) in items)
  }

  lemma ZoneCovered(c: Config, z: TrustZone)
    requires z.id != ""
    ensures Covers(c, [z], ZoneItems(z, ClustersListed(c, z.id)))
  {
    var ks := ClustersOf(c, z.id);
    var items := ZoneItems(z, ClustersListed(c, z.id));
    forall x | x in items ensures x.cluster in c.clusters && x.cluster.trustZoneId == z.id {
      assert x.cluster in ks && Is(ZoneOf, z.id)(x.cluster) && ZoneOf(x.cluster) == z.id;
    }
    forall k | k in c.clusters && k.trustZoneId == z.id ensures Item(z, k) in items {
      assert ZoneOf(k) == z.id && Is(ZoneOf, z.id)(k) && k in ks;
      var i :| 0 <= i < |ks| && ks[i] == k;
      assert items[i] == Item(z, k);
    }
  }

  lemma {:induction false} ItemsCover(c: Config, zones: seq<TrustZone>)
    requires forall z | z in zones :: z.id != ""
    ensures Covers(c, zones, ItemsOf(c, zones))
  {
    if zones != [] {
      var n := |zones| - 1;
      SplitLast(zones);
      ItemsCover(c, zones[..n]);
      ZoneCovered(c, zones[n]);
    }
  }

  function ItemKey(x: Item): string { x.cluster.id }

  lemma ZoneDistinct(c: Config, z: TrustZone)
    requires ClustersOk(c.clusters) && z.id != ""
    ensures Distinct(ZoneItems(z, ClustersListed(c, z.id)), ItemKey)
  {
    FilterDistinct(c.clusters, Is(ZoneOf, z.id), ClusterId);
    var items, ks := ZoneItems(z, ClustersListed(c, z.id)), ClustersOf(c, z.id);
    forall i, j | 0 <= i < j < |items| ensures ItemKey(items[i]) != ItemKey(items[j]) {
      assert ClusterId(ks[i]) != ClusterId(ks[j]);
    }
  }

  lemma KeysApart(c: Config, zones: seq<TrustZone>, front: seq<Item>, last: seq<Item>)
    requires ClustersOk(c.clusters) && zones != [] && Distinct(zones, ZoneId)
    requires Covers(c, zones[..|zones| - 1], front) && Covers(c, [zones[|zones| - 1]], last)
    ensures forall x, y | x in front && y in last :: ItemKey(x) != ItemKey(y)
  {
    var n := |zones| - 1;
    forall x, y | x in front && y in last ensures ItemKey(x) != ItemKey(y) {
      var i :| 0 <= i < n && zones[..n][i] == x.zone;
      assert ZoneId(zones[i]) != ZoneId(zones[n]);
      if ItemKey(x) == ItemKey(y) { SameKey(c.clusters, ClusterId, x.cluster, y.cluster); }
    }
  }

  lemma {:induction false} KeysDistinct(c: Config, zones: seq<TrustZone>)
    requires ClustersOk(c.clusters) && Distinct(zones, ZoneId) && forall z | z in zones :: z.id != ""
    ensures Distinct(ItemsOf(c, zones), ItemKey)
  {
    if zones != [] {
      var n := |zones| - 1;
      KeysDistinct(c, zones[..n]);
      ItemsCover(c, zones[..n]);
      ZoneCovered(c, zones[n]);
      ZoneDistinct(c, zones[n]);
      var front, last := ItemsOf(c, zones[..n]), ZoneItems(zones[n], ClustersListed(c, zones[n].id));
      KeysApart(c, zones, front, last);
      DistinctConcat(front, last, ItemKey);
    }
  }

  /** Every cluster of the selected trust zones is covered exactly once. */
  lemma EachClusterOnce(c: Config, zones: seq<TrustZone>)
    requires ClustersOk(c.clusters) && Distinct(zones, ZoneId) && forall z | z in zones :: z.id != ""
    ensures Covers(c, zones, ItemsOf(c, zones)) && Distinct(ItemsOf(c, zones), ItemKey)
  {
    ItemsCover(c, zones);
    KeysDistinct(c, zones);
  }

  lemma DistinctConcat<T, K(!new)>(a: seq<T>, b: seq<T>, f: T -> K)
    requires Distinct(a, f) && Distinct(b, f) && forall x, y | x in a && y in b :: f(x) != f(y)
    ensures Distinct(a + b, f)
  {
    var s := a + b;
    forall i, j | 0 <= i < j < |s| ensures f(s[i]) != f(s[j]) {
      if i < |a| <= j { assert a[i] in a && b[j - |a|] in b; }
      else if j < |a| { assert f(a[i]) != f(a[j]); }
      else { assert f(b[i - |a|]) != f(b[j - |a|]); }
    }
  }

  // ---------- watching ----------

  /** `d` is `c` except for the bundles and endpoints of trust zones. */
  ghost predicate OnlyEndpoints(c: Config, d: Config) {
    && d == c.(trustZones := d.trustZones)
    && |d.trustZones| == |c.trustZones|
    && forall i | 0 <= i < |c.trustZones| :: Core(d.trustZones[i]) == Core(c.trustZones[i])
  }

  ghost predicate FromStore(c: Config, items: seq<Item>) {
    forall x | x in items :: x.zone in c.trustZones
  }

  /** Publishing an endpoint replaces exactly the trust zone's own record. */
  lemma PublishedAt(c: Config, d: Config, z: TrustZone, o: Observation)
    requires Inv(c) && OnlyEndpoints(c, d) && z in c.trustZones
    ensures UpdateTrustZone(d, Observed(z, o)).error.None?
    ensures exists i | 0 <= i < |c.trustZones| ::
              c.trustZones[i] == z &&
              UpdateTrustZone(d, Observed(z, o)).config == d.(trustZones := d.trustZones[i := Observed(z, o)])
  {
    var i := FirstIndex(d.trustZones, Is(ZoneId, z.id));
    var j :| 0 <= j < |c.trustZones| && c.trustZones[j] == z;
    SameIds(c, d);
    assert ZoneId(d.trustZones[j]) == z.id && Is(ZoneId, z.id)(d.trustZones[j]);
    assert i <= j && ZoneId(d.trustZones[i]) == z.id && ZoneId(c.trustZones[i]) == ZoneId(c.trustZones[j]);
    assert i == j;
    SameCoreFields(d.trustZones[i], z);
  }

  lemma SameCoreFields(a: TrustZone, b: TrustZone)
    requires Core(a) == Core(b)
    ensures a.id == b.id && a.name == b.name && a.trustDomain == b.trustDomain
  {
    assert a.id == Core(a).id && b.id == Core(b).id && a.name == Core(a).name && b.name == Core(b).name;
    assert a.trustDomain == Core(a).trustDomain && b.trustDomain == Core(b).trustDomain;
  }

  lemma SameIds(c: Config, d: Config)
    requires OnlyEndpoints(c, d)
    ensures forall i | 0 <= i < |c.trustZones| ::
              ZoneId(d.trustZones[i]) == ZoneId(c.trustZones[i]) &&
              ZoneName(d.trustZones[i]) == ZoneName(c.trustZones[i])
  {
    forall i | 0 <= i < |c.trustZones|
      ensures ZoneId(d.trustZones[i]) == ZoneId(c.trustZones[i])
              && ZoneName(d.trustZones[i]) == ZoneName(c.trustZones[i])
    {
      SameCoreFields(d.trustZones[i], c.trustZones[i]);
    }
  }

  lemma OneWatchKeeps(c: Config, d: Config, item: Item, o: Observation)
    requires Inv(c) && Inv(d) && OnlyEndpoints(c, d) && item.zone in c.trustZones
    ensures OnlyEndpoints(c, WithEndpoint(d, item, o)) && Inv(WithEndpoint(d, item, o))
  {
    if Publishes(item) {
      var z := item.zone;
      PublishedAt(c, d, z, o);
      var i :| 0 <= i < |c.trustZones| && c.trustZones[i] == z
               && UpdateTrustZone(d, Observed(z, o)).config == d.(trustZones := d.trustZones[i := Observed(z, o)]);
      SameCoreObserved(z, z, o);
      ApplyKeepsInv(d, OpUpdateTrustZone(Observed(z, o)));
    }
  }

  /** Watching, however far it gets, changes nothing in the store but bundles and endpoints, and keeps its invariant. */
  lemma {:induction false} WatchKeeps(c: Config, items: seq<Item>, observations: seq<Observation>)
    requires Inv(c) && |observations| <= |items| && FromStore(c, items)
    ensures OnlyEndpoints(c, AfterWatch(c, items, observations)) && Inv(AfterWatch(c, items, observations))
    decreases |observations|
  {
    if observations != [] {
      var n := |observations| - 1;
      WatchKeeps(c, items, observations[..n]);
      assert items[n] in items;
      OneWatchKeeps(c, AfterWatch(c, items, observations[..n]), items[n], observations[n]);
    }
  }

  /** The item is a cluster with a server of its own in this trust zone, which has the HTTPS_SPIFFE profile. */
  ghost predicate PublishesFor(x: Item, zone: TrustZone) {
    x.zone == zone && zone.bundleEndpointProfile == HttpsSpiffe && !x.cluster.externalServer
  }

  /** Among the first `n` items, item `j` is the last one that publishes for a trust zone. */
  ghost predicate LastPublisher(items: seq<Item>, n: nat, zone: TrustZone, j: nat)
    requires n <= |items|
  {
    j < n && PublishesFor(items[j], zone) && forall k | j < k < n :: !PublishesFor(items[k], zone)
  }

  /** The record of `z` once its server has reported `o`: with that bundle and its address, and otherwise as it was. */
  ghost predicate IsReported(stored: TrustZone, z: TrustZone, o: Observation) {
    && stored.bundle == Some(o.bundle) && stored.bundleEndpointUrl == "https://" + o.ip + ":8443"
    && stored == z.(bundle := stored.bundle, bundleEndpointUrl := stored.bundleEndpointUrl)
  }

  /** A trust zone ends up with what its last cluster reported. */
  lemma {:induction false} LastReportStands(c: Config, items: seq<Item>, observations: seq<Observation>, z: TrustZone,
                                            j: nat)
    requires Inv(c) && |observations| <= |items| && FromStore(c, items)
    requires LastPublisher(items, |observations|, z, j)
    ensures Find(AfterWatch(c, items, observations).trustZones, ZoneId, z.id) == Some(Observed(z, observations[j]))
    ensures IsReported(Find(AfterWatch(c, items, observations).trustZones, ZoneId, z.id).value, z, observations[j])
    decreases |observations|
  {
    var n := |observations| - 1;
    var d := AfterWatch(c, items, observations[..n]);
    assert items[n] in items && items[j] in items;
    WatchKeeps(c, items, observations[..n]);
    if j == n {
      StoredEndpoint(c, d, z, observations[n]);
    } else {
      LastReportStands(c, items, observations[..n], z, j);
      OtherEndpoint(c, d, items[n], observations[n], z, Observed(z, observations[j]));
    }
  }

  /** A trust zone for which no cluster publishes, in particular one with another profile, keeps its record. */
  lemma {:induction false} UnreportedStays(c: Config, items: seq<Item>, observations: seq<Observation>, z: TrustZone)
    requires Inv(c) && |observations| <= |items| && FromStore(c, items) && z in c.trustZones
    requires forall k | 0 <= k < |observations| :: !PublishesFor(items[k], z)
    ensures Find(AfterWatch(c, items, observations).trustZones, ZoneId, z.id) == Some(z)
    decreases |observations|
  {
    if observations == [] {
      FindUnique(c.trustZones, ZoneId, z);
    } else {
      var n := |observations| - 1;
      var d := AfterWatch(c, items, observations[..n]);
      assert items[n] in items;
      WatchKeeps(c, items, observations[..n]);
      UnreportedStays(c, items, observations[..n], z);
      OtherEndpoint(c, d, items[n], observations[n], z, z);
    }
  }

  lemma StoredEndpoint(c: Config, d: Config, z: TrustZone, o: Observation)
    requires Inv(c) && Inv(d) && OnlyEndpoints(c, d) && z in c.trustZones
    ensures Find(UpdateTrustZone(d, Observed(z, o)).config.trustZones, ZoneId, z.id) == Some(Observed(z, o))
  {
    PublishedAt(c, d, z, o);
    ApplyKeepsInv(d, OpUpdateTrustZone(Observed(z, o)));
    var e := UpdateTrustZone(d, Observed(z, o)).config;
    var i :| 0 <= i < |c.trustZones| && c.trustZones[i] == z
                && e == d.(trustZones := d.trustZones[i := Observed(z, o)]);
    assert e.trustZones[i] in e.trustZones;
    FindUnique(e.trustZones, ZoneId, Observed(z, o));
  }

  lemma OtherEndpoint(c: Config, d: Config, item: Item, o: Observation, z: TrustZone, stored: TrustZone)
    requires Inv(c) && Inv(d) && OnlyEndpoints(c, d) && item.zone in c.trustZones && z in c.trustZones
    requires !(Publishes(item) && item.zone == z)
    requires Find(d.trustZones, ZoneId, z.id) == Some(stored)
    ensures Find(WithEndpoint(d, item, o).trustZones, ZoneId, z.id) == Some(stored)
  {
    if Publishes(item) {
      var y := item.zone;
      PublishedAt(c, d, y, o);
      ApplyKeepsInv(d, OpUpdateTrustZone(Observed(y, o)));
      var e := UpdateTrustZone(d, Observed(y, o)).config;
      var i :| 0 <= i < |c.trustZones| && c.trustZones[i] == y
                  && e == d.(trustZones := d.trustZones[i := Observed(y, o)]);
      var k :| 0 <= k < |d.trustZones| && d.trustZones[k] == stored;
      SameIds(c, d);
      FindUnique(c.trustZones, ZoneId, z);
      assert k != i by { if k == i { FindUnique(c.trustZones, ZoneId, y); } }
      assert e.trustZones[k] == stored && stored in e.trustZones;
      FindUnique(e.trustZones, ZoneId, stored);
    }
  }

  /** If any item publishes for a trust zone, one of them is the last. */
  lemma {:induction false} SomeLastPublisher(items: seq<Item>, n: nat, z: TrustZone, j: nat)
    requires j < n <= |items| && PublishesFor(items[j], z)
    ensures exists k: nat :: LastPublisher(items, n, z, k)
    decreases n
  {
    if PublishesFor(items[n - 1], z) {
      assert LastPublisher(items, n, z, n - 1);
    } else {
      SomeLastPublisher(items, n - 1, z, j);
      var k: nat :| LastPublisher(items, n - 1, z, k);
      assert LastPublisher(items, n, z, k);
    }
  }

  // ---------- the theorem ----------

  /** The path of a field of the entry for the remote trust zone of this name. */
  function RemotePath(name: string, field: seq<string>): seq<string> {
    EntryPath("clusterFederatedTrustDomains", name) + field
  }

  /** The values say where the trust zone `z` can be reached, at the address that its last cluster reported, by which
      SPIFFE ID its server is known there, and which bundle to trust: the one that cluster reported. */
  ghost predicate Connects(t: Tree, z: TrustZone, o: Observation) {
    && LeafAt(t, RemotePath(z.name, ["bundleEndpointURL"])) == Some(Str("https://" + o.ip + ":8443"))
    && LeafAt(t, RemotePath(z.name, ["bundleEndpointProfile", "type"])) == Some(Str("https_spiffe"))
    && LeafAt(t, RemotePath(z.name, ["bundleEndpointProfile", "endpointSPIFFEID"])) ==
       Some(Str("spiffe://" + z.trustDomain + "/spire/server"))
    && LeafAt(t, RemotePath(z.name, ["trustDomain"])) == Some(Str(z.trustDomain))
    && o.bundle.json.Some?
    && LeafAt(t, RemotePath(z.name, ["trustDomainBundle"])) == Some(Str(o.bundle.json.value))
    && LeafAt(t, FEDERATION_ENABLED) == Some(Bool(true))
  }

  lemma EntryConnects(t: Tree, z: TrustZone, o: Observation, stored: TrustZone, entry: Tree)
    requires z.bundleEndpointProfile.HttpsSpiffe? && IsReported(stored, z, o) && IsRemoteEntry(entry, stored)
    requires Get(t, EntryPath("clusterFederatedTrustDomains", z.name)) == Some(Map(entry))
    requires LeafAt(t, FEDERATION_ENABLED) == Some(Bool(true))
    ensures Connects(t, z, o)
  {
    var p, profile := EntryPath("clusterFederatedTrustDomains", z.name), entry["bundleEndpointProfile"].entries;
    forall q: seq<string> | q != [] ensures Get(t, p + q) == Get(entry, q) { GetBelow(t, p, entry, q); }
    assert ["bundleEndpointProfile", "type"] == ["bundleEndpointProfile"] + ["type"];
    assert ["bundleEndpointProfile", "endpointSPIFFEID"] == ["bundleEndpointProfile"] + ["endpointSPIFFEID"];
    GetStep(entry, "bundleEndpointProfile", ["type"]);
    GetStep(entry, "bundleEndpointProfile", ["endpointSPIFFEID"]);
  }

  lemma SelectedFromStore(c: Config, ids: seq<string>)
    requires Inv(c) && ListItems(c, ids).Some?
    ensures var zones := SelectedZones(c, ids).value;
            && (forall z | z in zones :: z in c.trustZones && z.id != "")
            && ListItems(c, ids) == Some(ItemsOf(c, zones))
  {
    if ids != [] { FoundInStore(c, ids); }
  }

  lemma {:induction false} FoundInStore(c: Config, ids: seq<string>)
    requires ZonesById(c, ids).Some?
    ensures forall z | z in ZonesById(c, ids).value :: z in c.trustZones
  {
    if ids != [] { FoundInStore(c, ids[..|ids| - 1]); }
  }

  /** `o` is what the last cluster of trust zone `z` reported in the first round. */
  ghost predicate LastReport(items: seq<Item>, first: seq<Observation>, z: TrustZone, o: Observation) {
    exists j: nat :: j < |first| && |first| == |items| && LastPublisher(items, |items|, z, j) && first[j] == o
  }

  /** `values` were made from generated values that connect the item's trust zone to `z`. */
  ghost predicate MadeFrom(c1: Config, render: Renderer, item: Item, values: Tree, z: TrustZone, o: Observation) {
    var t := Generated(c1, item.zone, item.cluster, true, render);
    t.Some? && values == Overlay(t.value, None, item.cluster.extraHelmValues) && Connects(t.value, z, o)
  }

  /** Whatever values are generated for the item were made from values that connect its trust zone to `z`. */
  ghost predicate Reaches(c1: Config, render: Renderer, item: Item, z: TrustZone, o: Observation) {
    var values := ValuesFor(c1, item, render);
    values.Some? ==> MadeFrom(c1, render, item, values.value, z, o)
  }

  /** After a round of watching, what the last cluster of a trust zone reported reaches the values of every cluster
      whose trust zone federates with it, provided that trust zone was selected, has the HTTPS_SPIFFE profile, and has a
      cluster with a server of its own. */
  lemma ReportsReachValues(c0: Config, render: Renderer, ids: seq<string>, items: seq<Item>, first: seq<Observation>,
                           item: Item, fed: Federation, z: TrustZone, k: Cluster)
    requires Inv(c0) && ListItems(c0, ids) == Some(items) && |first| == |items| && item in items
    requires fed in c0.federations && fed.trustZoneId == item.zone.id
    requires z in SelectedZones(c0, ids).value && z.id == fed.remoteTrustZoneId && z.bundleEndpointProfile.HttpsSpiffe?
    requires k in c0.clusters && k.trustZoneId == z.id && !k.externalServer
    ensures exists o :: LastReport(items, first, z, o) && Reaches(AfterWatch(c0, items, first), render, item, z, o)
  {
    SelectedFromStore(c0, ids);
    ItemsCover(c0, SelectedZones(c0, ids).value);
    assert Item(z, k) in items && item.zone in c0.trustZones;
    var o, stored := LastReportOf(c0, items, first, z, k);
    var c1 := AfterWatch(c0, items, first);
    if ValuesFor(c1, item, render).Some? {
      ConnectedValues(c1, render, item, fed, z, o, stored, ValuesFor(c1, item, render).value);
    }
  }

  /** In every successful deployment that waits, each upgrade's values were made, before the cluster's own values are
      merged in, from values that connect its trust zone to every such trust zone; and the SPIRE chart of the cluster
      has these values in the end, unless a later item is about the same cluster. */
  lemma FederationBootstrap(c0: Config, c: Config, render: Renderer, ids: seq<string>, items: seq<Item>,
                            repoPath: Option<string>, w0: World, w: World, f: Findings, i: nat, fed: Federation,
                            z: TrustZone, k: Cluster)
    requires Inv(c0) && ListItems(c0, ids) == Some(items)
    requires DeployOutcome(c0, c, render, items, repoPath, false, w0, w, None, f)
    requires i < |items| && fed in c0.federations && fed.trustZoneId == items[i].zone.id
    requires z in SelectedZones(c0, ids).value && z.id == fed.remoteTrustZoneId && z.bundleEndpointProfile.HttpsSpiffe?
    requires k in c0.clusters && k.trustZoneId == z.id && !k.externalServer
    ensures |f.upgraded| == |f.first| == |items|
    ensures exists o :: LastReport(items, f.first, z, o)
                        && MadeFrom(AfterWatch(c0, items, f.first), render, items[i], f.upgraded[i], z, o)
    ensures LastOn(items, i) ==>
              var chart := Release(items[i].cluster.kubernetesContext, Spire);
              chart in w.releases && w.releases[chart] == f.upgraded[i]
  {
    DeployedReleases(c0, c, render, items, repoPath, false, w0, w, f);
    ReportsReachValues(c0, render, ids, items, f.first, items[i], fed, z, k);
    var o :| LastReport(items, f.first, z, o) && Reaches(AfterWatch(c0, items, f.first), render, items[i], z, o);
    assert ValuesFor(AfterWatch(c0, items, f.first), items[i], render) == Some(f.upgraded[i]);
  }

  lemma LastReportOf(c0: Config, items: seq<Item>, first: seq<Observation>, z: TrustZone, k: Cluster)
    returns (o: Observation, stored: TrustZone)
    requires Inv(c0) && FromStore(c0, items) && |first| == |items|
    requires Item(z, k) in items && PublishesFor(Item(z, k), z)
    ensures LastReport(items, first, z, o) && IsReported(stored, z, o)
    ensures stored in AfterWatch(c0, items, first).trustZones
    ensures OnlyEndpoints(c0, AfterWatch(c0, items, first)) && Inv(AfterWatch(c0, items, first))
  {
    var m :| 0 <= m < |items| && items[m] == Item(z, k);
    SomeLastPublisher(items, |items|, z, m);
    var j: nat :| LastPublisher(items, |items|, z, j);
    o := first[j];
    WatchKeeps(c0, items, first);
    LastReportStands(c0, items, first, z, j);
    stored := Find(AfterWatch(c0, items, first).trustZones, ZoneId, z.id).value;
  }

  lemma ConnectedValues(c1: Config, render: Renderer, item: Item, fed: Federation, z: TrustZone, o: Observation,
                        stored: TrustZone, values: Tree)
    requires Inv(c1) && item.zone.id != "" && fed in c1.federations && fed.trustZoneId == item.zone.id
    requires stored in c1.trustZones && stored.id == fed.remoteTrustZoneId && IsReported(stored, z, o)
    requires z.bundleEndpointProfile.HttpsSpiffe? && ValuesFor(c1, item, render) == Some(values)
    ensures MadeFrom(c1, render, item, values, z, o)
  {
    assert stored.bundleEndpointUrl[0] == 'h';
    var t := Generated(c1, item.zone, item.cluster, true, render).value;
    var entry := FederationAt(c1, item.zone, item.cluster, render, fed, stored);
    EntryConnects(t, z, o, stored, entry);
  }

  // ---------- when values can be generated after watching ----------

  /** A remote trust zone can be federated with after a round of watching: if one of its clusters reported, the bundle
      that the last of them reported has a JSON encoding. */
  ghost predicate ReadyAfter(items: seq<Item>, first: seq<Observation>, z: TrustZone)
    requires |first| == |items|
  {
    if exists j: nat :: LastPublisher(items, |items|, z, j)
    then forall j: nat | LastPublisher(items, |items|, z, j) :: first[j].bundle.json.Some?
    else RemoteReady(z)
  }

  lemma ReportedReady(stored: TrustZone, z: TrustZone, o: Observation)
    requires IsReported(stored, z, o) && z.bundleEndpointProfile == HttpsSpiffe
    ensures RemoteReady(stored) <==> o.bundle.json.Some?
  {
    assert stored.bundleEndpointUrl[0] == 'h';
  }

  lemma OneLast(items: seq<Item>, z: TrustZone, i: nat, j: nat)
    requires LastPublisher(items, |items|, z, i) && LastPublisher(items, |items|, z, j)
    ensures i == j
  {}

  lemma RemoteAfterWatch(c0: Config, items: seq<Item>, first: seq<Observation>, z: TrustZone, stored: TrustZone)
    requires Inv(c0) && FromStore(c0, items) && |first| == |items| && z in c0.trustZones
    requires stored in AfterWatch(c0, items, first).trustZones && stored.id == z.id
    ensures RemoteReady(stored) <==> ReadyAfter(items, first, z)
  {
    var c1 := AfterWatch(c0, items, first);
    WatchKeeps(c0, items, first);
    assert ZoneId(stored) == z.id;
    FindUnique(c1.trustZones, ZoneId, stored);
    if j: nat :| LastPublisher(items, |items|, z, j) {
      LastReportStands(c0, items, first, z, j);
      ReportedReady(stored, z, first[j]);
      forall i: nat | LastPublisher(items, |items|, z, i) ensures i == j { OneLast(items, z, i, j); }
    } else {
      Unpublished(items, z);
      UnreportedStays(c0, items, first, z);
    }
  }

  lemma Unpublished(items: seq<Item>, z: TrustZone)
    requires !exists j: nat :: LastPublisher(items, |items|, z, j)
    ensures forall k | 0 <= k < |items| :: !PublishesFor(items[k], z)
  {
    forall k | 0 <= k < |items| ensures !PublishesFor(items[k], z) {
      if PublishesFor(items[k], z) { SomeLastPublisher(items, |items|, z, k); }
    }
  }

  lemma SameZoneIds(c: Config, d: Config, zoneId: string)
    requires OnlyEndpoints(c, d)
    ensures HasZone(d.trustZones, zoneId) <==> HasZone(c.trustZones, zoneId)
  {
    SameIds(c, d);
    if z :| z in c.trustZones && z.id == zoneId {
      var i :| 0 <= i < |c.trustZones| && c.trustZones[i] == z;
      assert ZoneId(d.trustZones[i]) == ZoneId(z) && d.trustZones[i] in d.trustZones;
    }
    if z :| z in d.trustZones && z.id == zoneId {
      var i :| 0 <= i < |d.trustZones| && d.trustZones[i] == z;
      assert ZoneId(c.trustZones[i]) == ZoneId(z) && c.trustZones[i] in c.trustZones;
    }
  }

  lemma BindingAfterWatch(c: Config, d: Config, b: Binding, render: Renderer)
    requires OnlyEndpoints(c, d)
    ensures BindingReady(d, b, render) <==> BindingReady(c, b, render)
  {
    forall zoneId ensures HasZone(d.trustZones, zoneId) <==> HasZone(c.trustZones, zoneId) {
      SameZoneIds(c, d, zoneId);
    }
    forall z | z in c.trustZones
      ensures exists x | x in d.trustZones :: x.id == z.id && x.trustDomain == z.trustDomain
    {
      var i :| 0 <= i < |c.trustZones| && c.trustZones[i] == z;
      SameCoreFields(d.trustZones[i], z);
      assert d.trustZones[i] in d.trustZones;
    }
    forall x | x in d.trustZones
      ensures exists z | z in c.trustZones :: x.id == z.id && x.trustDomain == z.trustDomain
    {
      var i :| 0 <= i < |d.trustZones| && d.trustZones[i] == x;
      SameCoreFields(x, c.trustZones[i]);
      assert c.trustZones[i] in c.trustZones;
    }
  }

  lemma FederationAfterWatch(c0: Config, items: seq<Item>, first: seq<Observation>, f: Federation)
    requires Inv(c0) && FromStore(c0, items) && |first| == |items|
    ensures FederationReady(AfterWatch(c0, items, first), f) <==>
            forall z | z in c0.trustZones && z.id == f.remoteTrustZoneId :: ReadyAfter(items, first, z)
  {
    var c1 := AfterWatch(c0, items, first);
    WatchKeeps(c0, items, first);
    SameZoneIds(c0, c1, f.remoteTrustZoneId);
    forall z, x | z in c0.trustZones && z.id == f.remoteTrustZoneId && x in c1.trustZones && x.id == z.id
      ensures RemoteReady(x) <==> ReadyAfter(items, first, z)
    {
      RemoteAfterWatch(c0, items, first, z, x);
    }
  }

  /** After a round of watching, values can be generated for a cluster exactly if it and the bindings of its trust zone
      were ready before, and so is every trust zone that it federates with now. */
  lemma ValuesAfterWatchIff(c0: Config, render: Renderer, ids: seq<string>, items: seq<Item>, first: seq<Observation>,
                            item: Item)
    requires Inv(c0) && ListItems(c0, ids) == Some(items) && |first| == |items| && item in items
    ensures ValuesFor(AfterWatch(c0, items, first), item, render).Some? <==>
            && ClusterReady(item.zone, item.cluster)
            && (forall b | b in c0.bindings && b.trustZoneId == item.zone.id :: BindingReady(c0, b, render))
            && (forall f, z | f in c0.federations && f.trustZoneId == item.zone.id
                              && z in c0.trustZones && z.id == f.remoteTrustZoneId :: ReadyAfter(items, first, z))
  {
    SelectedFromStore(c0, ids);
    ItemsCover(c0, SelectedZones(c0, ids).value);
    var c1 := AfterWatch(c0, items, first);
    WatchKeeps(c0, items, first);
    SameZoneIds(c0, c1, item.zone.id);
    GeneratedIff(c1, item.zone, item.cluster, true, render);
    forall b | b in c0.bindings ensures BindingReady(c1, b, render) <==> BindingReady(c0, b, render) {
      BindingAfterWatch(c0, c1, b, render);
    }
    forall f | f in c0.federations
      ensures FederationReady(c1, f) <==>
              forall z | z in c0.trustZones && z.id == f.remoteTrustZoneId :: ReadyAfter(items, first, z)
    {
      FederationAfterWatch(c0, items, first, f);
    }
  }

  // ---------- the cluster's own values ----------

  function ConnectionPaths(name: string): set<seq<string>> {
    {RemotePath(name, ["bundleEndpointURL"]), RemotePath(name, ["bundleEndpointProfile", "type"]),
     RemotePath(name, ["bundleEndpointProfile", "endpointSPIFFEID"]), RemotePath(name, ["trustDomain"]),
     RemotePath(name, ["trustDomainBundle"]), FEDERATION_ENABLED}
  }

  lemma UnsetLeaf(generated: Tree, extra: Option<Tree>, p: seq<string>)
    requires p != [] && !Sets(OrEmpty(extra), p)
    ensures LeafAt(Overlay(generated, None, extra), p) == LeafAt(generated, p)
  {
    OverlayLeaf(generated, None, extra, p);
    assert p[..|p|] == p;
    assert !Sets(map[], p);
  }

  /** Unless the cluster's own values set one of these paths, the upgrade itself was given the same. */
  lemma OverridesPermitting(t: Tree, extra: Option<Tree>, z: TrustZone, o: Observation)
    requires Connects(t, z, o)
    requires forall p | p in ConnectionPaths(z.name) :: !Sets(OrEmpty(extra), p)
    ensures Connects(Overlay(t, None, extra), z, o)
  {
    forall p | p in ConnectionPaths(z.name) ensures LeafAt(Overlay(t, None, extra), p) == LeafAt(t, p) {
      UnsetLeaf(t, extra, p);
    }
  }

  /** With such values, the SPIRE chart of every cluster ends up connected to every such trust zone. */
  lemma ChartsConnected(c0: Config, c: Config, render: Renderer, ids: seq<string>, items: seq<Item>,
                        repoPath: Option<string>, w0: World, w: World, f: Findings, i: nat, fed: Federation,
                        z: TrustZone, k: Cluster)
    requires Inv(c0) && ListItems(c0, ids) == Some(items)
    requires DeployOutcome(c0, c, render, items, repoPath, false, w0, w, None, f)
    requires LastOn(items, i) && fed in c0.federations && fed.trustZoneId == items[i].zone.id
    requires z in SelectedZones(c0, ids).value && z.id == fed.remoteTrustZoneId && z.bundleEndpointProfile.HttpsSpiffe?
    requires k in c0.clusters && k.trustZoneId == z.id && !k.externalServer
    requires forall p | p in ConnectionPaths(z.name) :: !Sets(OrEmpty(items[i].cluster.extraHelmValues), p)
    ensures var chart := Release(items[i].cluster.kubernetesContext, Spire);
            chart in w.releases && exists o :: LastReport(items, f.first, z, o) && Connects(w.releases[chart], z, o)
  {
    FederationBootstrap(c0, c, render, ids, items, repoPath, w0, w, f, i, fed, z, k);
    var c1, item := AfterWatch(c0, items, f.first), items[i];
    var o :| LastReport(items, f.first, z, o) && MadeFrom(c1, render, item, f.upgraded[i], z, o);
    OverridesPermitting(Generated(c1, item.zone, item.cluster, true, render).value, item.cluster.extraHelmValues, z, o);
  }
}
