/** Which clusters a deployment covers, and in which order. */
module TrustZoneClusters {
  import opened Wrappers
  import opened Configuration
  import opened Records
  import opened Store
  import opened LocalDataSource

  /** A trust zone and one of its clusters. */
  datatype Item = Item(zone: TrustZone, cluster: Cluster)

  /** The same with a trust zone that can be written to; the clusters of a trust zone share it. */
  datatype TrustZoneCluster = TrustZoneCluster(zone: Message<TrustZone>, cluster: Cluster)

  // ---------- selection ----------

  function ZoneItems(zone: TrustZone, clusters: seq<Cluster>): (items: seq<Item>)
    ensures |items| == |clusters| && forall i | 0 <= i < |items| :: items[i] == Item(zone, clusters[i])
  {
    seq(|clusters|, i requires 0 <= i < |clusters| => Item(zone, clusters[i]))
  }

  function ItemsOf(c: Config, zones: seq<TrustZone>): seq<Item> {
    if zones == [] then []
    else
      var z := zones[|zones| - 1];
      ItemsOf(c, zones[..|zones| - 1]) + ZoneItems(z, ClustersListed(c, z.id))
  }

  /** The trust zones with the given IDs, or all of them. */
  function SelectedZones(c: Config, ids: seq<string>): Option<seq<TrustZone>> {
    if ids == [] then Some(c.trustZones) else ZonesById(c, ids)
  }

  function ZonesById(c: Config, ids: seq<string>): Option<seq<TrustZone>> {
    if ids == [] then Some([])
    else
      var front := ZonesById(c, ids[..|ids| - 1]);
      var z := Find(c.trustZones, ZoneId, ids[|ids| - 1]);
      if front.None? || z.None? then None else Some(front.value + [z.value])
  }

  /** Without IDs all trust zones are selected, and otherwise those with the IDs, in that order, if all of them are
      known. */
  lemma SelectedInOrder(c: Config, ids: seq<string>)
    ensures ids == [] ==> SelectedZones(c, ids) == Some(c.trustZones)
    ensures SelectedZones(c, ids).Some? <==> forall id | id in ids :: HasZone(c.trustZones, id)
    ensures ids != [] && SelectedZones(c, ids).Some? ==>
              var zones := SelectedZones(c, ids).value;
              |zones| == |ids| && forall i | 0 <= i < |ids| :: zones[i] in c.trustZones && zones[i].id == ids[i]
  {
    FoundById(c, ids);
  }

  lemma {:induction false} FoundById(c: Config, ids: seq<string>)
    ensures ZonesById(c, ids).Some? <==> forall id | id in ids :: HasZone(c.trustZones, id)
    ensures ZonesById(c, ids).Some? ==>
              var zones := ZonesById(c, ids).value;
              |zones| == |ids| && forall i | 0 <= i < |ids| :: zones[i] in c.trustZones && zones[i].id == ids[i]
  {
    if ids != [] {
      var n := |ids| - 1;
      SplitLast(ids);
      FoundById(c, ids[..n]);
      assert forall z :: ZoneId(z) == z.id;
      assert Find(c.trustZones, ZoneId, ids[n]).Some? <==> HasZone(c.trustZones, ids[n]);
      assert (forall id | id in ids :: HasZone(c.trustZones, id)) <==>
             HasZone(c.trustZones, ids[n]) && forall id | id in ids[..n] :: HasZone(c.trustZones, id);
    }
  }

  /** What a deployment covers, in order, unless a trust zone is unknown or there are none. */
  function ListItems(c: Config, ids: seq<string>): Option<seq<Item>> {
    var zones := SelectedZones(c, ids);
    if zones.None? || zones.value == [] then None else Some(ItemsOf(c, zones.value))
  }

  /** The clusters come trust zone by trust zone, and within one in the order in which they are stored. */
  lemma ItemsInOrder(c: Config, zones: seq<TrustZone>, more: seq<TrustZone>, z: TrustZone)
    ensures ItemsOf(c, zones + more) == ItemsOf(c, zones) + ItemsOf(c, more)
    ensures z.id != "" ==>
              var ks := Filter(c.clusters, (k: Cluster) => k.trustZoneId == z.id);
              |ItemsOf(c, [z])| == |ks| && forall i | 0 <= i < |ks| :: ItemsOf(c, [z])[i] == Item(z, ks[i])
  {
    ItemsConcat(c, zones, more);
    if z.id != "" {
      assert forall k :: ZoneOf(k) == k.trustZoneId;
      FilterSame(c.clusters, Is(ZoneOf, z.id), (k: Cluster) => k.trustZoneId == z.id);
      assert ItemsOf(c, [z]) == ZoneItems(z, ClustersOf(c, z.id));
    }
  }

  lemma {:induction false} ItemsConcat(c: Config, a: seq<TrustZone>, b: seq<TrustZone>)
    ensures ItemsOf(c, a + b) == ItemsOf(c, a) + ItemsOf(c, b)
    decreases |b|
  {
    if b == [] {
      assert a + b == a;
    } else {
      var n, m, s := |b| - 1, |a| + |b| - 1, a + b;
      ItemsConcat(c, a, b[..n]);
      ItemsStep(c, s, m);
      ItemsStep(c, b, n);
      assert s[..m] == a + b[..n] && s[m] == b[n] && s[..m + 1] == s && b[..n + 1] == b;
      Regroup(ItemsOf(c, a), ItemsOf(c, b[..n]), ZoneItems(b[n], ClustersListed(c, b[n].id)));
    }
  }

  lemma Regroup<T>(a: seq<T>, b: seq<T>, c: seq<T>)
    ensures a + b + c == a + (b + c)
  {}

  /** All of a trust zone but what a deployment finds out about it. */
  function Core(z: TrustZone): TrustZone {
    z.(bundleEndpointUrl := "", bundle := None)
  }

  function Zones(tzcs: seq<TrustZoneCluster>): set<Message<TrustZone>> {
    set t | t in tzcs :: t.zone
  }

  /** The messages still describe the items, except for what has been found out. */
  ghost predicate Describe(tzcs: seq<TrustZoneCluster>, items: seq<Item>)
    reads Zones(tzcs)
  {
    && |tzcs| == |items|
    && forall i | 0 <= i < |tzcs| ::
         tzcs[i] in tzcs && tzcs[i].cluster == items[i].cluster && Core(tzcs[i].zone.value) == Core(items[i].zone)
  }

  lemma DescribeAppend(tzcs: seq<TrustZoneCluster>, more: seq<TrustZoneCluster>, items: seq<Item>, others: seq<Item>)
    requires Describe(tzcs, items) && Describe(more, others)
    ensures Describe(tzcs + more, items + others)
  {
    forall i | 0 <= i < |tzcs + more|
      ensures Core((tzcs + more)[i].zone.value) == Core((items + others)[i].zone)
              && (tzcs + more)[i].cluster == (items + others)[i].cluster
    {
      if i >= |tzcs| { assert more[i - |tzcs|] in more; }
    }
  }

  method FindZones(ds: DataSource, ids: seq<string>) returns (r: Option<seq<Message<TrustZone>>>)
    requires ds.Valid()
    ensures (r.Some? <==> ZonesById(ds.Model(), ids).Some?)
    ensures r.Some? ==> (forall m | m in r.value :: fresh(m)) && Values(r.value) == ZonesById(ds.Model(), ids).value
  {
    ghost var c := ds.Model();
    var zones: seq<Message<TrustZone>> := [];
    for i := 0 to |ids|
      invariant ds.Valid() && ds.Model() == c
      invariant forall m | m in zones :: fresh(m)
      invariant ZonesById(c, ids[..i]) == Some(Values(zones))
    {
      ZonesStep(c, ids, i);
      var z := ds.GetTrustZone(ids[i]);
      if z.Err? {
        ZonesPrefix(c, ids, i + 1);
        return None;
      }
      ValuesAppend(zones, z.value);
      zones := zones + [z.value];
    }
    assert ids[..|ids|] == ids;
    return Some(zones);
  }

  lemma ZonesStep(c: Config, ids: seq<string>, i: nat)
    requires i < |ids|
    ensures var front, z := ZonesById(c, ids[..i]), Find(c.trustZones, ZoneId, ids[i]);
            ZonesById(c, ids[..i + 1]) == if front.None? || z.None? then None else Some(front.value + [z.value])
  {
    assert ids[..i + 1][..i] == ids[..i];
  }

  lemma {:induction false} ZonesPrefix(c: Config, ids: seq<string>, i: nat)
    requires i <= |ids| && ZonesById(c, ids[..i]).None?
    ensures ZonesById(c, ids).None?
    decreases |ids|
  {
    if i == |ids| {
      assert ids[..i] == ids;
    } else {
      assert ids[..|ids| - 1][..i] == ids[..i];
      ZonesPrefix(c, ids[..|ids| - 1], i);
    }
  }

  method SelectZones(ds: DataSource, ids: seq<string>) returns (r: Option<seq<Message<TrustZone>>>)
    requires ds.Valid()
    ensures (r.Some? <==> SelectedZones(ds.Model(), ids).Some?)
    ensures r.Some? ==> (forall m | m in r.value :: fresh(m)) && Values(r.value) == SelectedZones(ds.Model(), ids).value
  {
    if ids == [] {
      var all := ds.ListTrustZones();
      return Some(all);
    }
    r := FindZones(ds, ids);
  }

  method ListTrustZoneClusters(ds: DataSource, ids: seq<string>) returns (r: Option<seq<TrustZoneCluster>>)
    requires ds.Valid()
    ensures r.Some? <==> ListItems(ds.Model(), ids).Some?
    ensures r.Some? ==>
              Describe(r.value, ListItems(ds.Model(), ids).value) && forall m | m in Zones(r.value) :: fresh(m)
  {
    var zones := SelectZones(ds, ids);
    if zones.None? || zones.value == [] {
      return None;
    }
    var tzcs := PairClusters(ds, zones.value);
    return Some(tzcs);
  }

  method PairClusters(ds: DataSource, zones: seq<Message<TrustZone>>) returns (tzcs: seq<TrustZoneCluster>)
    requires ds.Valid()
    ensures Describe(tzcs, ItemsOf(ds.Model(), Values(zones))) && forall t | t in tzcs :: t.zone in zones
  {
    ghost var c, values := ds.Model(), Values(zones);
    ValuesAt(zones);
    tzcs := [];
    for i := 0 to |zones|
      invariant ds.Valid() && ds.Model() == c
      invariant forall t | t in tzcs :: t.zone in zones
      invariant Describe(tzcs, ItemsOf(c, values[..i]))
    {
      ItemsStep(c, values, i);
      var more := PairOne(ds, zones[i]);
      DescribeAppend(tzcs, more, ItemsOf(c, values[..i]), ZoneItems(values[i], ClustersListed(c, values[i].id)));
      tzcs := tzcs + more;
    }
    assert values[..|zones|] == values;
  }

  lemma ItemsStep(c: Config, zones: seq<TrustZone>, i: nat)
    requires i < |zones|
    ensures ItemsOf(c, zones[..i + 1]) == ItemsOf(c, zones[..i]) + ZoneItems(zones[i], ClustersListed(c, zones[i].id))
  {
    assert zones[..i + 1][..i] == zones[..i];
  }

  /** A trust zone without clusters contributes nothing. */
  method PairOne(ds: DataSource, zone: Message<TrustZone>) returns (tzcs: seq<TrustZoneCluster>)
    requires ds.Valid()
    ensures Describe(tzcs, ZoneItems(zone.value, ClustersListed(ds.Model(), zone.value.id)))
    ensures forall t | t in tzcs :: t.zone == zone
  {
    var clusters := ds.ListClusters(zone.value.id);
    tzcs := Pair(zone, clusters);
  }

  method Pair(zone: Message<TrustZone>, clusters: seq<Message<Cluster>>) returns (tzcs: seq<TrustZoneCluster>)
    ensures Describe(tzcs, ZoneItems(zone.value, Values(clusters))) && forall t | t in tzcs :: t.zone == zone
  {
    ValuesAt(clusters);
    tzcs := [];
    for i := 0 to |clusters|
      invariant |tzcs| == i && forall j | 0 <= j < i :: tzcs[j] == TrustZoneCluster(zone, clusters[j].value)
    {
      tzcs := tzcs + [TrustZoneCluster(zone, clusters[i].value)];
    }
  }
}
