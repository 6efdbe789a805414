/** Overriding a cluster's Helm values: store, validate by generating values, and roll back if that fails. */
module HelmOverride {
  import opened Wrappers
  import opened HelmValue
  import opened Configuration
  import opened Records
  import opened Store
  import opened StoreInvariant
  import opened StoreEffects
  import opened HelmGenerator
  import opened LocalDataSource
  import opened SpireHelm
  import Runs = StoreRuns

  /** The provision plugin as it was loaded; whether an external one accepts the values is its own affair. */
  datatype Plugin = NotLoaded | BuiltIn | External(accepts: bool)

  /** `usable` says whether the values can be represented as a protobuf struct. */
  datatype Request = Request(plugin: Plugin, zoneName: string, clusterName: string, values: Tree, usable: bool)

  datatype Outcome =
    | Overridden
    | Unresolved               // no plugin, no such trust zone, no unique cluster, or unusable values
    | StoreFailed(error: Error)
    | RolledBack
    | RollbackFailed(error: Error)

  // ---------- which cluster ----------

  /** The named cluster, or the only one, of a trust zone. */
  function Resolved(c: Config, zoneName: string, clusterName: string): Option<Cluster> {
    var z := Find(c.trustZones, ZoneName, zoneName);
    if z.None? then None
    else if clusterName != "" then Find(c.clusters, ClusterKey, (clusterName, z.value.id))
    else
      var ks := ClustersListed(c, z.value.id);
      if |ks| == 1 then Some(ks[0]) else None
  }

  /** The cluster is in the named trust zone, and has the given name or is the only one there. */
  lemma ResolvedIff(c: Config, zoneName: string, clusterName: string, k: Cluster)
    requires Inv(c)
    ensures Resolved(c, zoneName, clusterName) == Some(k) <==>
            exists z | z in c.trustZones ::
              && z.name == zoneName && k in c.clusters && k.trustZoneId == z.id
              && if clusterName != "" then k.name == clusterName
                 else forall x | x in c.clusters && x.trustZoneId == z.id :: x == k
  {
    if z :| z in c.trustZones && z.name == zoneName {
      assert ZoneName(z) == zoneName && ZoneId(z) != "";
      FindUnique(c.trustZones, ZoneName, z);
      forall y | y in c.trustZones && y.name == zoneName ensures y == z { SameKey(c.trustZones, ZoneName, y, z); }
      if clusterName != "" {
        FindIff(c.clusters, ClusterKey, (clusterName, z.id), k);
      } else {
        OnlyClusterIff(c, z.id, k);
      }
    }
  }

  lemma OnlyClusterIff(c: Config, zoneId: string, k: Cluster)
    requires Inv(c)
    ensures ClustersOf(c, zoneId) == [k] <==>
            && k in c.clusters && k.trustZoneId == zoneId
            && forall x | x in c.clusters && x.trustZoneId == zoneId :: x == k
  {
    var ks := ClustersOf(c, zoneId);
    assert forall x :: Is(ZoneOf, zoneId)(x) <==> ZoneOf(x) == zoneId;
    FilterDistinct(c.clusters, Is(ZoneOf, zoneId), ClusterId);
    if ks == [k] {
      assert ks[0] in ks;
    } else if k in ks && |ks| > 1 {
      assert ClusterId(ks[0]) != ClusterId(ks[1]) && ks[0] in ks && ks[1] in ks;
    }
  }

  method ResolveCluster(ds: DataSource, zoneId: string, clusterName: string) returns (r: Option<Message<Cluster>>)
    requires ds.Valid()
    ensures var ks := ClustersListed(ds.Model(), zoneId);
            (if r.Some? then Some(r.value.value) else None) ==
            if clusterName != "" then Find(ds.Model().clusters, ClusterKey, (clusterName, zoneId))
            else if |ks| == 1 then Some(ks[0]) else None
    ensures r.Some? ==> fresh(r.value)
  {
    if clusterName != "" {
      var named := ds.GetClusterByName(clusterName, zoneId);
      return if named.Ok? then Some(named.value) else None;
    }
    var clusters := ds.ListClusters(zoneId);
    ValuesAt(clusters);
    if |clusters| != 1 {
      return None;
    }
    assert clusters[0] in clusters;
    return Some(clusters[0]);
  }

  // ---------- validation ----------

  /** The Helm values of a stored cluster. */
  function ValuesOf(c: Config, clusterId: string, render: Renderer): Option<Tree> {
    var k := Find(c.clusters, ClusterId, clusterId);
    if k.None? then None
    else
      var z := Find(c.trustZones, ZoneId, k.value.trustZoneId);
      if z.None? then None else Generate(c, z.value, k.value, None, render)
  }

  lemma StoredValues(c: Config, k: Cluster, z: TrustZone, render: Renderer)
    requires Inv(c) && k in c.clusters && z in c.trustZones && z.id == k.trustZoneId
    ensures ValuesOf(c, k.id, render) == Generate(c, z, k, None, render)
  {
    FindUnique(c.clusters, ClusterId, k);
    assert ZoneId(z) == k.trustZoneId;
    FindUnique(c.trustZones, ZoneId, z);
  }

  method GetHelmValues(ds: DataSource, clusterId: string, render: Renderer) returns (r: Option<Tree>)
    requires ds.Valid()
    ensures r == ValuesOf(ds.Model(), clusterId, render)
  {
    var cluster, zone := FindClusterAndZone(ds, clusterId);
    if cluster.None? || zone.None? {
      return None;
    }
    r := GenerateTree(ds, zone.value, cluster.value, render);
  }

  method FindClusterAndZone(ds: DataSource, clusterId: string)
    returns (cluster: Option<Cluster>, zone: Option<TrustZone>)
    requires ds.Valid()
    ensures cluster == Find(ds.Model().clusters, ClusterId, clusterId)
    ensures cluster.Some? ==> zone == Find(ds.Model().trustZones, ZoneId, cluster.value.trustZoneId)
  {
    zone := None;
    var k := ds.GetCluster(clusterId);
    if k.Err? {
      return None, zone;
    }
    cluster := Some(k.value.value);
    var z := ds.GetTrustZone(k.value.value.trustZoneId);
    if z.Ok? {
      zone := Some(z.value.value);
    }
  }

  // ---------- the transaction ----------

  /** The configuration with the cluster's record replaced. */
  function Replaced(c: Config, k: Cluster): Config {
    c.(clusters := seq(|c.clusters|, i requires 0 <= i < |c.clusters| =>
                         if c.clusters[i].id == k.id then k else c.clusters[i]))
  }

  /** The cluster that a request is about, if it gets as far as the store. */
  function Target(c: Config, q: Request): Option<Cluster> {
    if q.plugin.NotLoaded? || !q.usable then None else Resolved(c, q.zoneName, q.clusterName)
  }

  /** The plugin finds the stored values of the cluster acceptable. */
  predicate Accepts(c: Config, plugin: Plugin, clusterId: string, render: Renderer) {
    match plugin
    case NotLoaded => false
    case BuiltIn => ValuesOf(c, clusterId, render).Some?
    case External(accepts) => accepts
  }

  /** What an override amounts to, in the order in which it can end. */
  ghost predicate OverrideOutcome(s0: Runs.State, s: Runs.State, q: Request, outcome: Outcome, reliable: bool,
                                  render: Renderer) {
    var k := Target(s0.mem, q);
    if k.None? then outcome == Unresolved && s == s0
    else
      var k2 := k.value.(extraHelmValues := Some(q.values));
      var error, c := UpdateCluster(s0.mem, k2).error, Replaced(s0.mem, k2);
      if error.Some? then outcome == StoreFailed(error.value) && s == s0
      else
        var accepted := Accepts(c, q.plugin, k2.id, render);
        match outcome
        case Unresolved => false
        case StoreFailed(e) => e == WriteFailed && !reliable && s == Runs.State(c, s0.disk)
        case Overridden => accepted && s == Runs.State(c, c)
        case RolledBack => !accepted && s == Runs.State(s0.mem, s0.mem)
        case RollbackFailed(e) => !accepted && e == WriteFailed && !reliable && s == Runs.State(s0.mem, c)
  }

  lemma UpdateReplaces(c: Config, k: Cluster, k2: Cluster) returns (i: nat)
    requires Inv(c) && k in c.clusters && k2.id == k.id && UpdateCluster(c, k2).error.None?
    ensures UpdateCluster(c, k2).config == Replaced(c, k2)
    ensures i < |c.clusters| && c.clusters[i] == k && UpdateCluster(c, k2).config == c.(clusters := c.clusters[i := k2])
  {
    i := FirstIndex(c.clusters, Is(ClusterId, k2.id));
    var j :| 0 <= j < |c.clusters| && c.clusters[j] == k;
    assert ClusterId(c.clusters[i]) == ClusterId(c.clusters[j]);
    forall n | 0 <= n < |c.clusters| ensures c.clusters[n].id == k2.id <==> n == i {
      assert ClusterId(c.clusters[n]) == c.clusters[n].id;
    }
    assert Replaced(c, k2).clusters == c.clusters[i := k2];
  }

  /** Writing the old record back restores the configuration exactly. */
  lemma RollbackRestores(c: Config, k: Cluster, k2: Cluster)
    requires Inv(c) && k in c.clusters && k2 == k.(extraHelmValues := k2.extraHelmValues)
    requires UpdateCluster(c, k2).error.None?
    ensures UpdateCluster(UpdateCluster(c, k2).config, k) == Done(c)
  {
    var i := UpdateReplaces(c, k, k2);
    var d := UpdateCluster(c, k2).config;
    ApplyKeepsInv(c, OpUpdateCluster(k2));
    assert d.clusters[i] in d.clusters;
    var j := UpdateReplaces(d, k2, k);
    assert ClusterId(d.clusters[i]) == ClusterId(d.clusters[j]);
    assert d.clusters[i := k] == c.clusters;
  }

  method PutValues(ds: DataSource, cluster: Message<Cluster>, values: Tree) returns (err: Option<Error>)
    requires ds.Valid() && cluster !in ds.clusters.Owned
    modifies cluster, ds.clusters, ds.loader
    ensures ds.Valid() && fresh(ds.clusters.Owned - old(ds.clusters.Owned))
    ensures cluster.value == old(cluster.value).(extraHelmValues := Some(values))
    ensures Performed(old(ds.State()), UpdateCluster(old(ds.Model()), cluster.value), err, ds.State(),
                      ds.loader.reliable)
  {
    cluster.value := cluster.value.(extraHelmValues := Some(values));
    var r := ds.UpdateCluster(cluster);
    err := ErrorOf(r);
  }

  method Validate(ds: DataSource, plugin: Plugin, clusterId: string, render: Renderer) returns (ok: bool)
    requires ds.Valid() && !plugin.NotLoaded?
    ensures ok <==> Accepts(ds.Model(), plugin, clusterId, render)
  {
    if plugin.External? {
      return plugin.accepts;
    }
    var values := GetHelmValues(ds, clusterId, render);
    return values.Some?;
  }

  method RollBack(ds: DataSource, backup: Message<Cluster>) returns (outcome: Outcome)
    requires ds.Valid() && backup !in ds.clusters.Owned
    modifies ds.clusters, ds.loader
    ensures ds.Valid() && (outcome.RolledBack? || outcome.RollbackFailed?)
    ensures Performed(old(ds.State()), UpdateCluster(old(ds.Model()), backup.value), FailureOf(outcome), ds.State(),
                      ds.loader.reliable)
  {
    var r := ds.UpdateCluster(backup);
    outcome := if r.Err? then RollbackFailed(r.error) else RolledBack;
  }

  /** If the values are not acceptable, writes the old record back. */
  method ValidateOrRollBack(ds: DataSource, backup: Message<Cluster>, q: Request, ghost s0: Runs.State,
                            render: Renderer)
    returns (outcome: Outcome)
    requires ds.Valid() && backup !in ds.clusters.Owned
    requires Target(s0.mem, q) == Some(backup.value) && backup.value in s0.mem.clusters
    requires Performed(s0, UpdateCluster(s0.mem, backup.value.(extraHelmValues := Some(q.values))), None, ds.State(),
                       ds.loader.reliable)
    modifies ds.clusters, ds.loader
    ensures ds.Valid()
    ensures Inv(s0.mem) ==> OverrideOutcome(s0, ds.State(), q, outcome, ds.loader.reliable, render)
  {
    ghost var k, s1 := backup.value, ds.State();
    var ok := Validate(ds, q.plugin, backup.value.id, render);
    if ok {
      outcome := Overridden;
    } else {
      outcome := RollBack(ds, backup);
    }
    if Inv(s0.mem) {
      OverrideDone(s0, s1, ds.State(), q, k, outcome, ds.loader.reliable, render);
    }
  }

  function FailureOf(outcome: Outcome): Option<Error> {
    if outcome.RollbackFailed? || outcome.StoreFailed? then Some(outcome.error) else None
  }

  lemma OverrideDone(s0: Runs.State, s1: Runs.State, s: Runs.State, q: Request, k: Cluster, outcome: Outcome,
                     reliable: bool, render: Renderer)
    requires Inv(s0.mem) && Target(s0.mem, q) == Some(k) && k in s0.mem.clusters
    requires Performed(s0, UpdateCluster(s0.mem, k.(extraHelmValues := Some(q.values))), None, s1, reliable)
    requires outcome.Overridden? <==> Accepts(s1.mem, q.plugin, k.id, render)
    requires outcome.Overridden? ==> s == s1
    requires !outcome.Overridden? ==> outcome.RolledBack? || outcome.RollbackFailed?
    requires !outcome.Overridden? ==> Performed(s1, UpdateCluster(s1.mem, k), FailureOf(outcome), s, reliable)
    ensures OverrideOutcome(s0, s, q, outcome, reliable, render)
  {
    var k2 := k.(extraHelmValues := Some(q.values));
    var i := UpdateReplaces(s0.mem, k, k2);
    RollbackRestores(s0.mem, k, k2);
  }

  lemma ResolvedInStore(c: Config, zoneName: string, clusterName: string)
    requires Resolved(c, zoneName, clusterName).Some?
    ensures Resolved(c, zoneName, clusterName).value in c.clusters
  {
    if clusterName == "" {
      var ks := ClustersListed(c, Find(c.trustZones, ZoneName, zoneName).value.id);
      assert ks[0] in ks;
    }
  }

  method FindCluster(ds: DataSource, zoneName: string, clusterName: string) returns (r: Option<Message<Cluster>>)
    requires ds.Valid()
    ensures Resolved(ds.Model(), zoneName, clusterName) == if r.Some? then Some(r.value.value) else None
    ensures r.Some? ==> fresh(r.value)
  {
    var zone := ds.GetTrustZoneByName(zoneName);
    if zone.Err? {
      return None;
    }
    r := ResolveCluster(ds, zone.value.value.id, clusterName);
  }

  method OverrideValues(ds: DataSource, q: Request, render: Renderer) returns (outcome: Outcome)
    requires ds.Valid()
    modifies ds.clusters, ds.loader
    ensures ds.Valid()
    ensures Inv(old(ds.Model())) ==>
              OverrideOutcome(old(ds.State()), ds.State(), q, outcome, ds.loader.reliable, render)
  {
    if q.plugin.NotLoaded? {
      return Unresolved;
    }
    var cluster := FindCluster(ds, q.zoneName, q.clusterName);
    if cluster.None? || !q.usable {
      return Unresolved;
    }
    var backup := Clone(cluster.value);
    outcome := OverrideFound(ds, cluster.value, backup, q, render);
  }

  method OverrideFound(ds: DataSource, cluster: Message<Cluster>, backup: Message<Cluster>, q: Request,
                       render: Renderer)
    returns (outcome: Outcome)
    requires ds.Valid() && cluster !in ds.clusters.Owned && backup !in ds.clusters.Owned && cluster != backup
    requires backup.value == cluster.value && Target(ds.Model(), q) == Some(cluster.value)
    modifies cluster, ds.clusters, ds.loader
    ensures ds.Valid()
    ensures Inv(old(ds.Model())) ==>
              OverrideOutcome(old(ds.State()), ds.State(), q, outcome, ds.loader.reliable, render)
  {
    ghost var s0, k := ds.State(), cluster.value;
    ResolvedInStore(ds.Model(), q.zoneName, q.clusterName);
    var err := PutValues(ds, cluster, q.values);
    if err.Some? {
      if Inv(s0.mem) {
        UpdateFails(s0, ds.State(), q, k, err, ds.loader.reliable, render);
      }
      return StoreFailed(err.value);
    }
    outcome := ValidateOrRollBack(ds, backup, q, s0, render);
  }

  lemma UpdateFails(s0: Runs.State, s: Runs.State, q: Request, k: Cluster, err: Option<Error>, reliable: bool,
                    render: Renderer)
    requires Inv(s0.mem) && Target(s0.mem, q) == Some(k) && k in s0.mem.clusters && err.Some?
    requires Performed(s0, UpdateCluster(s0.mem, k.(extraHelmValues := Some(q.values))), err, s, reliable)
    ensures OverrideOutcome(s0, s, q, StoreFailed(err.value), reliable, render)
  {
    var k2 := k.(extraHelmValues := Some(q.values));
    if UpdateCluster(s0.mem, k2).error.None? {
      var i := UpdateReplaces(s0.mem, k, k2);
    } else {
      FailureAtomic(s0.mem, OpUpdateCluster(k2));
    }
  }

  /** With a loader whose writes succeed, an override that does not go through leaves no trace. */
  lemma OverrideIsAtomic(s0: Runs.State, s: Runs.State, q: Request, outcome: Outcome, render: Renderer)
    requires OverrideOutcome(s0, s, q, outcome, true, render) && s0.disk == s0.mem
    ensures !outcome.Overridden? ==> s == s0
    ensures outcome.Overridden? ==> s.mem == s.disk && s.mem == s0.mem.(clusters := s.mem.clusters)
  {}

  /** An override that goes through sets the values of that cluster, and nothing else, in memory and on disk. */
  lemma OnlyValuesSet(s0: Runs.State, s: Runs.State, q: Request, outcome: Outcome, reliable: bool, render: Renderer)
    requires Inv(s0.mem) && OverrideOutcome(s0, s, q, outcome, reliable, render) && outcome.Overridden?
    ensures !q.plugin.NotLoaded? && q.usable
    ensures s.disk == s.mem && s.mem == s0.mem.(clusters := s.mem.clusters) && |s.mem.clusters| == |s0.mem.clusters|
    ensures exists k | k in s0.mem.clusters ::
              && Resolved(s0.mem, q.zoneName, q.clusterName) == Some(k)
              && forall i | 0 <= i < |s0.mem.clusters| ::
                   s.mem.clusters[i] == if s0.mem.clusters[i] == k then k.(extraHelmValues := Some(q.values))
                                        else s0.mem.clusters[i]
  {
    var k := Target(s0.mem, q).value;
    ResolvedInStore(s0.mem, q.zoneName, q.clusterName);
    OnlyCluster(s0.mem, k);
  }

  /** With the built-in plugin it goes through exactly when the values can be represented, the cluster is found, and
      values could be generated for the cluster before the override. */
  lemma OverriddenIff(s0: Runs.State, s: Runs.State, q: Request, outcome: Outcome, render: Renderer)
    requires Inv(s0.mem) && OverrideOutcome(s0, s, q, outcome, true, render) && q.plugin.BuiltIn?
    ensures outcome.Overridden? <==>
            var k := Resolved(s0.mem, q.zoneName, q.clusterName);
            q.usable && k.Some? && ValuesOf(s0.mem, k.value.id, render).Some?
  {
    var k := Target(s0.mem, q);
    if k.Some? {
      var k2 := k.value.(extraHelmValues := Some(q.values));
      ResolvedInStore(s0.mem, q.zoneName, q.clusterName);
      FindUnique(s0.mem.clusters, ClusterId, k.value);
      ClusterUpdated(s0.mem, k2);
      OnlyCluster(s0.mem, k.value);
      if k.value.trustProvider.Some? {
        var i := UpdateReplaces(s0.mem, k.value, k2);
        ValidationIgnoresOverrides(s0.mem, k.value, Some(q.values), render);
      }
    }
  }

  lemma OnlyCluster(c: Config, k: Cluster)
    requires Inv(c) && k in c.clusters
    ensures forall x | x in c.clusters && x.id == k.id :: x == k
  {
    forall x | x in c.clusters && x.id == k.id ensures x == k { SameKey(c.clusters, ClusterId, x, k); }
  }

  // ---------- what validation can find ----------

  /** Whether values can be generated does not depend on the overrides: the built-in plugin never refuses them. */
  lemma ValidationIgnoresOverrides(c: Config, k: Cluster, values: Option<Tree>, render: Renderer)
    requires Inv(c) && k in c.clusters && UpdateCluster(c, k.(extraHelmValues := values)).error.None?
    ensures ValuesOf(UpdateCluster(c, k.(extraHelmValues := values)).config, k.id, render).Some? <==>
            ValuesOf(c, k.id, render).Some?
  {
    var k2 := k.(extraHelmValues := values);
    var d := UpdateCluster(c, k2).config;
    var i := UpdateReplaces(c, k, k2);
    ApplyKeepsInv(c, OpUpdateCluster(k2));
    assert d.clusters[i] in d.clusters;
    FindUnique(c.clusters, ClusterId, k);
    FindUnique(d.clusters, ClusterId, k2);
    var z := Find(c.trustZones, ZoneId, k.trustZoneId);
    if z.Some? {
      GenerationIgnoresOverrides(c, d, z.value, k, k2, render);
    }
  }

  lemma GenerationIgnoresOverrides(c: Config, d: Config, z: TrustZone, k: Cluster, k2: Cluster, render: Renderer)
    requires d == c.(clusters := d.clusters) && k2 == k.(extraHelmValues := k2.extraHelmValues)
    ensures Generated(d, z, k2, true, render) == Generated(c, z, k, true, render)
  {
    ServerIgnoresClusters(c, d, z, k.externalServer, render);
  }

  lemma ServerIgnoresClusters(c: Config, d: Config, z: TrustZone, external: bool, render: Renderer)
    requires d == c.(clusters := d.clusters)
    ensures Server(d, z, external, true, render) == Server(c, z, external, true, render)
  {
    var bs := Filter(c.bindings, Matches("", z.id));
    PoliciesIgnoreClusters(c, d, bs, render);
    assert ZonePolicies(d, z.id, render) == ZonePolicies(c, z.id, render);
    DomainsIgnoreClusters(c, d, FederationsListed(c, if z.id == "" then None else Some(z.id)));
    assert ZoneDomains(d, z.id) == ZoneDomains(c, z.id);
    assert HelmGenerator.StoreValues(d, z.id, render) == HelmGenerator.StoreValues(c, z.id, render);
  }

  lemma {:induction false} PoliciesIgnoreClusters(c: Config, d: Config, bindings: seq<Binding>, render: Renderer)
    requires d == c.(clusters := d.clusters)
    ensures Policies(d, bindings, render) == Policies(c, bindings, render)
  {
    if bindings != [] {
      var n := |bindings| - 1;
      PoliciesIgnoreClusters(c, d, bindings[..n], render);
      FederatesIgnoresClusters(c, d, bindings[n].federations);
    }
  }

  lemma {:induction false} FederatesIgnoresClusters(c: Config, d: Config, zoneIds: seq<string>)
    requires d == c.(clusters := d.clusters)
    ensures FederatesWith(d, zoneIds) == FederatesWith(c, zoneIds)
  {
    if zoneIds != [] { FederatesIgnoresClusters(c, d, zoneIds[..|zoneIds| - 1]); }
  }

  lemma {:induction false} DomainsIgnoreClusters(c: Config, d: Config, federations: seq<Federation>)
    requires d == c.(clusters := d.clusters)
    ensures TrustDomains(d, federations) == TrustDomains(c, federations)
  {
    if federations != [] { DomainsIgnoreClusters(c, d, federations[..|federations| - 1]); }
  }
}
