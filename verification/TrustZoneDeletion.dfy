/** Deleting a trust zone: first its clusters one by one, then the trust zone with what refers to it. */
module TrustZoneDeletion {
  import opened Wrappers
  import opened Configuration
  import opened Records
  import opened Store
  import opened StoreInvariant
  import opened LocalDataSource
  import Runs = StoreRuns

  /** What is found out about a cluster before its trust zone is deleted: the SPIRE chart is installed there, or is not,
      or finding out fails, for instance because the cluster cannot be reached. */
  datatype Found = Up | Down | Unclear

  datatype Outcome =
    | Deleted
    | Unknown
    | Refused(found: Found)
    | ClusterFailed(error: Error)
    | ZoneFailed(error: Error)

  /** The state after the first clusters were destroyed and written out. */
  function After(s: Runs.State, clusters: seq<Cluster>): Runs.State {
    var c := Destroyed(s.mem, clusters);
    Runs.State(c, if clusters == [] then s.disk else c)
  }

  /** The configuration without a trust zone, its clusters, its bindings and every federation on either side of it. */
  function Cascade(c: Config, zoneId: string): Config {
    c.(trustZones := Filter(c.trustZones, IsNot(ZoneId, zoneId)),
       clusters := Filter(c.clusters, IsNot(ZoneOf, zoneId)),
       bindings := Filter(c.bindings, IsNot(BindingZone, zoneId)),
       federations := Filter(c.federations, TouchesNot(zoneId)))
  }

  /** The configuration without these clusters. */
  function Destroyed(c: Config, clusters: seq<Cluster>): Config {
    if clusters == [] then c
    else DestroyCluster(Destroyed(c, clusters[..|clusters| - 1]), clusters[|clusters| - 1].id).config
  }

  // ---------- what the steps amount to ----------

  /** The clusters that are not among these, by ID. */
  function NotAmong(clusters: seq<Cluster>): Cluster -> bool {
    (k: Cluster) => forall i | 0 <= i < |clusters| :: clusters[i].id != k.id
  }

  /** Destroying stored clusters one by one removes exactly them. */
  lemma {:induction false} DestroyedExactly(c: Config, clusters: seq<Cluster>)
    requires ClustersOk(c.clusters) && Distinct(clusters, ClusterId) && forall k | k in clusters :: k in c.clusters
    ensures Destroyed(c, clusters) == c.(clusters := Filter(c.clusters, NotAmong(clusters)))
    ensures clusters != [] ==>
              DestroyCluster(Destroyed(c, clusters[..|clusters| - 1]), clusters[|clusters| - 1].id).error.None?
  {
    if clusters == [] {
      FilterAll(c.clusters, NotAmong(clusters));
    } else {
      var n := |clusters| - 1;
      SplitLast(clusters);
      DestroyedExactly(c, clusters[..n]);
      DestroyOne(c, clusters);
    }
  }

  lemma DestroyOne(c: Config, clusters: seq<Cluster>)
    requires ClustersOk(c.clusters) && clusters != [] && Distinct(clusters, ClusterId)
             && clusters[|clusters| - 1] in c.clusters
    ensures var front, last := Filter(c.clusters, NotAmong(clusters[..|clusters| - 1])), clusters[|clusters| - 1];
            var i := FirstIndex(front, Is(ClusterId, last.id));
            i < |front| && Without(front, i) == Filter(c.clusters, NotAmong(clusters))
  {
    var n := |clusters| - 1;
    var front, last := Filter(c.clusters, NotAmong(clusters[..n])), clusters[n];
    NotAmongOthers(clusters);
    FilterDistinct(c.clusters, NotAmong(clusters[..n]), ClusterId);
    RemoveByKey(front, ClusterId, last);
    NotAmongSnoc(c.clusters, clusters);
    FilterTwice(c.clusters, NotAmong(clusters[..n]), IsNot(ClusterId, last.id), NotAmong(clusters));
  }

  lemma NotAmongOthers(clusters: seq<Cluster>)
    requires clusters != [] && Distinct(clusters, ClusterId)
    ensures NotAmong(clusters[..|clusters| - 1])(clusters[|clusters| - 1])
  {
    var n := |clusters| - 1;
    forall i | 0 <= i < n ensures clusters[i].id != clusters[n].id {
      assert ClusterId(clusters[i]) != ClusterId(clusters[n]);
    }
  }

  lemma NotAmongSnoc(rows: seq<Cluster>, clusters: seq<Cluster>)
    requires clusters != []
    ensures forall k | k in rows ::
              NotAmong(clusters)(k) <==>
                  NotAmong(clusters[..|clusters| - 1])(k) && IsNot(ClusterId, clusters[|clusters| - 1].id)(k)
  {
    var n := |clusters| - 1;
    forall k | k in rows
      ensures NotAmong(clusters)(k) <==> NotAmong(clusters[..n])(k) && IsNot(ClusterId, clusters[n].id)(k)
    {
      assert IsNot(ClusterId, clusters[n].id)(k) <==> ClusterId(k) != clusters[n].id;
    }
  }

  lemma ZoneClusters(c: Config, zoneId: string)
    requires ClustersOk(c.clusters)
    ensures var ks := ClustersOf(c, zoneId);
            && Distinct(ks, ClusterId) && (forall k | k in ks :: k in c.clusters)
            && Destroyed(c, ks) == c.(clusters := Filter(c.clusters, IsNot(ZoneOf, zoneId)))
  {
    var ks := ClustersOf(c, zoneId);
    FilterDistinct(c.clusters, Is(ZoneOf, zoneId), ClusterId);
    DestroyedExactly(c, ks);
    forall k | k in c.clusters ensures NotAmong(ks)(k) <==> IsNot(ZoneOf, zoneId)(k) {
      assert Is(ZoneOf, zoneId)(k) <==> ZoneOf(k) == zoneId;
      assert IsNot(ZoneOf, zoneId)(k) <==> ZoneOf(k) != zoneId;
      NotAmongByZone(c, zoneId, k);
    }
    FilterSame(c.clusters, NotAmong(ks), IsNot(ZoneOf, zoneId));
  }

  lemma NotAmongByZone(c: Config, zoneId: string, k: Cluster)
    requires ClustersOk(c.clusters) && k in c.clusters
    ensures NotAmong(ClustersOf(c, zoneId))(k) <==> k.trustZoneId != zoneId
  {
    var ks := ClustersOf(c, zoneId);
    if k.trustZoneId == zoneId {
      assert ZoneOf(k) == zoneId && Is(ZoneOf, zoneId)(k) && k in ks;
      var i :| 0 <= i < |ks| && ks[i] == k;
    } else {
      forall i | 0 <= i < |ks| ensures ks[i].id != k.id {
        assert ks[i] in ks && Is(ZoneOf, zoneId)(ks[i]) && ZoneOf(ks[i]) == zoneId;
        if ks[i].id == k.id { SameKey(c.clusters, ClusterId, k, ks[i]); }
      }
    }
  }

  /** Once its clusters are gone, destroying a trust zone succeeds and completes the cascade. */
  lemma ZoneDestroyed(c: Config, z: TrustZone)
    requires Inv(c) && z in c.trustZones
    ensures var d := c.(clusters := Filter(c.clusters, IsNot(ZoneOf, z.id)));
            DestroyTrustZone(d, z.id) == Done(Cascade(c, z.id))
  {
    var d := c.(clusters := Filter(c.clusters, IsNot(ZoneOf, z.id)));
    FilterTwice(c.clusters, IsNot(ZoneOf, z.id), Is(ZoneOf, z.id), (k: Cluster) => false);
    FilterNone(c.clusters);
    RemoveByKey(c.trustZones, ZoneId, z);
  }

  // ---------- the command ----------

  ghost predicate Hold(messages: seq<Message<Cluster>>, ks: seq<Cluster>)
    reads messages
  {
    |messages| == |ks| && forall i | 0 <= i < |ks| :: messages[i].value == ks[i]
  }

  ghost predicate Outside(messages: seq<Message<Cluster>>, owned: set<Message<Cluster>>) {
    forall i | 0 <= i < |messages| :: messages[i] !in owned
  }

  /** Tries to add the clusters again that were destroyed. */
  method Rollback(ds: DataSource, clusters: seq<Message<Cluster>>, n: nat)
    requires ds.Valid() && n <= |clusters| && Outside(clusters, ds.clusters.Owned)
    modifies ds.clusters, ds.loader
    ensures ds.Valid()
    ensures (forall i | 0 <= i < n :: clusters[i].value.id != "") ==> ds.State() == old(ds.State())
  {
    for i := 0 to n
      invariant ds.Valid() && Outside(clusters, ds.clusters.Owned)
      invariant (forall j | 0 <= j < i :: clusters[j].value.id != "") ==> ds.State() == old(ds.State())
    {
      var newId: Option<string> := *;
      var r := ds.AddCluster(clusters[i], newId);
    }
  }

  ghost predicate AllIdentified(ks: seq<Cluster>) {
    forall i | 0 <= i < |ks| :: ks[i].id != ""
  }

  /** After `n` clusters were destroyed, destroying the next one failed. */
  ghost predicate Stuck(s0: Runs.State, s: Runs.State, ks: seq<Cluster>, n: nat, err: Option<Error>, reliable: bool) {
    && n < |ks|
    && s == Runs.State(Destroyed(s0.mem, ks[..n + 1]), After(s0, ks[..n]).disk)
    && (DestroyCluster(Destroyed(s0.mem, ks[..n]), ks[n].id).error == err || (err == Some(WriteFailed) && !reliable))
  }

  lemma AfterStep(s0: Runs.State, s: Runs.State, ks: seq<Cluster>, n: nat, err: Option<Error>, reliable: bool)
    requires n < |ks|
    requires Performed(After(s0, ks[..n]), DestroyCluster(Destroyed(s0.mem, ks[..n]), ks[n].id), err, s, reliable)
    ensures err.None? ==> s == After(s0, ks[..n + 1])
    ensures err.Some? ==> Stuck(s0, s, ks, n, err, reliable)
  {
    assert ks[..n + 1][..n] == ks[..n];
  }

  /** Destroys the next cluster; if that fails, tries to undo the earlier ones. */
  method DestroyNext(ds: DataSource, clusters: seq<Message<Cluster>>, n: nat, ghost s0: Runs.State,
                     ghost ks: seq<Cluster>)
    returns (err: Option<Error>)
    requires ds.Valid() && n < |clusters| && Hold(clusters, ks) && Outside(clusters, ds.clusters.Owned)
    requires ds.State() == After(s0, ks[..n])
    modifies ds.clusters, ds.loader
    ensures ds.Valid() && (err.None? ==> Outside(clusters, ds.clusters.Owned))
    ensures err.None? ==> ds.State() == After(s0, ks[..n + 1])
    ensures err.Some? && AllIdentified(ks) ==> Stuck(s0, ds.State(), ks, n, err, ds.loader.reliable)
  {
    err := ds.DestroyCluster(clusters[n].value.id);
    AfterStep(s0, ds.State(), ks, n, err, ds.loader.reliable);
    if err.Some? {
      Rollback(ds, clusters, n);
    }
  }

  method DestroyClusters(ds: DataSource, clusters: seq<Message<Cluster>>, ghost ks: seq<Cluster>)
    returns (err: Option<Error>, ghost i: nat)
    requires ds.Valid() && Hold(clusters, ks) && Outside(clusters, ds.clusters.Owned)
    modifies ds.clusters, ds.loader
    ensures ds.Valid()
    ensures err.None? ==> ds.State() == After(old(ds.State()), ks)
    ensures err.Some? && AllIdentified(ks) ==> Stuck(old(ds.State()), ds.State(), ks, i, err, ds.loader.reliable)
  {
    ghost var s0 := ds.State();
    i := 0;
    for n := 0 to |clusters|
      invariant ds.Valid() && Hold(clusters, ks) && Outside(clusters, ds.clusters.Owned)
      invariant i == n && ds.State() == After(s0, ks[..n])
    {
      err := DestroyNext(ds, clusters, n, s0, ks);
      if err.Some? {
        return;
      }
      i := i + 1;
    }
    assert ks[..|ks|] == ks;
    err := None;
  }

  /** What deleting the trust zone named `name` amounts to. */
  ghost predicate DeleteOutcome(s0: Runs.State, s: Runs.State, name: string, force: bool, probe: Cluster -> Found,
                                outcome: Outcome, i: nat, reliable: bool) {
    var z := Find(s0.mem.trustZones, ZoneName, name);
    match outcome
    case Unknown => z.None? && s == s0
    case Refused(found) => z.Some? && !force && s == s0 && FirstNotDown(ClustersOf(s0.mem, z.value.id), probe, found)
    case _ =>
      && z.Some? && (force || AllDown(ClustersOf(s0.mem, z.value.id), probe))
      && Removed(s0, s, z.value.id, outcome, i, reliable)
  }

  ghost predicate AllDown(ks: seq<Cluster>, probe: Cluster -> Found) {
    forall i | 0 <= i < |ks| :: probe(ks[i]) == Down
  }

  /** The first of the clusters about which anything else than `Down` is found out. */
  ghost predicate FirstNotDown(ks: seq<Cluster>, probe: Cluster -> Found, found: Found) {
    found != Down && exists i | 0 <= i < |ks| :: probe(ks[i]) == found && AllDown(ks[..i], probe)
  }

  /** Everything is removed, in memory and on disk.  If a write fails, what has been removed by then stays removed. */
  ghost predicate Removed(s0: Runs.State, s: Runs.State, zoneId: string, outcome: Outcome, i: nat, reliable: bool) {
    var ks := ClustersOf(s0.mem, zoneId);
    match outcome
    case Deleted => s == Runs.State(Cascade(s0.mem, zoneId), Cascade(s0.mem, zoneId))
    case ClusterFailed(e) =>
      && e == WriteFailed && !reliable && i < |ks|
      && s.mem == s0.mem.(clusters := Filter(s0.mem.clusters, NotAmong(ks[..i + 1])))
      && s.disk == if i == 0 then s0.disk else s0.mem.(clusters := Filter(s0.mem.clusters, NotAmong(ks[..i])))
    case ZoneFailed(e) =>
      && e == WriteFailed && !reliable
      && s.mem == Cascade(s0.mem, zoneId)
      && s.disk == if ks == [] then s0.disk else s0.mem.(clusters := Filter(s0.mem.clusters, IsNot(ZoneOf, zoneId)))
    case _ => false
  }

  lemma DestroyedPrefix(c: Config, ks: seq<Cluster>, n: nat)
    requires ClustersOk(c.clusters) && Distinct(ks, ClusterId) && (forall k | k in ks :: k in c.clusters) && n < |ks|
    ensures Destroyed(c, ks[..n]) == c.(clusters := Filter(c.clusters, NotAmong(ks[..n])))
    ensures Destroyed(c, ks[..n + 1]) == c.(clusters := Filter(c.clusters, NotAmong(ks[..n + 1])))
    ensures DestroyCluster(Destroyed(c, ks[..n]), ks[n].id).error.None?
  {
    DistinctPrefix(ks, ClusterId, n);
    DistinctPrefix(ks, ClusterId, n + 1);
    DestroyedExactly(c, ks[..n]);
    DestroyedExactly(c, ks[..n + 1]);
    assert ks[..n + 1][..n] == ks[..n];
  }

  lemma DistinctPrefix<T, K(!new)>(s: seq<T>, f: T -> K, n: nat)
    requires n <= |s| && Distinct(s, f)
    ensures Distinct(s[..n], f)
  {}

  lemma StuckPartly(s0: Runs.State, s: Runs.State, zoneId: string, n: nat, err: Option<Error>, reliable: bool)
    requires Inv(s0.mem) && Stuck(s0, s, ClustersOf(s0.mem, zoneId), n, err, reliable) && err.Some?
    ensures Removed(s0, s, zoneId, ClusterFailed(err.value), n, reliable)
  {
    var ks := ClustersOf(s0.mem, zoneId);
    ZoneClusters(s0.mem, zoneId);
    DestroyedPrefix(s0.mem, ks, n);
  }

  lemma ClustersIdentified(c: Config, zoneId: string)
    requires Inv(c)
    ensures AllIdentified(ClustersOf(c, zoneId))
  {
    var ks := ClustersOf(c, zoneId);
    forall i | 0 <= i < |ks| ensures ks[i].id != "" {
      assert ks[i] in ks && ks[i] in c.clusters && ClusterId(ks[i]) != "";
    }
  }

  lemma Completed(s0: Runs.State, s: Runs.State, z: TrustZone, err: Option<Error>, reliable: bool)
    requires Inv(s0.mem) && z in s0.mem.trustZones
    requires var s1 := After(s0, ClustersOf(s0.mem, z.id));
             Performed(s1, DestroyTrustZone(s1.mem, z.id), err, s, reliable)
    ensures Removed(s0, s, z.id, if err.None? then Deleted else ZoneFailed(err.value), 0, reliable)
  {
    ZoneClusters(s0.mem, z.id);
    ZoneDestroyed(s0.mem, z);
  }

  method DeleteChecked(ds: DataSource, ghost z: TrustZone, id: string, clusters: seq<Message<Cluster>>)
    returns (outcome: Outcome, ghost i: nat)
    requires ds.Valid() && Outside(clusters, ds.clusters.Owned) && id == z.id
    requires Hold(clusters, ClustersListed(ds.Model(), id))
    modifies ds.trustZones, ds.clusters, ds.bindings, ds.federations, ds.loader
    ensures ds.Valid() && !outcome.Refused? && !outcome.Unknown?
    ensures Inv(old(ds.Model())) && z in old(ds.Model()).trustZones ==>
              Removed(old(ds.State()), ds.State(), id, outcome, i, ds.loader.reliable)
  {
    ghost var s0 := ds.State();
    ghost var ks := ClustersListed(s0.mem, id);
    var err;
    err, i := DestroyClusters(ds, clusters, ks);
    if err.Some? {
      if Inv(s0.mem) && z in s0.mem.trustZones {
        assert ZoneId(z) != "";
        ClustersIdentified(s0.mem, id);
        StuckPartly(s0, ds.State(), id, i, err, ds.loader.reliable);
      }
      return ClusterFailed(err.value), i;
    }
    err := ds.DestroyTrustZone(id);
    i := 0;
    if Inv(s0.mem) && z in s0.mem.trustZones {
      assert ZoneId(z) != "";
      Completed(s0, ds.State(), z, err, ds.loader.reliable);
    }
    outcome := if err.None? then Deleted else ZoneFailed(err.value);
  }

  /** Whether SPIRE is, or may be, deployed to one of the clusters. */
  method CheckClusters(clusters: seq<Message<Cluster>>, probe: Cluster -> Found, ghost ks: seq<Cluster>)
    returns (found: Option<Found>)
    requires Hold(clusters, ks)
    ensures if found.None? then AllDown(ks, probe) else FirstNotDown(ks, probe, found.value)
  {
    for i := 0 to |clusters|
      invariant AllDown(ks[..i], probe)
    {
      assert clusters[i].value == ks[i];
      if probe(clusters[i].value) != Down {
        return Some(probe(clusters[i].value));
      }
    }
    assert ks[..|ks|] == ks;
    return None;
  }

  method DeleteTrustZone(ds: DataSource, name: string, force: bool, probe: Cluster -> Found)
    returns (outcome: Outcome, ghost i: nat)
    requires ds.Valid()
    modifies ds.trustZones, ds.clusters, ds.bindings, ds.federations, ds.loader
    ensures ds.Valid()
    ensures Inv(old(ds.Model())) ==>
              DeleteOutcome(old(ds.State()), ds.State(), name, force, probe, outcome, i, ds.loader.reliable)
  {
    i := 0;
    ghost var c := ds.Model();
    var z, clusters := FindZone(ds, name);
    if z.None? {
      return Unknown, i;
    }
    ghost var ks := ClustersListed(c, z.value.id);
    assert Inv(c) ==> ZoneId(z.value) != "" && ks == ClustersOf(c, z.value.id);
    if !force {
      var found := CheckClusters(clusters, probe, ks);
      if found.Some? {
        return Refused(found.value), i;
      }
    }
    outcome, i := DeleteChecked(ds, z.value, z.value.id, clusters);
  }

  /** The trust zone with that name, and copies of its clusters. */
  method FindZone(ds: DataSource, name: string) returns (z: Option<TrustZone>, clusters: seq<Message<Cluster>>)
    requires ds.Valid()
    ensures z == Find(ds.Model().trustZones, ZoneName, name)
    ensures z.Some? ==> Hold(clusters, ClustersListed(ds.Model(), z.value.id)) && Outside(clusters, ds.clusters.Owned)
  {
    clusters := [];
    var tz := ds.GetTrustZoneByName(name);
    if tz.Err? {
      return None, clusters;
    }
    clusters := ds.ListClusters(tz.value.value.id);
    ValuesAt(clusters);
    assert forall i | 0 <= i < |clusters| :: clusters[i] in clusters;
    return Some(tz.value.value), clusters;
  }

  /** A deletion is refused exactly if it is not forced and some cluster of the trust zone is up, or it is not clear
      whether it is. */
  lemma RefusedIff(s0: Runs.State, s: Runs.State, name: string, force: bool, probe: Cluster -> Found, outcome: Outcome,
                   i: nat, reliable: bool, z: TrustZone)
    requires Inv(s0.mem) && DeleteOutcome(s0, s, name, force, probe, outcome, i, reliable)
    requires z in s0.mem.trustZones && z.name == name
    ensures outcome.Refused? <==>
            !force && exists k | k in s0.mem.clusters :: k.trustZoneId == z.id && probe(k) != Down
    ensures outcome.Refused? ==> s == s0
  {
    assert ZoneName(z) == name;
    FindUnique(s0.mem.trustZones, ZoneName, z);
    var ks := ClustersOf(s0.mem, z.id);
    assert forall k :: Is(ZoneOf, z.id)(k) <==> ZoneOf(k) == z.id;
    if k :| k in s0.mem.clusters && k.trustZoneId == z.id && probe(k) != Down {
      assert ZoneOf(k) == z.id && k in ks;
      var j :| 0 <= j < |ks| && ks[j] == k;
      assert !AllDown(ks, probe);
    } else {
      forall j | 0 <= j < |ks| ensures probe(ks[j]) == Down {
        assert ks[j] in ks && ZoneOf(ks[j]) == z.id;
      }
    }
  }

  /** With a loader whose writes succeed, deleting a stored trust zone succeeds exactly if it is forced or all of its
      clusters are down. */
  lemma DeletionSucceeds(s0: Runs.State, s: Runs.State, name: string, force: bool, probe: Cluster -> Found,
                         outcome: Outcome, i: nat, z: TrustZone)
    requires Inv(s0.mem) && DeleteOutcome(s0, s, name, force, probe, outcome, i, true)
    requires z in s0.mem.trustZones && z.name == name
    ensures outcome == Deleted <==>
            force || forall k | k in s0.mem.clusters && k.trustZoneId == z.id :: probe(k) == Down
    ensures outcome == Deleted ==> s == Runs.State(Cascade(s0.mem, z.id), Cascade(s0.mem, z.id))
    ensures outcome != Deleted ==> s == s0
  {
    RefusedIff(s0, s, name, force, probe, outcome, i, true, z);
    assert ZoneName(z) == name;
    FindUnique(s0.mem.trustZones, ZoneName, z);
  }

  /** When the deletion of a cluster fails, the rollback brings nothing back, because the clusters still carry the IDs
      with which they cannot be added: those destroyed so far stay away, in memory and, as far as writes succeeded, on
      disk. */
  lemma RollbackRestoresNothing(s0: Runs.State, s: Runs.State, name: string, force: bool, probe: Cluster -> Found,
                                e: Error, i: nat, reliable: bool)
    requires Inv(s0.mem) && s0.disk == s0.mem
    requires DeleteOutcome(s0, s, name, force, probe, ClusterFailed(e), i, reliable)
    ensures var z := Find(s0.mem.trustZones, ZoneName, name);
            z.Some? && i < |ClustersOf(s0.mem, z.value.id)| && !reliable
    ensures var ks := ClustersOf(s0.mem, Find(s0.mem.trustZones, ZoneName, name).value.id);
            forall k | k in s0.mem.clusters ::
              && (k in s.mem.clusters <==> k !in ks[..i + 1])
              && (k in s.disk.clusters <==> k !in ks[..i])
  {
    var zoneId := Find(s0.mem.trustZones, ZoneName, name).value.id;
    var ks := ClustersOf(s0.mem, zoneId);
    forall k | k in s0.mem.clusters
      ensures NotAmong(ks[..i + 1])(k) <==> k !in ks[..i + 1]
      ensures NotAmong(ks[..i])(k) <==> k !in ks[..i]
    {
      AmongById(s0.mem, ks[..i + 1], k);
      AmongById(s0.mem, ks[..i], k);
    }
  }

  lemma AmongById(c: Config, ks: seq<Cluster>, k: Cluster)
    requires ClustersOk(c.clusters) && k in c.clusters && forall x | x in ks :: x in c.clusters
    ensures NotAmong(ks)(k) <==> k !in ks
  {
    forall x | x in ks && x.id == k.id ensures x == k { SameKey(c.clusters, ClusterId, x, k); }
  }
}
