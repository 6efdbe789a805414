/** Every operation keeps the invariant, and an operation that fails changes nothing. */
module StoreInvariant {
  import opened Wrappers
  import opened Configuration
  import opened Store

  // ---------- tables ----------

  lemma DistinctAppend<T, K(!new)>(rows: seq<T>, f: T -> K, x: T)
    requires Distinct(rows, f) && forall y | y in rows :: f(y) != f(x)
    ensures Distinct(rows + [x], f)
  {
    var all := rows + [x];
    forall i, j | 0 <= i < j < |all| ensures f(all[i]) != f(all[j]) {
      assert all[i] in rows;
      if j < |rows| { assert f(rows[i]) != f(rows[j]); }
    }
  }

  lemma DistinctWithout<T, K(!new)>(rows: seq<T>, f: T -> K, i: nat)
    requires Distinct(rows, f) && i < |rows|
    ensures Distinct(Without(rows, i), f)
    ensures forall x | x in Without(rows, i) :: x in rows && f(x) != f(rows[i])
    ensures forall x | x in rows && f(x) != f(rows[i]) :: x in Without(rows, i)
  {
    var w := Without(rows, i);
    forall j | 0 <= j < |w| ensures w[j] == rows[if j < i then j else j + 1] {}
    forall x | x in rows && f(x) != f(rows[i]) ensures x in w {
      var j :| 0 <= j < |rows| && rows[j] == x;
      assert w[if j < i then j else j - 1] == x;
    }
  }

  lemma DistinctReplace<T, K(!new)>(rows: seq<T>, f: T -> K, i: nat, x: T)
    requires Distinct(rows, f) && i < |rows| && f(x) == f(rows[i])
    ensures Distinct(rows[i := x], f)
  {
    var r := rows[i := x];
    forall j, k | 0 <= j < k < |r| ensures f(r[j]) != f(r[k]) {
      assert f(rows[j]) != f(rows[k]);
    }
  }

  lemma IdentifiedAppend<T>(rows: seq<T>, id: T -> string, x: T)
    requires Identified(rows, id) && id(x) != "" && forall y | y in rows :: id(y) != id(x)
    ensures Identified(rows + [x], id)
  {
    DistinctAppend(rows, id, x);
  }

  lemma IdentifiedWithout<T>(rows: seq<T>, id: T -> string, i: nat)
    requires Identified(rows, id) && i < |rows|
    ensures Identified(Without(rows, i), id)
  {
    DistinctWithout(rows, id, i);
  }

  lemma IdentifiedReplace<T>(rows: seq<T>, id: T -> string, i: nat, x: T)
    requires Identified(rows, id) && i < |rows| && id(x) == id(rows[i])
    ensures Identified(rows[i := x], id)
  {
    DistinctReplace(rows, id, i, x);
    assert rows[i] in rows;
  }

  lemma IdentifiedFilter<T>(rows: seq<T>, p: T -> bool, id: T -> string)
    requires Identified(rows, id)
    ensures Identified(Filter(rows, p), id)
  {
    FilterDistinct(rows, p, id);
  }

  lemma {:induction false} WithoutIsFilter<T, K(!new)>(rows: seq<T>, f: T -> K, i: nat)
    requires Distinct(rows, f) && i < |rows|
    ensures Without(rows, i) == Filter(rows, IsNot(f, f(rows[i])))
  {
    var key := f(rows[i]);
    assert forall j | 0 < j < |rows| :: f(rows[0]) != f(rows[j]);
    if i == 0 {
      forall x | x in rows[1..] ensures IsNot(f, key)(x) {
        var j :| 0 <= j < |rows[1..]| && rows[1..][j] == x;
        assert f(rows[j + 1]) != key;
      }
      FilterAll(rows[1..], IsNot(f, key));
      assert !IsNot(f, key)(rows[0]);
      assert Without(rows, 0) == rows[1..];
    } else {
      assert Distinct(rows[1..], f);
      WithoutIsFilter(rows[1..], f, i - 1);
      assert rows[1..][i - 1] == rows[i] && IsNot(f, key)(rows[0]);
      assert Without(rows, i) == [rows[0]] + Without(rows[1..], i - 1);
    }
  }

  /** Deleting the first row with a unique key is filtering that key out. */
  lemma RemoveByKey<T, K(!new)>(rows: seq<T>, f: T -> K, x: T)
    requires Distinct(rows, f) && x in rows
    ensures var i := FirstIndex(rows, Is(f, f(x))); i < |rows| && Without(rows, i) == Filter(rows, IsNot(f, f(x)))
  {
    var j :| 0 <= j < |rows| && rows[j] == x;
    assert Is(f, f(x))(rows[j]);
    var i := FirstIndex(rows, Is(f, f(x)));
    WithoutIsFilter(rows, f, i);
  }

  // ---------- failures ----------

  /** What `DestroyTrustZone` drops before it looks the trust zone up. */
  predicate Mentioned(c: Config, zoneId: string) {
    || (exists b | b in c.bindings :: b.trustZoneId == zoneId)
    || (exists f | f in c.federations :: f.trustZoneId == zoneId || f.remoteTrustZoneId == zoneId)
  }

  /** The only call that fails and yet changes something: destroying a trust zone that does not exist and has
      no clusters, but is mentioned by a binding or a federation. */
  lemma FailureAtomicIff(c: Config, op: Op)
    requires Apply(c, op).error.Some?
    ensures Apply(c, op).config == c <==>
            !(op.OpDestroyTrustZone? && ClustersOf(c, op.id) == [] && Mentioned(c, op.id))
  {
    if op.OpDestroyTrustZone? && ClustersOf(c, op.id) == [] {
      var bs, fs := Filter(c.bindings, IsNot(BindingZone, op.id)), Filter(c.federations, TouchesNot(op.id));
      assert Apply(c, op).config == c <==> bs == c.bindings && fs == c.federations;
      if Mentioned(c, op.id) {
        if b :| b in c.bindings && b.trustZoneId == op.id {
          assert BindingZone(b) == op.id;
          assert b !in bs;
        } else {
          var f :| f in c.federations && (f.trustZoneId == op.id || f.remoteTrustZoneId == op.id);
          assert f !in fs;
        }
      } else {
        forall b | b in c.bindings ensures IsNot(BindingZone, op.id)(b) {
          assert BindingZone(b) != op.id;
        }
        FilterAll(c.bindings, IsNot(BindingZone, op.id));
        FilterAll(c.federations, TouchesNot(op.id));
      }
    }
  }

  /** From a configuration with referential integrity, every failing call leaves it as it was. */
  lemma FailureAtomic(c: Config, op: Op)
    requires Inv(c) && Apply(c, op).error.Some?
    ensures Apply(c, op).config == c
  {
    FailureAtomicIff(c, op);
    if op.OpDestroyTrustZone? && Mentioned(c, op.id) {
      MentionedExists(c, op.id);
    }
  }

  lemma MentionedExists(c: Config, zoneId: string)
    requires Inv(c) && Mentioned(c, zoneId)
    ensures FirstIndex(c.trustZones, Is(ZoneId, zoneId)) < |c.trustZones|
  {
    var z :| z in c.trustZones && z.id == zoneId;
    var i :| 0 <= i < |c.trustZones| && c.trustZones[i] == z;
    assert Is(ZoneId, zoneId)(c.trustZones[i]);
  }

  // ---------- the invariant ----------

  /** The generated ID is not in use. */
  ghost predicate NewIdOk(c: Config, newId: Option<string>) {
    newId.Some? ==>
      && newId.value != ""
      && (forall x | x in c.trustZones :: x.id != newId.value)
      && (forall x | x in c.clusters :: x.id != newId.value)
      && (forall x | x in c.policies :: x.id != newId.value)
      && (forall x | x in c.bindings :: x.id != newId.value)
      && (forall x | x in c.federations :: x.id != newId.value)
  }

  ghost predicate FreshId(c: Config, op: Op) {
    match op
    case OpAddTrustZone(_, newId) => NewIdOk(c, newId)
    case OpAddCluster(_, newId) => NewIdOk(c, newId)
    case OpAddPolicy(_, newId) => NewIdOk(c, newId)
    case OpAddBinding(_, newId) => NewIdOk(c, newId)
    case OpAddFederation(_, newId) => NewIdOk(c, newId)
    case _ => true
  }

  /** Every operation keeps the invariant, whether it succeeds or fails. */
  lemma ApplyKeepsInv(c: Config, op: Op)
    requires Inv(c) && FreshId(c, op)
    ensures Inv(Apply(c, op).config)
  {
    if Apply(c, op).error.Some? {
      FailureAtomic(c, op);
    } else {
      match op
      case OpAddTrustZone(_, _) => ZonesKeepInv(c, op);
      case OpUpdateTrustZone(_) => ZonesKeepInv(c, op);
      case OpDestroyTrustZone(id) => DestroyTrustZoneKeepsInv(c, id);
      case OpAddCluster(_, _) => ClustersKeepInv(c, op);
      case OpDestroyCluster(_) => ClustersKeepInv(c, op);
      case OpUpdateCluster(_) => ClustersKeepInv(c, op);
      case OpAddPolicy(_, _) => PoliciesKeepInv(c, op);
      case OpDestroyPolicy(_) => PoliciesKeepInv(c, op);
      case OpAddBinding(_, _) => BindingsKeepInv(c, op);
      case OpDestroyBinding(_) => BindingsKeepInv(c, op);
      case OpUpdateBinding(b) => UpdateBindingKeepsInv(c, b);
      case OpAddFederation(_, _) => FederationsKeepInv(c, op);
      case OpDestroyFederation(_) => FederationsKeepInv(c, op);
    }
  }

  lemma ZonesKeepInv(c: Config, op: Op)
    requires Inv(c) && FreshId(c, op) && Apply(c, op).error.None?
    requires op.OpAddTrustZone? || op.OpUpdateTrustZone?
    ensures Inv(Apply(c, op).config)
  {
    var d := Apply(c, op).config;
    if op.OpAddTrustZone? {
      var z := op.zone.(id := op.newId.value);
      IdentifiedAppend(c.trustZones, ZoneId, z);
      DistinctAppend(c.trustZones, ZoneName, z);
      assert forall x | x in c.trustZones :: x in d.trustZones;
    } else {
      var i := FirstIndex(c.trustZones, Is(ZoneId, op.zone.id));
      IdentifiedReplace(c.trustZones, ZoneId, i, op.zone);
      DistinctReplace(c.trustZones, ZoneName, i, op.zone);
      assert d.trustZones[i] == op.zone;
      forall x | x in c.trustZones ensures HasZone(d.trustZones, x.id) {
        var j :| 0 <= j < |c.trustZones| && c.trustZones[j] == x;
        assert d.trustZones[j].id == x.id;
      }
    }
  }

  lemma DestroyTrustZoneKeepsInv(c: Config, id: string)
    requires Inv(c) && DestroyTrustZone(c, id).error.None?
    ensures Inv(DestroyTrustZone(c, id).config)
  {
    var d := DestroyTrustZone(c, id).config;
    var i := FirstIndex(c.trustZones, Is(ZoneId, id));
    IdentifiedWithout(c.trustZones, ZoneId, i);
    DistinctWithout(c.trustZones, ZoneName, i);
    DistinctWithout(c.trustZones, ZoneId, i);
    IdentifiedFilter(c.bindings, IsNot(BindingZone, id), BindingId);
    FilterDistinct(c.bindings, IsNot(BindingZone, id), BindingKey);
    IdentifiedFilter(c.federations, TouchesNot(id), FederationId);
    FilterDistinct(c.federations, TouchesNot(id), FederationKey);
    forall zoneId | zoneId != id && HasZone(c.trustZones, zoneId) ensures HasZone(d.trustZones, zoneId)
    {
      var z :| z in c.trustZones && z.id == zoneId;
      assert ZoneId(z) != ZoneId(c.trustZones[i]);
      assert z in d.trustZones;
    }
  }

  lemma ClustersKeepInv(c: Config, op: Op)
    requires Inv(c) && FreshId(c, op) && Apply(c, op).error.None?
    requires op.OpAddCluster? || op.OpDestroyCluster? || op.OpUpdateCluster?
    ensures Inv(Apply(c, op).config)
  {
    match op
    case OpAddCluster(k, newId) =>
      IdentifiedAppend(c.clusters, ClusterId, k.(id := newId.value));
      DistinctAppend(c.clusters, ClusterKey, k.(id := newId.value));
    case OpDestroyCluster(id) =>
      var i := FirstIndex(c.clusters, Is(ClusterId, id));
      IdentifiedWithout(c.clusters, ClusterId, i);
      DistinctWithout(c.clusters, ClusterKey, i);
    case OpUpdateCluster(k) =>
      var i := FirstIndex(c.clusters, Is(ClusterId, k.id));
      IdentifiedReplace(c.clusters, ClusterId, i, k);
      DistinctReplace(c.clusters, ClusterKey, i, k);
  }

  lemma PoliciesKeepInv(c: Config, op: Op)
    requires Inv(c) && FreshId(c, op) && Apply(c, op).error.None?
    requires op.OpAddPolicy? || op.OpDestroyPolicy?
    ensures Inv(Apply(c, op).config)
  {
    var d := Apply(c, op).config;
    match op
    case OpAddPolicy(p, newId) =>
      IdentifiedAppend(c.policies, PolicyId, p.(id := newId.value));
      DistinctAppend(c.policies, PolicyName, p.(id := newId.value));
      assert forall x | x in c.policies :: x in d.policies;
    case OpDestroyPolicy(id) =>
      var i := FirstIndex(c.policies, Is(PolicyId, id));
      IdentifiedWithout(c.policies, PolicyId, i);
      DistinctWithout(c.policies, PolicyName, i);
      DistinctWithout(c.policies, PolicyId, i);
      forall b | b in c.bindings ensures HasPolicy(d.policies, b.policyId) {
        assert BindingPolicy(b) != id;
        var p :| p in c.policies && p.id == b.policyId;
        assert PolicyId(p) != PolicyId(c.policies[i]);
        assert p in d.policies;
      }
  }

  lemma BindingsKeepInv(c: Config, op: Op)
    requires Inv(c) && FreshId(c, op) && Apply(c, op).error.None?
    requires op.OpAddBinding? || op.OpDestroyBinding?
    ensures Inv(Apply(c, op).config)
  {
    var d := Apply(c, op).config;
    match op
    case OpAddBinding(b, newId) =>
      IdentifiedAppend(c.bindings, BindingId, b.(id := newId.value));
      DistinctAppend(c.bindings, BindingKey, b.(id := newId.value));
    case OpDestroyBinding(id) =>
      var i := FirstIndex(c.bindings, Is(BindingId, id));
      IdentifiedWithout(c.bindings, BindingId, i);
      DistinctWithout(c.bindings, BindingKey, i);
  }

  lemma UpdateBindingKeepsInv(c: Config, b: Binding)
    requires Inv(c) && UpdateBinding(c, b).error.None?
    ensures Inv(UpdateBinding(c, b).config)
  {
    var d := UpdateBinding(c, b).config;
    var i := FirstIndex(c.bindings, Is(BindingId, b.id));
    assert c.bindings[i] in c.bindings;
    IdentifiedReplace(c.bindings, BindingId, i, b);
    DistinctReplace(c.bindings, BindingKey, i, b);
  }

  lemma FederationsKeepInv(c: Config, op: Op)
    requires Inv(c) && FreshId(c, op) && Apply(c, op).error.None?
    requires op.OpAddFederation? || op.OpDestroyFederation?
    ensures Inv(Apply(c, op).config)
  {
    if op.OpAddFederation? {
      FederationsAppendOk(c.federations, c.trustZones, op.federation.(id := op.newId.value));
    } else {
      FederationsWithoutOk(c.federations, c.trustZones, FirstIndex(c.federations, Is(FederationId, op.id)));
    }
  }

  lemma FederationsAppendOk(fs: seq<Federation>, zones: seq<TrustZone>, f: Federation)
    requires FederationsOk(fs, zones) && FederationOk(f, zones) && f.id != ""
    requires forall x | x in fs :: x.id != f.id && FederationKey(x) != FederationKey(f)
    ensures FederationsOk(fs + [f], zones)
  {
    IdentifiedAppend(fs, FederationId, f);
    DistinctAppend(fs, FederationKey, f);
  }

  lemma FederationsWithoutOk(fs: seq<Federation>, zones: seq<TrustZone>, i: nat)
    requires FederationsOk(fs, zones) && i < |fs|
    ensures FederationsOk(Without(fs, i), zones)
  {
    IdentifiedWithout(fs, FederationId, i);
    DistinctWithout(fs, FederationKey, i);
  }

  // ---------- what the invariant leaves out ----------

  /** Every cluster's trust zone exists. */
  ghost predicate Housed(c: Config) {
    forall k | k in c.clusters :: HasZone(c.trustZones, k.trustZoneId)
  }

  /** Exactly one kind of call breaks this: adding a cluster to a trust zone that does not exist. */
  lemma HousedIff(c: Config, op: Op)
    requires Housed(c)
    ensures Housed(Apply(c, op).config) <==>
            (op.OpAddCluster? && Apply(c, op).error.None? ==> HasZone(c.trustZones, op.cluster.trustZoneId))
  {
    var d := Apply(c, op).config;
    match op
    case OpAddTrustZone(_, _) =>
      assert d.trustZones != c.trustZones ==> forall z | z in c.trustZones :: z in d.trustZones;
    case OpDestroyTrustZone(id) => StaysHoused(c, id);
    case OpUpdateTrustZone(z) => SameZones(c, z);
    case OpAddCluster(k, newId) =>
      if Apply(c, op).error.None? {
        assert k.(id := newId.value) in d.clusters;
      }
    case OpUpdateCluster(k) =>
      var i := FirstIndex(c.clusters, Is(ClusterId, k.id));
      assert d.clusters != c.clusters ==> c.clusters[i] in c.clusters && d.clusters == c.clusters[i := k];
    case _ =>
  }

  lemma StaysHoused(c: Config, id: string)
    requires Housed(c)
    ensures Housed(DestroyTrustZone(c, id).config)
  {
    var d := DestroyTrustZone(c, id).config;
    var i := FirstIndex(c.trustZones, Is(ZoneId, id));
    if DestroyTrustZone(c, id).error.None? {
      forall k | k in c.clusters ensures HasZone(d.trustZones, k.trustZoneId) {
        assert ClustersOf(c, id) == [] && (Is(ZoneOf, id)(k) ==> k in ClustersOf(c, id));
        assert ZoneOf(k) != id;
        var z :| z in c.trustZones && z.id == k.trustZoneId;
        assert Is(ZoneId, id)(c.trustZones[i]) && ZoneId(c.trustZones[i]) == id;
        WithoutKeeps(c.trustZones, i, z);
      }
    }
  }

  lemma WithoutKeeps<T>(rows: seq<T>, i: nat, x: T)
    requires i < |rows| && x in rows && x != rows[i]
    ensures x in Without(rows, i)
  {
    var j :| 0 <= j < |rows| && rows[j] == x;
    assert Without(rows, i)[if j < i then j else j - 1] == x;
  }

  lemma SameZones(c: Config, z: TrustZone)
    ensures forall id :: HasZone(c.trustZones, id) ==> HasZone(UpdateTrustZone(c, z).config.trustZones, id)
  {
    var d := UpdateTrustZone(c, z).config;
    forall id | HasZone(c.trustZones, id) ensures HasZone(d.trustZones, id) {
      var x :| x in c.trustZones && x.id == id;
      var j :| 0 <= j < |c.trustZones| && c.trustZones[j] == x;
      assert d.trustZones[j].id == id;
    }
  }

  /** The update stores the record that is already there. */
  predicate StoresTheSame(c: Config, op: Op) {
    match op
    case OpUpdateTrustZone(z) => Find(c.trustZones, ZoneId, z.id) == Some(z)
    case OpUpdateCluster(k) => Find(c.clusters, ClusterId, k.id) == Some(k)
    case OpUpdateBinding(b) => Find(c.bindings, BindingId, b.id) == Some(b)
    case _ => false
  }

  /** Which calls leave the configuration in memory as it was. */
  lemma UnchangedIff(c: Config, op: Op)
    requires Inv(c)
    ensures Apply(c, op).config == c <==> Apply(c, op).error.Some? || StoresTheSame(c, op)
  {
    if Apply(c, op).error.Some? {
      FailureAtomic(c, op);
    } else if op.OpUpdateTrustZone? || op.OpUpdateCluster? || op.OpUpdateBinding? {
      UpdateUnchangedIff(c, op);
    } else {
      AddOrDestroyChanges(c, op);
    }
  }

  lemma UpdateUnchangedIff(c: Config, op: Op)
    requires Apply(c, op).error.None? && (op.OpUpdateTrustZone? || op.OpUpdateCluster? || op.OpUpdateBinding?)
    ensures Apply(c, op).config == c <==> StoresTheSame(c, op)
  {
    var d := Apply(c, op).config;
    match op
    case OpUpdateTrustZone(z) => assert d.trustZones[FirstIndex(c.trustZones, Is(ZoneId, z.id))] == z;
    case OpUpdateCluster(k) => assert d.clusters[FirstIndex(c.clusters, Is(ClusterId, k.id))] == k;
    case OpUpdateBinding(b) => assert d.bindings[FirstIndex(c.bindings, Is(BindingId, b.id))] == b;
  }

  lemma AddOrDestroyChanges(c: Config, op: Op)
    requires Apply(c, op).error.None? && !op.OpUpdateTrustZone? && !op.OpUpdateCluster? && !op.OpUpdateBinding?
    ensures Apply(c, op).config != c
  {
    var d := Apply(c, op).config;
    if op.OpAddTrustZone? || op.OpDestroyTrustZone? {
      assert |d.trustZones| != |c.trustZones|;
    } else if op.OpAddCluster? || op.OpDestroyCluster? {
      assert |d.clusters| != |c.clusters|;
    } else if op.OpAddPolicy? || op.OpDestroyPolicy? {
      assert |d.policies| != |c.policies|;
    } else if op.OpAddBinding? || op.OpDestroyBinding? {
      assert |d.bindings| != |c.bindings|;
    } else {
      assert |d.federations| != |c.federations|;
    }
  }
}
