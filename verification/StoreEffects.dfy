/**
 What each operation does, told by the fields of the records: when it succeeds, and which records are there afterwards.

 IDs are unique in a configuration with the invariant, so that removing the first match is removing all of them.
 */
module StoreEffects {
  import opened Wrappers
  import opened Configuration
  import opened Store
  import opened StoreInvariant

  // ---------- rows by key ----------

  /** A row with the key is found exactly if there is one, and removing it keeps the rows that satisfy `p`. */
  lemma RowRemoved<T, K(!new)>(rows: seq<T>, f: T -> K, key: K, p: T -> bool)
    requires Distinct(rows, f) && forall x | x in rows :: p(x) <==> f(x) != key
    ensures var i := FirstIndex(rows, Is(f, key));
            && (i < |rows| <==> exists x | x in rows :: f(x) == key)
            && (i < |rows| ==> Without(rows, i) == Filter(rows, p))
  {
    var i := FirstIndex(rows, Is(f, key));
    if x :| x in rows && f(x) == key {
      RemoveByKey(rows, f, x);
      FilterSame(rows, IsNot(f, key), p);
    }
  }

  /** Replacing the first row with a key replaces the only one. */
  lemma RowReplaced<T, K(!new)>(rows: seq<T>, f: T -> K, key: K, x: T, after: seq<T>)
    requires Distinct(rows, f) && |after| == |rows|
    requires forall i | 0 <= i < |rows| :: after[i] == if f(rows[i]) == key then x else rows[i]
    ensures var i := FirstIndex(rows, Is(f, key));
            && (i < |rows| <==> exists y | y in rows :: f(y) == key)
            && (i < |rows| ==> f(rows[i]) == key && rows[i] in rows && rows[i := x] == after)
  {
    var i := FirstIndex(rows, Is(f, key));
    if i < |rows| {
      assert Is(f, key)(rows[i]) && rows[i] in rows;
      forall j | 0 <= j < |rows| ensures rows[i := x][j] == after[j] {
        if j < i { assert f(rows[j]) != f(rows[i]); }
        if i < j { assert f(rows[i]) != f(rows[j]); }
      }
    } else {
      forall y | y in rows ensures f(y) != key {
        var j :| 0 <= j < |rows| && rows[j] == y;
        assert !Is(f, key)(rows[j]);
      }
    }
  }

  lemma FindIff<T, K(!new)>(rows: seq<T>, f: T -> K, key: K, x: T)
    requires Distinct(rows, f)
    ensures Find(rows, f, key) == Some(x) <==> x in rows && f(x) == key
  {
    if x in rows && f(x) == key { FindUnique(rows, f, x); }
  }

  // ---------- destroying ----------

  /** A binding is destroyed exactly if it is stored, and then it alone goes. */
  lemma BindingDestroyed(c: Config, id: string)
    requires Inv(c)
    ensures Apply(c, OpDestroyBinding(id)) ==
            if exists b | b in c.bindings :: b.id == id
            then Effect(c.(bindings := Filter(c.bindings, (b: Binding) => b.id != id)), None)
            else Effect(c, Some(NotFound))
  {
    assert forall b :: BindingId(b) == b.id;
    RowRemoved(c.bindings, BindingId, id, (b: Binding) => b.id != id);
  }

  lemma FederationDestroyed(c: Config, id: string)
    requires Inv(c)
    ensures Apply(c, OpDestroyFederation(id)) ==
            if exists f | f in c.federations :: f.id == id
            then Effect(c.(federations := Filter(c.federations, (f: Federation) => f.id != id)), None)
            else Effect(c, Some(NotFound))
  {
    assert forall f :: FederationId(f) == f.id;
    RowRemoved(c.federations, FederationId, id, (f: Federation) => f.id != id);
  }

  /** A policy is destroyed exactly if it is stored and no binding is of it. */
  lemma PolicyDestroyed(c: Config, id: string)
    requires Inv(c)
    ensures Apply(c, OpDestroyPolicy(id)) ==
            if exists b | b in c.bindings :: b.policyId == id then Effect(c, Some(PolicyIsBound))
            else if exists p | p in c.policies :: p.id == id
            then Effect(c.(policies := Filter(c.policies, (p: Policy) => p.id != id)), None)
            else Effect(c, Some(NotFound))
  {
    assert forall p :: PolicyId(p) == p.id;
    assert forall b :: BindingPolicy(b) == b.policyId;
    RowRemoved(c.policies, PolicyId, id, (p: Policy) => p.id != id);
  }

  lemma ClusterDestroyed(c: Config, id: string)
    requires Inv(c)
    ensures Apply(c, OpDestroyCluster(id)) ==
            if exists k | k in c.clusters :: k.id == id
            then Effect(c.(clusters := Filter(c.clusters, (k: Cluster) => k.id != id)), None)
            else Effect(c, Some(NotFound))
  {
    assert forall k :: ClusterId(k) == k.id;
    RowRemoved(c.clusters, ClusterId, id, (k: Cluster) => k.id != id);
  }

  /** A trust zone without clusters takes its bindings and the federations on either side with it, and nothing else. */
  lemma ZoneDestroyedAlone(c: Config, id: string)
    requires Inv(c)
    ensures Apply(c, OpDestroyTrustZone(id)) ==
            if exists k | k in c.clusters :: k.trustZoneId == id then Effect(c, Some(HasClusters))
            else if exists z | z in c.trustZones :: z.id == id
            then Effect(c.(trustZones := Filter(c.trustZones, (z: TrustZone) => z.id != id),
                           bindings := Filter(c.bindings, (b: Binding) => b.trustZoneId != id),
                           federations := Filter(c.federations, (f: Federation) =>
                             f.trustZoneId != id && f.remoteTrustZoneId != id)), None)
            else Effect(c, Some(NotFound))
  {
    assert forall z :: ZoneId(z) == z.id;
    forall k ensures Is(ZoneOf, id)(k) <==> k.trustZoneId == id { assert ZoneOf(k) == k.trustZoneId; }
    assert ClustersOf(c, id) != [] ==> ClustersOf(c, id)[0] in ClustersOf(c, id);
    RowRemoved(c.trustZones, ZoneId, id, (z: TrustZone) => z.id != id);
    forall b ensures IsNot(BindingZone, id)(b) <==> b.trustZoneId != id { assert BindingZone(b) == b.trustZoneId; }
    FilterSame(c.bindings, IsNot(BindingZone, id), (b: Binding) => b.trustZoneId != id);
    FilterSame(c.federations, TouchesNot(id), (f: Federation) => f.trustZoneId != id && f.remoteTrustZoneId != id);
    if Apply(c, OpDestroyTrustZone(id)).error.Some? {
      FailureAtomic(c, OpDestroyTrustZone(id));
    }
  }

  // ---------- adding ----------

  /** A call that adds ends with the record and its new ID in the last row. */
  lemma ZoneAdded(c: Config, z: TrustZone, newId: Option<string>)
    ensures var r := Apply(c, OpAddTrustZone(z, newId));
            && (r.error.None? <==> z.id == "" && newId.Some? && forall y | y in c.trustZones :: y.name != z.name)
            && (r.error.None? ==> r.config == c.(trustZones := c.trustZones + [z.(id := newId.value)]))
  {
    assert forall y :: ZoneName(y) == y.name;
  }

  lemma ClusterAdded(c: Config, k: Cluster, newId: Option<string>)
    ensures var r := Apply(c, OpAddCluster(k, newId));
            && (r.error.None? <==> k.id == "" && newId.Some?
                                   && forall x | x in c.clusters :: x.name != k.name || x.trustZoneId != k.trustZoneId)
            && (r.error.None? ==> r.config == c.(clusters := c.clusters + [k.(id := newId.value)]))
  {
    assert forall x :: ClusterKey(x) == (x.name, x.trustZoneId);
  }

  lemma PolicyAdded(c: Config, p: Policy, newId: Option<string>)
    ensures var r := Apply(c, OpAddPolicy(p, newId));
            && (r.error.None? <==> p.id == "" && newId.Some?
                                   && forall x | x in c.policies :: x.id != newId.value && x.name != p.name)
            && (r.error.None? ==> r.config == c.(policies := c.policies + [p.(id := newId.value)]))
  {
    assert forall x :: PolicyId(x) == x.id && PolicyName(x) == x.name;
  }

  /** Whether a stored federation goes from one trust zone to the other. */
  ghost predicate HasFederation(c: Config, zoneId: string, remoteId: string) {
    exists f | f in c.federations :: f.trustZoneId == zoneId && f.remoteTrustZoneId == remoteId
  }

  lemma FederatedIff(c: Config, zoneId: string, remoteId: string)
    ensures Federated(c, zoneId, remoteId) <==> HasFederation(c, zoneId, remoteId)
  {
    assert forall f :: FederationKey(f) == (f.trustZoneId, f.remoteTrustZoneId);
  }

  /** A binding of the trust zone may list this one. */
  ghost predicate Listable(c: Config, zoneId: string, remoteId: string) {
    remoteId != zoneId && HasFederation(c, zoneId, remoteId)
  }

  /** The trust zone listed at `i` is the first one that may not be listed, and `e` tells why. */
  ghost predicate RefusedAt(c: Config, zoneId: string, remotes: seq<string>, i: nat, e: Error)
    requires i < |remotes|
  {
    && (forall j | 0 <= j < i :: Listable(c, zoneId, remotes[j]))
    && !Listable(c, zoneId, remotes[i])
    && e == if remotes[i] == zoneId then SelfFederation
            else if HasZone(c.trustZones, remotes[i]) then NotFederated else UnknownTrustZone
  }

  lemma {:induction false} FirstRefused(c: Config, zoneId: string, remotes: seq<string>)
    ensures var e := FederationsError(c, zoneId, remotes);
            && (e.None? <==> forall i | 0 <= i < |remotes| :: Listable(c, zoneId, remotes[i]))
            && (e.Some? ==> exists i | 0 <= i < |remotes| :: RefusedAt(c, zoneId, remotes, i, e.value))
  {
    if remotes != [] {
      var rest, e := remotes[1..], FederationsError(c, zoneId, remotes);
      FederatedIff(c, zoneId, remotes[0]);
      assert forall z :: ZoneId(z) == z.id;
      if !Listable(c, zoneId, remotes[0]) {
        assert RefusedAt(c, zoneId, remotes, 0, e.value);
      } else {
        FirstRefused(c, zoneId, rest);
        assert e == FederationsError(c, zoneId, rest);
        if e.Some? {
          var i :| 0 <= i < |rest| && RefusedAt(c, zoneId, rest, i, e.value);
          RefusedLater(c, zoneId, remotes, i, e.value);
        } else {
          assert forall i | 0 < i < |remotes| :: remotes[i] == rest[i - 1];
        }
      }
    }
  }

  lemma RefusedLater(c: Config, zoneId: string, remotes: seq<string>, i: nat, e: Error)
    requires i + 1 < |remotes| && Listable(c, zoneId, remotes[0]) && RefusedAt(c, zoneId, remotes[1..], i, e)
    ensures RefusedAt(c, zoneId, remotes, i + 1, e)
  {
    assert forall j | 0 < j < |remotes| :: remotes[j] == remotes[1..][j - 1];
  }

  lemma BindingAdded(c: Config, b: Binding, newId: Option<string>)
    ensures var r := Apply(c, OpAddBinding(b, newId));
            && (r.error.None? <==>
                  && b.id == "" && newId.Some?
                  && HasZone(c.trustZones, b.trustZoneId) && HasPolicy(c.policies, b.policyId)
                  && (forall x | x in c.bindings :: x.policyId != b.policyId || x.trustZoneId != b.trustZoneId)
                  && forall i | 0 <= i < |b.federations| :: Listable(c, b.trustZoneId, b.federations[i]))
            && (r.error.None? ==> r.config == c.(bindings := c.bindings + [b.(id := newId.value)]))
  {
    FirstRefused(c, b.trustZoneId, b.federations);
    assert forall z :: ZoneId(z) == z.id;
    assert forall p :: PolicyId(p) == p.id;
    assert forall x :: BindingKey(x) == (x.policyId, x.trustZoneId);
  }

  lemma FederationAdded(c: Config, f: Federation, newId: Option<string>)
    ensures var r := Apply(c, OpAddFederation(f, newId));
            && (r.error.None? <==>
                  && f.id == "" && newId.Some? && f.trustZoneId != f.remoteTrustZoneId
                  && HasZone(c.trustZones, f.trustZoneId) && HasZone(c.trustZones, f.remoteTrustZoneId)
                  && !HasFederation(c, f.trustZoneId, f.remoteTrustZoneId))
            && (r.error.None? ==> r.config == c.(federations := c.federations + [f.(id := newId.value)]))
  {
    FederatedIff(c, f.trustZoneId, f.remoteTrustZoneId);
    assert forall z :: ZoneId(z) == z.id;
  }

  // ---------- updating ----------

  /** An update that succeeds puts the new record in the place of the one with its ID; a trust zone's name and trust
      domain never change. */
  lemma ZoneUpdated(c: Config, z: TrustZone)
    requires Inv(c)
    ensures var r := Apply(c, OpUpdateTrustZone(z));
            && (r.error.None? <==>
                  exists y | y in c.trustZones :: y.id == z.id && y.name == z.name && y.trustDomain == z.trustDomain)
            && (r.error.None? ==>
                  r.config == c.(trustZones := seq(|c.trustZones|, i requires 0 <= i < |c.trustZones| =>
                                   if c.trustZones[i].id == z.id then z else c.trustZones[i])))
  {
    assert forall y :: ZoneId(y) == y.id;
    var after := seq(|c.trustZones|, i requires 0 <= i < |c.trustZones| =>
                       if c.trustZones[i].id == z.id then z else c.trustZones[i]);
    RowReplaced(c.trustZones, ZoneId, z.id, z, after);
    forall y | y in c.trustZones && y.id == z.id ensures Find(c.trustZones, ZoneId, z.id) == Some(y) {
      FindUnique(c.trustZones, ZoneId, y);
    }
  }

  /** Name, trust zone, profile and kind of trust provider of a cluster never change. */
  lemma ClusterUpdated(c: Config, k: Cluster)
    requires Inv(c)
    ensures var r := Apply(c, OpUpdateCluster(k));
            && (r.error.None? <==>
                  exists x | x in c.clusters ::
                    && x.id == k.id && x.name == k.name && x.trustZoneId == k.trustZoneId && x.profile == k.profile
                    && x.trustProvider.Some? && k.trustProvider.Some?
                    && x.trustProvider.value.kind == k.trustProvider.value.kind)
            && (r.error.None? ==>
                  r.config == c.(clusters := seq(|c.clusters|, i requires 0 <= i < |c.clusters| =>
                                   if c.clusters[i].id == k.id then k else c.clusters[i])))
  {
    assert forall x :: ClusterId(x) == x.id;
    var after := seq(|c.clusters|, i requires 0 <= i < |c.clusters| =>
                       if c.clusters[i].id == k.id then k else c.clusters[i]);
    RowReplaced(c.clusters, ClusterId, k.id, k, after);
    forall x | x in c.clusters && x.id == k.id ensures Find(c.clusters, ClusterId, k.id) == Some(x) {
      FindUnique(c.clusters, ClusterId, x);
    }
  }

  /** Trust zone and policy of a binding never change, and what it lists has to be federated with now. */
  lemma BindingUpdated(c: Config, b: Binding)
    requires Inv(c)
    ensures var r := Apply(c, OpUpdateBinding(b));
            && (r.error.None? <==>
                  && (exists x | x in c.bindings ::
                        x.id == b.id && x.trustZoneId == b.trustZoneId && x.policyId == b.policyId)
                  && forall i | 0 <= i < |b.federations| :: Listable(c, b.trustZoneId, b.federations[i]))
            && (r.error.None? ==>
                  r.config == c.(bindings := seq(|c.bindings|, i requires 0 <= i < |c.bindings| =>
                                   if c.bindings[i].id == b.id then b else c.bindings[i])))
  {
    assert forall x :: BindingId(x) == x.id;
    FirstRefused(c, b.trustZoneId, b.federations);
    var after := seq(|c.bindings|, i requires 0 <= i < |c.bindings| =>
                       if c.bindings[i].id == b.id then b else c.bindings[i]);
    RowReplaced(c.bindings, BindingId, b.id, b, after);
    forall x | x in c.bindings && x.id == b.id ensures Find(c.bindings, BindingId, b.id) == Some(x) {
      FindUnique(c.bindings, BindingId, x);
    }
  }

  // ---------- reading ----------

  /** Lookups by ID, by name and by name in a trust zone find the record of which that is true. */
  lemma LookupsExact(c: Config, z: TrustZone, k: Cluster, p: Policy)
    requires Inv(c)
    ensures forall id :: Find(c.trustZones, ZoneId, id) == Some(z) <==> z in c.trustZones && z.id == id
    ensures forall name :: Find(c.trustZones, ZoneName, name) == Some(z) <==> z in c.trustZones && z.name == name
    ensures forall id :: Find(c.clusters, ClusterId, id) == Some(k) <==> k in c.clusters && k.id == id
    ensures forall name, zoneId :: Find(c.clusters, ClusterKey, (name, zoneId)) == Some(k) <==>
              k in c.clusters && k.name == name && k.trustZoneId == zoneId
    ensures forall id :: Find(c.policies, PolicyId, id) == Some(p) <==> p in c.policies && p.id == id
    ensures forall name :: Find(c.policies, PolicyName, name) == Some(p) <==> p in c.policies && p.name == name
  {
    forall key: string
      ensures Find(c.trustZones, ZoneId, key) == Some(z) <==> z in c.trustZones && z.id == key
      ensures Find(c.trustZones, ZoneName, key) == Some(z) <==> z in c.trustZones && z.name == key
      ensures Find(c.clusters, ClusterId, key) == Some(k) <==> k in c.clusters && k.id == key
      ensures Find(c.policies, PolicyId, key) == Some(p) <==> p in c.policies && p.id == key
      ensures Find(c.policies, PolicyName, key) == Some(p) <==> p in c.policies && p.name == key
    {
      FindIff(c.trustZones, ZoneId, key, z);
      FindIff(c.trustZones, ZoneName, key, z);
      FindIff(c.clusters, ClusterId, key, k);
      FindIff(c.policies, PolicyId, key, p);
      FindIff(c.policies, PolicyName, key, p);
    }
    forall name, zoneId
      ensures Find(c.clusters, ClusterKey, (name, zoneId)) == Some(k) <==>
              k in c.clusters && k.name == name && k.trustZoneId == zoneId
    {
      FindIff(c.clusters, ClusterKey, (name, zoneId), k);
    }
  }

  /** Listing by an empty ID lists everything, except for federations, where only an absent one does. */
  lemma ListingsExact(c: Config, zoneId: string, policyId: string)
    ensures ClustersListed(c, zoneId) ==
            Filter(c.clusters, (k: Cluster) => zoneId != "" ==> k.trustZoneId == zoneId)
    ensures BindingsListed(c, policyId, zoneId) ==
            if zoneId != "" && !HasZone(c.trustZones, zoneId) then None
            else Some(Filter(c.bindings, (b: Binding) =>
                   (policyId != "" ==> b.policyId == policyId) && (zoneId != "" ==> b.trustZoneId == zoneId)))
    ensures FederationsListed(c, Some(zoneId)) ==
            Filter(c.federations, (f: Federation) => f.trustZoneId == zoneId)
    ensures FederationsListed(c, None) == c.federations
  {
    assert forall k :: ZoneOf(k) == k.trustZoneId;
    assert forall f :: FederationZone(f) == f.trustZoneId;
    assert forall z :: ZoneId(z) == z.id;
    if zoneId == "" {
      FilterAll(c.clusters, (k: Cluster) => zoneId != "" ==> k.trustZoneId == zoneId);
    } else {
      FilterSame(c.clusters, Is(ZoneOf, zoneId), (k: Cluster) => zoneId != "" ==> k.trustZoneId == zoneId);
    }
    FilterSame(c.bindings, Matches(policyId, zoneId), (b: Binding) =>
      (policyId != "" ==> b.policyId == policyId) && (zoneId != "" ==> b.trustZoneId == zoneId));
    FilterSame(c.federations, Is(FederationZone, zoneId), (f: Federation) => f.trustZoneId == zoneId);
  }
}
