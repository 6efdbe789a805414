/** What destroying a record that was just added leaves behind: nothing. */
module StoreUndo {
  import opened Wrappers
  import opened Configuration
  import opened Store
  import opened StoreInvariant

  /** A row with a new key is found, and removed, at the end. */
  lemma AddedLast<T, K(!new)>(rows: seq<T>, f: T -> K, x: T)
    requires forall y | y in rows :: f(y) != f(x)
    ensures FirstIndex(rows + [x], Is(f, f(x))) == |rows| && Without(rows + [x], |rows|) == rows
  {
    var all := rows + [x];
    forall i | 0 <= i < |rows| ensures !Is(f, f(x))(all[i]) { assert all[i] in rows; }
    assert Is(f, f(x))(all[|rows|]);
  }

  lemma ClusterUndone(c: Config, k: Cluster, newId: Option<string>)
    requires NewIdOk(c, newId) && AddCluster(c, k, newId).error.None?
    ensures DestroyCluster(AddCluster(c, k, newId).config, newId.value) == Done(c)
  {
    var x := k.(id := newId.value);
    assert ClusterId(x) == newId.value;
    AddedLast(c.clusters, ClusterId, x);
  }

  lemma PolicyUndone(c: Config, p: Policy, newId: Option<string>)
    requires Inv(c) && NewIdOk(c, newId) && AddPolicy(c, p, newId).error.None?
    ensures DestroyPolicy(AddPolicy(c, p, newId).config, newId.value) == Done(c)
  {
    var x := p.(id := newId.value);
    assert PolicyId(x) == newId.value;
    AddedLast(c.policies, PolicyId, x);
    var b := Find(c.bindings, BindingPolicy, newId.value);
    assert b.Some? ==> HasPolicy(c.policies, newId.value);
  }

  lemma BindingUndone(c: Config, b: Binding, newId: Option<string>)
    requires NewIdOk(c, newId) && AddBinding(c, b, newId).error.None?
    ensures DestroyBinding(AddBinding(c, b, newId).config, newId.value) == Done(c)
  {
    var x := b.(id := newId.value);
    assert BindingId(x) == newId.value;
    AddedLast(c.bindings, BindingId, x);
  }

  lemma FederationUndone(c: Config, f: Federation, newId: Option<string>)
    requires NewIdOk(c, newId) && AddFederation(c, f, newId).error.None?
    ensures DestroyFederation(AddFederation(c, f, newId).config, newId.value) == Done(c)
  {
    var x := f.(id := newId.value);
    assert FederationId(x) == newId.value;
    AddedLast(c.federations, FederationId, x);
  }

  /** For a trust zone this holds unless a cluster was added earlier for the very ID that the trust zone was then given,
      since clusters may name trust zones that do not exist. */
  lemma ZoneUndoneIff(c: Config, z: TrustZone, newId: Option<string>)
    requires Inv(c) && NewIdOk(c, newId) && AddTrustZone(c, z, newId).error.None?
    ensures DestroyTrustZone(AddTrustZone(c, z, newId).config, newId.value) == Done(c) <==>
            ClustersOf(c, newId.value) == []
  {
    var x := z.(id := newId.value);
    assert ZoneId(x) == newId.value;
    AddedLast(c.trustZones, ZoneId, x);
    NothingMentions(c, newId.value);
  }

  lemma NothingMentions(c: Config, id: string)
    requires Inv(c) && forall z | z in c.trustZones :: z.id != id
    ensures Filter(c.bindings, IsNot(BindingZone, id)) == c.bindings
            && Filter(c.federations, TouchesNot(id)) == c.federations
  {
    forall b | b in c.bindings ensures IsNot(BindingZone, id)(b) {
      assert HasZone(c.trustZones, b.trustZoneId) && BindingZone(b) != id;
    }
    FilterAll(c.bindings, IsNot(BindingZone, id));
    forall f | f in c.federations ensures TouchesNot(id)(f) {
      assert FederationOk(f, c.trustZones);
    }
    FilterAll(c.federations, TouchesNot(id));
  }
}
