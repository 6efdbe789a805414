/** What a client is given: the records that the store holds and that it asked for, or just stored. */
module SessionAnswers {
  import opened Wrappers
  import opened Configuration
  import opened Store
  import opened StoreEffects
  import opened Sessions

  /** The record is in the configuration. */
  ghost predicate Stored(c: Config, r: Record) {
    match r
    case AZone(z) => z in c.trustZones
    case ACluster(k) => k in c.clusters
    case APolicy(p) => p in c.policies
    case ABinding(b) => b in c.bindings
    case AFederation(f) => f in c.federations
  }

  /** The record is one that the query asks for. */
  ghost predicate AskedFor(q: Query, r: Record) {
    match q
    case ZoneById(id) => r.AZone? && r.zone.id == id
    case ZoneByName(name) => r.AZone? && r.zone.name == name
    case AllZones => r.AZone?
    case ClusterById(id) => r.ACluster? && r.cluster.id == id
    case ClusterByName(name, zoneId) => r.ACluster? && r.cluster.name == name && r.cluster.trustZoneId == zoneId
    case ClustersIn(zoneId) => r.ACluster? && (zoneId != "" ==> r.cluster.trustZoneId == zoneId)
    case PolicyById(id) => r.APolicy? && r.policy.id == id
    case PolicyByName(name) => r.APolicy? && r.policy.name == name
    case AllPolicies => r.APolicy?
    case BindingsOf(policyId, zoneId) =>
      && r.ABinding? && (policyId != "" ==> r.binding.policyId == policyId)
      && (zoneId != "" ==> r.binding.trustZoneId == zoneId)
    case FederationsIn(zone) => r.AFederation? && (zone.Some? ==> r.federation.trustZoneId == zone.value)
  }

  /** A lookup gives back exactly the stored records that it asks for. */
  lemma AnswerExact(c: Config, q: Query, r: Record)
    requires Inv(c)
    ensures r in Answer(c, q) <==> Stored(c, r) && AskedFor(q, r)
  {
    match q
    case ZoneById(_) => ZoneAnswer(c, q, r);
    case ZoneByName(_) => ZoneAnswer(c, q, r);
    case AllZones => ListedIff(c.trustZones, ZoneRecord, r);
    case ClusterById(_) => ClusterAnswer(c, q, r);
    case ClusterByName(_, _) => ClusterAnswer(c, q, r);
    case ClustersIn(zoneId) => ClusterAnswer(c, q, r);
    case PolicyById(_) => PolicyAnswer(c, q, r);
    case PolicyByName(_) => PolicyAnswer(c, q, r);
    case AllPolicies => ListedIff(c.policies, PolicyRecord, r);
    case BindingsOf(policyId, zoneId) => BindingAnswer(c, policyId, zoneId, r);
    case FederationsIn(zone) => FederationAnswer(c, zone, r);
  }

  lemma ListedIff<T>(rows: seq<T>, f: T -> Record, r: Record)
    ensures r in Listed(rows, f) <==> exists x | x in rows :: f(x) == r
  {
    if x :| x in rows && f(x) == r {
      var i :| 0 <= i < |rows| && rows[i] == x;
      assert Listed(rows, f)[i] == r;
    }
  }

  lemma ZoneAnswer(c: Config, q: Query, r: Record)
    requires Inv(c) && (q.ZoneById? || q.ZoneByName?)
    ensures r in Answer(c, q) <==> Stored(c, r) && AskedFor(q, r)
  {
    if r.AZone? {
      if q.ZoneById? { FindIff(c.trustZones, ZoneId, q.id, r.zone); }
      else { FindIff(c.trustZones, ZoneName, q.name, r.zone); }
    }
  }

  lemma ClusterAnswer(c: Config, q: Query, r: Record)
    requires Inv(c) && (q.ClusterById? || q.ClusterByName? || q.ClustersIn?)
    ensures r in Answer(c, q) <==> Stored(c, r) && AskedFor(q, r)
  {
    if q.ClustersIn? {
      ListingsExact(c, q.zoneId, "");
      ListedIff(ClustersListed(c, q.zoneId), ClusterRecord, r);
    } else if r.ACluster? {
      if q.ClusterById? { FindIff(c.clusters, ClusterId, q.id, r.cluster); }
      else { FindIff(c.clusters, ClusterKey, (q.name, q.zoneId), r.cluster); }
    }
  }

  lemma PolicyAnswer(c: Config, q: Query, r: Record)
    requires Inv(c) && (q.PolicyById? || q.PolicyByName?)
    ensures r in Answer(c, q) <==> Stored(c, r) && AskedFor(q, r)
  {
    if r.APolicy? {
      if q.PolicyById? { FindIff(c.policies, PolicyId, q.id, r.policy); }
      else { FindIff(c.policies, PolicyName, q.name, r.policy); }
    }
  }

  lemma BindingAnswer(c: Config, policyId: string, zoneId: string, r: Record)
    requires Inv(c)
    ensures r in Answer(c, BindingsOf(policyId, zoneId)) <==> Stored(c, r) && AskedFor(BindingsOf(policyId, zoneId), r)
  {
    ListingsExact(c, zoneId, policyId);
    var bs := BindingsListed(c, policyId, zoneId);
    if bs.Some? {
      ListedIff(bs.value, BindingRecord, r);
    }
  }

  lemma FederationAnswer(c: Config, zone: Option<string>, r: Record)
    ensures r in Answer(c, FederationsIn(zone)) <==> Stored(c, r) && AskedFor(FederationsIn(zone), r)
  {
    if zone.Some? { ListingsExact(c, zone.value, ""); }
    ListedIff(FederationsListed(c, zone), FederationRecord, r);
  }

  /** The record is the one that the client passed in, with its new ID if it was added. */
  ghost predicate IsRecord(held: seq<Record>, a: Action, r: Record) {
    match a
    case Add(i, newId) => i < |held| && newId.Some? && r == WithId(held[i], newId.value)
    case Update(i) => i < |held| && r == held[i]
    case _ => false
  }

  function WithId(r: Record, id: string): Record {
    match r
    case AZone(z) => AZone(z.(id := id))
    case ACluster(k) => ACluster(k.(id := id))
    case APolicy(p) => APolicy(p.(id := id))
    case ABinding(b) => ABinding(b.(id := id))
    case AFederation(f) => AFederation(f.(id := id))
  }

  /** A call that adds or updates gives back the record that is now stored; other calls and failing ones give back
      nothing. */
  lemma ReturnedIsStored(c: Config, held: seq<Record>, a: Action, ok: bool)
    ensures var op := OpOf(held, a);
            op.Some? ==>
              var given := Returned(c, op.value, ok);
              && (given.Some? <==> !a.Destroy? && ok && Apply(c, op.value).error.None?)
              && (given.Some? ==> Stored(Apply(c, op.value).config, given.value) && IsRecord(held, a, given.value))
  {
    var op := OpOf(held, a);
    if op.Some? && Apply(c, op.value).error.None? {
      if a.Add? {
        assert op.value == AddOp(held[a.i], a.newId);
        NeedsNewId(c, held[a.i], a.newId);
        AddedIsStored(c, held[a.i], a.newId);
      } else if a.Update? {
        UpdatedIsStored(c, op.value);
      }
    }
  }

  lemma NeedsNewId(c: Config, r: Record, newId: Option<string>)
    requires Apply(c, AddOp(r, newId)).error.None?
    ensures newId.Some? && StoredBy(AddOp(r, newId)) == Some(WithId(r, newId.value))
  {}

  lemma AddedIsStored(c: Config, r: Record, newId: Option<string>)
    requires newId.Some? && Apply(c, AddOp(r, newId)).error.None?
    ensures Stored(Apply(c, AddOp(r, newId)).config, WithId(r, newId.value))
  {
    match r
    case AZone(z) => ZoneAdded(c, z, newId);
    case ACluster(k) => ClusterAdded(c, k, newId);
    case APolicy(p) => PolicyAdded(c, p, newId);
    case ABinding(b) => BindingAdded(c, b, newId);
    case AFederation(f) => FederationAdded(c, f, newId);
  }

  lemma UpdatedIsStored(c: Config, op: Op)
    requires (op.OpUpdateTrustZone? || op.OpUpdateCluster? || op.OpUpdateBinding?) && Apply(c, op).error.None?
    ensures StoredBy(op).Some? && Stored(Apply(c, op).config, StoredBy(op).value)
  {
    var d := Apply(c, op).config;
    match op
    case OpUpdateTrustZone(z) => assert d.trustZones[FirstIndex(c.trustZones, Is(ZoneId, z.id))] in d.trustZones;
    case OpUpdateCluster(k) => assert d.clusters[FirstIndex(c.clusters, Is(ClusterId, k.id))] in d.clusters;
    case OpUpdateBinding(b) => assert d.bindings[FirstIndex(c.bindings, Is(BindingId, b.id))] in d.bindings;
  }
}
