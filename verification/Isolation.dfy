/**
 Copies in, copies out: whatever a client does to the messages it passed in or was given, it cannot reach the
 records that the data source keeps.  Every session with the data source is one with messages that are values.
 */
module Isolation {
  import opened Wrappers
  import opened Configuration
  import opened Records
  import opened Store
  import opened LocalDataSource
  import opened Sessions
  import Runs = StoreRuns

  /** A message that the client holds. */
  datatype Held =
    | OfZone(zone: Message<TrustZone>) | OfCluster(cluster: Message<Cluster>) | OfPolicy(policy: Message<Policy>)
    | OfBinding(binding: Message<Binding>) | OfFederation(federation: Message<Federation>)

  function Cell(h: Held): object {
    match h
    case OfZone(m) => m as object
    case OfCluster(m) => m as object
    case OfPolicy(m) => m as object
    case OfBinding(m) => m as object
    case OfFederation(m) => m as object
  }

  ghost function Cells(held: seq<Held>): set<object> {
    set h | h in held :: Cell(h)
  }

  function Value(h: Held): Record
    reads Cell(h)
  {
    match h
    case OfZone(m) => AZone(m.value)
    case OfCluster(m) => ACluster(m.value)
    case OfPolicy(m) => APolicy(m.value)
    case OfBinding(m) => ABinding(m.value)
    case OfFederation(m) => AFederation(m.value)
  }

  /** The message is none of the data source's records. */
  ghost predicate Outside(ds: DataSource, h: Held)
    reads ds.trustZones, ds.clusters, ds.policies, ds.bindings, ds.federations
  {
    match h
    case OfZone(m) => m !in ds.trustZones.Owned
    case OfCluster(m) => m !in ds.clusters.Owned
    case OfPolicy(m) => m !in ds.policies.Owned
    case OfBinding(m) => m !in ds.bindings.Owned
    case OfFederation(m) => m !in ds.federations.Owned
  }

  /** The data source took no message but new ones. */
  twostate predicate Grown(ds: DataSource)
    reads ds.trustZones, ds.clusters, ds.policies, ds.bindings, ds.federations
  {
    && fresh(ds.trustZones.Owned - old(ds.trustZones.Owned))
    && fresh(ds.clusters.Owned - old(ds.clusters.Owned))
    && fresh(ds.policies.Owned - old(ds.policies.Owned))
    && fresh(ds.bindings.Owned - old(ds.bindings.Owned))
    && fresh(ds.federations.Owned - old(ds.federations.Owned))
  }

  /** What the client was given. */
  function Shown(given: Option<Held>): Option<Record>
    reads if given.Some? then {Cell(given.value)} else {}
  {
    if given.Some? then Some(Value(given.value)) else None
  }

  /** The call `op` led from `s` to `t` and gave `answer` back; its write would succeed if `ok`. */
  ghost predicate Called(s: Runs.State, op: Op, t: Runs.State, answer: Option<Record>, ok: bool, reliable: bool) {
    t == Runs.Next(s, Runs.Call(op, ok)) && answer == Returned(s.mem, op, ok) && (reliable ==> ok)
  }

  lemma PerformedIsCall(s: Runs.State, op: Op, err: Option<Error>, t: Runs.State, answer: Option<Record>,
                        reliable: bool)
    requires Performed(s, Apply(s.mem, op), err, t, reliable)
    requires answer == if err.None? then StoredBy(op) else None
    ensures Called(s, op, t, answer, err != Some(WriteFailed), reliable)
  {
    PerformedIsStep(s, op, err, t, reliable);
    NoWriteError(s.mem, op);
  }

  lemma NoWriteError(c: Config, op: Op)
    ensures Apply(c, op).error != Some(WriteFailed)
  {
    if op.OpAddBinding? {
      NotAWriteError(c, op.binding.trustZoneId, op.binding.federations);
    } else if op.OpUpdateBinding? {
      NotAWriteError(c, op.binding.trustZoneId, op.binding.federations);
    }
  }

  lemma {:induction false} NotAWriteError(c: Config, zoneId: string, remotes: seq<string>)
    ensures FederationsError(c, zoneId, remotes) != Some(WriteFailed)
  {
    if remotes != [] {
      NotAWriteError(c, zoneId, remotes[1..]);
    }
  }

  // ---------- adding and updating ----------

  /** Such a call has taken place. */
  twostate predicate Done(ds: DataSource, op: Op, new given: Option<Held>, ok: bool)
    reads ds, ds.trustZones, ds.clusters, ds.policies, ds.bindings, ds.federations, ds.loader
    reads ds.trustZones.Owned, ds.clusters.Owned, ds.policies.Owned, ds.bindings.Owned, ds.federations.Owned
    reads if given.Some? then {Cell(given.value)} else {}
  {
    && ds.Valid() && Grown(ds)
    && (given.Some? ==> fresh(Cell(given.value)) && Outside(ds, given.value))
    && Called(old(ds.State()), op, ds.State(), Shown(given), ok, ds.loader.reliable)
  }

  method AddZone(ds: DataSource, m: Message<TrustZone>, newId: Option<string>, ghost op: Op)
    returns (given: Option<Held>, ghost ok: bool)
    requires ds.Valid() && m !in ds.trustZones.Owned && op == OpAddTrustZone(m.value, newId)
    modifies ds.trustZones, ds.loader
    ensures Done(ds, op, given, ok)
  {
    ghost var s := ds.State();
    assert Apply(s.mem, op) == Store.AddTrustZone(s.mem, m.value, newId);
    var r := ds.AddTrustZone(m, newId);
    given, ok := if r.Ok? then Some(OfZone(r.value)) else None, ErrorOf(r) != Some(WriteFailed);
    PerformedIsCall(s, op, ErrorOf(r), ds.State(), Shown(given), ds.loader.reliable);
    assert Called(s, op, ds.State(), Shown(given), ok, ds.loader.reliable);
    assert Grown(ds);
  }

  method UpdateZone(ds: DataSource, m: Message<TrustZone>, ghost op: Op)
    returns (given: Option<Held>, ghost ok: bool)
    requires ds.Valid() && m !in ds.trustZones.Owned && op == OpUpdateTrustZone(m.value)
    modifies ds.trustZones, ds.loader
    ensures Done(ds, op, given, ok)
  {
    ghost var s := ds.State();
    assert Apply(s.mem, op) == Store.UpdateTrustZone(s.mem, m.value);
    var r := ds.UpdateTrustZone(m);
    given, ok := if r.Ok? then Some(OfZone(r.value)) else None, ErrorOf(r) != Some(WriteFailed);
    PerformedIsCall(s, op, ErrorOf(r), ds.State(), Shown(given), ds.loader.reliable);
    assert Called(s, op, ds.State(), Shown(given), ok, ds.loader.reliable);
    assert Grown(ds);
  }

  method AddCluster(ds: DataSource, m: Message<Cluster>, newId: Option<string>, ghost op: Op)
    returns (given: Option<Held>, ghost ok: bool)
    requires ds.Valid() && m !in ds.clusters.Owned && op == OpAddCluster(m.value, newId)
    modifies ds.clusters, ds.loader
    ensures Done(ds, op, given, ok)
  {
    ghost var s := ds.State();
    assert Apply(s.mem, op) == Store.AddCluster(s.mem, m.value, newId);
    var r := ds.AddCluster(m, newId);
    given, ok := if r.Ok? then Some(OfCluster(r.value)) else None, ErrorOf(r) != Some(WriteFailed);
    PerformedIsCall(s, op, ErrorOf(r), ds.State(), Shown(given), ds.loader.reliable);
    assert Called(s, op, ds.State(), Shown(given), ok, ds.loader.reliable);
    assert Grown(ds);
  }

  method UpdateCluster(ds: DataSource, m: Message<Cluster>, ghost op: Op)
    returns (given: Option<Held>, ghost ok: bool)
    requires ds.Valid() && m !in ds.clusters.Owned && op == OpUpdateCluster(m.value)
    modifies ds.clusters, ds.loader
    ensures Done(ds, op, given, ok)
  {
    ghost var s := ds.State();
    assert Apply(s.mem, op) == Store.UpdateCluster(s.mem, m.value);
    var r := ds.UpdateCluster(m);
    given, ok := if r.Ok? then Some(OfCluster(r.value)) else None, ErrorOf(r) != Some(WriteFailed);
    PerformedIsCall(s, op, ErrorOf(r), ds.State(), Shown(given), ds.loader.reliable);
    assert Called(s, op, ds.State(), Shown(given), ok, ds.loader.reliable);
    assert Grown(ds);
  }

  method AddPolicy(ds: DataSource, m: Message<Policy>, newId: Option<string>, ghost op: Op)
    returns (given: Option<Held>, ghost ok: bool)
    requires ds.Valid() && m !in ds.policies.Owned && op == OpAddPolicy(m.value, newId)
    modifies ds.policies, ds.loader
    ensures Done(ds, op, given, ok)
  {
    ghost var s := ds.State();
    assert Apply(s.mem, op) == Store.AddPolicy(s.mem, m.value, newId);
    var r := ds.AddPolicy(m, newId);
    given, ok := if r.Ok? then Some(OfPolicy(r.value)) else None, ErrorOf(r) != Some(WriteFailed);
    PerformedIsCall(s, op, ErrorOf(r), ds.State(), Shown(given), ds.loader.reliable);
    assert Called(s, op, ds.State(), Shown(given), ok, ds.loader.reliable);
    assert Grown(ds);
  }

  method AddBinding(ds: DataSource, m: Message<Binding>, newId: Option<string>, ghost op: Op)
    returns (given: Option<Held>, ghost ok: bool)
    requires ds.Valid() && m !in ds.bindings.Owned && op == OpAddBinding(m.value, newId)
    modifies ds.bindings, ds.loader
    ensures Done(ds, op, given, ok)
  {
    ghost var s := ds.State();
    assert Apply(s.mem, op) == Store.AddBinding(s.mem, m.value, newId);
    var r := ds.AddBinding(m, newId);
    given, ok := if r.Ok? then Some(OfBinding(r.value)) else None, ErrorOf(r) != Some(WriteFailed);
    PerformedIsCall(s, op, ErrorOf(r), ds.State(), Shown(given), ds.loader.reliable);
    assert Called(s, op, ds.State(), Shown(given), ok, ds.loader.reliable);
    assert Grown(ds);
  }

  method UpdateBinding(ds: DataSource, m: Message<Binding>, ghost op: Op)
    returns (given: Option<Held>, ghost ok: bool)
    requires ds.Valid() && m !in ds.bindings.Owned && op == OpUpdateBinding(m.value)
    modifies ds.bindings, ds.loader
    ensures Done(ds, op, given, ok)
  {
    ghost var s := ds.State();
    assert Apply(s.mem, op) == Store.UpdateBinding(s.mem, m.value);
    var r := ds.UpdateBinding(m);
    given, ok := if r.Ok? then Some(OfBinding(r.value)) else None, ErrorOf(r) != Some(WriteFailed);
    PerformedIsCall(s, op, ErrorOf(r), ds.State(), Shown(given), ds.loader.reliable);
    assert Called(s, op, ds.State(), Shown(given), ok, ds.loader.reliable);
    assert Grown(ds);
  }

  method AddFederation(ds: DataSource, m: Message<Federation>, newId: Option<string>, ghost op: Op)
    returns (given: Option<Held>, ghost ok: bool)
    requires ds.Valid() && m !in ds.federations.Owned && op == OpAddFederation(m.value, newId)
    modifies ds.federations, ds.loader
    ensures Done(ds, op, given, ok)
  {
    ghost var s := ds.State();
    assert Apply(s.mem, op) == Store.AddFederation(s.mem, m.value, newId);
    var r := ds.AddFederation(m, newId);
    given, ok := if r.Ok? then Some(OfFederation(r.value)) else None, ErrorOf(r) != Some(WriteFailed);
    PerformedIsCall(s, op, ErrorOf(r), ds.State(), Shown(given), ds.loader.reliable);
    assert Called(s, op, ds.State(), Shown(given), ok, ds.loader.reliable);
    assert Grown(ds);
  }

  method AddAny(ds: DataSource, h: Held, newId: Option<string>, ghost op: Op)
    returns (given: Option<Held>, ghost ok: bool)
    requires ds.Valid() && Outside(ds, h) && op == AddOp(Value(h), newId)
    modifies ds.trustZones, ds.clusters, ds.policies, ds.bindings, ds.federations, ds.loader
    ensures Done(ds, op, given, ok)
  {
    match h
    case OfZone(m) => given, ok := AddZone(ds, m, newId, op);
    case OfCluster(m) => given, ok := AddCluster(ds, m, newId, op);
    case OfPolicy(m) => given, ok := AddPolicy(ds, m, newId, op);
    case OfBinding(m) => given, ok := AddBinding(ds, m, newId, op);
    case OfFederation(m) => given, ok := AddFederation(ds, m, newId, op);
  }

  method UpdateAny(ds: DataSource, h: Held, ghost op: Op) returns (given: Option<Held>, ghost ok: bool)
    requires ds.Valid() && Outside(ds, h) && UpdateOp(Value(h)) == Some(op)
    modifies ds.trustZones, ds.clusters, ds.policies, ds.bindings, ds.federations, ds.loader
    ensures Done(ds, op, given, ok)
  {
    match h
    case OfZone(m) => given, ok := UpdateZone(ds, m, op);
    case OfCluster(m) => given, ok := UpdateCluster(ds, m, op);
    case OfBinding(m) => given, ok := UpdateBinding(ds, m, op);
  }

  // ---------- destroying ----------

  method DestroyZone(ds: DataSource, id: string, ghost op: Op) returns (ghost ok: bool)
    requires ds.Valid() && op == OpDestroyTrustZone(id)
    modifies ds.trustZones, ds.bindings, ds.federations, ds.loader
    ensures Done(ds, op, None, ok)
  {
    ghost var s := ds.State();
    assert Apply(s.mem, op) == Store.DestroyTrustZone(s.mem, id);
    var err := ds.DestroyTrustZone(id);
    ok := err != Some(WriteFailed);
    PerformedIsCall(s, op, err, ds.State(), None, ds.loader.reliable);
    assert Called(s, op, ds.State(), Shown(None), ok, ds.loader.reliable);
    assert Grown(ds);
  }

  method DestroyCluster(ds: DataSource, id: string, ghost op: Op) returns (ghost ok: bool)
    requires ds.Valid() && op == OpDestroyCluster(id)
    modifies ds.clusters, ds.loader
    ensures Done(ds, op, None, ok)
  {
    ghost var s := ds.State();
    assert Apply(s.mem, op) == Store.DestroyCluster(s.mem, id);
    var err := ds.DestroyCluster(id);
    ok := err != Some(WriteFailed);
    PerformedIsCall(s, op, err, ds.State(), None, ds.loader.reliable);
    assert Called(s, op, ds.State(), Shown(None), ok, ds.loader.reliable);
    assert Grown(ds);
  }

  method DestroyPolicy(ds: DataSource, id: string, ghost op: Op) returns (ghost ok: bool)
    requires ds.Valid() && op == OpDestroyPolicy(id)
    modifies ds.policies, ds.loader
    ensures Done(ds, op, None, ok)
  {
    ghost var s := ds.State();
    assert Apply(s.mem, op) == Store.DestroyPolicy(s.mem, id);
    var err := ds.DestroyPolicy(id);
    ok := err != Some(WriteFailed);
    PerformedIsCall(s, op, err, ds.State(), None, ds.loader.reliable);
    assert Called(s, op, ds.State(), Shown(None), ok, ds.loader.reliable);
    assert Grown(ds);
  }

  method DestroyBinding(ds: DataSource, id: string, ghost op: Op) returns (ghost ok: bool)
    requires ds.Valid() && op == OpDestroyBinding(id)
    modifies ds.bindings, ds.loader
    ensures Done(ds, op, None, ok)
  {
    ghost var s := ds.State();
    assert Apply(s.mem, op) == Store.DestroyBinding(s.mem, id);
    var err := ds.DestroyBinding(id);
    ok := err != Some(WriteFailed);
    PerformedIsCall(s, op, err, ds.State(), None, ds.loader.reliable);
    assert Called(s, op, ds.State(), Shown(None), ok, ds.loader.reliable);
    assert Grown(ds);
  }

  method DestroyFederation(ds: DataSource, id: string, ghost op: Op) returns (ghost ok: bool)
    requires ds.Valid() && op == OpDestroyFederation(id)
    modifies ds.federations, ds.loader
    ensures Done(ds, op, None, ok)
  {
    ghost var s := ds.State();
    assert Apply(s.mem, op) == Store.DestroyFederation(s.mem, id);
    var err := ds.DestroyFederation(id);
    ok := err != Some(WriteFailed);
    PerformedIsCall(s, op, err, ds.State(), None, ds.loader.reliable);
    assert Called(s, op, ds.State(), Shown(None), ok, ds.loader.reliable);
    assert Grown(ds);
  }

  method DestroyAny(ds: DataSource, kind: Kind, id: string, ghost op: Op) returns (ghost ok: bool)
    requires ds.Valid() && op == DestroyOp(kind, id)
    modifies ds.trustZones, ds.clusters, ds.policies, ds.bindings, ds.federations, ds.loader
    ensures Done(ds, op, None, ok)
  {
    match kind
    case Zones => ok := DestroyZone(ds, id, op);
    case Clusters => ok := DestroyCluster(ds, id, op);
    case Policies => ok := DestroyPolicy(ds, id, op);
    case Bindings => ok := DestroyBinding(ds, id, op);
    case Federations => ok := DestroyFederation(ds, id, op);
  }

  // ---------- looking up ----------

  /** The messages hold `records` and are all different. */
  ghost predicate Shows(held: seq<Held>, records: seq<Record>)
    reads Cells(held)
  {
    && |held| == |records|
    && (forall i | 0 <= i < |held| :: Cell(held[i]) in Cells(held) && Value(held[i]) == records[i])
    && (forall i, j | 0 <= i < j < |held| :: Cell(held[i]) != Cell(held[j]))
  }

  /** The client was given new messages that hold `answer`. */
  twostate predicate Answered(ds: DataSource, new given: seq<Held>, answer: seq<Record>)
    reads ds.trustZones, ds.clusters, ds.policies, ds.bindings, ds.federations, Cells(given)
  {
    Shows(given, answer) && forall h | h in given :: fresh(Cell(h)) && Outside(ds, h)
  }

  /** `wrap` makes a held message of a message whose content `f` makes a record of. */
  ghost predicate Wraps<T(!new)>(ms: seq<Message<T>>, wrap: Message<T> -> Held, f: T -> Record)
    reads ms
    reads set m | m in ms :: Cell(wrap(m))
  {
    forall m | m in ms :: Cell(wrap(m)) == m && Value(wrap(m)) == f(m.value)
  }

  method Give<T(!new)>(ms: seq<Message<T>>, wrap: Message<T> -> Held, ghost f: T -> Record) returns (given: seq<Held>)
    requires Wraps(ms, wrap, f) && Unaliased(ms)
    ensures Shows(given, Listed(Values(ms), f))
    ensures forall h | h in given :: exists m :: m in ms && h == wrap(m)
  {
    given := seq(|ms|, i requires 0 <= i < |ms| => wrap(ms[i]));
    ValuesAt(ms);
    forall i, j | 0 <= i < j < |ms| ensures Cell(given[i]) != Cell(given[j]) {
      assert ms[i] in ms && ms[j] in ms;
    }
  }

  function HoldZone(m: Message<TrustZone>): Held { OfZone(m) }
  function HoldCluster(m: Message<Cluster>): Held { OfCluster(m) }
  function HoldPolicy(m: Message<Policy>): Held { OfPolicy(m) }
  function HoldBinding(m: Message<Binding>): Held { OfBinding(m) }
  function HoldFederation(m: Message<Federation>): Held { OfFederation(m) }

  method LookZones(ds: DataSource, q: Query, ghost answer: seq<Record>) returns (given: seq<Held>)
    requires ds.Valid() && (q.ZoneById? || q.ZoneByName? || q.AllZones?) && answer == Answer(ds.Model(), q)
    ensures Answered(ds, given, answer)
  {
    if q.AllZones? {
      var ms := ds.ListTrustZones();
      given := Give(ms, HoldZone, ZoneRecord);
    } else {
      var r;
      if q.ZoneById? {
        r := ds.GetTrustZone(q.id);
      } else {
        r := ds.GetTrustZoneByName(q.name);
      }
      given := if r.Ok? then [OfZone(r.value)] else [];
    }
  }

  method LookClusters(ds: DataSource, q: Query, ghost answer: seq<Record>) returns (given: seq<Held>)
    requires ds.Valid() && (q.ClusterById? || q.ClusterByName? || q.ClustersIn?) && answer == Answer(ds.Model(), q)
    ensures Answered(ds, given, answer)
  {
    if q.ClustersIn? {
      var ms := ds.ListClusters(q.zoneId);
      given := Give(ms, HoldCluster, ClusterRecord);
    } else {
      var r;
      if q.ClusterById? {
        r := ds.GetCluster(q.id);
      } else {
        r := ds.GetClusterByName(q.name, q.zoneId);
      }
      given := if r.Ok? then [OfCluster(r.value)] else [];
    }
  }

  method LookPolicies(ds: DataSource, q: Query, ghost answer: seq<Record>) returns (given: seq<Held>)
    requires ds.Valid() && (q.PolicyById? || q.PolicyByName? || q.AllPolicies?) && answer == Answer(ds.Model(), q)
    ensures Answered(ds, given, answer)
  {
    if q.AllPolicies? {
      var ms := ds.ListPolicies();
      given := Give(ms, HoldPolicy, PolicyRecord);
    } else {
      var r;
      if q.PolicyById? {
        r := ds.GetPolicy(q.id);
      } else {
        r := ds.GetPolicyByName(q.name);
      }
      given := if r.Ok? then [OfPolicy(r.value)] else [];
    }
  }

  method LookBindings(ds: DataSource, policyId: string, zoneId: string, ghost answer: seq<Record>)
    returns (given: seq<Held>)
    requires ds.Valid() && answer == Answer(ds.Model(), BindingsOf(policyId, zoneId))
    ensures Answered(ds, given, answer)
  {
    ghost var bs := BindingsListed(ds.Model(), policyId, zoneId);
    assert answer == if bs.Some? then Listed(bs.value, BindingRecord) else [];
    var r := ds.ListBindings(policyId, zoneId);
    if r.Ok? {
      assert answer == Listed(Values(r.value), BindingRecord);
      given := Give(r.value, HoldBinding, BindingRecord);
    } else {
      given := [];
    }
  }

  method LookFederations(ds: DataSource, zone: Option<string>, ghost answer: seq<Record>) returns (given: seq<Held>)
    requires ds.Valid() && answer == Answer(ds.Model(), FederationsIn(zone))
    ensures Answered(ds, given, answer)
  {
    assert answer == Listed(FederationsListed(ds.Model(), zone), FederationRecord);
    var ms := ds.ListFederations(zone);
    assert answer == Listed(Values(ms), FederationRecord);
    given := Give(ms, HoldFederation, FederationRecord);
  }

  method LookAny(ds: DataSource, q: Query, ghost answer: seq<Record>) returns (given: seq<Held>)
    requires ds.Valid() && answer == Answer(ds.Model(), q)
    ensures Answered(ds, given, answer)
  {
    if q.BindingsOf? {
      given := LookBindings(ds, q.policyId, q.zoneId, answer);
    } else if q.FederationsIn? {
      given := LookFederations(ds, q.zone, answer);
    } else if q.ZoneById? || q.ZoneByName? || q.AllZones? {
      given := LookZones(ds, q, answer);
    } else if q.ClusterById? || q.ClusterByName? || q.ClustersIn? {
      given := LookClusters(ds, q, answer);
    } else {
      given := LookPolicies(ds, q, answer);
    }
  }

  // ---------- sessions ----------

  /** The client's messages hold `records`, are all different, and are none of the data source's. */
  ghost predicate Separate(ds: DataSource, held: seq<Held>, records: seq<Record>)
    reads ds.trustZones, ds.clusters, ds.policies, ds.bindings, ds.federations, Cells(held)
  {
    Shows(held, records) && forall h | h in held :: Outside(ds, h)
  }

  method PutZone(ds: DataSource, m: Message<TrustZone>, z: TrustZone)
    requires ds.Valid() && m !in ds.trustZones.Owned
    modifies m
    ensures ds.Valid() && ds.State() == old(ds.State()) && m.value == z
  {
    m.value := z;
  }

  method PutCluster(ds: DataSource, m: Message<Cluster>, k: Cluster)
    requires ds.Valid() && m !in ds.clusters.Owned
    modifies m
    ensures ds.Valid() && ds.State() == old(ds.State()) && m.value == k
  {
    m.value := k;
  }

  method PutPolicy(ds: DataSource, m: Message<Policy>, p: Policy)
    requires ds.Valid() && m !in ds.policies.Owned
    modifies m
    ensures ds.Valid() && ds.State() == old(ds.State()) && m.value == p
  {
    m.value := p;
  }

  method PutBinding(ds: DataSource, m: Message<Binding>, b: Binding)
    requires ds.Valid() && m !in ds.bindings.Owned
    modifies m
    ensures ds.Valid() && ds.State() == old(ds.State()) && m.value == b
  {
    m.value := b;
  }

  method PutFederation(ds: DataSource, m: Message<Federation>, f: Federation)
    requires ds.Valid() && m !in ds.federations.Owned
    modifies m
    ensures ds.Valid() && ds.State() == old(ds.State()) && m.value == f
  {
    m.value := f;
  }

  /** Setting a message to a record of its kind; there is no way to set it to another. */
  method Set(ds: DataSource, h: Held, r: Record)
    requires ds.Valid() && Outside(ds, h)
    modifies Cell(h)
    ensures ds.Valid() && ds.State() == old(ds.State())
    ensures Value(h) == if KindOf(old(Value(h))) == KindOf(r) then r else old(Value(h))
  {
    match (h, r)
    case (OfZone(m), AZone(z)) => PutZone(ds, m, z);
    case (OfCluster(m), ACluster(k)) => PutCluster(ds, m, k);
    case (OfPolicy(m), APolicy(p)) => PutPolicy(ds, m, p);
    case (OfBinding(m), ABinding(b)) => PutBinding(ds, m, b);
    case (OfFederation(m), AFederation(f)) => PutFederation(ds, m, f);
    case _ =>
  }

  /** The client changes a message that it holds: the data source holds what it held. */
  method ChangeOne(ds: DataSource, held: seq<Held>, ghost records: seq<Record>, i: nat, r: Record)
    requires ds.Valid() && Separate(ds, held, records)
    modifies Cells(held)
    ensures ds.Valid() && ds.State() == old(ds.State())
    ensures Separate(ds, held, Changed(records, i, r))
  {
    if i < |held| {
      assert Cell(held[i]) in Cells(held);
      Set(ds, held[i], r);
      forall j | 0 <= j < |held| && j != i
        ensures Value(held[j]) == old(Value(held[j])) && Outside(ds, held[j])
      {
        assert Cell(held[j]) != Cell(held[i]) && held[j] in held;
        assert unchanged(Cell(held[j]));
      }
    }
  }

  /** New messages beside those that the client held. */
  lemma Joined(ds: DataSource, held: seq<Held>, records: seq<Record>, given: seq<Held>, answer: seq<Record>)
    requires Separate(ds, held, records) && Separate(ds, given, answer)
    requires Cells(given) !! Cells(held)
    ensures Separate(ds, held + given, records + answer)
  {
    var all := held + given;
    forall i | 0 <= i < |all|
      ensures all[i] in all && Cell(all[i]) in Cells(all) && Value(all[i]) == (records + answer)[i]
    {}
    forall i, j | 0 <= i < j < |all| ensures Cell(all[i]) != Cell(all[j]) {
      assert i < |held| ==> Cell(all[i]) in Cells(held);
      assert j >= |held| ==> Cell(all[j]) in Cells(given);
    }
  }

  /** A call with a message that the client holds, or with an ID. */
  method CallOne(ds: DataSource, held: seq<Held>, ghost records: seq<Record>, a: Action, ghost op: Op)
    returns (given: Option<Held>, ghost ok: bool)
    requires ds.Valid() && Separate(ds, held, records) && OpOf(records, a) == Some(op)
    modifies ds.trustZones, ds.clusters, ds.policies, ds.bindings, ds.federations, ds.loader
    ensures Done(ds, op, given, ok)
  {
    match a
    case Add(i, newId) => given, ok := AddAny(ds, held[i], newId, op);
    case Update(i) => given, ok := UpdateAny(ds, held[i], op);
    case Destroy(kind, id) =>
      ok := DestroyAny(ds, kind, id, op);
      given := None;
  }

  /** Messages are neither tables nor the loader. */
  lemma Elsewhere(ds: DataSource, held: seq<Held>)
    ensures ds.trustZones !in Cells(held) && ds.clusters !in Cells(held) && ds.policies !in Cells(held)
    ensures ds.bindings !in Cells(held) && ds.federations !in Cells(held) && ds.loader !in Cells(held)
  {}

  /** Such a call reaches none of the client's messages. */
  method CallBeside(ds: DataSource, held: seq<Held>, ghost records: seq<Record>, a: Action, ghost op: Op)
    returns (given: Option<Held>, ghost ok: bool)
    requires ds.Valid() && Separate(ds, held, records) && OpOf(records, a) == Some(op)
    modifies ds.trustZones, ds.clusters, ds.policies, ds.bindings, ds.federations, ds.loader
    ensures Done(ds, op, given, ok)
    ensures Separate(ds, held, records) && (given.Some? ==> Cell(given.value) !in Cells(held))
  {
    Elsewhere(ds, held);
    given, ok := CallOne(ds, held, records, a, op);
    forall h | h in held
      ensures Value(h) == old(Value(h)) && Outside(ds, h) && (given.Some? ==> Cell(given.value) != Cell(h))
    {
      assert Cell(h) in Cells(held) && old(Outside(ds, h));
      assert unchanged(Cell(h));
    }
  }

  method LookStep(ds: DataSource, held: seq<Held>, ghost records: seq<Record>, q: Query, ghost answer: seq<Record>)
    returns (given: seq<Held>)
    requires ds.Valid() && Separate(ds, held, records) && answer == Answer(ds.Model(), q)
    ensures ds.Valid() && ds.State() == old(ds.State()) && Separate(ds, held, records)
    ensures Separate(ds, given, answer) && (forall h | h in given :: fresh(Cell(h))) && Cells(given) !! Cells(held)
  {
    given := LookAny(ds, q, answer);
    forall h | h in held ensures Value(h) == old(Value(h)) && Outside(ds, h) {
      assert Cell(h) in Cells(held) && old(Outside(ds, h));
      assert unchanged(Cell(h));
    }
  }

  /** After action `a` in state `s` the client holds `all`. */
  ghost predicate Follows(ds: DataSource, s: Runs.State, records: seq<Record>, a: Action, ok: bool, all: seq<Held>)
    reads ds, ds.trustZones, ds.clusters, ds.policies, ds.bindings, ds.federations, ds.loader, Cells(all)
  {
    var w := Sessions.Next(World(s, records), a, ok);
    ds.State() == w.store && Separate(ds, all, w.held) && (ds.loader.reliable ==> ok)
  }

  /** The message that a call gave to the client, beside those that it held. */
  lemma JoinedOne(ds: DataSource, held: seq<Held>, records: seq<Record>, r: Option<Held>)
    requires Separate(ds, held, records) && (r.Some? ==> Outside(ds, r.value) && Cell(r.value) !in Cells(held))
    ensures Separate(ds, held + Maybe(r), records + Kept(Shown(r)))
  {
    Joined(ds, held, records, Maybe(r), Kept(Shown(r)));
  }

  function Maybe(r: Option<Held>): seq<Held> {
    if r.Some? then [r.value] else []
  }

  method ActByCall(ds: DataSource, held: seq<Held>, ghost records: seq<Record>, a: Action, ghost op: Op)
    returns (r: Option<Held>, ghost ok: bool)
    requires ds.Valid() && Separate(ds, held, records) && OpOf(records, a) == Some(op)
    modifies ds.trustZones, ds.clusters, ds.policies, ds.bindings, ds.federations, ds.loader
    ensures ds.Valid() && Follows(ds, old(ds.State()), records, a, ok, held + Maybe(r))
    ensures r.Some? ==> fresh(Cell(r.value))
  {
    NextByCall(World(ds.State(), records), a, op);
    r, ok := CallBeside(ds, held, records, a, op);
    JoinedOne(ds, held, records, r);
  }

  lemma NextByCall(w: World, a: Action, op: Op)
    requires OpOf(w.held, a) == Some(op)
    ensures forall ok ::
              Sessions.Next(w, a, ok) ==
                  World(Runs.Next(w.store, Runs.Call(op, ok)), w.held + Kept(Returned(w.store.mem, op, ok)))
  {}

  method ActByLook(ds: DataSource, held: seq<Held>, ghost records: seq<Record>, q: Query) returns (given: seq<Held>)
    requires ds.Valid() && Separate(ds, held, records)
    ensures ds.Valid() && Follows(ds, old(ds.State()), records, Look(q), true, held + given)
    ensures forall h | h in given :: fresh(Cell(h))
  {
    ghost var answer := Answer(ds.Model(), q);
    given := LookStep(ds, held, records, q, answer);
    Joined(ds, held, records, given, answer);
  }

  /** One action of the client. */
  method Act(ds: DataSource, held: seq<Held>, ghost records: seq<Record>, a: Action)
    returns (given: seq<Held>, ghost ok: bool)
    requires ds.Valid() && Separate(ds, held, records)
    modifies ds.trustZones, ds.clusters, ds.policies, ds.bindings, ds.federations, ds.loader, Cells(held)
    ensures ds.Valid() && Follows(ds, old(ds.State()), records, a, ok, held + given)
    ensures forall h | h in given :: fresh(Cell(h))
  {
    if a.Look? {
      given := ActByLook(ds, held, records, a.query);
      ok := true;
    } else if a.Change? {
      ChangeOne(ds, held, records, a.i, a.record);
      given, ok := [], true;
      assert held + given == held;
    } else if Calls(held, a) {
      var r;
      r, ok := ActByCall(ds, held, records, a, OpOf(records, a).value);
      given := Maybe(r);
    } else {
      given, ok := [], true;
      assert held + given == held;
    }
  }

  /** The action makes a call; there is none without a message, nor one that updates a policy or a federation. */
  predicate Calls(held: seq<Held>, a: Action) {
    a.Destroy? || (a.Add? && a.i < |held|)
        || (a.Update? && a.i < |held| && !held[a.i].OfPolicy? && !held[a.i].OfFederation?)
  }

  /** Any client, however long its script and whatever it does to the messages that it holds: the data source and the
      messages hold exactly what they would if messages were values.  The outcome of each write is the loader's. */
  method AnyClient(ds: DataSource, held: seq<Held>, ghost records: seq<Record>, script: seq<Action>)
    returns (after: seq<Held>, ghost oks: seq<bool>)
    requires ds.Valid() && Separate(ds, held, records)
    modifies ds.trustZones, ds.clusters, ds.policies, ds.bindings, ds.federations, ds.loader, Cells(held)
    ensures ds.Valid() && |oks| == |script| && (ds.loader.reliable ==> forall ok | ok in oks :: ok)
    ensures var w := Play(World(old(ds.State()), records), script, oks);
            ds.State() == w.store && Separate(ds, after, w.held)
  {
    ghost var first := World(ds.State(), records);
    after, oks := held, [];
    ghost var w := first;
    for i := 0 to |script|
      invariant ds.Valid() && |oks| == i && (ds.loader.reliable ==> forall ok | ok in oks :: ok)
      invariant w == Play(first, script[..i], oks) && ds.State() == w.store && Separate(ds, after, w.held)
      invariant forall o | o in Cells(after) :: o in Cells(held) || fresh(o)
    {
      var given;
      ghost var ok;
      given, ok := Act(ds, after, w.held, script[i]);
      PlayNext(first, script, oks, ok, i);
      CellsJoin(after, given);
      after, oks := after + given, oks + [ok];
      w := Sessions.Next(w, script[i], ok);
    }
    assert script[..|script|] == script;
  }

  lemma CellsJoin(held: seq<Held>, given: seq<Held>)
    ensures forall o | o in Cells(held + given) :: o in Cells(held) || exists h :: h in given && o == Cell(h)
  {}

  lemma PlayNext(w: World, script: seq<Action>, oks: seq<bool>, ok: bool, i: nat)
    requires i < |script| && |oks| == i
    ensures Play(w, script[..i + 1], oks + [ok]) == Sessions.Next(Play(w, script[..i], oks), script[i], ok)
  {
    assert script[..i + 1][..i] == script[..i] && (oks + [ok])[..i] == oks;
  }

  method NewMessage(r: Record) returns (h: Held)
    ensures fresh(Cell(h)) && Value(h) == r
  {
    match r {
      case AZone(z) => var m := new Message(z); h := OfZone(m);
      case ACluster(k) => var m := new Message(k); h := OfCluster(m);
      case APolicy(p) => var m := new Message(p); h := OfPolicy(m);
      case ABinding(b) => var m := new Message(b); h := OfBinding(m);
      case AFederation(f) => var m := new Message(f); h := OfFederation(m);
    }
  }

  lemma ShowsMore(held: seq<Held>, records: seq<Record>, h: Held)
    requires Shows(held, records) && Cell(h) !in Cells(held)
    ensures Shows(held + [h], records + [Value(h)]) && Cells(held + [h]) == Cells(held) + {Cell(h)}
  {
    var all := held + [h];
    forall i | 0 <= i < |all| ensures all[i] in all && Value(all[i]) == (records + [Value(h)])[i] {}
    assert all[|held|] in all;
    assert forall x | x in held :: x in all;
  }

  method NewMessages(records: seq<Record>) returns (held: seq<Held>)
    ensures Shows(held, records) && fresh(Cells(held))
  {
    held := [];
    for i := 0 to |records|
      invariant Shows(held, records[..i]) && fresh(Cells(held))
    {
      var h := NewMessage(records[i]);
      ShowsMore(held, records[..i], h);
      held := held + [h];
      assert records[..i + 1] == records[..i] + [records[i]];
    }
    assert records[..|records|] == records;
  }

  method MessagesBeside(ds: DataSource, records: seq<Record>) returns (held: seq<Held>)
    requires ds.Valid()
    ensures ds.Valid() && ds.State() == old(ds.State())
    ensures Separate(ds, held, records) && fresh(Cells(held))
  {
    held := NewMessages(records);
    forall h | h in held ensures Outside(ds, h) {
      assert Cell(h) in Cells(held);
    }
  }

  /** A program that opens the data source and then does as in a script with messages of its own. */
  method WholeSession(loader: Loader, records: seq<Record>, script: seq<Action>)
    returns (after: seq<Held>, ghost oks: seq<bool>)
    requires loader.exists_
    modifies loader
    ensures |oks| == |script| && (loader.reliable ==> forall ok | ok in oks :: ok)
    ensures var w := Play(World(Runs.State(old(loader.data), old(loader.data)), records), script, oks);
            loader.data == w.store.disk && Shows(after, w.held)
  {
    var r := DataSource.NewLocalDataSource(loader);
    var held := MessagesBeside(r.value, records);
    after, oks := AnyClient(r.value, held, records, script);
  }
}
