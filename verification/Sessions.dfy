/**
 What a client of the data source sees: a session is a script of calls and of changes that the client makes to the
 messages that it holds.

 Here messages are values, so that a change can reach nothing but the client's own copy.
 */
module Sessions {
  import opened Wrappers
  import opened Configuration
  import opened Store
  import Runs = StoreRuns

  datatype Record =
    | AZone(zone: TrustZone) | ACluster(cluster: Cluster) | APolicy(policy: Policy)
    | ABinding(binding: Binding) | AFederation(federation: Federation)

  datatype Kind = Zones | Clusters | Policies | Bindings | Federations

  function KindOf(r: Record): Kind {
    match r
    case AZone(_) => Zones
    case ACluster(_) => Clusters
    case APolicy(_) => Policies
    case ABinding(_) => Bindings
    case AFederation(_) => Federations
  }

  datatype Query =
    | ZoneById(id: string) | ZoneByName(name: string) | AllZones
    | ClusterById(id: string) | ClusterByName(name: string, zoneId: string) | ClustersIn(zoneId: string)
    | PolicyById(id: string) | PolicyByName(name: string) | AllPolicies
    | BindingsOf(policyId: string, zoneId: string) | FederationsIn(zone: Option<string>)

  /** What a client does next; `i` is the position of a message that it holds. */
  datatype Action =
    | Change(i: nat, record: Record)
    | Add(i: nat, newId: Option<string>)
    | Update(i: nat)
    | Destroy(kind: Kind, id: string)
    | Look(query: Query)

  /** The data source, and what the messages hold that the client passed in or was given. */
  datatype World = World(store: Runs.State, held: seq<Record>)

  // ---------- calls ----------

  function AddOp(r: Record, newId: Option<string>): Op {
    match r
    case AZone(z) => OpAddTrustZone(z, newId)
    case ACluster(k) => OpAddCluster(k, newId)
    case APolicy(p) => OpAddPolicy(p, newId)
    case ABinding(b) => OpAddBinding(b, newId)
    case AFederation(f) => OpAddFederation(f, newId)
  }

  /** Policies and federations cannot be updated. */
  function UpdateOp(r: Record): Option<Op> {
    match r
    case AZone(z) => Some(OpUpdateTrustZone(z))
    case ACluster(k) => Some(OpUpdateCluster(k))
    case ABinding(b) => Some(OpUpdateBinding(b))
    case _ => None
  }

  function DestroyOp(kind: Kind, id: string): Op {
    match kind
    case Zones => OpDestroyTrustZone(id)
    case Clusters => OpDestroyCluster(id)
    case Policies => OpDestroyPolicy(id)
    case Bindings => OpDestroyBinding(id)
    case Federations => OpDestroyFederation(id)
  }

  /** The record that a successful call stores and gives back. */
  function StoredBy(op: Op): Option<Record> {
    match op
    case OpAddTrustZone(z, newId) => if newId.Some? then Some(AZone(z.(id := newId.value))) else None
    case OpUpdateTrustZone(z) => Some(AZone(z))
    case OpAddCluster(k, newId) => if newId.Some? then Some(ACluster(k.(id := newId.value))) else None
    case OpUpdateCluster(k) => Some(ACluster(k))
    case OpAddPolicy(p, newId) => if newId.Some? then Some(APolicy(p.(id := newId.value))) else None
    case OpAddBinding(b, newId) => if newId.Some? then Some(ABinding(b.(id := newId.value))) else None
    case OpUpdateBinding(b) => Some(ABinding(b))
    case OpAddFederation(f, newId) => if newId.Some? then Some(AFederation(f.(id := newId.value))) else None
    case _ => None
  }

  /** What a call gives back. */
  function Returned(c: Config, op: Op, ok: bool): Option<Record> {
    if Apply(c, op).error.None? && ok then StoredBy(op) else None
  }

  function ZoneRecord(z: TrustZone): Record { AZone(z) }
  function ClusterRecord(k: Cluster): Record { ACluster(k) }
  function PolicyRecord(p: Policy): Record { APolicy(p) }
  function BindingRecord(b: Binding): Record { ABinding(b) }
  function FederationRecord(f: Federation): Record { AFederation(f) }

  function Found<T>(r: Option<T>, f: T -> Record): seq<Record> {
    if r.Some? then [f(r.value)] else []
  }

  function Listed<T>(rows: seq<T>, f: T -> Record): seq<Record> {
    seq(|rows|, i requires 0 <= i < |rows| => f(rows[i]))
  }

  /** What a lookup gives back. */
  function Answer(c: Config, q: Query): seq<Record> {
    match q
    case ZoneById(id) => Found(Find(c.trustZones, ZoneId, id), ZoneRecord)
    case ZoneByName(name) => Found(Find(c.trustZones, ZoneName, name), ZoneRecord)
    case AllZones => Listed(c.trustZones, ZoneRecord)
    case ClusterById(id) => Found(Find(c.clusters, ClusterId, id), ClusterRecord)
    case ClusterByName(name, zoneId) => Found(Find(c.clusters, ClusterKey, (name, zoneId)), ClusterRecord)
    case ClustersIn(zoneId) => Listed(ClustersListed(c, zoneId), ClusterRecord)
    case PolicyById(id) => Found(Find(c.policies, PolicyId, id), PolicyRecord)
    case PolicyByName(name) => Found(Find(c.policies, PolicyName, name), PolicyRecord)
    case AllPolicies => Listed(c.policies, PolicyRecord)
    case BindingsOf(policyId, zoneId) =>
      var bs := BindingsListed(c, policyId, zoneId);
      if bs.Some? then Listed(bs.value, BindingRecord) else []
    case FederationsIn(zone) => Listed(FederationsListed(c, zone), FederationRecord)
  }

  // ---------- sessions ----------

  /** The call that an action makes, if any. */
  function OpOf(held: seq<Record>, a: Action): Option<Op> {
    match a
    case Add(i, newId) => if i < |held| then Some(AddOp(held[i], newId)) else None
    case Update(i) => if i < |held| then UpdateOp(held[i]) else None
    case Destroy(kind, id) => Some(DestroyOp(kind, id))
    case _ => None
  }

  function Changed(held: seq<Record>, i: nat, r: Record): seq<Record> {
    if i < |held| && KindOf(held[i]) == KindOf(r) then held[i := r] else held
  }

  function Kept(r: Option<Record>): seq<Record> {
    if r.Some? then [r.value] else []
  }

  /** One action; `ok` says whether a write would succeed. */
  function Next(w: World, a: Action, ok: bool): World {
    match a
    case Change(i, r) => w.(held := Changed(w.held, i, r))
    case Look(q) => w.(held := w.held + Answer(w.store.mem, q))
    case _ =>
      var op := OpOf(w.held, a);
      if op.None? then w
      else World(Runs.Next(w.store, Runs.Call(op.value, ok)), w.held + Kept(Returned(w.store.mem, op.value, ok)))
  }

  function Play(w: World, script: seq<Action>, oks: seq<bool>): World
    requires |script| == |oks|
    decreases |script|
  {
    if script == [] then w
    else
      var n := |script| - 1;
      Next(Play(w, script[..n], oks[..n]), script[n], oks[n])
  }

  /** The calls of a session as events of the data source; changes and lookups contribute none. */
  function Events(w: World, script: seq<Action>, oks: seq<bool>): seq<Runs.Event>
    requires |script| == |oks|
    decreases |script|
  {
    if script == [] then []
    else
      var n := |script| - 1;
      var op := OpOf(Play(w, script[..n], oks[..n]).held, script[n]);
      Events(w, script[..n], oks[..n]) + if op.Some? then [Runs.Call(op.value, oks[n])] else []
  }

  /** The data source goes through exactly the calls of the session. */
  lemma {:induction false} SessionIsRun(w: World, script: seq<Action>, oks: seq<bool>)
    requires |script| == |oks|
    ensures Play(w, script, oks).store == Runs.Run(w.store, Events(w, script, oks))
    decreases |script|
  {
    if script != [] {
      var n := |script| - 1;
      SessionIsRun(w, script[..n], oks[..n]);
      var before, after := Events(w, script[..n], oks[..n]), Events(w, script, oks);
      if after != before {
        assert after[..|after| - 1] == before;
      }
    }
  }

  // ---------- changes are invisible ----------

  /** The action passes message `i` to the data source. */
  predicate Passes(a: Action, i: nat) {
    (a.Add? || a.Update?) && a.i == i
  }

  predicate SameBut(v: World, w: World, i: nat) {
    && v.store == w.store && |v.held| == |w.held| && i < |w.held| && KindOf(v.held[i]) == KindOf(w.held[i])
    && forall j | 0 <= j < |w.held| && j != i :: v.held[j] == w.held[j]
  }

  lemma NextSameBut(v: World, w: World, i: nat, a: Action, ok: bool)
    requires SameBut(v, w, i) && !Passes(a, i)
    ensures SameBut(Next(v, a, ok), Next(w, a, ok), i)
  {}

  /** What a client does to message `i` changes nothing else that it ever sees, until it passes the message in: the data
      source goes through the same states, and every lookup and every call gives back the same. */
  lemma {:induction false} ChangeInvisible(w: World, i: nat, r: Record, script: seq<Action>, oks: seq<bool>)
    requires |script| == |oks| && i < |w.held| && forall a | a in script :: !Passes(a, i)
    ensures SameBut(Play(Next(w, Change(i, r), true), script, oks), Play(w, script, oks), i)
    decreases |script|
  {
    if script != [] {
      var n := |script| - 1;
      ChangeInvisible(w, i, r, script[..n], oks[..n]);
      assert script[n] in script;
      NextSameBut(Play(Next(w, Change(i, r), true), script[..n], oks[..n]), Play(w, script[..n], oks[..n]), i,
                  script[n], oks[n]);
    }
  }
}
