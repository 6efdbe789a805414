/**
 Whole runs of the data source: any sequence of calls, with writes that wholly succeed or wholly fail, and
 of restarts that read the configuration back.
 */
module StoreRuns {
  import opened Wrappers
  import opened Configuration
  import opened Store
  import opened StoreInvariant

  /** The configuration in memory, and the one that the loader would read back. */
  datatype State = State(mem: Config, disk: Config)

  datatype Event = Call(op: Op, writeOk: bool) | Reload

  function Next(s: State, e: Event): State {
    match e
    case Call(op, writeOk) =>
      var r := Apply(s.mem, op);
      State(r.config, if r.error.None? && writeOk then r.config else s.disk)
    case Reload => State(s.disk, s.disk)
  }

  function Run(s: State, events: seq<Event>): State
    decreases |events|
  {
    if events == [] then s else Next(Run(s, events[..|events| - 1]), events[|events| - 1])
  }

  /** The state before event `i`. */
  function Before(s: State, events: seq<Event>, i: nat): State
    requires i <= |events|
  {
    Run(s, events[..i])
  }

  /** Every generated ID is unused when it is given out. */
  ghost predicate FreshIds(s: State, events: seq<Event>) {
    forall i | 0 <= i < |events| :: events[i].Call? ==> FreshId(Before(s, events, i).mem, events[i].op)
  }

  lemma FreshIdsPrefix(s: State, events: seq<Event>)
    requires events != [] && FreshIds(s, events)
    ensures FreshIds(s, events[..|events| - 1])
  {
    var front := events[..|events| - 1];
    forall i | 0 <= i < |front| ensures Before(s, front, i) == Before(s, events, i) {
      assert front[..i] == events[..i];
    }
  }

  /** In every reachable state, what is in memory satisfies the invariant, and so does whatever a restart
      would read back. */
  lemma {:induction false} RunKeepsInv(s: State, events: seq<Event>)
    requires Inv(s.mem) && Inv(s.disk) && FreshIds(s, events)
    ensures Inv(Run(s, events).mem) && Inv(Run(s, events).disk)
    decreases |events|
  {
    if events != [] {
      var n := |events| - 1;
      FreshIdsPrefix(s, events);
      RunKeepsInv(s, events[..n]);
      if events[n].Call? {
        assert FreshId(Before(s, events, n).mem, events[n].op);
        ApplyKeepsInv(Run(s, events[..n]).mem, events[n].op);
      }
    }
  }

  lemma NewConfigOk()
    ensures Inv(NEW_CONFIG)
  {}

  /** Memory runs ahead of the disk only because of a failed write: as long as no write fails, both agree
      after every event, failing calls included. */
  lemma {:induction false} DurableUnlessWriteFails(s: State, events: seq<Event>)
    requires Inv(s.mem) && s.disk == s.mem && FreshIds(s, events)
    requires forall e | e in events :: e.Call? ==> e.writeOk
    ensures Run(s, events).disk == Run(s, events).mem
    decreases |events|
  {
    if events != [] {
      var n := |events| - 1;
      var front := events[..n];
      assert events[n] in events && forall e | e in front :: e in events;
      FreshIdsPrefix(s, events);
      DurableUnlessWriteFails(s, front);
      RunKeepsInv(s, front);
      if events[n].Call? && Apply(Run(s, front).mem, events[n].op).error.Some? {
        FailureAtomic(Run(s, front).mem, events[n].op);
      }
    }
  }

  /** Memory and disk agree after this event whatever they held: it is a restart, or a call that was written out. */
  predicate Syncs(s: State, e: Event) {
    e.Reload? || (e.writeOk && Apply(s.mem, e.op).error.None?)
  }

  /** How many events there are up to the last that brought memory and disk together. */
  function LastSync(s: State, events: seq<Event>): (i: nat)
    ensures i <= |events|
    decreases |events|
  {
    if events == [] then 0
    else
      var n := |events| - 1;
      if Syncs(Run(s, events[..n]), events[n]) then |events| else LastSync(s, events[..n])
  }

  /** A restart after any run finds the configuration of the last write or restart, so that memory and disk agree
      exactly when memory is back to what it was then. */
  lemma {:induction false} DiskIsLastSync(s: State, events: seq<Event>)
    requires s.disk == s.mem
    ensures Run(s, events).disk == Before(s, events, LastSync(s, events)).mem
    ensures Run(s, events).disk == Run(s, events).mem <==>
            Run(s, events).mem == Before(s, events, LastSync(s, events)).mem
    decreases |events|
  {
    if events != [] {
      var n := |events| - 1;
      var front := events[..n];
      if Syncs(Run(s, front), events[n]) {
        assert events[..|events|] == events;
      } else {
        DiskIsLastSync(s, front);
        assert front[..LastSync(s, front)] == events[..LastSync(s, front)];
      }
    }
  }

  /** A write that fails leaves memory ahead of the disk, exactly when there was something to write. */
  lemma FailedWriteIff(s: State, op: Op)
    requires s.disk == s.mem && Inv(s.mem)
    ensures Next(s, Call(op, false)).disk == Next(s, Call(op, false)).mem <==>
            Apply(s.mem, op).error.Some? || StoresTheSame(s.mem, op)
  {
    UnchangedIff(s.mem, op);
  }

  /** No event adds a cluster to a trust zone that does not exist at that moment. */
  ghost predicate AddsHoused(s: State, events: seq<Event>) {
    forall i | 0 <= i < |events| :: HousedAt(Before(s, events, i).mem, events[i])
  }

  ghost predicate HousedAt(c: Config, e: Event) {
    e.Call? && e.op.OpAddCluster? && Apply(c, e.op).error.None? ==> HasZone(c.trustZones, e.op.cluster.trustZoneId)
  }

  /** Nothing but such an addition leaves a cluster without a trust zone, over whole runs. */
  lemma {:induction false} RunStaysHoused(s: State, events: seq<Event>)
    requires Housed(s.mem) && Housed(s.disk) && AddsHoused(s, events)
    ensures Housed(Run(s, events).mem) && Housed(Run(s, events).disk)
    decreases |events|
  {
    if events != [] {
      var n := |events| - 1;
      var front := events[..n];
      forall i | 0 <= i < |front| ensures Before(s, front, i) == Before(s, events, i) {
        assert front[..i] == events[..i];
      }
      RunStaysHoused(s, front);
      assert HousedAt(Before(s, events, n).mem, events[n]);
      if events[n].Call? {
        HousedIff(Run(s, front).mem, events[n].op);
      }
    }
  }

  // ---------- the history of a binding's federations ----------

  /** Each trust zone that `b` federates with is not its own and is federated with by its trust zone. */
  ghost predicate Backed(c: Config, b: Binding) {
    forall r | r in b.federations :: r != b.trustZoneId && Federated(c, b.trustZoneId, r)
  }

  /** Event `e` in state `s` stores exactly the record `b`. */
  ghost predicate Stores(s: State, e: Event, b: Binding) {
    && e.Call? && Apply(s.mem, e.op).error.None?
    && match e.op
       case OpAddBinding(x, newId) => newId.Some? && b == x.(id := newId.value)
       case OpUpdateBinding(x) => b == x
       case _ => false
  }

  lemma {:induction false} AcceptedIsBacked(c: Config, zoneId: string, remotes: seq<string>)
    requires FederationsError(c, zoneId, remotes).None?
    ensures forall r | r in remotes :: r != zoneId && Federated(c, zoneId, r)
  {
    if remotes != [] {
      assert remotes == [remotes[0]] + remotes[1..];
      AcceptedIsBacked(c, zoneId, remotes[1..]);
    }
  }

  lemma BackedWhenStored(s: State, e: Event, b: Binding)
    requires Stores(s, e, b)
    ensures Backed(s.mem, b)
  {
    match e.op
    case OpAddBinding(x, newId) => AcceptedIsBacked(s.mem, x.trustZoneId, x.federations);
    case OpUpdateBinding(x) => AcceptedIsBacked(s.mem, x.trustZoneId, x.federations);
    case _ =>
  }

  /** A binding that was not there before was stored by this event. */
  lemma NewBindingIsStored(s: State, e: Event, b: Binding)
    requires e.Call? && b in Next(s, e).mem.bindings && b !in s.mem.bindings
    ensures Stores(s, e, b)
  {}

  ghost predicate StoredAt(s: State, events: seq<Event>, i: nat, b: Binding)
    requires i < |events|
  {
    Stores(Before(s, events, i), events[i], b)
  }

  /** In every reachable state, in memory and on disk, each binding is a record that some earlier call added or
      updated, and every federation it lists was in the store at that moment. */
  lemma {:induction false} BindingHistory(s: State, events: seq<Event>, b: Binding)
    requires s.mem.bindings == [] && s.disk.bindings == []
    requires b in Run(s, events).mem.bindings || b in Run(s, events).disk.bindings
    ensures exists i | 0 <= i < |events| :: StoredAt(s, events, i, b) && Backed(Before(s, events, i).mem, b)
    decreases |events|
  {
    if events != [] {
      var n := |events| - 1;
      var front := events[..n];
      var last := Run(s, front);
      if b in last.mem.bindings || b in last.disk.bindings {
        BindingHistory(s, front, b);
        var i :| 0 <= i < n && StoredAt(s, front, i, b) && Backed(Before(s, front, i).mem, b);
        assert front[..i] == events[..i];
        assert StoredAt(s, events, i, b);
      } else {
        NewBindingIsStored(last, events[n], b);
        assert StoredAt(s, events, n, b);
        BackedWhenStored(last, events[n], b);
      }
    }
  }

  /** A listed federation loses its backing exactly when the federation itself, or the remote trust zone, is
      destroyed. */
  lemma UnbackedOnlyByDestroy(c: Config, op: Op, b: Binding, r: string)
    requires Inv(c) && b in c.bindings && Federated(c, b.trustZoneId, r)
    requires b in Apply(c, op).config.bindings && Apply(c, op).error.None?
    ensures !Federated(Apply(c, op).config, b.trustZoneId, r) <==>
            Unbacks(c, op, b, r)
  {
    match op
    case OpDestroyFederation(id) => UnbackedByDestroyFederation(c, id, b.trustZoneId, r);
    case OpDestroyTrustZone(id) => UnbackedByDestroyTrustZone(c, id, b, r);
    case _ => FederationsStay(c, op, b.trustZoneId, r);
  }

  lemma FederationsStay(c: Config, op: Op, zoneId: string, r: string)
    requires Federated(c, zoneId, r) && !op.OpDestroyFederation? && !op.OpDestroyTrustZone?
    requires Apply(c, op).error.None?
    ensures Federated(Apply(c, op).config, zoneId, r)
  {
    if op.OpAddFederation? {
      var f := Find(c.federations, FederationKey, (zoneId, r)).value;
      assert f in AddFederation(c, op.federation, op.newId).config.federations;
    } else {
      assert Apply(c, op).config.federations == c.federations;
    }
  }

  lemma UnbackedByDestroyFederation(c: Config, id: string, zoneId: string, r: string)
    requires Inv(c) && Federated(c, zoneId, r) && DestroyFederation(c, id).error.None?
    ensures !Federated(DestroyFederation(c, id).config, zoneId, r) <==>
            exists f | f in c.federations :: f.id == id && FederationKey(f) == (zoneId, r)
  {
    var j := FirstIndex(c.federations, Is(FederationId, id));
    DistinctWithout(c.federations, FederationId, j);
    DistinctWithout(c.federations, FederationKey, j);
    var f := Find(c.federations, FederationKey, (zoneId, r)).value;
    assert FederationId(c.federations[j]) == id;
    assert f.id == id <==> f == c.federations[j];
  }

  lemma UnbackedByDestroyTrustZone(c: Config, id: string, b: Binding, r: string)
    requires Federated(c, b.trustZoneId, r)
    requires DestroyTrustZone(c, id).error.None? && b in DestroyTrustZone(c, id).config.bindings
    ensures !Federated(DestroyTrustZone(c, id).config, b.trustZoneId, r) <==> id == r
  {
    assert IsNot(BindingZone, id)(b) && BindingZone(b) != id;
    var d := DestroyTrustZone(c, id).config;
    var f := Find(c.federations, FederationKey, (b.trustZoneId, r)).value;
    assert f.remoteTrustZoneId == r && f.trustZoneId == b.trustZoneId;
    assert TouchesNot(id)(f) <==> id != r;
    if id == r {
      assert forall x | x in d.federations :: TouchesNot(id)(x) && FederationKey(x) != (b.trustZoneId, r);
    }
  }

  /** The call destroys what backs the entry `r` of the binding `b`. */
  ghost predicate Unbacks(c: Config, op: Op, b: Binding, r: string) {
    || (op.OpDestroyFederation? &&
        exists f | f in c.federations :: f.id == op.id && FederationKey(f) == (b.trustZoneId, r))
    || (op.OpDestroyTrustZone? && op.id == r)
  }

  /** Some event stored the binding `b`, and a later call succeeded in destroying what backed its entry `r`. */
  ghost predicate UnbackedSince(s: State, events: seq<Event>, b: Binding, r: string) {
    exists i, j | 0 <= i < j < |events| ::
      StoredAt(s, events, i, b) && UnbackedAt(s, events, j, b, r)
  }

  ghost predicate UnbackedAt(s: State, events: seq<Event>, j: nat, b: Binding, r: string)
    requires j < |events|
  {
    var c := Before(s, events, j).mem;
    events[j].Call? && Apply(c, events[j].op).error.None? && Unbacks(c, events[j].op, b, r)
  }

  /** In every reachable state, in memory and on disk, an entry of a binding that no federation backs was successfully
      destroyed after the binding was stored. */
  lemma {:induction false} UnbackedHistory(s: State, events: seq<Event>, b: Binding, r: string)
    requires s.mem.bindings == [] && s.disk.bindings == [] && Inv(s.mem) && Inv(s.disk) && FreshIds(s, events)
    requires r in b.federations
    ensures Unbacked(Run(s, events).mem, b, r) || Unbacked(Run(s, events).disk, b, r) ==> UnbackedSince(s, events, b, r)
    decreases |events|
  {
    if events != [] && (Unbacked(Run(s, events).mem, b, r) || Unbacked(Run(s, events).disk, b, r)) {
      var n := |events| - 1;
      var front, last := events[..n], Run(s, events[..n]);
      FreshIdsPrefix(s, events);
      UnbackedHistory(s, front, b, r);
      if Unbacked(last.mem, b, r) || Unbacked(last.disk, b, r) {
        UnbackedLater(s, events, b, r);
      } else {
        RunKeepsInv(s, front);
        NewlyUnbacked(last, events[n], b, r);
        UnbackedLast(s, events, b, r);
      }
    }
  }

  lemma UnbackedLast(s: State, events: seq<Event>, b: Binding, r: string)
    requires s.mem.bindings == [] && s.disk.bindings == [] && events != []
    requires UnbackedAt(s, events, |events| - 1, b, r) && b in Run(s, events[..|events| - 1]).mem.bindings
    ensures UnbackedSince(s, events, b, r)
  {
    var n := |events| - 1;
    var front := events[..n];
    BindingHistory(s, front, b);
    var i :| 0 <= i < n && StoredAt(s, front, i, b);
    assert front[..i] == events[..i];
    assert StoredAt(s, events, i, b);
  }

  ghost predicate Unbacked(c: Config, b: Binding, r: string) {
    b in c.bindings && !Federated(c, b.trustZoneId, r)
  }

  lemma UnbackedLater(s: State, events: seq<Event>, b: Binding, r: string)
    requires events != [] && UnbackedSince(s, events[..|events| - 1], b, r)
    ensures UnbackedSince(s, events, b, r)
  {
    var front := events[..|events| - 1];
    var i, j :| 0 <= i < j < |front| && StoredAt(s, front, i, b) && UnbackedAt(s, front, j, b, r);
    assert front[..i] == events[..i] && front[..j] == events[..j];
    assert StoredAt(s, events, i, b) && UnbackedAt(s, events, j, b, r);
  }

  lemma NewlyUnbacked(s: State, e: Event, b: Binding, r: string)
    requires Inv(s.mem) && r in b.federations && !Unbacked(s.mem, b, r) && !Unbacked(s.disk, b, r)
    requires Unbacked(Next(s, e).mem, b, r) || Unbacked(Next(s, e).disk, b, r)
    ensures e.Call? && b in s.mem.bindings && Apply(s.mem, e.op).error.None? && Unbacks(s.mem, e.op, b, r)
  {
    assert e.Call? && Unbacked(Apply(s.mem, e.op).config, b, r);
    if Apply(s.mem, e.op).error.Some? {
      FailureAtomic(s.mem, e.op);
    } else if b in s.mem.bindings {
      UnbackedOnlyByDestroy(s.mem, e.op, b, r);
    } else {
      NewBindingIsStored(s, e, b);
      BackedWhenStored(s, e, b);
    }
  }
}
