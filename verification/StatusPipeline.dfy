/**
 The goroutines between a provision plugin and the status spinner, as small steps in any order.

 Channels are unbuffered: a send and the matching receive are one step, and a sender without a receiver waits.
 */
module StatusPipeline {
  import opened Wrappers
  import opened Provision

  /** The consumer is still reading, or has returned. */
  datatype Consumer = Reading | Returned(err: Option<ErrorText>)

  function Receive(s: Status): Consumer {
    if Failing(s) then Returned(Some(s.error)) else Reading
  }

  /** The consumer after it received `delivered`, unless it has also seen that the channel is closed. */
  ghost predicate ConsumerOk(delivered: seq<Status>, consumer: Consumer) {
    match consumer
    case Reading => NoErrors(delivered)
    case Returned(None) => NoErrors(delivered)
    case Returned(Some(text)) =>
      && delivered != [] && NoErrors(delivered[..|delivered| - 1])
      && delivered[|delivered| - 1].error == text
  }

  lemma ConsumerReceives(delivered: seq<Status>, s: Status)
    requires NoErrors(delivered)
    ensures ConsumerOk(delivered + [s], Receive(s))
  {
    assert (delivered + [s])[..|delivered|] == delivered;
  }

  /** A consumer that got a prefix of `all` and returned an error returned the first one. */
  lemma ConsumerError(all: seq<Status>, delivered: seq<Status>, text: ErrorText)
    requires delivered <= all && ConsumerOk(delivered, Returned(Some(text)))
    ensures FirstError(all) == Some(text)
    ensures ErrorOnlyLast(all) <==> delivered == all
  {
    var n := |delivered| - 1;
    assert all[..n] == delivered[..n] && all[n] == delivered[n];
    FirstErrorAt(all, n);
    if delivered == all {
      forall i | 0 <= i < n ensures !Failing(all[i]) {
        assert all[i] == delivered[..n][i] && all[i] in delivered[..n];
      }
    }
  }

  // ---------- an in-process plugin ----------

  /** What the plugin has yet to send, whether it has closed the channel, and the consumer. */
  datatype Direct = Direct(pending: seq<Status>, closed: bool, consumer: Consumer)

  datatype DirectStep = Deliver | Close | NoticeClose

  function DirectNext(d: Direct, step: DirectStep): Option<Direct> {
    match step
    case Deliver =>
      if d.pending != [] && d.consumer.Reading?
      then Some(d.(pending := d.pending[1..], consumer := Receive(d.pending[0]))) else None
    case Close => if d.pending == [] && !d.closed then Some(d.(closed := true)) else None
    case NoticeClose => if d.closed && d.consumer.Reading? then Some(d.(consumer := Returned(None))) else None
  }

  function DirectRun(all: seq<Status>, steps: seq<DirectStep>): Option<Direct> {
    if steps == [] then Some(Direct(all, false, Reading))
    else
      var d := DirectRun(all, steps[..|steps| - 1]);
      if d.None? then None else DirectNext(d.value, steps[|steps| - 1])
  }

  ghost predicate DirectStuck(d: Direct) {
    forall step :: DirectNext(d, step).None?
  }

  ghost predicate DirectInv(all: seq<Status>, d: Direct) {
    && |d.pending| <= |all| && d.pending == all[|all| - |d.pending|..]
    && ConsumerOk(all[..|all| - |d.pending|], d.consumer)
    && (d.closed ==> d.pending == [])
    && (d.consumer == Returned(None) ==> d.closed)
  }

  lemma {:induction false} DirectRunOk(all: seq<Status>, steps: seq<DirectStep>)
    requires DirectRun(all, steps).Some?
    ensures DirectInv(all, DirectRun(all, steps).value)
    ensures var d := DirectRun(all, steps).value;
            |steps| + |d.pending| + (if d.closed then 0 else 1) + (if d.consumer.Reading? then 1 else 0) <= |all| + 2
  {
    if steps != [] {
      DirectRunOk(all, steps[..|steps| - 1]);
      var d := DirectRun(all, steps[..|steps| - 1]).value;
      if steps[|steps| - 1].Deliver? {
        var n := |all| - |d.pending|;
        ConsumerReceives(all[..n], d.pending[0]);
        assert all[..n + 1] == all[..n] + [d.pending[0]];
      }
    }
  }

  /** However the plugin and the consumer interleave, they come to rest within `|all| + 2` steps.  Then the consumer
      has returned the first error, or none, and the plugin is not left blocked if and only if no status but the last
      is an error. */
  lemma DirectOutcome(all: seq<Status>, steps: seq<DirectStep>)
    requires DirectRun(all, steps).Some?
    ensures |steps| <= |all| + 2
    ensures var d := DirectRun(all, steps).value;
            DirectStuck(d) ==> d.consumer == Returned(FirstError(all)) && (d.closed <==> ErrorOnlyLast(all))
  {
    DirectRunOk(all, steps);
    var d := DirectRun(all, steps).value;
    if DirectStuck(d) {
      assert DirectNext(d, Deliver).None? && DirectNext(d, Close).None? && DirectNext(d, NoticeClose).None?;
      var n := |all| - |d.pending|;
      if d.consumer.err.Some? {
        ConsumerError(all, all[..n], d.consumer.err.value);
      } else {
        assert all[..n] == all;
        forall i | 0 <= i < |all| ensures !Failing(all[i]) { assert all[i] in all; }
      }
    }
  }

  // ---------- a gRPC plugin ----------

  /** A plugin in another process: a server relays its statuses to a stream, and a client from the stream to the
      channel that the consumer watches.  The connection may break, which loses what has not been received. */
  datatype Relay = Relay(
    pending: seq<Status>, producerClosed: bool,
    serverHold: seq<Status>, serverReturned: bool,
    stream: seq<Status>, broken: bool,
    clientHold: seq<Status>, clientFailed: bool, clientClosed: bool,
    delivered: seq<Status>, consumer: Consumer)

  datatype RelayStep =
    | ProducerSend | ProducerClose
    | ServerForward | ServerFail | ServerReturn
    | Break(kept: nat)
    | ClientReceive | ClientFail(failure: Status) | ClientSend | ClientClose
    | ConsumerClose

  predicate Can(r: Relay, step: RelayStep) {
    match step
    case ProducerSend => r.pending != [] && r.serverHold == [] && !r.serverReturned
    case ProducerClose => r.pending == [] && !r.producerClosed
    case ServerForward => r.serverHold != [] && !r.serverReturned
    case ServerFail => r.serverHold != [] && !r.serverReturned && r.broken
    case ServerReturn => r.serverHold == [] && !r.serverReturned && r.producerClosed
    case Break(kept) => !r.broken && kept <= |r.stream|
    case ClientReceive => r.clientHold == [] && !r.clientFailed && !r.clientClosed && r.stream != []
    case ClientFail(failure) =>
      && r.clientHold == [] && !r.clientFailed && !r.clientClosed && r.stream == []
      && r.broken && Failing(failure)
    case ClientSend => r.clientHold != [] && r.consumer.Reading?
    case ClientClose =>
      && r.clientHold == [] && !r.clientClosed && r.stream == []
      && (r.clientFailed || (r.serverReturned && !r.broken))
    case ConsumerClose => r.clientClosed && r.consumer.Reading?
  }

  function RelayNext(r: Relay, step: RelayStep): Relay
    requires Can(r, step)
  {
    match step
    case ProducerSend => r.(pending := r.pending[1..], serverHold := [r.pending[0]])
    case ProducerClose => r.(producerClosed := true)
    case ServerForward => r.(serverHold := [], stream := r.stream + if r.broken then [] else r.serverHold)
    case ServerFail => r.(serverHold := [], serverReturned := true)
    case ServerReturn => r.(serverReturned := true)
    case Break(kept) => r.(broken := true, stream := r.stream[..kept])
    case ClientReceive => r.(stream := r.stream[1..], clientHold := [r.stream[0]])
    case ClientFail(failure) => r.(clientFailed := true, clientHold := [failure])
    case ClientSend =>
      r.(clientHold := [], delivered := r.delivered + r.clientHold, consumer := Receive(r.clientHold[0]))
    case ClientClose => r.(clientClosed := true)
    case ConsumerClose => r.(consumer := Returned(None))
  }

  function RelayStart(all: seq<Status>): Relay {
    Relay(all, false, [], false, [], false, [], false, false, [], Reading)
  }

  function RelayRun(all: seq<Status>, steps: seq<RelayStep>): Option<Relay> {
    if steps == [] then Some(RelayStart(all))
    else
      var r, step := RelayRun(all, steps[..|steps| - 1]), steps[|steps| - 1];
      if r.Some? && Can(r.value, step) then Some(RelayNext(r.value, step)) else None
  }

  /** Only the connection breaking could still change anything. */
  ghost predicate RelayStuck(r: Relay) {
    forall step: RelayStep | !step.Break? :: !Can(r, step)
  }

  /** What the client has taken from the stream, or can still take. */
  function Received(r: Relay): seq<Status> {
    r.delivered + r.clientHold + r.stream
  }

  /** The statuses are always split over the pipeline in order; a broken connection loses some at the end, and then
      the last thing the client sends is an error. */
  ghost predicate InOrder(all: seq<Status>, r: Relay) {
    && (!r.broken ==> Received(r) + r.serverHold + r.pending == all)
    && (!r.clientFailed ==> Received(r) <= all)
    && (r.clientFailed && r.clientHold != [] ==> r.delivered <= all && Failing(r.clientHold[0]))
    && (r.clientFailed && r.clientHold == [] ==> r.delivered != [] && r.delivered[..|r.delivered| - 1] <= all)
    && (r.clientClosed && !r.clientFailed ==> r.delivered == all)
  }

  /** Who has finished when. */
  ghost predicate Staged(r: Relay) {
    && |r.serverHold| <= 1 && |r.clientHold| <= 1
    && (r.clientFailed ==> r.broken && r.stream == [])
    && (r.clientFailed && r.clientHold == [] ==> r.consumer.Returned? && r.consumer.err.Some?)
    && (r.producerClosed ==> r.pending == [])
    && (r.serverReturned ==> r.serverHold == [])
    && (r.serverReturned && !r.broken ==> r.producerClosed)
    && (r.clientClosed ==> r.clientHold == [] && r.stream == [])
    && (r.clientClosed && !r.broken ==> r.serverReturned)
    && (r.consumer == Returned(None) ==> r.clientClosed && !r.clientFailed)
  }

  ghost predicate RelayInv(all: seq<Status>, r: Relay) {
    InOrder(all, r) && Staged(r) && ConsumerOk(r.delivered, r.consumer)
  }

  lemma RelayKeepsInv(all: seq<Status>, r: Relay, step: RelayStep)
    requires RelayInv(all, r) && Can(r, step)
    ensures RelayInv(all, RelayNext(r, step))
  {
    RelayKeepsOrder(all, r, step);
    RelayKeepsStages(all, r, step);
    if step.ClientSend? {
      assert r.clientHold == [r.clientHold[0]];
      ConsumerReceives(r.delivered, r.clientHold[0]);
    }
  }

  lemma RelayKeepsStages(all: seq<Status>, r: Relay, step: RelayStep)
    requires RelayInv(all, r) && Can(r, step)
    ensures Staged(RelayNext(r, step))
  {}

  lemma RelayKeepsOrder(all: seq<Status>, r: Relay, step: RelayStep)
    requires RelayInv(all, r) && Can(r, step)
    ensures InOrder(all, RelayNext(r, step))
  {
    match step
    case ProducerSend => ShiftFirst(Received(r), r.pending);
    case ServerForward => if !r.broken { ForwardKeepsOrder(r); }
    case Break(kept) => assert Received(RelayNext(r, step)) <= Received(r);
    case ClientReceive => ShiftFirst(r.delivered, r.stream);
    case ClientFail(_) => assert r.delivered <= Received(r);
    case ClientSend =>
      assert Received(RelayNext(r, step)) == Received(r);
      assert (r.delivered + r.clientHold)[..|r.delivered|] == r.delivered;
    case ClientClose => assert Received(r) == r.delivered;
    case _ =>
  }

  lemma ForwardKeepsOrder(r: Relay)
    requires Can(r, ServerForward) && !r.broken
    ensures Received(RelayNext(r, ServerForward)) == Received(r) + r.serverHold
    ensures Received(r) + r.serverHold + [] + r.pending == Received(r) + r.serverHold + r.pending
  {}

  lemma ShiftFirst<T>(a: seq<T>, s: seq<T>)
    requires s != []
    ensures a + [] + s == a + [s[0]] + s[1..]
  {}

  function Flag(done: bool): nat { if done then 0 else 1 }

  /** Bounds the number of steps that are still possible. */
  function Remaining(r: Relay): nat {
    4 * |r.pending| + 3 * |r.serverHold| + 2 * |r.stream| + |r.clientHold|
    + Flag(r.producerClosed) + Flag(r.serverReturned) + Flag(r.broken) + 2 * Flag(r.clientFailed) + Flag(r.clientClosed)
    + Flag(!r.consumer.Reading?)
  }

  lemma {:induction false} RelayRunOk(all: seq<Status>, steps: seq<RelayStep>)
    requires RelayRun(all, steps).Some?
    ensures RelayInv(all, RelayRun(all, steps).value)
    ensures |steps| + Remaining(RelayRun(all, steps).value) <= 4 * |all| + 7
  {
    if steps != [] {
      RelayRunOk(all, steps[..|steps| - 1]);
      var r := RelayRun(all, steps[..|steps| - 1]).value;
      RelayKeepsInv(all, r, steps[|steps| - 1]);
      RemainingDecreases(r, steps[|steps| - 1]);
    }
  }

  lemma RemainingDecreases(r: Relay, step: RelayStep)
    requires Can(r, step)
    ensures Remaining(RelayNext(r, step)) < Remaining(r)
  {}

  /** In every reachable state, broken connection or not: the consumer has been given the statuses that were sent, in
      order and each once, followed by at most one transport error; and it reports success only if it was given all of
      them and there was no error. */
  lemma RelayIsHonest(all: seq<Status>, steps: seq<RelayStep>)
    requires RelayRun(all, steps).Some?
    ensures |steps| <= 4 * |all| + 7
    ensures var r := RelayRun(all, steps).value;
            && (r.delivered <= all || (r.delivered != [] && r.delivered[..|r.delivered| - 1] <= all
                                       && Failing(r.delivered[|r.delivered| - 1])))
            && (r.consumer == Returned(None) ==> r.delivered == all && NoErrors(all))
  {
    RelayRunOk(all, steps);
    var r := RelayRun(all, steps).value;
    assert Received(r) == r.delivered + (r.clientHold + r.stream);
  }

  /** However the goroutines interleave, the consumer returns. */
  lemma RelayConsumerReturns(all: seq<Status>, steps: seq<RelayStep>)
    requires RelayRun(all, steps).Some? && RelayStuck(RelayRun(all, steps).value)
    ensures RelayRun(all, steps).value.consumer.Returned?
  {
    RelayRunOk(all, steps);
    var r := RelayRun(all, steps).value;
    RelayAtRest(r);
    assert !Can(r, ClientFail(StatusError(Deploying, TransportFailed, GENERAL, "error")));
  }

  lemma RelayAtRest(r: Relay)
    requires RelayStuck(r)
    ensures !Can(r, ProducerSend) && !Can(r, ProducerClose) && !Can(r, ServerForward) && !Can(r, ServerReturn)
    ensures !Can(r, ClientReceive) && !Can(r, ClientSend) && !Can(r, ClientClose) && !Can(r, ConsumerClose)
  {}

  /** As long as the connection holds, the relay behaves like the plugin's own channel: it comes to rest with the
      consumer having returned the first error, or none, and nobody is left blocked if and only if no status but the
      last is an error. */
  lemma RelayOutcome(all: seq<Status>, steps: seq<RelayStep>)
    requires RelayRun(all, steps).Some? && RelayStuck(RelayRun(all, steps).value)
    requires !RelayRun(all, steps).value.broken
    ensures var r := RelayRun(all, steps).value;
            && r.consumer == Returned(FirstError(all))
            && (r.producerClosed && r.serverReturned && r.clientClosed <==> ErrorOnlyLast(all))
  {
    RelayRunOk(all, steps);
    RelayConsumerReturns(all, steps);
    RelayRest(all, RelayRun(all, steps).value);
  }

  lemma RelayRest(all: seq<Status>, r: Relay)
    requires RelayInv(all, r) && RelayStuck(r) && !r.broken && r.consumer.Returned?
    ensures r.consumer == Returned(FirstError(all))
    ensures r.producerClosed && r.serverReturned && r.clientClosed <==> ErrorOnlyLast(all)
  {
    RelayAtRest(r);
    if r.consumer.err.Some? {
      assert Received(r) == r.delivered + (r.clientHold + r.stream);
      ConsumerError(all, r.delivered, r.consumer.err.value);
    } else {
      forall i | 0 <= i < |all| ensures !Failing(all[i]) { assert all[i] in all; }
    }
  }

  // ---------- plugin and spinner together ----------

  /** A plugin that sends an error exactly if it returns that error, and nothing after it, never blocks for want of a
      consumer, and the consumer ends with the plugin's own error, in process or across a connection that holds. */
  lemma SameOutcome(sent: seq<Status>, err: Option<ErrorText>, direct: seq<DirectStep>, relay: seq<RelayStep>)
    requires ErrorOnlyLast(sent) && FirstError(sent) == err
    requires DirectRun(sent, direct).Some? && DirectStuck(DirectRun(sent, direct).value)
    requires RelayRun(sent, relay).Some? && RelayStuck(RelayRun(sent, relay).value)
    requires !RelayRun(sent, relay).value.broken
    ensures DirectRun(sent, direct) == Some(Direct([], true, Returned(err)))
    ensures RelayedTo(sent, RelayRun(sent, relay).value, err)
  {
    DirectOutcome(sent, direct);
    DirectRunOk(sent, direct);
    RelayOutcome(sent, relay);
    RelayRunOk(sent, relay);
  }

  /** Everything has arrived, everyone is done, and the consumer has returned `err`. */
  predicate RelayedTo(sent: seq<Status>, r: Relay, err: Option<ErrorText>) {
    r.delivered == sent && r.producerClosed && r.serverReturned && r.clientClosed && r.consumer == Returned(err)
  }

  // ---------- options ----------

  datatype DeployOpts = DeployOpts(kubeCfgFile: string, trustZoneIds: seq<string>, skipWait: bool)

  /** The options that arrive at the other end of the connection: the request has no field for `skipWait`. */
  function Relayed(opts: DeployOpts): DeployOpts {
    DeployOpts(opts.kubeCfgFile, opts.trustZoneIds, false)
  }
}
