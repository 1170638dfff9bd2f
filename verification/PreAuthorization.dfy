/**
 * What the server retains of a connection before it is usable
 * (src/server/terminal-server.ts): frames queue up, within limits, while the
 * connection is authorized and the PTY runtime loads, and are dispatched in order.
 */
module PreAuthorization {
  import opened Common

  datatype Config = Config(maxMessageBytes: nat, maxMessages: nat, maxBytes: nat)

  datatype Frame = Frame(serial: nat, bytes: nat)

  /** The connection's promise of readiness. */
  datatype Readiness = Authorizing | Loading | Ready | Failed

  /**
   * `arrived` counts the frames received, which numbers them. `accepted` is every frame put on the
   * queue, of which the first `handled` have been dealt with, and `dispatched`
   * is what of those reached the protocol handler.
   */
  datatype Connection = Connection(
    readiness: Readiness,
    rejected: bool,
    messages: nat,
    bytes: nat,
    arrived: nat,
    accepted: seq<Frame>,
    handled: nat,
    dispatched: seq<Frame>)

  const INITIAL: Connection := Connection(Authorizing, false, 0, 0, 0, [], 0, [])

  datatype Event = Arrive(bytes: nat) | Authorized | Loaded | Fail | HandleNext

  ghost predicate Enabled(c: Connection, e: Event) {
    match e
    case Arrive(_) => true
    case Authorized => c.readiness == Authorizing
    case Loaded => c.readiness == Loading
    case Fail => c.readiness == Authorizing || c.readiness == Loading
    case HandleNext => (c.readiness == Ready || c.readiness == Failed) && c.handled < |c.accepted|
  }

  predicate OverLimit(c: Connection, bytes: nat, config: Config) {
    c.readiness != Ready && (c.messages + 1 > config.maxMessages || c.bytes + bytes > config.maxBytes)
  }

  /** A frame too many ends the wait for authorization, but not the loading after it. */
  function Receive(c: Connection, bytes: nat, config: Config): Connection {
    var frame := Frame(c.arrived, bytes);
    var arrived := c.arrived + 1;
    var messageCount := if c.readiness == Ready then c.messages else c.messages + 1;
    var byteCount := if c.readiness == Ready then c.bytes else c.bytes + bytes;
    if c.rejected then c.(arrived := arrived)
    else if bytes > config.maxMessageBytes then c.(arrived := arrived, rejected := true)
    else if OverLimit(c, bytes, config) then
      c.(arrived := arrived, messages := messageCount, bytes := byteCount, rejected := true,
         readiness := if c.readiness == Authorizing then Failed else c.readiness)
    else c.(arrived := arrived, messages := messageCount, bytes := byteCount, accepted := c.accepted + [frame])
  }

  function Step(c: Connection, e: Event, config: Config): Connection
    requires Enabled(c, e)
  {
    match e
    case Arrive(bytes) => Receive(c, bytes, config)
    case Authorized => c.(readiness := Loading)
    case Loaded => c.(readiness := Ready, messages := 0, bytes := 0)
    case Fail => c.(readiness := Failed)
    case HandleNext =>
      c.(handled := c.handled + 1,
         dispatched := if c.readiness == Ready then c.dispatched + [c.accepted[c.handled]] else c.dispatched)
  }

  function TotalBytes(frames: seq<Frame>): nat {
    if frames == [] then 0 else TotalBytes(frames[..|frames| - 1]) + frames[|frames| - 1].bytes
  }

  /** Frames in order of arrival, each at most once. */
  ghost predicate InOrder(frames: seq<Frame>) {
    forall i, j :: 0 <= i < j < |frames| ==> frames[i].serial < frames[j].serial
  }

  ghost predicate Usable(c: Connection) {
    c.readiness == Ready
  }

  ghost predicate Invariant(c: Connection, config: Config) {
    c.handled <= |c.accepted| &&
    c.dispatched == (if Usable(c) then c.accepted[..c.handled] else []) &&
    (c.readiness == Authorizing || c.readiness == Loading ==> c.handled == 0) &&
    InOrder(c.accepted) &&
    (forall i :: 0 <= i < |c.accepted| ==> c.accepted[i].serial < c.arrived) &&
    (!Usable(c) && !c.rejected ==>
      c.messages == |c.accepted| && c.bytes == TotalBytes(c.accepted)) &&
    (!Usable(c) ==> |c.accepted| <= config.maxMessages && TotalBytes(c.accepted) <= config.maxBytes)
  }

  predicate Accepts(c: Connection, bytes: nat, config: Config) {
    !c.rejected && bytes <= config.maxMessageBytes && !OverLimit(c, bytes, config)
  }

  lemma OneMoreFrame(frames: seq<Frame>, frame: Frame)
    ensures TotalBytes(frames + [frame]) == TotalBytes(frames) + frame.bytes
  {
    assert (frames + [frame])[..|frames|] == frames;
  }

  lemma AcceptKeeps(c: Connection, bytes: nat, config: Config)
    requires Invariant(c, config) && Accepts(c, bytes, config)
    ensures Invariant(Receive(c, bytes, config), config)
  {
    OneMoreFrame(c.accepted, Frame(c.arrived, bytes));
    hide TotalBytes;
  }

  lemma RefuseKeeps(c: Connection, bytes: nat, config: Config)
    requires Invariant(c, config) && !Accepts(c, bytes, config)
    ensures Invariant(Receive(c, bytes, config), config)
  {}

  lemma ReceiveKeeps(c: Connection, bytes: nat, config: Config)
    requires Invariant(c, config)
    ensures Invariant(Receive(c, bytes, config), config)
  {
    hide Invariant, Receive, Accepts;
    if Accepts(c, bytes, config) {
      AcceptKeeps(c, bytes, config);
    } else {
      RefuseKeeps(c, bytes, config);
    }
  }

  lemma StepKeepsInvariant(c: Connection, e: Event, config: Config)
    requires Invariant(c, config) && Enabled(c, e)
    ensures Invariant(Step(c, e, config), config)
  {
    if e.Arrive? {
      ReceiveKeeps(c, e.bytes, config);
    } else if e.HandleNext? {
      assert c.accepted[..c.handled] + [c.accepted[c.handled]] == c.accepted[..c.handled + 1];
    }
  }

  ghost predicate IsRun(states: seq<Connection>, events: seq<Event>, config: Config) {
    |states| == |events| + 1 && states[0] == INITIAL &&
    forall i :: 0 <= i < |events| ==>
      Enabled(states[i], events[i]) && states[i + 1] == Step(states[i], events[i], config)
  }

  lemma RunStep(states: seq<Connection>, events: seq<Event>, config: Config, n: nat)
    requires IsRun(states, events, config) && n < |events|
    ensures Enabled(states[n], events[n]) && states[n + 1] == Step(states[n], events[n], config)
  {}

  lemma {:induction false} InvariantHolds(states: seq<Connection>, events: seq<Event>, config: Config, n: nat)
    requires IsRun(states, events, config) && n <= |events|
    ensures Invariant(states[n], config)
  {
    if n > 0 {
      InvariantHolds(states, events, config, n - 1);
      hide Invariant, Step, Enabled;
      RunStep(states, events, config, n - 1);
      StepKeepsInvariant(states[n - 1], events[n - 1], config);
    }
  }

  /** What is retained before the connection is usable never exceeds either limit. */
  lemma RetentionBounded(states: seq<Connection>, events: seq<Event>, config: Config, n: nat)
    requires IsRun(states, events, config) && n <= |events| && !Usable(states[n])
    ensures |states[n].accepted| <= config.maxMessages && TotalBytes(states[n].accepted) <= config.maxBytes
  {
    InvariantHolds(states, events, config, n);
  }

  /**
   * What has been dispatched is the first so many of the accepted frames, in order
   * of arrival and each once; and nothing at all unless the connection is usable.
   */
  lemma DispatchedInOrder(states: seq<Connection>, events: seq<Event>, config: Config, n: nat)
    requires IsRun(states, events, config) && n <= |events|
    ensures states[n].dispatched <= states[n].accepted && InOrder(states[n].dispatched)
    ensures !Usable(states[n]) ==> states[n].dispatched == []
  {
    InvariantHolds(states, events, config, n);
  }

  ghost predicate AuthorizedBy(events: seq<Event>, n: nat) {
    exists i, j :: 0 <= i < j < n <= |events| && events[i] == Authorized && events[j] == Loaded
  }

  lemma {:induction false} LoadingMeansAuthorized(states: seq<Connection>, events: seq<Event>, config: Config, n: nat)
    requires IsRun(states, events, config) && n <= |events|
    ensures states[n].readiness == Loading || states[n].readiness == Ready ==>
            exists i :: 0 <= i < n && events[i] == Authorized
    ensures states[n].readiness == Ready ==> AuthorizedBy(events, n)
  {
    if n > 0 {
      LoadingMeansAuthorized(states, events, config, n - 1);
      RunStep(states, events, config, n - 1);
      if states[n - 1].readiness == Ready {
        var i, j :| 0 <= i < j < n - 1 && events[i] == Authorized && events[j] == Loaded;
        assert AuthorizedBy(events, n);
      } else if events[n - 1].Authorized? || events[n - 1].Loaded? {
        assert events[n - 1] == if events[n - 1].Authorized? then Authorized else Loaded;
      }
    }
  }

  /** A frame is dispatched only after authorization succeeded and then the PTY runtime loaded. */
  lemma DispatchNeedsReadiness(states: seq<Connection>, events: seq<Event>, config: Config, n: nat)
    requires IsRun(states, events, config) && n <= |events| && states[n].dispatched != []
    ensures AuthorizedBy(events, n)
  {
    InvariantHolds(states, events, config, n);
    LoadingMeansAuthorized(states, events, config, n);
  }

  lemma {:induction false} FailedStaysFailed(
    states: seq<Connection>, events: seq<Event>, config: Config, i: nat, n: nat)
    requires IsRun(states, events, config) && i <= n <= |events| && states[i].readiness == Failed
    ensures states[n].readiness == Failed
    decreases n - i
  {
    if i < n {
      FailedStaysFailed(states, events, config, i, n - 1);
      RunStep(states, events, config, n - 1);
    }
  }

  /** Once readiness has failed nothing is ever dispatched. */
  lemma NothingAfterFailure(states: seq<Connection>, events: seq<Event>, config: Config, i: nat, n: nat)
    requires IsRun(states, events, config) && i <= n <= |events| && states[i].readiness == Failed
    ensures states[n].dispatched == []
  {
    FailedStaysFailed(states, events, config, i, n);
    InvariantHolds(states, events, config, n);
  }

  /** Failed authorization or loading is such a failure: nothing accepted before or after is ever dispatched. */
  lemma FailureDropsAll(states: seq<Connection>, events: seq<Event>, config: Config, i: nat, n: nat)
    requires IsRun(states, events, config) && i < n <= |events| && events[i] == Fail
    ensures states[n].dispatched == []
    ensures forall frames :: CanDispatch(states[n], frames, config) ==> frames == []
  {
    RunStep(states, events, config, i);
    FailedStaysFailed(states, events, config, i + 1, n);
    InvariantHolds(states, events, config, n);
    hide IsRun;
    forall more, d | Leads(states[n], more, d, config)
      ensures d.dispatched == []
    {
      LeadsKeeps(states[n], more, d, config);
    }
  }

  // ------------------------------------------------------------ hitting a limit

  /** A frame over the limits fails readiness itself only while authorization is awaited. */
  lemma OverflowFailsReadinessIff(c: Connection, bytes: nat, config: Config)
    requires !c.rejected && bytes <= config.maxMessageBytes && OverLimit(c, bytes, config)
    ensures var after := Receive(c, bytes, config);
            after.rejected && after.accepted == c.accepted &&
            (after.readiness == Failed <==> c.readiness == Authorizing || c.readiness == Failed)
  {}

  /** From `c`, the events of `more` can happen one after the other and lead to `d`. */
  ghost predicate Leads(c: Connection, more: seq<Event>, d: Connection, config: Config)
    decreases |more|
  {
    if more == [] then d == c
    else Enabled(c, more[0]) && Leads(Step(c, more[0], config), more[1..], d, config)
  }

  lemma {:induction false} LeadsKeeps(c: Connection, more: seq<Event>, d: Connection, config: Config)
    requires Invariant(c, config) && Leads(c, more, d, config)
    ensures Invariant(d, config) && (c.readiness == Failed ==> d.readiness == Failed)
    decreases |more|
  {
    if more != [] {
      StepKeepsInvariant(c, more[0], config);
      hide Invariant;
      LeadsKeeps(Step(c, more[0], config), more[1..], d, config);
    }
  }

  lemma HandleNextDispatches(c: Connection, config: Config)
    requires Invariant(c, config) && c.readiness == Ready && c.handled < |c.accepted|
    ensures var next := Step(c, HandleNext, config);
            Invariant(next, config) && next.readiness == Ready && next.accepted == c.accepted &&
            next.handled == c.handled + 1
  {
    StepKeepsInvariant(c, HandleNext, config);
  }

  /** Dealing with the queued frames one after the other dispatches all of them. */
  lemma {:induction false} QueueIsServed(c: Connection, config: Config) returns (more: seq<Event>, d: Connection)
    requires Invariant(c, config) && c.readiness == Ready
    ensures Leads(c, more, d, config) && d.dispatched == c.accepted
    decreases |c.accepted| - c.handled
  {
    if c.handled == |c.accepted| {
      more, d := [], c;
    } else {
      HandleNextDispatches(c, config);
      var next := Step(c, HandleNext, config);
      hide Invariant, Step;
      more, d := QueueIsServed(next, config);
      more := [HandleNext] + more;
    }
  }

  /** Some continuation from `c` has, in the end, dispatched exactly `frames`. */
  ghost predicate CanDispatch(c: Connection, frames: seq<Frame>, config: Config) {
    exists more, d :: Leads(c, more, d, config) && d.dispatched == frames
  }

  /**
   * In any run, when a frame over the limits arrives while frames are queued: those
   * frames can still be dispatched exactly when authorization has succeeded and
   * the PTY runtime is loading. The frame itself is never accepted.
   */
  lemma OverflowServesQueueIff(states: seq<Connection>, events: seq<Event>, config: Config, i: nat, bytes: nat)
    requires IsRun(states, events, config) && i < |events| && events[i] == Arrive(bytes)
    requires !states[i].rejected && bytes <= config.maxMessageBytes && OverLimit(states[i], bytes, config)
    requires states[i].accepted != []
    ensures states[i + 1].accepted == states[i].accepted
    ensures CanDispatch(states[i + 1], states[i].accepted, config) <==> states[i].readiness == Loading
  {
    var c, after := states[i], states[i + 1];
    RunStep(states, events, config, i);
    InvariantHolds(states, events, config, i + 1);
    OverflowFailsReadinessIff(c, bytes, config);
    hide IsRun;
    if c.readiness == Loading {
      StepKeepsInvariant(after, Loaded, config);
      var more, d := QueueIsServed(Step(after, Loaded, config), config);
      assert Leads(after, [Loaded] + more, d, config);
    } else {
      forall more, d | Leads(after, more, d, config)
        ensures d.dispatched == []
      {
        LeadsKeeps(after, more, d, config);
      }
    }
  }

  /** It happens: one frame accepted, authorization, a frame too many, and then the first is dispatched. */
  lemma DispatchedAfterOverflow(config: Config, bytes: nat) returns (states: seq<Connection>, events: seq<Event>)
    requires config.maxMessages == 1 && bytes <= config.maxMessageBytes && bytes <= config.maxBytes
    ensures IsRun(states, events, config) && |events| == 5
    ensures states[3].rejected && states[3].dispatched == [] && states[5].dispatched == [Frame(0, bytes)]
  {
    var frame := Frame(0, bytes);
    events := [Arrive(bytes), Authorized, Arrive(bytes), Loaded, HandleNext];
    var queued := Connection(Authorizing, false, 1, bytes, 1, [frame], 0, []);
    var loading := queued.(readiness := Loading);
    var refused := loading.(rejected := true, messages := 2, bytes := bytes + bytes, arrived := 2);
    var ready := refused.(readiness := Ready, messages := 0, bytes := 0);
    states := [INITIAL, queued, loading, refused, ready, ready.(handled := 1, dispatched := [frame])];
    assert states[1] == Step(states[0], events[0], config);
    assert states[2] == Step(states[1], events[1], config);
    assert states[3] == Step(states[2], events[2], config);
    assert states[4] == Step(states[3], events[3], config);
    assert states[5] == Step(states[4], events[4], config);
  }

  /** Nothing is accepted any more once a frame has been refused. */
  lemma {:induction false} RefusalIsFinal(states: seq<Connection>, events: seq<Event>, config: Config, i: nat, n: nat)
    requires IsRun(states, events, config) && i <= n <= |events| && states[i].rejected
    ensures states[n].rejected && states[n].accepted == states[i].accepted
    decreases n - i
  {
    if i < n {
      RefusalIsFinal(states, events, config, i, n - 1);
      RunStep(states, events, config, n - 1);
    }
  }

  // -------------------------------------------------------------- what is accepted

  /**
   * A frame is put on the queue exactly when none was refused before, it is no larger than a
   * message may be, and either the connection is ready or what is queued stays within
   * both limits with it. Otherwise this frame and all that follow are refused.
   */
  lemma FrameIsAcceptedIff(c: Connection, bytes: nat, config: Config)
    requires Invariant(c, config)
    ensures var after := Step(c, Arrive(bytes), config);
      var within := |c.accepted| + 1 <= config.maxMessages && TotalBytes(c.accepted) + bytes <= config.maxBytes;
      if !c.rejected && bytes <= config.maxMessageBytes && (c.readiness == Ready || within) then
        after.accepted == c.accepted + [Frame(c.arrived, bytes)] && !after.rejected && after.readiness == c.readiness
      else after.accepted == c.accepted && after.rejected
  {
    hide TotalBytes, InOrder;
  }

  /** Every frame that was accepted is still in its place later. */
  lemma {:induction false} AcceptedStays(states: seq<Connection>, events: seq<Event>, config: Config, i: nat, n: nat)
    requires IsRun(states, events, config) && i <= n <= |events|
    ensures states[i].accepted <= states[n].accepted
    decreases n - i
  {
    if i < n {
      AcceptedStays(states, events, config, i, n - 1);
      RunStep(states, events, config, n - 1);
    }
  }

  /**
   * Once a connection is ready, every frame ever accepted on it can be dispatched, in order and
   * with none left out: those that waited for readiness, and any that came since.
   */
  lemma ReadyServesAll(states: seq<Connection>, events: seq<Event>, config: Config, i: nat, n: nat)
    requires IsRun(states, events, config) && i < n <= |events| && states[n].readiness == Ready
    requires events[i].Arrive? && states[i + 1].accepted != states[i].accepted
    ensures |states[i].accepted| < |states[n].accepted|
    ensures states[n].accepted[|states[i].accepted|] == Frame(states[i].arrived, events[i].bytes)
    ensures CanDispatch(states[n], states[n].accepted, config)
  {
    InvariantHolds(states, events, config, i);
    InvariantHolds(states, events, config, n);
    RunStep(states, events, config, i);
    AcceptedStays(states, events, config, i + 1, n);
    hide IsRun;
    FrameIsAcceptedIff(states[i], events[i].bytes, config);
    hide Step, Invariant;
    var more, d := QueueIsServed(states[n], config);
  }

  /** A frame waiting when authorization succeeds can be dispatched as soon as the runtime has loaded. */
  lemma LoadingServesAll(c: Connection, config: Config)
    requires Invariant(c, config) && c.readiness == Loading
    ensures CanDispatch(c, c.accepted, config)
  {
    StepKeepsInvariant(c, Loaded, config);
    var more, d := QueueIsServed(Step(c, Loaded, config), config);
    assert Leads(c, [Loaded] + more, d, config);
  }

  /** How a frame was dealt with, in the order of the listener's tests. */
  lemma Received(c: Connection, d: Connection, bytes: nat, config: Config)
    requires d == d.(arrived := c.arrived + 1, handled := c.handled, dispatched := c.dispatched)
    requires var counts := !c.rejected && bytes <= config.maxMessageBytes && c.readiness != Ready;
      d.messages == (if counts then c.messages + 1 else c.messages) &&
      d.bytes == (if counts then c.bytes + bytes else c.bytes)
    requires var refused := bytes > config.maxMessageBytes || OverLimit(c, bytes, config);
      (d.rejected <==> c.rejected || refused) &&
      d.accepted == (if d.rejected then c.accepted else c.accepted + [Frame(c.arrived, bytes)])
    requires d.readiness == if !c.rejected && bytes <= config.maxMessageBytes && OverLimit(c, bytes, config) &&
                               c.readiness == Authorizing then Failed else c.readiness
    ensures d == Receive(c, bytes, config)
  {}

  lemma RestGrows(frames: seq<Frame>, handled: nat, frame: Frame)
    requires handled <= |frames|
    ensures frames[handled..] + [frame] == (frames + [frame])[handled..]
  {}

  /** The counters and the queue of one connection, as its listeners update them. */
  class ConnectionQueue {
    const config: Config
    var readiness: Readiness
    var preAuthRejected: bool
    var preAuthMessages: nat
    var preAuthBytes: nat
    var arrived: nat
    /** The frames still to be dealt with. */
    var messageQueue: seq<Frame>
    var dispatched: seq<Frame>
    ghost var accepted: seq<Frame>
    ghost var handled: nat

    ghost function View(): Connection
      reads this
    {
      Connection(readiness, preAuthRejected, preAuthMessages, preAuthBytes, arrived, accepted, handled, dispatched)
    }

    /** The queue holds the accepted frames that have not been handled. */
    ghost predicate QueueIsRest()
      reads this`messageQueue, this`accepted, this`handled
    {
      handled <= |accepted| && messageQueue == accepted[handled..]
    }

    ghost predicate Valid()
      reads this
    {
      Invariant(View(), config) && QueueIsRest()
    }

    constructor (config: Config)
      ensures this.config == config && View() == INITIAL && Valid()
    {
      this.config := config;
      readiness, preAuthRejected, preAuthMessages, preAuthBytes := Authorizing, false, 0, 0;
      arrived, messageQueue, dispatched, accepted, handled := 0, [], [], [], 0;
    }

    /** Counts a frame against the limits; one too many refuses it and all that follow. */
    method CountFrame(bytes: nat) returns (within: bool)
      requires readiness != Ready
      modifies this`preAuthMessages, this`preAuthBytes, this`preAuthRejected, this`readiness
      ensures within <==>
        old(preAuthMessages) + 1 <= config.maxMessages && old(preAuthBytes) + bytes <= config.maxBytes
      ensures preAuthMessages == old(preAuthMessages) + 1 && preAuthBytes == old(preAuthBytes) + bytes
      ensures within ==> preAuthRejected == old(preAuthRejected) && readiness == old(readiness)
      ensures !within ==> preAuthRejected && readiness == if old(readiness) == Authorizing then Failed else old(readiness)
    {
      preAuthMessages := preAuthMessages + 1;
      preAuthBytes := preAuthBytes + bytes;
      within := preAuthMessages <= config.maxMessages && preAuthBytes <= config.maxBytes;
      if !within {
        preAuthRejected := true;
        if readiness == Authorizing {
          readiness := Failed;
        }
      }
    }

    /** Chains one more frame onto the queue. */
    method Enqueue(data: Frame)
      requires QueueIsRest()
      modifies this`messageQueue, this`accepted
      ensures accepted == old(accepted) + [data] && QueueIsRest()
    {
      RestGrows(accepted, handled, data);
      messageQueue := messageQueue + [data];
      accepted := accepted + [data];
    }

    /** Whether a frame is to be kept: no other was refused before, and it passes both tests. */
    method Admit(bytes: nat) returns (kept: bool)
      modifies this`preAuthMessages, this`preAuthBytes, this`preAuthRejected, this`readiness
      ensures kept <==> old(Accepts(View(), bytes, config))
      ensures var counts := old(!preAuthRejected && bytes <= config.maxMessageBytes && readiness != Ready);
        preAuthMessages == old(preAuthMessages) + (if counts then 1 else 0) &&
        preAuthBytes == old(preAuthBytes) + (if counts then bytes else 0)
      ensures preAuthRejected == !kept
      ensures readiness == if old(!preAuthRejected && bytes <= config.maxMessageBytes && readiness == Authorizing) && !kept
                           then Failed else old(readiness)
    {
      if preAuthRejected {
        return false;
      }
      if bytes > config.maxMessageBytes {
        preAuthRejected := true;
        return false;
      }
      kept := true;
      if readiness != Ready {
        kept := CountFrame(bytes);
      }
    }

    method OnMessage(bytes: nat)
      requires Valid()
      modifies this
      ensures Valid() && View() == Receive(old(View()), bytes, config)
    {
      ReceiveKeeps(View(), bytes, config);
      ghost var before := View();
      hide Invariant, QueueIsRest, Receive;
      var data := Frame(arrived, bytes);
      arrived := arrived + 1;
      var kept := Admit(bytes);
      if kept {
        Enqueue(data);
      }
      Received(before, View(), bytes, config);
    }

    /** Authorization ends, then the loading of the PTY runtime. */
    method Advance(succeeds: bool)
      requires Valid() && (readiness == Authorizing || readiness == Loading)
      modifies this
      ensures Valid()
      ensures View() == Step(
        old(View()), if !succeeds then Fail else if old(readiness) == Authorizing then Authorized else Loaded, config)
    {
      StepKeepsInvariant(
        View(), if !succeeds then Fail else if readiness == Authorizing then Authorized else Loaded, config);
      hide Invariant;
      if !succeeds {
        readiness := Failed;
      } else if readiness == Authorizing {
        readiness := Loading;
      } else {
        readiness := Ready;
        preAuthMessages := 0;
        preAuthBytes := 0;
      }
    }

    method HandleOne()
      requires Valid() && (readiness == Ready || readiness == Failed) && messageQueue != []
      modifies this
      ensures old(Enabled(View(), HandleNext)) && Valid() && View() == Step(old(View()), HandleNext, config)
      ensures messageQueue == old(messageQueue)[1..]
    {
      StepKeepsInvariant(View(), HandleNext, config);
      hide Invariant;
      if readiness == Ready {
        dispatched := dispatched + [messageQueue[0]];
      }
      messageQueue := messageQueue[1..];
      handled := handled + 1;
    }
  }
}
