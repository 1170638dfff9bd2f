/**
 * The browser client (src/client/terminal-client.ts) as a state machine: its
 * socket, its requests and its reconnection budget. A step is one callback or one
 * call of the public interface. The user's disconnect handlers run in the middle
 * of the close callback and may call back, so that callback is two steps.
 */
module BrowserModel {
  import opened Common
  import opened PendingModel

  datatype State = Idle | Connecting | Online

  datatype Config = Config(reconnect: bool, maxAttempts: nat)

  /**
   * `closing` is set while disconnect handlers run, to whether a reconnection
   * was decided on before them; `sockets` counts the sockets ever created.
   */
  datatype Client = Client(
    ws: Option<nat>,
    state: State,
    promised: bool,
    attempts: nat,
    timer: bool,
    manualDisconnect: bool,
    isReconnecting: bool,
    closing: Option<bool>,
    sockets: nat,
    requests: Pending)

  const INITIAL: Client := Client(None, Idle, false, 0, false, false, false, None, 0, Pending([], [], 0))

  datatype Event =
    | Connect(refused: bool)                       // `refused`: the socket constructor throws
    | Disconnect
    | Ask(kind: Kind, sendFails: bool)
    | Opened(socket: nat)
    | Errored(socket: nat)
    | Closed(socket: nat)                          // up to the disconnect handlers, if there was anything to announce
    | HandlersDone
    | TimerFires(refused: bool)
    | Reply(kind: Kind, id: Option<nat>, answer: nat)
    | Complaint(id: Option<nat>)
    | Unusable                                     // a message that cannot be parsed or normalised

  predicate FromUser(e: Event) {
    e.Connect? || e.Disconnect? || e.Ask?
  }

  ghost predicate Enabled(c: Client, e: Event) {
    (c.closing.Some? ==> FromUser(e) || e.HandlersDone?) &&
    match e
    case Ask(kind, _) => kind != Other
    case Opened(socket) => socket < c.sockets
    case Errored(socket) => socket < c.sockets
    case Closed(socket) => socket < c.sockets
    case HandlersDone => c.closing.Some?
    case TimerFires(_) => c.timer
    case _ => true
  }

  function StartConnecting(c: Client, refused: bool): Client {
    if c.state == Online || c.promised then c
    else if refused then c.(manualDisconnect := false, state := Idle)
    else c.(manualDisconnect := false, state := Connecting, promised := true, ws := Some(c.sockets),
            sockets := c.sockets + 1)
  }

  function RejectAll(requests: Pending): Pending {
    PendingModel.Step(requests, ConnectionLost)
  }

  function StopConnecting(c: Client): Client {
    var stopped := c.(manualDisconnect := true, timer := false);
    if c.ws.Some? || c.state == Idle then stopped
    else stopped.(state := Idle, requests := RejectAll(c.requests))
  }

  /** Files a request, and withdraws it again when it cannot be sent. */
  function File(requests: Pending, kind: Kind, sendFails: bool): Pending {
    var filed := Add(requests, kind, true);
    if sendFails then Take(filed, Some(filed.order[|requests.order|]), Failed) else filed
  }

  function Chosen(order: seq<Request>, kind: Kind, id: Option<nat>): Option<Request> {
    if id.Some? then
      var named := WithId(order, id.value);
      if named.Some? && named.value.kind == kind then named else None
    else if OfKind(order, kind) == [] then None
    else Some(OfKind(order, kind)[0])
  }

  function ChosenForError(order: seq<Request>, id: Option<nat>): Option<Request> {
    if id.Some? then WithId(order, id.value)
    else if order == [] then None
    else Some(order[0])
  }

  function ShouldReconnect(c: Client, config: Config): bool {
    !c.manualDisconnect && config.reconnect && c.attempts < config.maxAttempts
  }

  function Rescheduled(c: Client, again: bool): Client {
    c.(isReconnecting := c.isReconnecting || again, timer := c.timer || again)
  }

  function Step(c: Client, e: Event, config: Config): Client {
    match e
    case Connect(refused) => StartConnecting(c, refused)
    case Disconnect => StopConnecting(c)
    case Ask(kind, sendFails) =>
      if c.state != Online || c.ws.None? then c
      else c.(requests := File(c.requests, kind, sendFails))
    case Opened(socket) =>
      if c.ws != Some(socket) then c
      else c.(state := Online, promised := false, attempts := 0, isReconnecting := false)
    case Errored(socket) =>
      if c.ws == Some(socket) && c.state == Connecting then c.(state := Idle, promised := false) else c
    case Closed(socket) =>
      if c.ws != Some(socket) then c
      else
        var again := ShouldReconnect(c, config);
        var closed := c.(ws := None, state := Idle, promised := false, requests := RejectAll(c.requests));
        if c.state == Idle then Rescheduled(closed, again) else closed.(closing := Some(again))
    case HandlersDone =>
      if c.closing.Some? then Rescheduled(c.(closing := None), c.closing.value) else c
    case TimerFires(refused) => StartConnecting(c.(timer := false, attempts := c.attempts + 1), refused)
    case Reply(kind, id, answer) =>
      c.(requests := Take(c.requests, Chosen(c.requests.order, kind, id), Answered(answer)))
    case Complaint(id) =>
      c.(requests := Take(c.requests, ChosenForError(c.requests.order, id), Failed))
    case Unusable => c
  }

  // ------------------------------------------------------------------- invariants

  ghost predicate Coherent(c: Client, config: Config) {
    (c.state != Idle ==> c.ws.Some?) &&
    (c.promised <==> c.state == Connecting) &&
    (c.ws.Some? ==> c.ws.value < c.sockets) &&
    c.attempts <= config.maxAttempts &&
    (c.timer || c.closing == Some(true) ==> config.reconnect && c.attempts < config.maxAttempts)
  }

  /** Requests are outstanding only on an open connection; the rest are settled. */
  ghost predicate Conserved(c: Client) {
    Good(c.requests) && (c.requests.order != [] ==> c.state == Online) &&
    forall r :: r in c.requests.order ==> IsWaiting(c.requests.futures, r.key)
  }

  ghost predicate Invariant(c: Client, config: Config) {
    Coherent(c, config) && Conserved(c)
  }

  lemma CoherenceKept(c: Client, e: Event, config: Config)
    requires Coherent(c, config) && Enabled(c, e)
    ensures Coherent(Step(c, e, config), config)
  {
    hide File, RejectAll, Take, Chosen, ChosenForError;
  }

  ghost predicate AllListedWait(s: Pending) {
    Good(s) && forall r :: r in s.order ==> IsWaiting(s.futures, r.key)
  }

  lemma TakeListed(s: Pending, target: Option<Request>, outcome: Outcome)
    requires AllListedWait(s) && outcome != Waiting && (target.Some? ==> target.value in s.order)
    ensures AllListedWait(Take(s, target, outcome))
    ensures forall r :: r in Take(s, target, outcome).order ==> r in s.order
  {
    TakeKeeps(s, target, outcome);
    if target.Some? {
      WithoutMembers(s.order, target.value.key);
    }
  }

  lemma AskListed(s: Pending, kind: Kind, sendFails: bool)
    requires AllListedWait(s) && kind != Other
    ensures AllListedWait(File(s, kind, sendFails))
  {
    AddKeeps(s, kind, true);
    var filed := Add(s, kind, true);
    hide Good;
    if sendFails {
      TakeListed(filed, Some(filed.order[|s.order|]), Failed);
    }
  }

  lemma ChosenListed(order: seq<Request>, kind: Kind, id: Option<nat>)
    ensures var t := Chosen(order, kind, id);
            t.Some? ==> t.value in order && t.value.kind == kind
    ensures var t := ChosenForError(order, id);
            t.Some? ==> t.value in order
  {
    OfKindMembers(order, kind);
    if id.Some? {
      WithIdFinds(order, id.value);
    }
  }

  lemma ConservationKept(c: Client, e: Event, config: Config)
    requires Coherent(c, config) && Conserved(c) && Enabled(c, e)
    ensures Conserved(Step(c, e, config))
  {
    assert AllListedWait(c.requests);
    AllSettledWhenLost(c.requests);
    hide Good, File, Take, Chosen, ChosenForError, PendingModel.Step;
    match e
    case Ask(kind, sendFails) => AskListed(c.requests, kind, sendFails);
    case Reply(kind, id, answer) =>
      ChosenListed(c.requests.order, kind, id);
      TakeListed(c.requests, Chosen(c.requests.order, kind, id), Answered(answer));
    case Complaint(id) =>
      ChosenListed(c.requests.order, Other, id);
      TakeListed(c.requests, ChosenForError(c.requests.order, id), Failed);
    case _ =>
  }

  lemma StepKeepsInvariant(c: Client, e: Event, config: Config)
    requires Invariant(c, config) && Enabled(c, e)
    ensures Invariant(Step(c, e, config), config)
  {
    hide Coherent, Conserved, Step;
    CoherenceKept(c, e, config);
    ConservationKept(c, e, config);
  }

  // ------------------------------------------------------------------------- runs

  ghost predicate IsRun(states: seq<Client>, events: seq<Event>, config: Config) {
    |states| == |events| + 1 && states[0] == INITIAL &&
    forall i :: 0 <= i < |events| ==>
      Enabled(states[i], events[i]) && states[i + 1] == Step(states[i], events[i], config)
  }

  lemma RunStep(states: seq<Client>, events: seq<Event>, config: Config, n: nat)
    requires IsRun(states, events, config) && n < |events|
    ensures Enabled(states[n], events[n]) && states[n + 1] == Step(states[n], events[n], config)
  {}

  /** Every request is outstanding or settled, and the budget of attempts is respected, in every reachable state. */
  lemma {:induction false} InvariantHolds(states: seq<Client>, events: seq<Event>, config: Config, n: nat)
    requires IsRun(states, events, config) && n <= |events|
    ensures Invariant(states[n], config)
  {
    if n > 0 {
      hide Invariant, Step, Enabled;
      RunStep(states, events, config, n - 1);
      InvariantHolds(states, events, config, n - 1);
      StepKeepsInvariant(states[n - 1], events[n - 1], config);
    } else {
      InitiallyInvariant(config);
    }
  }

  lemma InitiallyInvariant(config: Config)
    ensures Invariant(INITIAL, config)
  {}

  // ------------------------------------------------------------ settling requests

  lemma TakeSettlesOnce(s: Pending, target: Option<Request>, outcome: Outcome, key: nat, fate: Outcome)
    requires HasOutcome(s, key, fate) && fate != Waiting
    ensures HasOutcome(Take(s, target, outcome), key, fate)
  {}

  lemma FileSettlesOnce(s: Pending, kind: Kind, sendFails: bool, key: nat, fate: Outcome)
    requires HasOutcome(s, key, fate) && fate != Waiting
    ensures HasOutcome(File(s, kind, sendFails), key, fate)
  {
    var filed := Add(s, kind, true);
    assert HasOutcome(filed, key, fate);
    hide Take;
    TakeSettlesOnce(filed, Some(filed.order[|s.order|]), Failed, key, fate);
  }

  lemma RejectAllSettlesOnce(s: Pending, key: nat, fate: Outcome)
    requires Good(s) && HasOutcome(s, key, fate) && fate != Waiting
    ensures HasOutcome(RejectAll(s), key, fate)
  {
    AllSettledWhenLost(s);
  }

  lemma StepSettlesOnce(c: Client, e: Event, config: Config, key: nat, fate: Outcome)
    requires Good(c.requests) && HasOutcome(c.requests, key, fate) && fate != Waiting
    ensures HasOutcome(Step(c, e, config).requests, key, fate)
  {
    var s := c.requests;
    hide Good, Chosen, ChosenForError, Take, File, RejectAll, HasOutcome;
    RejectAllSettlesOnce(s, key, fate);
    match e
    case Ask(kind, sendFails) => FileSettlesOnce(s, kind, sendFails, key, fate);
    case Reply(kind, id, answer) => TakeSettlesOnce(s, Chosen(s.order, kind, id), Answered(answer), key, fate);
    case Complaint(id) => TakeSettlesOnce(s, ChosenForError(s.order, id), Failed, key, fate);
    case _ =>
  }

  lemma GoodHolds(states: seq<Client>, events: seq<Event>, config: Config, n: nat)
    requires IsRun(states, events, config) && n <= |events|
    ensures Good(states[n].requests)
  {
    InvariantHolds(states, events, config, n);
    assert Conserved(states[n]);
  }

  /** A request is resolved or rejected at most once. */
  lemma {:induction false} SettledOnce(states: seq<Client>, events: seq<Event>, config: Config, i: nat, j: nat,
                                       key: nat, fate: Outcome)
    requires IsRun(states, events, config) && i <= j <= |events|
    requires HasOutcome(states[i].requests, key, fate) && fate != Waiting
    ensures HasOutcome(states[j].requests, key, fate)
    decreases j - i
  {
    hide Step, Enabled, Good, HasOutcome;
    if i < j {
      SettledOnce(states, events, config, i, j - 1, key, fate);
      GoodHolds(states, events, config, j - 1);
      RunStep(states, events, config, j - 1);
      StepSettlesOnce(states[j - 1], events[j - 1], config, key, fate);
    }
  }

  /** A response without id settles the oldest outstanding request of its type, and only that. */
  lemma LegacyReplySettlesOldest(c: Client, kind: Kind, answer: nat, config: Config)
    requires Conserved(c) && OfKind(c.requests.order, kind) != []
    ensures var oldest := OfKind(c.requests.order, kind)[0];
            var after := Step(c, Reply(kind, None, answer), config).requests;
            oldest in c.requests.order && oldest.kind == kind &&
            (forall r :: r in c.requests.order && r.kind == kind ==> oldest.key <= r.key) &&
            after.order == Without(c.requests.order, oldest.key) &&
            oldest.key < |after.futures| && after.futures[oldest.key] == Answered(answer) &&
            after.futures == c.requests.futures[oldest.key := Answered(answer)]
  {
    var order := c.requests.order;
    var queue := OfKind(order, kind);
    OfKindMembers(order, kind);
    OfKindOrdered(order, kind);
    hide OfKind, Without, Ordered;
    assert queue[0] in queue;
    forall r | r in order && r.kind == kind
      ensures queue[0].key <= r.key
    {
      assert r in queue;
      var i :| 0 <= i < |queue| && queue[i] == r;
      if i > 0 {
        OrderedAt(queue, 0, i);
      }
    }
  }

  /** A response that names an outstanding request settles that request alone if it has its type, and nothing otherwise. */
  lemma NamedReplySettlesIff(c: Client, r: Request, kind: Kind, answer: nat, config: Config)
    requires Conserved(c) && r in c.requests.order && r.id.Some?
    ensures var after := Step(c, Reply(kind, r.id, answer), config).requests;
            if r.kind == kind then Concluded(c.requests, after, r.key, Answered(answer)) else after == c.requests
  {
    WithIdFinds(c.requests.order, r.id.value);
    IdsAreUnique(c.requests.order, r, WithId(c.requests.order, r.id.value).value);
    hide Without, Ordered, Listed;
  }

  /** An error that names an outstanding request fails that request alone. */
  lemma NamedComplaintFailsIt(c: Client, r: Request, config: Config)
    requires Conserved(c) && r in c.requests.order && r.id.Some?
    ensures Concluded(c.requests, Step(c, Complaint(r.id), config).requests, r.key, Failed)
  {
    WithIdFinds(c.requests.order, r.id.value);
    IdsAreUnique(c.requests.order, r, WithId(c.requests.order, r.id.value).value);
    hide Without, Ordered, Listed;
  }

  /** An error without an id fails the oldest outstanding request, if there is one. */
  lemma ComplaintFailsOldest(c: Client, config: Config)
    requires Conserved(c)
    ensures var order, after := c.requests.order, Step(c, Complaint(None), config).requests;
      if order == [] then after == c.requests
      else Concluded(c.requests, after, order[0].key, Failed) &&
           forall i :: 0 < i < |order| ==> order[0].key < order[i].key
  {
    forall i | 0 < i < |c.requests.order|
      ensures c.requests.order[0].key < c.requests.order[i].key
    {
      OrderedAt(c.requests.order, 0, i);
    }
    hide Conserved, Good, Without, Ordered;
  }

  /** Responses and errors that name no outstanding request change nothing. */
  lemma UnknownIsIgnored(c: Client, kind: Kind, id: nat, answer: nat, config: Config)
    requires forall r :: r in c.requests.order ==> r.id != Some(id)
    ensures Step(c, Complaint(Some(id)), config) == Step(c, Reply(kind, Some(id), answer), config) == c
  {
    WithIdFinds(c.requests.order, id);
    hide Without, WithId;
  }

  lemma LastWithdrawn(order: seq<Request>, r: Request)
    requires forall other :: other in order ==> other.key != r.key
    ensures Without(order + [r], r.key) == order && (order + [r])[|order|] == r
  {
    assert (order + [r])[..|order|] == order;
    WithoutUnlisted(order, r.key);
    assert Without(order + [r], r.key) == Without(order, r.key) + [];
  }

  lemma FiledFresh(s: Pending, kind: Kind, sendFails: bool)
    requires Good(s)
    ensures var after, r := File(s, kind, sendFails), Request(|s.futures|, kind, Some(s.counter + 1));
      after.counter == s.counter + 1 && (forall other :: other in s.order ==> other.id != r.id) &&
      if sendFails then after.order == s.order && after.futures == s.futures + [Failed]
      else after.order == s.order + [r] && after.futures == s.futures + [Waiting]
  {
    var r := Request(|s.futures|, kind, Some(s.counter + 1));
    LastWithdrawn(s.order, r);
    hide Without, Ordered, Listed;
    assert Add(s, kind, true) == Pending(s.order + [r], s.futures + [Waiting], s.counter + 1);
    assert (s.futures + [Waiting])[|s.futures| := Failed] == s.futures + [Failed];
  }

  /**
   * A request is filed, waiting and with a fresh id, exactly on an open connection; one that
   * cannot be sent fails at once.
   */
  lemma AskFilesIff(c: Client, kind: Kind, sendFails: bool, config: Config)
    requires Conserved(c) && kind != Other
    ensures var s, after := c.requests, Step(c, Ask(kind, sendFails), config).requests;
      var r := Request(|s.futures|, kind, Some(s.counter + 1));
      if c.state != Online || c.ws.None? then after == s
      else after.counter == s.counter + 1 && (forall other :: other in s.order ==> other.id != r.id) &&
           if sendFails then after.order == s.order && after.futures == s.futures + [Failed]
           else after.order == s.order + [r] && after.futures == s.futures + [Waiting]
  {
    FiledFresh(c.requests, kind, sendFails);
    hide File, Conserved;
  }

  lemma {:induction false} WithoutUnlisted(order: seq<Request>, key: nat)
    requires forall r :: r in order ==> r.key != key
    ensures Without(order, key) == order
  {
    if order != [] {
      var init, last := order[..|order| - 1], order[|order| - 1];
      WithoutUnlisted(init, key);
      assert order == init + [last];
    }
  }

  // ---------------------------------------------------------------- reconnection

  /** Timer-driven attempts among the events from `i` up to `j`. */
  ghost function TimersFired(events: seq<Event>, i: nat, j: nat): nat
    requires i <= j <= |events|
  {
    if i == j then 0 else TimersFired(events, i, j - 1) + if events[j - 1].TimerFires? then 1 else 0
  }

  ghost predicate OpensAt(states: seq<Client>, events: seq<Event>, k: nat) {
    k < |events| && k < |states| && events[k].Opened? && states[k].ws == Some(events[k].socket)
  }

  lemma StepCountsAttempts(c: Client, e: Event, config: Config)
    requires !(e.Opened? && c.ws == Some(e.socket))
    ensures Step(c, e, config).attempts == c.attempts + if e.TimerFires? then 1 else 0
  {
    hide File, RejectAll, Take, Chosen, ChosenForError;
  }

  lemma {:induction false} AttemptsCounted(states: seq<Client>, events: seq<Event>, config: Config, i: nat, j: nat)
    requires IsRun(states, events, config) && i <= j <= |events|
    requires forall k :: i <= k < j ==> !OpensAt(states, events, k)
    ensures states[j].attempts == states[i].attempts + TimersFired(events, i, j)
    decreases j - i
  {
    if i < j {
      hide Step, Enabled;
      AttemptsCounted(states, events, config, i, j - 1);
      RunStep(states, events, config, j - 1);
      assert !OpensAt(states, events, j - 1);
      StepCountsAttempts(states[j - 1], events[j - 1], config);
    }
  }

  /** Between two successful opens the timer starts at most `maxAttempts` connections. */
  lemma ReconnectionBudget(states: seq<Client>, events: seq<Event>, config: Config, i: nat, j: nat)
    requires IsRun(states, events, config) && i <= j <= |events|
    requires forall k :: i <= k < j ==> !OpensAt(states, events, k)
    ensures TimersFired(events, i, j) <= config.maxAttempts
  {
    AttemptsCounted(states, events, config, i, j);
    InvariantHolds(states, events, config, j);
    hide IsRun, Conserved, TimersFired;
  }

  /**
   * Only the current socket is listened to. Its opening makes the client connected and restores the
   * whole budget; its end takes the connection and every request with it, and once the
   * handlers are through a reconnection is due exactly if nobody disconnected,
   * reconnection is configured and an attempt is left.
   */
  lemma SocketsAreHeard(c: Client, socket: nat, config: Config)
    requires Invariant(c, config) && !c.timer && c.closing.None?
    ensures c.ws != Some(socket) ==>
      Step(c, Opened(socket), config) == Step(c, Errored(socket), config) == Step(c, Closed(socket), config) == c
    ensures c.ws == Some(socket) ==>
      var online := Step(c, Opened(socket), config);
      online.state == Online && online.attempts == 0 && online.ws == c.ws && online.requests == c.requests
    ensures c.ws == Some(socket) ==>
      var closed := Step(c, Closed(socket), config);
      var after := Step(closed, HandlersDone, config);
      closed.ws == None && closed.state == Idle && closed.requests.order == [] &&
      (forall k: nat :: k < |closed.requests.futures| ==> closed.requests.futures[k] != Waiting) &&
      (after.timer <==> !c.manualDisconnect && config.reconnect && c.attempts < config.maxAttempts) &&
      after.attempts == c.attempts && after.closing.None?
  {
    AllSettledWhenLost(c.requests);
    hide FailAll, Good;
  }

  /** An error of the current socket ends an attempt to connect, and nothing else. */
  lemma ErrorsEndAttempts(c: Client, config: Config)
    requires Invariant(c, config) && c.ws.Some?
    ensures var after := Step(c, Errored(c.ws.value), config);
      after == if c.state == Connecting then c.(state := Idle, promised := false) else c
    ensures c.state == Connecting ==>
      !Step(c, Errored(c.ws.value), config).promised && PastGuard(Step(c, Errored(c.ws.value), config))
  {}

  /**
   * connect() starts a connection of its own unless there is one, or the attempt at one, already; if
   * the socket cannot even be created the client stays disconnected, but reconnection is
   * allowed again.
   */
  lemma ConnectStarts(c: Client, refused: bool, config: Config)
    requires Invariant(c, config)
    ensures var after := Step(c, Connect(refused), config);
      if c.state != Idle then after == c
      else !after.manualDisconnect && after.attempts == c.attempts && after.timer == c.timer &&
           if refused then after.state == Idle && after.sockets == c.sockets && !after.promised
           else after.state == Connecting && after.promised && after.ws == Some(c.sockets) && after.sockets == c.sockets + 1
  {}

  /** The timer spends one attempt, and opens a socket unless the client is connected or connecting already. */
  lemma TimerTries(c: Client, config: Config)
    requires Invariant(c, config) && Enabled(c, TimerFires(false))
    ensures var after := Step(c, TimerFires(false), config);
      after.attempts == c.attempts + 1 <= config.maxAttempts && !after.timer &&
      if c.state == Idle then after.state == Connecting && after.ws == Some(c.sockets) && after.sockets == c.sockets + 1
      else after.state == c.state && after.ws == c.ws && after.sockets == c.sockets
  {}

  ghost predicate NoReconnection(c: Client) {
    c.manualDisconnect && !c.timer && c.closing != Some(true)
  }

  /** connect() gets past its first two lines: it is neither connected nor connecting. */
  predicate PastGuard(c: Client) {
    c.state != Online && !c.promised
  }

  /** A call of connect() that does more than return. */
  predicate Connects(c: Client, e: Event) {
    e.Connect? && PastGuard(c)
  }

  lemma StaysDisconnected(c: Client, e: Event, config: Config)
    requires NoReconnection(c) && Enabled(c, e) && !Connects(c, e)
    ensures NoReconnection(Step(c, e, config)) && Step(c, e, config).sockets == c.sockets
    ensures Step(c, e, config).ws == c.ws || Step(c, e, config).ws == None
  {}

  lemma DisconnectForbids(c: Client, config: Config)
    requires c.closing != Some(true)
    ensures NoReconnection(Step(c, Disconnect, config))
  {}

  /** Without an effective connect() nothing reconnects, no socket is created, and a socket once gone stays gone. */
  lemma {:induction false} DisconnectedStretch(
    states: seq<Client>, events: seq<Event>, config: Config, i: nat, j: nat)
    requires IsRun(states, events, config) && i <= j <= |events| && NoReconnection(states[i])
    requires forall k :: i <= k < j ==> !Connects(states[k], events[k])
    ensures NoReconnection(states[j]) && states[j].sockets == states[i].sockets
    ensures states[j].ws == states[i].ws || states[j].ws == None
    decreases j - i
  {
    hide Enabled, Step, NoReconnection, Connects;
    if i < j {
      DisconnectedStretch(states, events, config, i, j - 1);
      RunStep(states, events, config, j - 1);
      hide IsRun;
      StaysDisconnected(states[j - 1], events[j - 1], config);
    }
  }

  /**
   * After disconnect() no reconnection is ever scheduled until connect() is called
   * and gets past its guard, unless disconnect() was called by a disconnect
   * handler of a close that had already decided to reconnect.
   */
  lemma NoTimerAfterDisconnect(states: seq<Client>, events: seq<Event>, config: Config, i: nat, j: nat)
    requires IsRun(states, events, config) && i < j <= |events| && events[i].Disconnect?
    requires states[i].closing != Some(true) && forall k :: i < k < j ==> !Connects(states[k], events[k])
    ensures !states[j].timer && NoReconnection(states[j])
  {
    RunStep(states, events, config, i);
    DisconnectForbids(states[i], config);
    DisconnectedStretch(states, events, config, i + 1, j);
    hide Step, Enabled, IsRun, Connects;
  }

  // ------------------------------------------------------- connect() after disconnect()

  lemma SocketsOnlyGrow(c: Client, e: Event, config: Config)
    ensures c.sockets <= Step(c, e, config).sockets
  {}

  lemma {:induction false} SocketsGrow(states: seq<Client>, events: seq<Event>, config: Config, i: nat, j: nat)
    requires IsRun(states, events, config) && i <= j <= |events|
    ensures states[i].sockets <= states[j].sockets
    decreases j - i
  {
    hide Enabled, Step;
    if i < j {
      SocketsGrow(states, events, config, i, j - 1);
      RunStep(states, events, config, j - 1);
      SocketsOnlyGrow(states[j - 1], events[j - 1], config);
    }
  }

  lemma ConnectOpensIff(c: Client, config: Config)
    requires Invariant(c, config)
    ensures var after := Step(c, Connect(false), config);
            (PastGuard(c) <==> after.sockets > c.sockets) && (!PastGuard(c) ==> after == c && c.ws.Some?) &&
            (PastGuard(c) ==> !after.manualDisconnect)
  {}

  lemma CloseOfCurrent(c: Client, socket: nat, config: Config)
    requires c.ws == Some(socket) || c.ws == None
    ensures Step(c, Closed(socket), config).ws == None
  {}

  /** No socket, no connection and none to come. */
  ghost predicate Ended(c: Client) {
    c.ws == None && c.state == Idle && NoReconnection(c)
  }

  lemma EndedWithoutSocket(c: Client, config: Config)
    requires Invariant(c, config) && NoReconnection(c) && c.ws == None
    ensures Ended(c)
  {}

  /**
   * Over any run, a connect() called after disconnect() opens a connection exactly when it
   * gets past its guard. When it does not, because the ordered close has not been
   * reported yet, it is lost: nothing reconnects, and once the close is reported
   * the client is and stays disconnected.
   */
  lemma ConnectAfterDisconnectIff(states: seq<Client>, events: seq<Event>, config: Config, i: nat, k: nat, j: nat)
    requires IsRun(states, events, config) && i < k < j <= |events|
    requires events[i].Disconnect? && states[i].closing != Some(true)
    requires events[k] == Connect(false) && forall n :: i < n < j && n != k ==> !events[n].Connect?
    ensures PastGuard(states[k]) <==> states[j].sockets > states[k].sockets
    ensures PastGuard(states[k]) ==> !states[k + 1].manualDisconnect
    ensures !PastGuard(states[k]) ==>
      NoReconnection(states[j]) && states[k].ws.Some? &&
      ((exists n :: k < n < j && events[n] == Closed(states[k].ws.value)) ==> Ended(states[j]))
  {
    InvariantHolds(states, events, config, k);
    InvariantHolds(states, events, config, j);
    RunStep(states, events, config, k);
    ConnectOpensIff(states[k], config);
    SocketsGrow(states, events, config, k + 1, j);
    hide Step, Enabled, PastGuard, Invariant;
    assert forall n :: i < n < j && n != k ==> !Connects(states[n], events[n]);
    if !PastGuard(states[k]) {
      LostConnect(states, events, config, i, k, j);
    }
  }

  lemma LostConnect(states: seq<Client>, events: seq<Event>, config: Config, i: nat, k: nat, j: nat)
    requires IsRun(states, events, config) && i < k < j <= |events|
    requires events[i].Disconnect? && states[i].closing != Some(true)
    requires forall n :: i < n < j ==> !Connects(states[n], events[n])
    ensures NoReconnection(states[j]) && states[j].sockets == states[k].sockets
    ensures states[k].ws.Some? && (exists n :: k < n < j && events[n] == Closed(states[k].ws.value)) ==> Ended(states[j])
  {
    hide Step, Enabled, Connects, NoReconnection, Ended;
    NoTimerAfterDisconnect(states, events, config, i, k);
    DisconnectedStretch(states, events, config, k, j);
    if states[k].ws.Some? && exists n :: k < n < j && events[n] == Closed(states[k].ws.value) {
      var n :| k < n < j && events[n] == Closed(states[k].ws.value);
      DisconnectedStretch(states, events, config, k, n);
      RunStep(states, events, config, n);
      CloseOfCurrent(states[n], states[k].ws.value, config);
      StaysDisconnected(states[n], events[n], config);
      DisconnectedStretch(states, events, config, n + 1, j);
      InvariantHolds(states, events, config, j);
      EndedWithoutSocket(states[j], config);
    }
  }

  // ------------------------------------------------- disconnect() from inside a close

  /** A disconnect() from a disconnect handler is overruled exactly when that close had decided to reconnect. */
  lemma DisconnectOverruledIff(c: Client, config: Config)
    requires Invariant(c, config) && c.closing.Some?
    ensures Step(Step(c, Disconnect, config), HandlersDone, config).timer <==> c.closing == Some(true)
  {}

  /** It happens, whenever reconnection is configured at all: a connection is lost and a handler disconnects. */
  lemma DisconnectIsOverruled(config: Config) returns (states: seq<Client>, events: seq<Event>)
    requires config.reconnect && config.maxAttempts > 0
    ensures IsRun(states, events, config) && |events| == 5
    ensures events[3].Disconnect? && states[5].timer && states[5].manualDisconnect
  {
    events := [Connect(false), Opened(0), Closed(0), Disconnect, HandlersDone];
    var opening := INITIAL.(state := Connecting, promised := true, ws := Some(0), sockets := 1);
    var online := opening.(state := Online, promised := false);
    var lost := INITIAL.(sockets := 1, closing := Some(true));
    var told := lost.(manualDisconnect := true);
    var after := told.(closing := None, isReconnecting := true, timer := true);
    states := [INITIAL, opening, online, lost, told, after];
    assert states[1] == Step(states[0], events[0], config);
    assert states[2] == Step(states[1], events[1], config);
    assert states[3] == Step(states[2], events[2], config);
    assert states[4] == Step(states[3], events[3], config);
    assert states[5] == Step(states[4], events[4], config);
  }

  /** disconnect() finds no connection without a socket: its last branch is never taken. */
  lemma DisconnectNeverStrands(c: Client, config: Config)
    requires Invariant(c, config)
    ensures StopConnecting(c) == c.(manualDisconnect := true, timer := false)
  {}

  /** connect() while an ordered close is under way succeeds at once and changes nothing: the close still wins. */
  lemma ConnectDuringCloseIsLost(c: Client, refused: bool, socket: nat, config: Config)
    requires Invariant(c, config) && c.state == Online && c.closing == None && c.ws == Some(socket)
    ensures var after := Step(Step(Step(c, Disconnect, config), Connect(refused), config), Closed(socket), config);
            after.state == Idle && after.closing == Some(false)
  {}
}
