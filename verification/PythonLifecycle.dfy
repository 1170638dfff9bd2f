/**
 * The Python client's connection life cycle (bindings/python/lit_shell/client.py)
 * as a state machine. Each step is one stretch of code between two awaits; the
 * environment may interleave the stretches in any order they allow.
 */
module PythonLifecycle {
  import opened Common

  datatype Callback = Connected | Disconnected

  /** Who holds the connect lock, how far it has come, and the generation it started in. */
  datatype Holder =
    | Nobody
    | Dialing(generation: nat, socket: Option<nat>)
    | Dialed(generation: nat)
    | Recovering(generation: nat)

  /**
   * `dialled` counts the sockets ever opened and `closed` lists those handed over
   * for closing; `callbacks` is all that the user's handlers were told.
   */
  datatype Client = Client(
    ws: Option<nat>,
    connected: bool,
    serverInfo: bool,
    announced: bool,
    disconnectNotified: bool,
    disconnectRequested: bool,
    generation: nat,
    recovering: bool,
    recoveryPending: bool,
    session: bool,
    holder: Holder,
    dialled: nat,
    closed: seq<nat>,
    callbacks: seq<Callback>)

  const INITIAL: Client :=
    Client(None, false, false, false, true, false, 0, false, false, false, Nobody, 0, [], [])

  datatype Event =
    | ConnectCalled                  // connect() up to its first await
    | Acquire(generation: nat)       // the lock is granted to a caller that read this generation
    | SocketOpened                   // the dialing task has a socket and waits for the handshake
    | DialSucceeds
    | DialFails
    | Deliver                        // the lock holder resumes after its dialing task succeeded
    | RecoveryReturns(refused: bool)
    | RecoveryRaises
    | HolderCancelled
    | AbandonUnannounced             // a cancelled connect() cleans up
    | Disconnect                     // disconnect() up to its first await
    | RemoteLost(socket: nat)
    | SessionEstablished
    | SessionCleared
    | InfoReceived

  predicate TransportOpen(c: Client) {
    c.connected && c.ws.Some?
  }

  predicate IsConnected(c: Client) {
    TransportOpen(c) && c.announced && !c.recovering
  }

  predicate Stale(c: Client, generation: nat) {
    c.disconnectRequested || generation != c.generation
  }

  /** Those already handed over for closing, and `socket`. */
  function Closing(c: Client, socket: Option<nat>): seq<nat> {
    if socket.Some? then c.closed + [socket.value] else c.closed
  }

  function NotifyDisconnectOnce(c: Client): Client {
    if c.disconnectNotified then c
    else c.(disconnectNotified := true, callbacks := c.callbacks + [Disconnected])
  }

  /** The end of completing a connection: announce it, unless it has gone stale or away. */
  function Announce(c: Client, generation: nat): Client {
    var released := c.(holder := Nobody);
    if Stale(c, generation) || !TransportOpen(c) then released
    else released.(announced := true, disconnectNotified := false, callbacks := c.callbacks + [Connected])
  }

  function Complete(c: Client, generation: nat): Client {
    if !c.recoveryPending then Announce(c, generation)
    else if c.session then c.(recovering := true, holder := Recovering(generation))
    else Announce(c.(recoveryPending := false, recovering := false), generation)
  }

  function Locked(c: Client, generation: nat): Client {
    if TransportOpen(c) && c.serverInfo then if c.announced then c else Complete(c, generation)
    else c.(holder := Dialing(generation, None))
  }

  function Install(c: Client): Client
    requires c.holder.Dialing? && c.holder.socket.Some?
  {
    c.(serverInfo := true, ws := c.holder.socket, announced := false, recovering := c.recoveryPending,
       connected := true, holder := Dialed(c.holder.generation))
  }

  function Clear(c: Client): Client {
    c.(session := false, recoveryPending := false)
  }

  /** What an explicit disconnect, a remote loss and an abandonment have in common. */
  function TearDown(c: Client): Client {
    c.(closed := Closing(c, c.ws), connected := false, announced := false, recovering := false, ws := None,
       serverInfo := false)
  }

  function Release(c: Client): Client {
    c.(holder := Nobody,
       closed := if c.holder.Dialing? then Closing(c, c.holder.socket) else c.closed,
       recovering := c.recovering && !c.holder.Recovering?)
  }

  function Abandon(c: Client): Client {
    if c.announced || !TransportOpen(c) then c else TearDown(c).(recoveryPending := c.session)
  }

  function DisconnectNow(c: Client): Client {
    var torn := Clear(TearDown(c.(disconnectRequested := true, generation := c.generation + 1)));
    if c.connected || c.ws.Some? then NotifyDisconnectOnce(torn) else torn
  }

  function Lose(c: Client, socket: nat): Client {
    if c.ws != Some(socket) then c else NotifyDisconnectOnce(TearDown(c).(recoveryPending := c.session))
  }

  ghost predicate Enabled(c: Client, e: Event) {
    match e
    case Acquire(generation) => c.holder == Nobody && generation <= c.generation
    case SocketOpened => c.holder.Dialing? && c.holder.socket.None?
    case DialSucceeds => c.holder.Dialing? && c.holder.socket.Some? && !Stale(c, c.holder.generation)
    case DialFails => c.holder.Dialing?
    case Deliver => c.holder.Dialed?
    case RecoveryReturns(_) => c.holder.Recovering?
    case RecoveryRaises => c.holder.Recovering? && !TransportOpen(c)
    case HolderCancelled => c.holder != Nobody
    case _ => true
  }

  function Step(c: Client, e: Event): Client
    requires Enabled(c, e)
  {
    match e
    case ConnectCalled => c.(disconnectRequested := false)
    case Acquire(generation) => Locked(c, generation)
    case SocketOpened => c.(holder := Dialing(c.holder.generation, Some(c.dialled)), dialled := c.dialled + 1)
    case DialSucceeds => Install(c)
    case DialFails => Release(c)
    case Deliver =>
      if Stale(c, c.holder.generation) then Release(c) else Complete(c, c.holder.generation)
    case RecoveryReturns(refused) =>
      Announce((if refused then Clear(c) else c).(recovering := false), c.holder.generation)
    case RecoveryRaises => Release(c.(recoveryPending := c.recoveryPending || c.session))
    case HolderCancelled => Release(c)
    case AbandonUnannounced => Abandon(c)
    case Disconnect => DisconnectNow(c)
    case RemoteLost(socket) => Lose(c, socket)
    case SessionEstablished => c.(session := true, recoveryPending := false)
    case SessionCleared => Clear(c)
    case InfoReceived => c.(serverInfo := true)
  }

  // ------------------------------------------------------------------- invariants

  /** Connected first, then strictly in turn. */
  ghost predicate Alternates(callbacks: seq<Callback>) {
    forall i :: 0 <= i < |callbacks| ==> (callbacks[i] == Connected <==> i % 2 == 0)
  }

  ghost predicate Consistent(c: Client) {
    (c.connected <==> c.ws.Some?) &&
    (c.announced ==> TransportOpen(c)) &&
    (c.announced <==> !c.disconnectNotified) &&
    (TransportOpen(c) ==> c.serverInfo) &&
    (c.holder.Dialing? ==> !TransportOpen(c)) &&
    (c.holder != Nobody ==> !c.announced && c.holder.generation <= c.generation) &&
    (c.recoveryPending ==> c.session)
  }

  ghost predicate InTurn(c: Client) {
    Alternates(c.callbacks) && (c.announced <==> |c.callbacks| % 2 == 1)
  }

  ghost predicate InHand(c: Client, socket: nat) {
    c.ws == Some(socket) || (c.holder.Dialing? && c.holder.socket == Some(socket))
  }

  /** Every socket ever opened is in use or has been closed exactly once; no other was closed. */
  ghost predicate SocketsAccounted(c: Client) {
    forall socket: nat ::
      multiset(c.closed)[socket] == if socket < c.dialled && !InHand(c, socket) then 1 else 0
  }

  ghost predicate SocketsReal(c: Client) {
    forall socket: nat :: InHand(c, socket) ==> socket < c.dialled
  }

  ghost predicate Invariant(c: Client) {
    Consistent(c) && InTurn(c) && SocketsAccounted(c) && SocketsReal(c)
  }

  /** Steps that may complete a connection; the others are shorter. */
  predicate Completing(e: Event) {
    e.Acquire? || e.Deliver? || e.RecoveryReturns?
  }

  function AttemptGeneration(c: Client, e: Event): nat
    requires Enabled(c, e) && Completing(e)
  {
    if e.Acquire? then e.generation else c.holder.generation
  }

  lemma AnnounceKeeps(c: Client, generation: nat)
    requires Consistent(c) && !c.announced
    ensures Consistent(Announce(c, generation))
    ensures InTurn(c) ==> InTurn(Announce(c, generation))
  {}

  lemma CompleteKeeps(c: Client, generation: nat)
    requires Consistent(c) && !c.announced && generation <= c.generation && !c.holder.Dialing?
    ensures Consistent(Complete(c, generation))
    ensures InTurn(c) ==> InTurn(Complete(c, generation))
  {}

  lemma CompletingKeeps(c: Client, e: Event)
    requires Consistent(c) && InTurn(c) && Enabled(c, e) && Completing(e)
    ensures Consistent(Step(c, e)) && InTurn(Step(c, e))
  {
    hide Complete, Announce, Alternates, Stale;
    match e
    case Acquire(generation) =>
      if TransportOpen(c) && c.serverInfo && !c.announced {
        CompleteKeeps(c, generation);
      }
    case Deliver => CompleteKeeps(c, c.holder.generation);
    case RecoveryReturns(refused) =>
      AnnounceKeeps((if refused then Clear(c) else c).(recovering := false), c.holder.generation);
  }

  predicate Losing(e: Event) {
    e.Disconnect? || e.RemoteLost? || e.AbandonUnannounced?
  }

  lemma LosingKeeps(c: Client, e: Event)
    requires Consistent(c) && InTurn(c) && Losing(e)
    ensures Consistent(Step(c, e)) && InTurn(Step(c, e))
  {}

  lemma OtherStepsKeep(c: Client, e: Event)
    requires Consistent(c) && InTurn(c) && Enabled(c, e) && !Completing(e) && !Losing(e)
    ensures Consistent(Step(c, e)) && InTurn(Step(c, e))
  {}

  // -------------------------------------------------------------------- sockets

  /** Nothing was dialled or closed, and the same sockets are in use. */
  ghost predicate SameSockets(c: Client, d: Client) {
    d.closed == c.closed && d.dialled == c.dialled && forall socket: nat :: InHand(d, socket) <==> InHand(c, socket)
  }

  /** The one socket in use, if any, was closed. */
  ghost predicate HandEmptied(c: Client, d: Client) {
    d.dialled == c.dialled && (forall socket: nat :: !InHand(d, socket)) &&
    exists socket: nat :: InHand(c, socket) && (forall other: nat :: InHand(c, other) ==> other == socket) &&
                          d.closed == c.closed + [socket]
  }

  lemma SameSocketsKept(c: Client, d: Client)
    requires SocketsAccounted(c) && SocketsReal(c) && SameSockets(c, d)
    ensures SocketsAccounted(d) && SocketsReal(d)
  {}

  lemma HandEmptiedKept(c: Client, d: Client)
    requires SocketsAccounted(c) && SocketsReal(c) && HandEmptied(c, d)
    ensures SocketsAccounted(d) && SocketsReal(d)
  {}

  lemma TearDownEmptiesHand(c: Client, d: Client)
    requires Consistent(c) && c.ws.Some?
    requires d.ws == None && d.holder == c.holder && d.dialled == c.dialled && d.closed == c.closed + [c.ws.value]
    ensures HandEmptied(c, d)
  {}

  lemma ReleaseSockets(c: Client)
    requires Consistent(c)
    ensures SameSockets(c, Release(c)) || HandEmptied(c, Release(c))
  {}

  lemma CompletingSockets(c: Client, e: Event)
    requires Consistent(c) && Enabled(c, e) && Completing(e)
    ensures SameSockets(c, Step(c, e))
  {}

  lemma SocketsKept(c: Client, e: Event)
    requires Consistent(c) && SocketsAccounted(c) && SocketsReal(c) && Enabled(c, e)
    ensures SocketsAccounted(Step(c, e)) && SocketsReal(Step(c, e))
  {
    var d := Step(c, e);
    if Completing(e) {
      CompletingSockets(c, e);
      SameSocketsKept(c, d);
    } else if e.SocketOpened? {
    } else if (e.Disconnect? || (e.RemoteLost? && c.ws == Some(e.socket)) ||
               (e.AbandonUnannounced? && !c.announced)) && c.ws.Some? {
      TearDownEmptiesHand(c, d);
      HandEmptiedKept(c, d);
    } else if e.DialFails? || e.RecoveryRaises? || e.HolderCancelled? {
      ReleaseSockets(c);
      hide SocketsAccounted, SocketsReal;
      if SameSockets(c, Release(c)) {
        SameSocketsKept(c, d);
      } else {
        HandEmptiedKept(c, d);
      }
    } else {
      SameSocketsKept(c, d);
    }
  }

  lemma StepKeepsInvariant(c: Client, e: Event)
    requires Invariant(c) && Enabled(c, e)
    ensures Invariant(Step(c, e))
  {
    hide Consistent, InTurn, SocketsAccounted, SocketsReal, Step;
    if Completing(e) {
      CompletingKeeps(c, e);
    } else if Losing(e) {
      LosingKeeps(c, e);
    } else {
      OtherStepsKeep(c, e);
    }
    SocketsKept(c, e);
  }

  // ------------------------------------------------------------------------- runs

  ghost predicate IsRun(states: seq<Client>, events: seq<Event>) {
    |states| == |events| + 1 && states[0] == INITIAL &&
    forall i :: 0 <= i < |events| ==> Enabled(states[i], events[i]) && states[i + 1] == Step(states[i], events[i])
  }

  /**
   * In every interleaving: the callbacks alternate starting with connect, an
   * announced connection is open and owes exactly one disconnect callback, and
   * every socket dialled is in use or has been closed once.
   */
  lemma {:induction false} InvariantHolds(states: seq<Client>, events: seq<Event>, n: nat)
    requires IsRun(states, events) && n <= |events|
    ensures Invariant(states[n])
  {
    if n > 0 {
      InvariantHolds(states, events, n - 1);
      hide Invariant, Step;
      assert Enabled(states[n - 1], events[n - 1]) && states[n - 1 + 1] == Step(states[n - 1], events[n - 1]);
      StepKeepsInvariant(states[n - 1], events[n - 1]);
    }
  }

  /** Between two calls of connect and disconnect nothing is announced to the user. */
  ghost predicate Quiet(c: Client, callbacks: seq<Callback>) {
    c.disconnectRequested && !c.announced && c.disconnectNotified && c.callbacks == callbacks
  }

  lemma CompletingStaysQuiet(c: Client, e: Event, callbacks: seq<Callback>)
    requires Enabled(c, e) && Quiet(c, callbacks) && Completing(e)
    ensures Quiet(Step(c, e), callbacks)
  {}

  lemma LosingStaysQuiet(c: Client, e: Event, callbacks: seq<Callback>)
    requires Quiet(c, callbacks) && Losing(e)
    ensures Quiet(Step(c, e), callbacks)
  {}

  lemma StepStaysQuiet(c: Client, e: Event, callbacks: seq<Callback>)
    requires Enabled(c, e) && Quiet(c, callbacks) && !e.ConnectCalled?
    ensures Quiet(Step(c, e), callbacks)
  {
    if Completing(e) {
      CompletingStaysQuiet(c, e, callbacks);
      hide Step;
    } else if Losing(e) {
      LosingStaysQuiet(c, e, callbacks);
      hide Step;
    } else {
      OthersTellNothing(c, e);
    }
  }

  /**
   * After disconnect() no handler is called again, whatever attempts, recoveries
   * and losses were under way, until connect() is called.
   */
  lemma {:induction false} SilentAfterDisconnect(states: seq<Client>, events: seq<Event>, i: nat, j: nat)
    requires IsRun(states, events) && i < j <= |events|
    requires events[i] == Disconnect && forall k :: i < k < j ==> !events[k].ConnectCalled?
    ensures Quiet(states[j], states[i + 1].callbacks)
    decreases j - i
  {
    hide Step, Quiet, Invariant;
    assert Enabled(states[j - 1], events[j - 1]) && states[j - 1 + 1] == Step(states[j - 1], events[j - 1]);
    if j == i + 1 {
      InvariantHolds(states, events, i);
      DisconnectQuiets(states[i]);
    } else {
      SilentAfterDisconnect(states, events, i, j - 1);
      StepStaysQuiet(states[j - 1], events[j - 1], states[i + 1].callbacks);
    }
  }

  lemma DisconnectQuiets(c: Client)
    requires Invariant(c)
    ensures Quiet(Step(c, Disconnect), Step(c, Disconnect).callbacks)
  {}

  ghost predicate Holds(c: Client, socket: nat) {
    c.announced && c.ws == Some(socket)
  }

  ghost predicate Ends(e: Event, socket: nat) {
    e.Disconnect? || e == RemoteLost(socket)
  }

  lemma StepKeepsHeld(c: Client, e: Event, socket: nat)
    requires Invariant(c) && Enabled(c, e) && Holds(c, socket) && !Ends(e, socket)
    ensures Holds(Step(c, e), socket)
  {}

  /**
   * An announced connection ends only with disconnect() or with the loss of its
   * own socket: not with the loss of an older one, nor with any dialling,
   * recovery, cancellation or clean-up of another caller.
   */
  lemma {:induction false} OnlyItsOwnLossEndsIt(states: seq<Client>, events: seq<Event>, i: nat, j: nat, socket: nat)
    requires IsRun(states, events) && i <= j <= |events| && Holds(states[i], socket)
    requires forall k :: i <= k < j ==> !Ends(events[k], socket)
    ensures Holds(states[j], socket)
    decreases j - i
  {
    hide Step, Holds, Invariant, Ends;
    if i < j {
      OnlyItsOwnLossEndsIt(states, events, i, j - 1, socket);
      InvariantHolds(states, events, j - 1);
      assert Enabled(states[j - 1], events[j - 1]) && states[j - 1 + 1] == Step(states[j - 1], events[j - 1]);
      hide Enabled;
      StepKeepsHeld(states[j - 1], events[j - 1], socket);
    }
  }

  lemma AnnounceIsCurrent(c: Client, generation: nat)
    ensures Announce(c, generation).callbacks == c.callbacks ||
            (!Stale(c, generation) && Announce(c, generation).callbacks == c.callbacks + [Connected])
  {}

  lemma CompleteIsCurrent(c: Client, generation: nat)
    ensures Complete(c, generation).callbacks == c.callbacks ||
            (!Stale(c, generation) && Complete(c, generation).callbacks == c.callbacks + [Connected])
  {}

  lemma CompletingIsCurrent(c: Client, e: Event)
    requires Enabled(c, e) && Completing(e)
    ensures Step(c, e).callbacks == c.callbacks ||
            (!Stale(c, AttemptGeneration(c, e)) && Step(c, e).callbacks == c.callbacks + [Connected])
  {
    hide Announce, Complete, TransportOpen;
    if e.RecoveryReturns? {
      AnnounceIsCurrent((if e.refused then Clear(c) else c).(recovering := false), c.holder.generation);
    } else {
      CompleteIsCurrent(c, AttemptGeneration(c, e));
    }
  }

  lemma LosingOnlyDisconnects(c: Client, e: Event)
    requires Losing(e)
    ensures Step(c, e).callbacks == c.callbacks || Step(c, e).callbacks == c.callbacks + [Disconnected]
  {
    hide TransportOpen;
    match e
    case Disconnect => assert DisconnectNow(c).callbacks == TearDown(c).callbacks ||
                              DisconnectNow(c).callbacks == TearDown(c).callbacks + [Disconnected];
    case RemoteLost(socket) =>
    case AbandonUnannounced =>
  }

  lemma ReleaseTellsNothing(c: Client)
    ensures Release(c).callbacks == c.callbacks
  {}

  predicate Releasing(e: Event) {
    e.DialFails? || e.RecoveryRaises? || e.HolderCancelled?
  }

  lemma ReleasingTellsNothing(c: Client, e: Event)
    requires Enabled(c, e) && Releasing(e)
    ensures Step(c, e).callbacks == c.callbacks
  {
    if e.RecoveryRaises? {
      ReleaseTellsNothing(c.(recoveryPending := c.recoveryPending || c.session));
    } else {
      ReleaseTellsNothing(c);
    }
  }

  lemma DiallingTellsNothing(c: Client, e: Event)
    requires Enabled(c, e) && (e.SocketOpened? || e.DialSucceeds?)
    ensures Step(c, e).callbacks == c.callbacks
  {}

  lemma OthersTellNothing(c: Client, e: Event)
    requires Enabled(c, e) && !Completing(e) && !Losing(e)
    ensures Step(c, e).callbacks == c.callbacks
  {
    if Releasing(e) {
      ReleasingTellsNothing(c, e);
      hide Step;
    } else if e.SocketOpened? || e.DialSucceeds? {
      DiallingTellsNothing(c, e);
      hide Step;
    }
  }

  /** A connect callback is only ever given by an attempt of the current generation. */
  lemma AnnouncedByCurrentGeneration(c: Client, e: Event)
    requires Enabled(c, e) && Step(c, e).callbacks == c.callbacks + [Connected]
    ensures Completing(e) && !Stale(c, AttemptGeneration(c, e))
  {
    hide Step, Stale;
    assert (c.callbacks + [Connected])[|c.callbacks|] == Connected;
    assert (c.callbacks + [Disconnected])[|c.callbacks|] == Disconnected;
    if Completing(e) {
      CompletingIsCurrent(c, e);
    } else if Losing(e) {
      LosingOnlyDisconnects(c, e);
    } else {
      OthersTellNothing(c, e);
    }
  }

  // ------------------------------------------------------- what is announced, and when

  /** What must still come before the attempt that `e` resumes may be announced. */
  predicate RecoveryFirst(c: Client, e: Event) {
    !e.RecoveryReturns? && c.recoveryPending
  }

  /** `e` brings an attempt to the point where its connection is complete but for a recovery. */
  predicate Completes(c: Client, e: Event)
    requires Enabled(c, e)
  {
    Completing(e) && c.connected && c.ws.Some? && !c.announced &&
    !(e.Deliver? && (c.disconnectRequested || c.holder.generation != c.generation))
  }

  /**
   * A session that was lost with its connection is recovered before the new one is announced:
   * the attempt waits for the recovery, marked as recovering, and tells nobody anything.
   */
  lemma RecoveryComesFirst(c: Client, e: Event)
    requires Invariant(c) && Enabled(c, e) && c.recoveryPending
    requires if e.Deliver? then !c.disconnectRequested && c.holder.generation == c.generation
             else e.Acquire? && c.connected && !c.announced
    ensures var after := Step(c, e);
      after.holder == Recovering(AttemptGeneration(c, e)) && after.recovering && after.session &&
      after.recoveryPending && !after.announced && after.callbacks == c.callbacks && after.ws == c.ws
  {
    hide InTurn, SocketsAccounted, SocketsReal;
  }

  /**
   * A connection is announced exactly when its attempt is complete, current, and has no recovery
   * ahead of it; the connect callback is the one thing that is told.
   */
  lemma AnnouncesIff(c: Client, e: Event)
    requires Invariant(c) && Enabled(c, e)
    ensures var after := Step(c, e);
      var generation := if Completing(e) then AttemptGeneration(c, e) else 0;
      var announces := Completes(c, e) && !RecoveryFirst(c, e) && !c.disconnectRequested && generation == c.generation;
      (announces ==> after.announced && after.callbacks == c.callbacks + [Connected]) &&
      (!announces ==> (after.announced ==> c.announced) && after.callbacks != c.callbacks + [Connected])
  {
    assert Consistent(c);
    if Completing(e) {
      hide InTurn, SocketsAccounted, SocketsReal;
    } else {
      if Losing(e) {
        LosingOnlyDisconnects(c, e);
      } else {
        OthersTellNothing(c, e);
      }
      assert (c.callbacks + [Connected])[|c.callbacks|] == Connected;
      assert (c.callbacks + [Disconnected])[|c.callbacks|] == Disconnected;
      OnlyCompletingAnnounces(c, e);
      hide Step, InTurn, SocketsAccounted, SocketsReal;
    }
  }

  lemma LosingAnnouncesNothing(c: Client, e: Event)
    requires Losing(e)
    ensures Step(c, e).announced ==> c.announced
  {}

  lemma OnlyCompletingAnnounces(c: Client, e: Event)
    requires Enabled(c, e) && !Completing(e)
    ensures Step(c, e).announced ==> c.announced
  {
    if Losing(e) {
      LosingAnnouncesNothing(c, e);
      hide Step;
    } else {
      hide TransportOpen, Closing;
    }
  }

  /**
   * However a recovery ends the lock is free and nothing counts as recovering any more; a session
   * that the server refused to give back is forgotten, and one whose recovery was
   * interrupted is still to be recovered.
   */
  lemma RecoveryEnds(c: Client, refused: bool)
    requires Invariant(c) && c.holder.Recovering?
    ensures var after := Step(c, RecoveryReturns(refused));
      after.holder == Nobody && !after.recovering && after.session == (c.session && !refused) &&
      after.recoveryPending == (c.recoveryPending && !refused) && (after.announced ==> IsConnected(after))
    ensures !TransportOpen(c) ==>
      var after := Step(c, RecoveryRaises);
      after.holder == Nobody && !after.recovering && after.session == c.session &&
      after.recoveryPending == c.session && after.callbacks == c.callbacks
    ensures var after := Step(c, HolderCancelled);
      after.holder == Nobody && !after.recovering && after.session == c.session &&
      after.recoveryPending == c.recoveryPending && after.callbacks == c.callbacks
  {
    hide InTurn, SocketsAccounted, SocketsReal;
  }

  /**
   * Losing the current connection, or disconnecting, ends it; the user is told so exactly if the
   * connection had been announced. A lost session stays to be recovered, unless the
   * user asked to disconnect. The loss of any other socket is nobody's business.
   */
  lemma LossIsToldIff(c: Client, socket: nat)
    requires Invariant(c)
    ensures var told := if c.announced then c.callbacks + [Disconnected] else c.callbacks;
      var lost, left := Step(c, RemoteLost(socket)), Step(c, Disconnect);
      !left.connected && left.ws == None && left.callbacks == told && !left.session && !left.recoveryPending &&
      left.generation == c.generation + 1 && left.disconnectRequested && !left.announced &&
      if c.ws != Some(socket) then lost == c
      else !lost.connected && lost.ws == None && lost.callbacks == told && !lost.announced &&
           lost.session == c.session && lost.recoveryPending == c.session && lost.generation == c.generation
  {
    hide InTurn, SocketsAccounted, SocketsReal;
  }

  /** A dial that succeeds puts its own socket in place, unannounced; one that fails leaves the client without any. */
  lemma DialOutcome(c: Client)
    requires Invariant(c) && c.holder.Dialing?
    ensures Enabled(c, DialFails) && var failed := Step(c, DialFails);
      failed.holder == Nobody && failed.ws == c.ws && failed.callbacks == c.callbacks
    ensures Enabled(c, DialSucceeds) ==>
      var up := Step(c, DialSucceeds);
      TransportOpen(up) && up.ws == c.holder.socket && up.serverInfo && !up.announced &&
      up.holder == Dialed(c.holder.generation) && up.callbacks == c.callbacks
  {
    hide InTurn, SocketsAccounted, SocketsReal;
  }

  /** A cancelled connect() closes what it opened unless that was announced; a session on it is still to be recovered. */
  lemma AbandonmentIsSilent(c: Client)
    requires Invariant(c)
    ensures var after := Step(c, AbandonUnannounced);
      if c.announced || !c.connected then after == c
      else !after.connected && after.ws == None && after.callbacks == c.callbacks && !after.announced &&
           after.session == c.session && after.recoveryPending == c.session && after.generation == c.generation
  {
    hide InTurn, SocketsAccounted, SocketsReal;
  }

  /**
   * Whatever happened before, disconnect() included: from a client at rest a call of connect() can
   * lead to a connection that is announced and usable.
   */
  lemma ConnectCanSucceed(c: Client) returns (d: Client)
    requires Invariant(c) && c.holder == Nobody && !c.connected && !c.recoveryPending
    ensures var called := Step(c, ConnectCalled);
      var locked := Step(called, Acquire(c.generation));
      Enabled(locked, SocketOpened) &&
      var open := Step(locked, SocketOpened);
      Enabled(open, DialSucceeds) &&
      var up := Step(open, DialSucceeds);
      Enabled(up, Deliver) && d == Step(up, Deliver)
    ensures IsConnected(d) && d.callbacks == c.callbacks + [Connected]
  {
    hide InTurn, SocketsAccounted, SocketsReal;
    d := Step(Step(Step(Step(Step(c, ConnectCalled), Acquire(c.generation)), SocketOpened), DialSucceeds), Deliver);
  }

  /** An attempt of an earlier generation, or one that came before disconnect(), gives up the lock and does nothing more. */
  lemma StaleAttemptGivesUp(c: Client)
    requires Invariant(c) && c.holder.Dialed? && (c.disconnectRequested || c.holder.generation != c.generation)
    ensures Step(c, Deliver) == c.(holder := Nobody)
  {
    hide InTurn, SocketsAccounted, SocketsReal;
  }

  /** A session that is established needs no recovery: the next attempt announces its connection at once. */
  lemma EstablishedNeedsNoRecovery(c: Client, e: Event)
    requires Invariant(c) && c.holder.Dialed? && !c.disconnectRequested && c.holder.generation == c.generation
    requires c.connected && (e.SessionEstablished? || e.SessionCleared?)
    ensures var after := Step(c, e);
      after.session == e.SessionEstablished? &&
      Enabled(after, Deliver) &&
      Step(after, Deliver).announced && Step(after, Deliver).callbacks == c.callbacks + [Connected]
  {
    hide InTurn, SocketsAccounted, SocketsReal;
  }

  /** A session was lost with its connection and has not been recovered. */
  ghost predicate RecoveryOwed(c: Client) {
    c.session && c.recoveryPending && !c.announced
  }

  /** What settles a recovery that is owed: its end, or that of the session, or of the user's interest. */
  predicate SettlesRecovery(e: Event) {
    e.RecoveryReturns? || e.SessionCleared? || e.SessionEstablished? || e.Disconnect?
  }

  lemma LossOwesRecovery(c: Client, socket: nat)
    requires c.ws == Some(socket) && c.session
    ensures RecoveryOwed(Step(c, RemoteLost(socket)))
  {}

  lemma CompletingStillOwed(c: Client, e: Event)
    requires Enabled(c, e) && Completing(e) && RecoveryOwed(c) && !SettlesRecovery(e)
    ensures RecoveryOwed(Step(c, e)) && Step(c, e).callbacks == c.callbacks
  {}

  lemma OthersStillOwed(c: Client, e: Event)
    requires Consistent(c) && Enabled(c, e) && !Completing(e) && RecoveryOwed(c) && !SettlesRecovery(e)
    ensures RecoveryOwed(Step(c, e)) && Step(c, e).callbacks == c.callbacks
  {}

  lemma StepStillOwed(c: Client, e: Event)
    requires Consistent(c) && Enabled(c, e) && RecoveryOwed(c) && !SettlesRecovery(e)
    ensures RecoveryOwed(Step(c, e)) && Step(c, e).callbacks == c.callbacks
  {
    hide Step, Enabled, RecoveryOwed, Consistent;
    if Completing(e) {
      CompletingStillOwed(c, e);
    } else {
      OthersStillOwed(c, e);
    }
  }

  lemma RunStep(states: seq<Client>, events: seq<Event>, n: nat)
    requires IsRun(states, events) && n < |events|
    ensures Enabled(states[n], events[n]) && states[n + 1] == Step(states[n], events[n])
  {}

  /**
   * Over any run: after a connection with a session on it was lost, nothing is announced, and no
   * handler is called at all, before the recovery of that session has returned, unless the
   * session ends, another is established, or the user disconnects.
   */
  lemma {:induction false} NothingBeforeRecovery(states: seq<Client>, events: seq<Event>, i: nat, j: nat, socket: nat)
    requires IsRun(states, events) && i < j <= |events|
    requires events[i] == RemoteLost(socket) && states[i].ws == Some(socket) && states[i].session
    requires forall k :: i < k < j ==> !SettlesRecovery(events[k])
    ensures RecoveryOwed(states[j]) && states[j].callbacks == states[i + 1].callbacks
    decreases j
  {
    hide Step, Enabled, RecoveryOwed, Consistent, SettlesRecovery;
    RunStep(states, events, j - 1);
    if j == i + 1 {
      LossOwesRecovery(states[i], socket);
    } else {
      NothingBeforeRecovery(states, events, i, j - 1, socket);
      ConsistentHolds(states, events, j - 1);
      hide IsRun;
      StepStillOwed(states[j - 1], events[j - 1]);
    }
  }

  // ------------------------------------------------------ announced and not usable

  /**
   * A session recovery is called off between the handshake and its start: the
   * session ends, or another is established, while the mark for it is still set.
   */
  ghost predicate CalledOff(c: Client, e: Event) {
    (e.SessionCleared? || e.SessionEstablished?) && c.recovering && c.recoveryPending && !c.holder.Recovering?
  }

  /** Marked as recovering, with nothing left that would recover and take the mark back. */
  ghost predicate Stranded(c: Client) {
    c.recovering && !c.recoveryPending && !c.holder.Recovering?
  }

  /** What is announced has no recovery left to do. */
  ghost predicate NothingToRecover(c: Client) {
    c.announced && c.recovering ==> !c.recoveryPending
  }

  lemma StrandedByCallingOff(c: Client, e: Event)
    requires Consistent(c) && Enabled(c, e) && Stranded(Step(c, e))
    ensures Stranded(c) || CalledOff(c, e)
  {}

  lemma StepLeavesNothing(c: Client, e: Event)
    requires Consistent(c) && Enabled(c, e) && NothingToRecover(c)
    ensures NothingToRecover(Step(c, e))
  {}

  lemma {:induction false} NothingToRecoverHolds(states: seq<Client>, events: seq<Event>, n: nat)
    requires IsRun(states, events) && n <= |events|
    ensures NothingToRecover(states[n])
  {
    if n > 0 {
      NothingToRecoverHolds(states, events, n - 1);
      ConsistentHolds(states, events, n - 1);
      hide Step, Consistent, NothingToRecover;
      assert Enabled(states[n - 1], events[n - 1]) && states[n - 1 + 1] == Step(states[n - 1], events[n - 1]);
      StepLeavesNothing(states[n - 1], events[n - 1]);
    }
  }

  lemma ConsistentHolds(states: seq<Client>, events: seq<Event>, n: nat)
    requires IsRun(states, events) && n <= |events|
    ensures Consistent(states[n])
  {
    InvariantHolds(states, events, n);
  }

  /** Since event `j` called a recovery off, the mark for it has never been taken back. */
  ghost predicate CalledOffAt(states: seq<Client>, events: seq<Event>, j: nat, n: nat)
    requires j < n <= |events| && |states| == |events| + 1
  {
    CalledOff(states[j], events[j]) && forall k :: j < k <= n ==> states[k].recovering
  }

  lemma {:induction false} StrandedSince(states: seq<Client>, events: seq<Event>, n: nat) returns (j: nat)
    requires IsRun(states, events) && n <= |events| && Stranded(states[n])
    ensures j < n && CalledOffAt(states, events, j, n)
  {
    assert n > 0;
    ConsistentHolds(states, events, n - 1);
    var was, e := states[n - 1], events[n - 1];
    assert Enabled(was, e) && states[n - 1 + 1] == Step(was, e);
    StrandedByCallingOff(was, e);
    hide Step, Consistent, Enabled, IsRun;
    if CalledOff(was, e) {
      j := n - 1;
    } else {
      j := StrandedSince(states, events, n - 1);
    }
  }

  /**
   * In every run, an announced connection is unusable exactly when a session
   * recovery was called off between the handshake and its start, and the mark
   * for it has stood ever since.
   */
  lemma AnnouncedIsUsableIff(states: seq<Client>, events: seq<Event>, n: nat)
    requires IsRun(states, events) && n <= |events| && states[n].announced
    ensures !IsConnected(states[n]) <==> exists j :: 0 <= j < n && CalledOffAt(states, events, j, n)
  {
    ConsistentHolds(states, events, n);
    NothingToRecoverHolds(states, events, n);
    hide IsRun;
    if !IsConnected(states[n]) {
      assert Stranded(states[n]);
      var j := StrandedSince(states, events, n);
    }
  }

  lemma Next(states: seq<Client>, events: seq<Event>, e: Event) returns (more: seq<Client>, done: seq<Event>)
    requires IsRun(states, events) && Enabled(states[|events|], e)
    ensures IsRun(more, done) && more[|done|] == Step(states[|events|], e)
  {
    more, done := states + [Step(states[|events|], e)], events + [e];
  }

  /** A client whose connection, with a session on it, was lost. */
  const SESSION_LOST: Client :=
    Client(None, false, false, false, true, false, 0, false, true, true, Nobody, 1, [0], [Connected, Disconnected])

  lemma SessionCanBeLost() returns (states: seq<Client>, events: seq<Event>)
    ensures IsRun(states, events) && states[|events|] == SESSION_LOST
  {
    states, events := [INITIAL], [];
    hide IsRun;
    assert IsRun(states, events) by { StartIsRun(); }
    states, events := Next(states, events, ConnectCalled);
    states, events := Next(states, events, Acquire(0));
    states, events := Next(states, events, SocketOpened);
    states, events := Next(states, events, DialSucceeds);
    states, events := Next(states, events, Deliver);
    states, events := Next(states, events, SessionEstablished);
    states, events := Next(states, events, RemoteLost(0));
  }

  lemma StartIsRun()
    ensures IsRun([INITIAL], [])
  {}

  /** Such a run exists: the session ends between the handshake of a reconnection and its delivery. */
  lemma AnnouncedButNotUsable() returns (states: seq<Client>, events: seq<Event>)
    ensures IsRun(states, events) && states[|events|].announced && !IsConnected(states[|events|])
  {
    states, events := SessionCanBeLost();
    hide IsRun;
    states, events := Next(states, events, Acquire(0));
    states, events := Next(states, events, SocketOpened);
    states, events := Next(states, events, DialSucceeds);
    states, events := Next(states, events, SessionCleared);
    states, events := Next(states, events, Deliver);
  }
}
