/**
 * The browser client's fields, updated in place by its public methods and by
 * the callbacks of its sockets and timer. Each method is one step of the model.
 */
module BrowserClients {
  import opened Common
  import opened PendingModel
  import opened BrowserModel

  class TerminalClient {
    const config: Config
    var ws: Option<nat>
    var state: State
    var connectPromise: bool
    var reconnectAttempts: nat
    var reconnectTimeout: bool
    var manualDisconnect: bool
    var isReconnecting: bool
    /** The pending requests in order of insertion. */
    var pendingRequests: seq<Request>
    var requestSequence: nat
    /** Set while disconnect handlers run: whether the close is going to reconnect. */
    var closing: Option<bool>
    /** The environment's record: sockets created, and the promises handed out for requests. */
    var sockets: nat
    var promises: seq<Outcome>

    ghost function View(): Client
      reads this
    {
      Client(ws, state, connectPromise, reconnectAttempts, reconnectTimeout, manualDisconnect, isReconnecting,
             closing, sockets, Pending(pendingRequests, promises, requestSequence))
    }

    ghost predicate Valid()
      reads this
    {
      Invariant(View(), config)
    }

    constructor (config: Config)
      ensures this.config == config && View() == INITIAL && Valid()
    {
      this.config := config;
      ws, state, connectPromise, reconnectAttempts, reconnectTimeout := None, Idle, false, 0, false;
      manualDisconnect, isReconnecting, pendingRequests, requestSequence := false, false, [], 0;
      closing, sockets, promises := None, 0, [];
      InitiallyInvariant(config);
    }

    /** The body of `connect`, also run by the reconnection timer. */
    method StartSocket(refused: bool)
      modifies this
      ensures View() == StartConnecting(old(View()), refused)
    {
      if state == Online || connectPromise {
        return;
      }
      manualDisconnect := false;
      state := Connecting;
      connectPromise := true;
      if refused {
        state := Idle;
        connectPromise := false;
        return;
      }
      ws := Some(sockets);
      sockets := sockets + 1;
    }

    method ConnectToServer(refused: bool)
      requires Valid() && BrowserModel.Enabled(View(), Connect(refused))
      modifies this
      ensures Valid() && View() == BrowserModel.Step(old(View()), Connect(refused), config)
    {
      StepKeepsInvariant(View(), Connect(refused), config);
      hide Invariant, StartConnecting;
      StartSocket(refused);
    }

    /** The body of `disconnect`. */
    method StopSocket()
      modifies this
      ensures View() == StopConnecting(old(View()))
    {
      hide RejectAll;
      manualDisconnect := true;
      reconnectTimeout := false;
      if ws.Some? {
        return;
      }
      if state != Idle {
        state := Idle;
        RejectPendingRequests();
      }
    }

    method DisconnectFromServer()
      requires Valid() && BrowserModel.Enabled(View(), Disconnect)
      modifies this
      ensures Valid() && View() == BrowserModel.Step(old(View()), Disconnect, config)
    {
      StepKeepsInvariant(View(), Disconnect, config);
      hide Invariant, StopConnecting;
      StopSocket();
    }

    method FileRequest(kind: Kind) returns (request: Request)
      modifies this`pendingRequests, this`promises, this`requestSequence
      ensures Pending(pendingRequests, promises, requestSequence) == Add(old(View()).requests, kind, true)
      ensures request == pendingRequests[|old(pendingRequests)|]
    {
      requestSequence := requestSequence + 1;
      request := Request(|promises|, kind, Some(requestSequence));
      promises := promises + [Waiting];
      pendingRequests := pendingRequests + [request];
    }

    method Ask(kind: Kind, sendFails: bool)
      requires Valid() && BrowserModel.Enabled(View(), BrowserModel.Event.Ask(kind, sendFails))
      modifies this
      ensures Valid() && View() == BrowserModel.Step(old(View()), BrowserModel.Event.Ask(kind, sendFails), config)
    {
      StepKeepsInvariant(View(), BrowserModel.Event.Ask(kind, sendFails), config);
      hide Invariant, Take;
      if state != Online || ws.None? {
        return;
      }
      var request := FileRequest(kind);
      if sendFails {
        Settle(request, Failed);
      }
    }

    /** Removes a pending request and settles its promise. */
    method Settle(request: Request, outcome: Outcome)
      modifies this`pendingRequests, this`promises
      ensures Pending(pendingRequests, promises, requestSequence) ==
              Take(old(View()).requests, Some(request), outcome)
    {
      hide Without;
      pendingRequests := Without(pendingRequests, request.key);
      if IsWaiting(promises, request.key) {
        promises := promises[request.key := outcome];
      }
    }

    method RejectPendingRequests()
      modifies this`pendingRequests, this`promises
      ensures Pending(pendingRequests, promises, requestSequence) == RejectAll(old(View()).requests)
    {
      var pending := pendingRequests;
      ghost var all := FailAll(pendingRequests, promises);
      pendingRequests := [];
      var i := 0;
      while i < |pending|
        invariant i <= |pending| && pendingRequests == []
        invariant all == FailAll(pending[i..], promises)
      {
        assert pending[i..][1..] == pending[i + 1..];
        if IsWaiting(promises, pending[i].key) {
          promises := promises[pending[i].key := Failed];
        }
        i := i + 1;
      }
    }

    method OnOpen(socket: nat)
      requires Valid() && BrowserModel.Enabled(View(), Opened(socket))
      modifies this
      ensures Valid() && View() == BrowserModel.Step(old(View()), Opened(socket), config)
    {
      StepKeepsInvariant(View(), Opened(socket), config);
      hide Invariant;
      if ws != Some(socket) {
        return;
      }
      state := Online;
      connectPromise := false;
      reconnectAttempts := 0;
      isReconnecting := false;
    }

    method OnError(socket: nat)
      requires Valid() && BrowserModel.Enabled(View(), Errored(socket))
      modifies this
      ensures Valid() && View() == BrowserModel.Step(old(View()), Errored(socket), config)
    {
      StepKeepsInvariant(View(), Errored(socket), config);
      hide Invariant;
      if ws == Some(socket) && state == Connecting {
        state := Idle;
        connectPromise := false;
      }
    }

    /** The close callback, until the user's disconnect handlers run if there was anything to announce. */
    method OnClose(socket: nat)
      requires Valid() && BrowserModel.Enabled(View(), Closed(socket))
      modifies this
      ensures Valid() && View() == BrowserModel.Step(old(View()), Closed(socket), config)
    {
      StepKeepsInvariant(View(), Closed(socket), config);
      hide Invariant, RejectAll;
      if ws != Some(socket) {
        return;
      }
      var previousState := state;
      var shouldReconnect := !manualDisconnect && config.reconnect && reconnectAttempts < config.maxAttempts;
      ws := None;
      state := Idle;
      connectPromise := false;
      RejectPendingRequests();
      if previousState != Idle {
        closing := Some(shouldReconnect);
      } else {
        ReconnectIf(shouldReconnect);
      }
    }

    method ScheduleReconnect()
      modifies this`reconnectTimeout
      ensures reconnectTimeout
    {
      if reconnectTimeout {
        return;
      }
      reconnectTimeout := true;
    }

    method ReconnectIf(shouldReconnect: bool)
      modifies this`reconnectTimeout, this`isReconnecting
      ensures View() == Rescheduled(old(View()), shouldReconnect)
    {
      if shouldReconnect {
        isReconnecting := true;
        ScheduleReconnect();
      }
    }

    /** The rest of the close callback, once the handlers have run. */
    method OnHandlersDone()
      requires Valid() && BrowserModel.Enabled(View(), HandlersDone)
      modifies this
      ensures Valid() && View() == BrowserModel.Step(old(View()), HandlersDone, config)
    {
      StepKeepsInvariant(View(), HandlersDone, config);
      hide Invariant;
      var shouldReconnect := closing == Some(true);
      closing := None;
      ReconnectIf(shouldReconnect);
    }

    method OnTimer(refused: bool)
      requires Valid() && BrowserModel.Enabled(View(), TimerFires(refused))
      modifies this
      ensures Valid() && View() == BrowserModel.Step(old(View()), TimerFires(refused), config)
    {
      StepKeepsInvariant(View(), TimerFires(refused), config);
      hide Invariant, StartConnecting;
      reconnectTimeout := false;
      reconnectAttempts := reconnectAttempts + 1;
      StartSocket(refused);
    }

    /** The oldest pending request that `kind` may answer; an error may answer any. */
    method Oldest(kind: Option<Kind>) returns (found: Option<Request>)
      ensures kind.Some? ==> found == Chosen(pendingRequests, kind.value, None)
      ensures kind.None? ==> found == ChosenForError(pendingRequests, None)
    {
      var i := 0;
      while i < |pendingRequests|
        invariant i <= |pendingRequests|
        invariant kind.None? ==> i == 0
        invariant kind.Some? ==> OfKind(pendingRequests[..i], kind.value) == []
      {
        assert pendingRequests[..i + 1][..i] == pendingRequests[..i];
        if kind.None? || pendingRequests[i].kind == kind.value {
          if kind.Some? {
            OfKindFirst(pendingRequests, kind.value, i + 1);
          }
          return Some(pendingRequests[i]);
        }
        i := i + 1;
      }
      assert pendingRequests[..i] == pendingRequests;
      return None;
    }

    static lemma {:induction false} OfKindFirst(order: seq<Request>, kind: Kind, n: nat)
      requires n <= |order| && OfKind(order[..n], kind) != []
      ensures OfKind(order, kind) != [] && OfKind(order, kind)[0] == OfKind(order[..n], kind)[0]
      decreases |order|
    {
      if n == |order| {
        assert order[..n] == order;
      } else {
        assert order[..|order| - 1][..n] == order[..n];
        OfKindFirst(order[..|order| - 1], kind, n);
      }
    }

    /** A response: `spawned`, `sessionList` or `joined`, once it has been normalised. */
    method ResolvePending(kind: Kind, id: Option<nat>, answer: nat)
      requires Valid() && BrowserModel.Enabled(View(), Reply(kind, id, answer))
      modifies this
      ensures Valid() && View() == BrowserModel.Step(old(View()), Reply(kind, id, answer), config)
    {
      StepKeepsInvariant(View(), Reply(kind, id, answer), config);
      hide Invariant, Without, WithId;
      var pending := if id.Some? then WithId(pendingRequests, id.value) else None;
      if id.None? {
        pending := Oldest(Some(kind));
      }
      if pending.None? || (id.Some? && pending.value.kind != kind) {
        return;
      }
      Settle(pending.value, Answered(answer));
    }

    method ResolveError(id: Option<nat>)
      requires Valid() && BrowserModel.Enabled(View(), Complaint(id))
      modifies this
      ensures Valid() && View() == BrowserModel.Step(old(View()), Complaint(id), config)
    {
      StepKeepsInvariant(View(), Complaint(id), config);
      hide Invariant, Without, WithId;
      var pending := if id.Some? then WithId(pendingRequests, id.value) else None;
      if id.None? {
        pending := Oldest(None);
      }
      if pending.None? {
        return;
      }
      Settle(pending.value, Failed);
    }
  }
}
