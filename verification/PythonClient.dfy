/**
 * The Python client's connection fields and its pending-request indexes, updated
 * in place by the stretches of its coroutines. Each method is one stretch and
 * does what the state machine of the whole client says.
 */
module PythonClients {
  import opened Common
  import opened PythonLifecycle
  import P = PendingModel
  import opened PendingIndexes
  import R = PythonRequests

  class TerminalClient {
    var ws: Option<nat>
    var connected: bool
    var serverInfo: bool
    var connectionAnnounced: bool
    var disconnectNotified: bool
    var disconnectRequested: bool
    var lifecycleGeneration: nat
    var recoveringSession: bool
    var sessionRecoveryPending: bool
    var session: bool
    /** The coroutine that holds the connect lock, and where it is suspended. */
    var holder: Holder
    /** The network's record of sockets, and what the user's handlers were told. */
    var dialled: nat
    var closed: seq<nat>
    var callbacks: seq<Callback>
    const requests: PendingIndex

    ghost function View(): Client
      reads this
    {
      Client(ws, connected, serverInfo, connectionAnnounced, disconnectNotified, disconnectRequested,
             lifecycleGeneration, recoveringSession, sessionRecoveryPending, session, holder, dialled, closed, callbacks)
    }

    ghost function Whole(): R.Whole
      reads this, requests
    {
      R.Whole(View(), requests.View())
    }

    /** The indexes agree with each other, and hold nothing unless the transport is open. */
    ghost predicate Valid()
      reads this, requests
    {
      requests.Valid() && R.Invariant(Whole())
    }

    constructor ()
      ensures Valid() && Whole() == R.INITIAL && fresh(requests)
    {
      ws, connected, serverInfo, connectionAnnounced, disconnectNotified := None, false, false, false, true;
      disconnectRequested, lifecycleGeneration, recoveringSession, sessionRecoveryPending := false, 0, false, false;
      session, holder, dialled, closed, callbacks := false, Nobody, 0, [], [];
      requests := new PendingIndex();
      new;
      R.InitiallyInvariant();
    }

    predicate Open()
      reads this
      ensures Open() <==> TransportOpen(View())
    {
      connected && ws.Some?
    }

    predicate AttemptIsStale(generation: nat)
      reads this
      ensures AttemptIsStale(generation) <==> Stale(View(), generation)
    {
      disconnectRequested || generation != lifecycleGeneration
    }

    method BeginConnect()
      requires Valid()
      modifies this
      ensures Valid() && Whole() == R.Step(old(Whole()), R.Life(ConnectCalled))
    {
      R.StepKeepsInvariant(Whole(), R.Life(ConnectCalled));
      hide R.Invariant, P.Good, Agree;
      disconnectRequested := false;
    }

    /** The lock holder's last stretch: announces the connection if it is still wanted and there. */
    method FinishConnection(generation: nat)
      modifies this
      ensures View() == Announce(old(View()), generation)
    {
      holder := Nobody;
      if AttemptIsStale(generation) || !Open() {
        return;
      }
      connectionAnnounced := true;
      disconnectNotified := false;
      callbacks := callbacks + [Connected];
    }

    method CompleteConnection(generation: nat)
      modifies this
      ensures View() == Complete(old(View()), generation)
    {
      if sessionRecoveryPending {
        recoveringSession := true;
        if session {
          holder := Recovering(generation);
          return;
        }
        sessionRecoveryPending := false;
        recoveringSession := false;
      }
      FinishConnection(generation);
    }

    method ConnectLocked(generation: nat)
      requires Valid() && Enabled(View(), Acquire(generation))
      modifies this
      ensures Valid() && Whole() == R.Step(old(Whole()), R.Life(Acquire(generation)))
    {
      R.StepKeepsInvariant(Whole(), R.Life(Acquire(generation)));
      hide R.Invariant, P.Good, Agree, Complete;
      if Open() && serverInfo {
        if !connectionAnnounced {
          CompleteConnection(generation);
        }
      } else {
        holder := Dialing(generation, None);
      }
    }

    method SocketReady()
      requires Valid() && Enabled(View(), SocketOpened)
      modifies this
      ensures Valid() && Whole() == R.Step(old(Whole()), R.Life(SocketOpened))
    {
      R.StepKeepsInvariant(Whole(), R.Life(SocketOpened));
      hide R.Invariant, P.Good, Agree;
      holder := Dialing(holder.generation, Some(dialled));
      dialled := dialled + 1;
    }

    method ConnectOnceSucceeds()
      requires Valid() && Enabled(View(), DialSucceeds)
      modifies this
      ensures Valid() && Whole() == R.Step(old(Whole()), R.Life(DialSucceeds))
    {
      R.StepKeepsInvariant(Whole(), R.Life(DialSucceeds));
      hide R.Invariant, P.Good, Agree;
      serverInfo := true;
      ws := holder.socket;
      connectionAnnounced := false;
      recoveringSession := sessionRecoveryPending;
      connected := true;
      holder := Dialed(holder.generation);
    }

    method CloseSocket(socket: Option<nat>)
      modifies this`closed
      ensures closed == Closing(old(View()), socket)
    {
      if socket.Some? {
        closed := closed + [socket.value];
      }
    }

    /** An exception or a cancellation unwinds the coroutine that holds the lock. */
    method ReleaseLock()
      modifies this
      ensures View() == Release(old(View()))
    {
      if holder.Dialing? {
        CloseSocket(holder.socket);
      }
      if holder.Recovering? {
        recoveringSession := false;
      }
      holder := Nobody;
    }

    method ConnectOnceFails()
      requires Valid() && Enabled(View(), DialFails)
      modifies this
      ensures Valid() && Whole() == R.Step(old(Whole()), R.Life(DialFails))
    {
      R.StepKeepsInvariant(Whole(), R.Life(DialFails));
      hide R.Invariant, P.Good, Agree, Release;
      ReleaseLock();
    }

    method CancelConnect()
      requires Valid() && Enabled(View(), HolderCancelled)
      modifies this
      ensures Valid() && Whole() == R.Step(old(Whole()), R.Life(HolderCancelled))
    {
      R.StepKeepsInvariant(Whole(), R.Life(HolderCancelled));
      hide R.Invariant, P.Good, Agree, Release;
      ReleaseLock();
    }

    method ResumeAfterDial()
      requires Valid() && Enabled(View(), Deliver)
      modifies this
      ensures Valid() && Whole() == R.Step(old(Whole()), R.Life(Deliver))
    {
      R.StepKeepsInvariant(Whole(), R.Life(Deliver));
      hide R.Invariant, P.Good, Agree, Complete;
      if AttemptIsStale(holder.generation) {
        ReleaseLock();
      } else {
        CompleteConnection(holder.generation);
      }
    }

    method ClearSession()
      modifies this`session, this`sessionRecoveryPending
      ensures View() == Clear(old(View()))
    {
      session := false;
      sessionRecoveryPending := false;
    }

    method ResumeAfterRecovery(refused: bool)
      requires Valid() && Enabled(View(), RecoveryReturns(refused))
      modifies this
      ensures Valid() && Whole() == R.Step(old(Whole()), R.Life(RecoveryReturns(refused)))
    {
      R.StepKeepsInvariant(Whole(), R.Life(RecoveryReturns(refused)));
      hide R.Invariant, P.Good, Agree, Announce;
      ghost var before := View();
      if refused {
        ClearSession();
      }
      recoveringSession := false;
      assert View() == (if refused then Clear(before) else before).(recovering := false);
      FinishConnection(holder.generation);
    }

    method RecoveryInterrupted()
      requires Valid() && Enabled(View(), RecoveryRaises)
      modifies this
      ensures Valid() && Whole() == R.Step(old(Whole()), R.Life(RecoveryRaises))
    {
      R.StepKeepsInvariant(Whole(), R.Life(RecoveryRaises));
      hide R.Invariant, P.Good, Agree, Release;
      ghost var before := View();
      if session {
        sessionRecoveryPending := true;
      }
      assert View() == before.(recoveryPending := before.recoveryPending || before.session);
      ReleaseLock();
    }

    method NotifyOfDisconnect()
      modifies this`disconnectNotified, this`callbacks
      ensures View() == NotifyDisconnectOnce(old(View()))
    {
      if disconnectNotified {
        return;
      }
      disconnectNotified := true;
      callbacks := callbacks + [Disconnected];
    }

    method ResetTransport()
      modifies this
      ensures View() == TearDown(old(View()))
    {
      connected := false;
      connectionAnnounced := false;
      recoveringSession := false;
      serverInfo := false;
      CloseSocket(ws);
      ws := None;
    }

    /** The transport goes, and in the same stretch every pending request fails. */
    method DropTransport()
      requires requests.Valid()
      modifies this, requests
      ensures View() == TearDown(old(View()))
      ensures requests.Valid() && requests.View() == P.Step(old(requests.View()), P.ConnectionLost)
    {
      hide P.Good, Agree, P.Step, TearDown;
      ResetTransport();
      requests.FailPending();
    }

    method AbandonUnannouncedConnection()
      requires Valid()
      modifies this, requests
      ensures Valid() && Whole() == R.Step(old(Whole()), R.Life(AbandonUnannounced))
    {
      R.StepKeepsInvariant(Whole(), R.Life(AbandonUnannounced));
      hide R.Invariant, P.Good, Agree, TearDown;
      if connectionAnnounced || !Open() {
        return;
      }
      DropTransport();
      sessionRecoveryPending := session;
    }

    /** The body of `disconnect`, up to its first await. */
    method EndConnection()
      requires requests.Valid()
      modifies this, requests
      ensures View() == DisconnectNow(old(View()))
      ensures requests.Valid() && requests.View() == P.Step(old(requests.View()), P.ConnectionLost)
    {
      hide P.Good, Agree, P.Step, TearDown, NotifyDisconnectOnce, Clear;
      disconnectRequested := true;
      lifecycleGeneration := lifecycleGeneration + 1;
      var wasConnected := connected || ws.Some?;
      DropTransport();
      ClearSession();
      if wasConnected {
        NotifyOfDisconnect();
      }
    }

    method DisconnectClient()
      requires Valid()
      modifies this, requests
      ensures Valid() && Whole() == R.Step(old(Whole()), R.Life(Disconnect))
    {
      R.StepKeepsInvariant(Whole(), R.Life(Disconnect));
      hide R.Invariant, P.Good, Agree, P.Step, DisconnectNow;
      EndConnection();
    }

    method HandleRemoteDisconnect(websocket: nat)
      requires Valid()
      modifies this, requests
      ensures Valid() && Whole() == R.Step(old(Whole()), R.Life(RemoteLost(websocket)))
    {
      R.StepKeepsInvariant(Whole(), R.Life(RemoteLost(websocket)));
      hide R.Invariant, P.Good, Agree, P.Step, TearDown, NotifyDisconnectOnce;
      if ws != Some(websocket) {
        return;
      }
      DropTransport();
      sessionRecoveryPending := session;
      NotifyOfDisconnect();
    }

    method ApplySession()
      requires Valid()
      modifies this
      ensures Valid() && Whole() == R.Step(old(Whole()), R.Life(SessionEstablished))
    {
      R.StepKeepsInvariant(Whole(), R.Life(SessionEstablished));
      hide R.Invariant, P.Good, Agree;
      session := true;
      sessionRecoveryPending := false;
    }

    method SetServerInfo()
      requires Valid()
      modifies this
      ensures Valid() && Whole() == R.Step(old(Whole()), R.Life(InfoReceived))
    {
      R.StepKeepsInvariant(Whole(), R.Life(InfoReceived));
      hide R.Invariant, P.Good, Agree;
      serverInfo := true;
    }

    // ---------------------------------------------------------------- requests

    /** Files a request and hands it out to be sent; refused unless the client is usable, or recovering. */
    method SendRequest(kind: P.Kind, supportsRequestIds: bool, allowRecovering: bool) returns (pending: Option<P.Request>)
      requires Valid() && kind != P.Other
      modifies requests
      ensures Valid()
      ensures pending.Some? <==> if allowRecovering then TransportOpen(View()) else IsConnected(View())
      ensures Whole() ==
        if pending.Some? then R.Step(old(Whole()), R.Traffic(P.Issue(kind, supportsRequestIds))) else old(Whole())
    {
      if !Open() || !(allowRecovering || (connectionAnnounced && !recoveringSession)) {
        return None;
      }
      R.StepKeepsInvariant(Whole(), R.Traffic(P.Issue(kind, supportsRequestIds)));
      hide R.Invariant, P.Good, Agree, P.Step;
      var request := requests.AddPending(kind, supportsRequestIds);
      return Some(request);
    }

    method HandleResponse(kind: P.Kind, id: Option<nat>, answer: nat, applies: bool) returns (handled: bool)
      requires Valid()
      modifies requests
      ensures Valid() && Whole() == R.Step(old(Whole()), R.Traffic(P.Response(kind, id, answer, applies)))
      ensures handled <==> P.Target(old(requests.View().order), kind, id).Some?
    {
      R.StepKeepsInvariant(Whole(), R.Traffic(P.Response(kind, id, answer, applies)));
      hide R.Invariant, P.Good, Agree, P.Step;
      handled := requests.ResolvePending(kind, id, answer, applies);
    }

    method HandleError(id: Option<nat>) returns (handled: bool)
      requires Valid()
      modifies requests
      ensures Valid() && Whole() == R.Step(old(Whole()), R.Traffic(P.Error(id)))
      ensures handled <==> P.ErrorTarget(old(requests.View().order), old(requests.View().futures), id).Some?
    {
      R.StepKeepsInvariant(Whole(), R.Traffic(P.Error(id)));
      hide R.Invariant, P.Good, Agree, P.Step;
      handled := requests.RejectPending(id);
    }
  }
}
