/**
 * TerminalServer: the request, PTY, timer and socket handlers that drive the
 * session manager (src/server/terminal-server.ts). Each handler is one step of
 * SessionModel, and every step keeps the whole invariant.
 */
module TerminalServers {
  import opened Common
  import opened SessionModel
  import opened SessionInvariant
  import opened SessionTrace
  import opened SessionSteps
  import opened SessionAlgebra
  import opened SessionManagers

  class TerminalServer {
    const manager: SessionManager
    const net: Network
    var closed: bool

    ghost predicate Wiring() {
      manager.net == net
    }

    ghost function View(): State
      requires Wiring()
      reads this, manager, net
    {
      manager.View()
    }

    ghost predicate Valid()
      reads this, manager, net
    {
      Wiring() && manager.Valid()
    }

    constructor (cfg: Config)
      requires ValidConfig(cfg)
      ensures Valid() && View() == Initial(cfg) && !closed
      ensures fresh(manager) && fresh(net)
    {
      var network := new Network();
      net := network;
      manager := new SessionManager(cfg, network);
      closed := false;
    }

    // --------------------------------------------------------------- responses

    method SendResponse(clientId: ClientId, m: Message)
      requires Wiring() && manager.Valid() && clientId in net.sockets
      modifies manager, net
      ensures manager.Valid() && View() == Answer(old(View()), clientId, m)
    {
      var socket := net.sockets[clientId];
      DeliverToOne(View(), m, clientId);
      if !socket.open {
        return;
      }
      if !CanQueueWebSocketMessage(socket.buffered, manager.cfg.byteLength(m), manager.cfg.maxBufferedOutputBytes) {
        DisconnectSlowClient(clientId);
        return;
      }
      if socket.working {
        ghost var before := View();
        net.sockets := net.sockets[clientId := Queue(socket, m, manager.cfg.byteLength(m))];
        SocketsKeepValid(before, View());
      }
    }

    method DisconnectSlowClient(clientId: ClientId)
      requires Wiring() && manager.Valid() && clientId in net.sockets
      modifies manager, net
      ensures manager.Valid()
      ensures View() == Detach(old(View()), {clientId}, old(manager.sessions).Keys).(
        sockets := old(net.sockets)[clientId := old(net.sockets)[clientId].(open := false)])
    {
      var _ := manager.RemoveClientFromAllSessions(clientId);
      ghost var detached := View();
      net.sockets := net.sockets[clientId := net.sockets[clientId].(open := false)];
      SocketsKeepValid(detached, View());
    }

    // ---------------------------------------------------------------- requests

    method ClientSessionLimitReached(clientId: ClientId) returns (reached: bool)
      requires Wiring()
      ensures reached <==> AtClientLimit(View(), clientId)
    {
      reached := clientId in manager.clientToSessions &&
                 |manager.clientToSessions[clientId]| >= manager.cfg.maxSessionsPerClient;
    }

    /** Registers the data and exit listeners of a session. */
    method SetupSessionHandlers(sessionId: SessionId)
      requires Wiring() && manager.Valid() && sessionId in manager.sessions
      modifies manager
      ensures manager.Valid() && View() == Wire(old(View()), sessionId)
    {
      ghost var before := View();
      manager.sessions := manager.sessions[sessionId := manager.sessions[sessionId].(wired := true)];
      SameMembersKeepValid(before, View());
    }

    /** Kills whatever a failed spawn left behind: the session, if it was registered. */
    method CleanupFailedSpawn(sessionId: SessionId)
      requires Wiring() && manager.Valid()
      modifies manager, net
      ensures manager.Valid() && View() == SessionModel.Close(old(View()), sessionId, SpawnError)
    {
      if sessionId in manager.sessions {
        manager.CloseSession(sessionId, SpawnError);
      }
    }

    /**
     * The local and the two Docker paths; they differ in which options count
     * and in that only the local path guards the listener registration.
     */
    method SpawnSession(clientId: ClientId, sessionId: SessionId, resumeToken: Token, o: SpawnOptions,
                        policy: Policy, ptyFails: bool, listenFails: bool)
      requires Valid() && clientId in net.sockets && sessionId !in manager.sessions
      modifies manager, net
      ensures Valid()
      ensures View() == SpawnStep(old(View()), clientId, sessionId, resumeToken, o, policy, ptyFails, listenFails)
    {
      if policy.ModeDisabled? {
        SendResponse(clientId, Refused(NotAllowed));
        return;
      }
      var limited := ClientSessionLimitReached(clientId);
      if limited {
        SendResponse(clientId, Refused(ClientLimit));
        return;
      }
      if |manager.sessions| >= manager.cfg.maxSessionsTotal {
        SendResponse(clientId, Refused(ServerFull));
        return;
      }
      if policy.TargetRefused? {
        SendResponse(clientId, Refused(NotAllowed));
        return;
      }
      var created := false;
      if !ptyFails {
        created := manager.CreateSession(sessionId, clientId, resumeToken, EffectiveOptions(o));
      }
      if !created {
        CleanupFailedSpawn(sessionId);
        SendResponse(clientId, Refused(SpawnFailed));
      } else if !listenFails {
        SetupSessionHandlers(sessionId);
        SendResponse(clientId, Spawned(sessionId, resumeToken));
      } else {
        if o.target.Local? {
          CleanupFailedSpawn(sessionId);
        }
        SendResponse(clientId, Refused(SpawnFailed));
      }
    }

    method HandleJoinSession(clientId: ClientId, sessionId: SessionId, resumeToken: Option<Token>,
                             requestHistory: bool, historyLimit: Option<nat>)
      requires Valid() && clientId in net.sockets
      modifies manager, net
      ensures Valid()
      ensures View() == JoinStep(old(View()), clientId, sessionId, resumeToken, requestHistory, historyLimit)
    {
      if sessionId !in manager.sessions {
        SendResponse(clientId, Refused(SessionNotFound));
        return;
      }
      var session := manager.sessions[sessionId];
      var ownerResume := resumeToken == Some(session.resumeToken);
      if !session.accepting && !ownerResume {
        SendResponse(clientId, Refused(NotAccepting));
        return;
      }
      var limited := ClientSessionLimitReached(clientId);
      if clientId !in session.clients && limited {
        SendResponse(clientId, Refused(ClientLimit));
        return;
      }
      WelcomeUnaffected(View(), sessionId, clientId, resumeToken, requestHistory, historyLimit);
      var success := manager.AddClient(sessionId, clientId, resumeToken);
      if !success {
        SendResponse(clientId, Refused(JoinFailed));
        return;
      }
      WelcomeJoiner(clientId, sessionId, resumeToken, requestHistory, historyLimit);
    }

    /** The answer to a successful join and the note to the other members. */
    method WelcomeJoiner(clientId: ClientId, sessionId: SessionId, resumeToken: Option<Token>,
                         requestHistory: bool, historyLimit: Option<nat>)
      requires Valid() && clientId in net.sockets && sessionId in manager.sessions
      modifies manager, net
      ensures Valid()
      ensures var answered :=
          Answer(old(View()), clientId, Welcome(old(View()), sessionId, resumeToken, requestHistory, historyLimit));
        View() == Broadcast(answered, sessionId, ClientJoined(sessionId, ClientCount(answered, sessionId)), {clientId})
    {
      var session := manager.sessions[sessionId];
      var history := None;
      if requestHistory && session.historyEnabled {
        history := Some(if historyLimit.Some? then LastN(session.history, historyLimit.value) else session.history);
      }
      var resume := if resumeToken == Some(session.resumeToken) then Some(session.resumeToken) else None;
      SendResponse(clientId, Joined(sessionId, history, resume));
      var count := if sessionId in manager.sessions then |manager.sessions[sessionId].clients| else 0;
      manager.BroadcastToSession(sessionId, ClientJoined(sessionId, count), {clientId});
    }

    method HandleLeaveSession(clientId: ClientId, sessionId: SessionId)
      requires Valid() && clientId in net.sockets
      modifies manager, net
      ensures Valid() && View() == LeaveStep(old(View()), clientId, sessionId)
    {
      if sessionId !in manager.sessions {
        SendResponse(clientId, Refused(SessionNotFound));
        return;
      }
      if clientId !in manager.sessions[sessionId].clients {
        SendResponse(clientId, Refused(NotMember));
        return;
      }
      manager.RemoveClient(sessionId, clientId);
      SendResponse(clientId, Left(sessionId));
      if sessionId in manager.sessions {
        var count := |manager.sessions[sessionId].clients|;
        manager.BroadcastToSession(sessionId, ClientLeft(sessionId, count), {});
      }
    }

    method CloseSession(clientId: ClientId, sessionId: SessionId, correlated: bool)
      requires Valid() && clientId in net.sockets
      modifies manager, net
      ensures Valid() && View() == CloseStep(old(View()), clientId, sessionId, correlated)
    {
      if sessionId !in manager.sessions {
        SendResponse(clientId, Refused(SessionNotFound));
        return;
      }
      if manager.sessions[sessionId].owner != clientId {
        SendResponse(clientId, Refused(NotOwner));
        return;
      }
      var closedMessage := SessionClosed(sessionId, OwnerClosed);
      if !correlated {
        manager.BroadcastToSession(sessionId, closedMessage, {});
      } else {
        BroadcastKeepsSockets(View(), sessionId, closedMessage, {clientId});
        manager.BroadcastToSession(sessionId, closedMessage, {clientId});
        SendResponse(clientId, closedMessage);
      }
      manager.CloseSession(sessionId, OwnerClosed);
    }

    method HandleListSessions(clientId: ClientId, filter: Filter)
      requires Valid() && clientId in net.sockets
      modifies manager, net
      ensures Valid() && View() == ListStep(old(View()), clientId, filter)
    {
      var sids := set sid | sid in manager.sessions && Visible(manager.sessions[sid], clientId, filter);
      SendResponse(clientId, Listing(sids));
    }

    /** Forwarding to the PTY itself is outside the model. */
    method WriteToSession(clientId: ClientId, sessionId: SessionId)
      requires Valid() && clientId in net.sockets
      modifies manager, net
      ensures Valid() && View() == WriteStep(old(View()), clientId, sessionId)
    {
      if sessionId !in manager.sessions {
        SendResponse(clientId, Refused(SessionNotFound));
        return;
      }
      if clientId !in manager.sessions[sessionId].clients {
        SendResponse(clientId, Refused(NotMember));
        return;
      }
      manager.UpdateActivity(sessionId);
    }

    // ------------------------------------------------- PTY, timer, socket events

    method HandlePtyData(sessionId: SessionId, data: string)
      requires Valid()
      modifies manager, net
      ensures Valid() && View() == OutputStep(old(View()), sessionId, data)
    {
      if sessionId in manager.sessions && manager.sessions[sessionId].wired {
        manager.OnPtyData(sessionId, data);
      }
    }

    method HandlePtyExit(sessionId: SessionId, exitCode: int)
      requires Valid()
      modifies manager, net
      ensures Valid() && View() == ExitStep(old(View()), sessionId, exitCode)
    {
      if sessionId in manager.sessions && manager.sessions[sessionId].wired {
        manager.OnPtyExit(sessionId, exitCode);
      }
    }

    method HandleOrphanTimer(sessionId: SessionId)
      requires Valid()
      modifies manager, net
      ensures Valid() && View() == TimerStep(old(View()), sessionId)
    {
      manager.OnOrphanTimer(sessionId);
    }

    method HandleClientDisconnect(clientId: ClientId)
      requires Valid() && clientId in net.sockets
      modifies manager, net
      ensures Valid() && View() == DisconnectStep(old(View()), clientId)
    {
      ghost var before := View();
      net.sockets := net.sockets[clientId := net.sockets[clientId].(open := false)];
      SocketsKeepValid(before, View());
      var _ := manager.RemoveClientFromAllSessions(clientId);
    }

    /** `order` is the insertion order in which the sessions are visited. */
    method CleanupSessions(order: seq<SessionId>)
      requires Valid()
      modifies manager, net
      ensures Valid()
      ensures View() == SweepStep(old(View()), order)
    {
      ghost var before := View();
      if manager.cfg.idleTimeout == 0 {
        return;
      }
      for i := 0 to |order|
        invariant Wiring() && manager.Valid() && View() == Sweep(before, order[..i])
      {
        assert order[..i + 1][..i] == order[..i];
        var sessionId := order[i];
        if sessionId in manager.sessions &&
           manager.now > manager.sessions[sessionId].lastActivity + manager.cfg.idleTimeout
        {
          manager.BroadcastToSession(sessionId, Exit(sessionId, -1), {});
          manager.BroadcastToSession(sessionId, SessionClosed(sessionId, IdleTimeout), {});
          manager.CloseSession(sessionId, IdleTimeout);
        }
      }
      assert order[..|order|] == order;
    }

    /** Only the first call does anything. */
    method Close(order: seq<SessionId>)
      requires Valid()
      modifies this`closed, manager, net
      ensures Wiring() && closed
      ensures View() == if old(closed) then old(View()) else ShutdownStep(old(View()), order)
    {
      if closed {
        return;
      }
      closed := true;
      ghost var before := View();
      CloseAllKeepsSockets(before.(timers := map[]), order);
      manager.Cleanup(order);
      net.sockets := map c | c in net.sockets :: net.sockets[c].(open := false);
    }

    // ---------------------------------------------------------------- dispatch

    /** Time passes and sockets connect, drain, fail and close on their own. */
    method HandleEnvironment(e: Event)
      requires Valid() && Enabled(View(), e)
      requires e.Tick? || e.Connected? || e.Drained? || e.Broken? || e.Closing?
      modifies manager, net
      ensures Valid() && View() == old(Step(View(), e))
    {
      ghost var before := View();
      match e {
      case Tick(ms) => manager.now := manager.now + ms;
      case Connected(c) => net.sockets := net.sockets[c := Socket(true, true, 0, [])];
      case Drained(c, bytes) =>
        var socket := net.sockets[c];
        net.sockets := net.sockets[c := socket.(buffered := socket.buffered - Min(bytes, socket.buffered))];
      case Broken(c) => net.sockets := net.sockets[c := net.sockets[c].(working := false)];
      case Closing(c) => net.sockets := net.sockets[c := net.sockets[c].(open := false)];
      }
      SocketsKeepValid(before, View());
    }

    /** `handleIncomingMessage`: one parsed and validated request. */
    method HandleIncomingMessage(e: Event)
      requires Valid() && Enabled(View(), e) && (e.Spawn? ==> e.sid !in manager.sessions)
      requires IsRequest(e)
      modifies manager, net
      ensures Valid() && View() == old(Step(View(), e))
    {
      match e
      case Spawn(c, sid, token, o, policy, ptyFails, listenFails) =>
        SpawnSession(c, sid, token, o, policy, ptyFails, listenFails);
      case Join(c, sid, token, requested, limit) => HandleJoinSession(c, sid, token, requested, limit);
      case Leave(c, sid) => HandleLeaveSession(c, sid);
      case CloseRequest(c, sid, correlated) => CloseSession(c, sid, correlated);
      case List(c, filter) => HandleListSessions(c, filter);
      case Write(c, sid) => WriteToSession(c, sid);
      case Reply(c, text) => SendResponse(c, Plain(text));
    }

    method HandleNotice(e: Event)
      requires Valid() && Enabled(View(), e)
      requires e.PtyOutput? || e.PtyExit? || e.OrphanTimer? || e.IdleSweep? || e.Disconnected?
      modifies manager, net
      ensures Valid() && View() == old(Step(View(), e))
    {
      match e
      case PtyOutput(sid, data) => HandlePtyData(sid, data);
      case PtyExit(sid, code) => HandlePtyExit(sid, code);
      case OrphanTimer(sid) => HandleOrphanTimer(sid);
      case IdleSweep(order) => CleanupSessions(order);
      case Disconnected(c) => HandleClientDisconnect(c);
    }

    /** Any event is handled as one step of the model, and the whole invariant survives it. */
    method Handle(e: Event)
      requires Valid() && Invariant(View()) && Enabled(View(), e) && !e.Shutdown?
      modifies manager, net
      ensures Valid() && Invariant(View()) && View() == old(Step(View(), e))
    {
      StepKeeps(View(), e);
      if e.Spawn? {
        NeverSpawned(View(), e.sid);
      }
      hide Invariant, Step, Enabled;
      if IsRequest(e) {
        HandleIncomingMessage(e);
      } else if e.PtyOutput? || e.PtyExit? || e.OrphanTimer? || e.IdleSweep? || e.Disconnected? {
        HandleNotice(e);
      } else {
        HandleEnvironment(e);
      }
    }
  }

  predicate IsRequest(e: Event) {
    e.Spawn? || e.Join? || e.Leave? || e.CloseRequest? || e.List? || e.Write? || e.Reply?
  }

  lemma NeverSpawned(st: State, sid: SessionId)
    requires Invariant(st) && sid !in st.ptys
    ensures sid !in st.sessions
  {}

  lemma WelcomeUnaffected(st: State, sid: SessionId, c: ClientId, token: Option<Token>, requested: bool, limit: Option<nat>)
    requires sid in st.sessions
    ensures sid in Add(st, sid, c, token).sessions
    ensures Welcome(Add(st, sid, c, token), sid, token, requested, limit) == Welcome(st, sid, token, requested, limit)
  {}

  lemma BroadcastKeepsSockets(st: State, sid: SessionId, m: Message, except: set<ClientId>)
    ensures Broadcast(st, sid, m, except).sockets.Keys == st.sockets.Keys
  {}

  lemma {:induction false} CloseAllKeepsSockets(st: State, order: seq<SessionId>)
    ensures CloseAll(st, order).sockets == st.sockets
  {
    if order != [] {
      CloseAllKeepsSockets(st, order[..|order| - 1]);
    }
  }
}
