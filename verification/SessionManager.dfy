/**
 * SessionManager: the registry and its loops (src/server/session-manager.ts),
 * proved against the state machine of SessionModel.
 */
module SessionManagers {
  import opened Common
  import opened SessionModel
  import opened SessionInvariant
  import opened SessionAlgebra

  /** The sockets of all connections, shared by the manager and the server. */
  class Network {
    var sockets: map<ClientId, Socket>

    constructor ()
      ensures sockets == map[]
    {
      sockets := map[];
    }
  }

  function CanQueueWebSocketMessage(bufferedAmount: nat, messageBytes: nat, maximumBufferedBytes: nat): bool {
    bufferedAmount + messageBytes <= maximumBufferedBytes
  }

  class SessionManager {
    const cfg: Config
    const net: Network
    var now: nat
    var sessions: map<SessionId, Session>
    var clientToSessions: map<ClientId, set<SessionId>>
    var orphanTimers: map<SessionId, nat>
    ghost var ptys: map<SessionId, Pty>
    ghost var closures: seq<Closure>

    ghost function View(): State
      reads this, net
    {
      State(cfg, now, sessions, clientToSessions, orphanTimers, net.sockets, ptys, closures)
    }

    /** Both indexes agree, and every member has a socket. */
    ghost predicate Valid()
      reads this, net
    {
      Inverse(View()) && MembersConnected(View())
    }

    constructor (cfg: Config, net: Network)
      requires net.sockets == map[]
      ensures Valid() && View() == Initial(cfg) && this.net == net && this.cfg == cfg
    {
      this.cfg, this.net := cfg, net;
      now, sessions, clientToSessions, orphanTimers := 0, map[], map[], map[];
      ptys, closures := map[], [];
    }

    // ------------------------------------------------------ client bookkeeping

    method TrackClientSession(clientId: ClientId, sessionId: SessionId)
      modifies this`clientToSessions
      ensures clientToSessions == Track(old(clientToSessions), clientId, sessionId)
    {
      var clientSessions := {};
      if clientId in clientToSessions {
        clientSessions := clientToSessions[clientId];
      }
      clientToSessions := clientToSessions[clientId := clientSessions + {sessionId}];
    }

    method UntrackClientSession(clientId: ClientId, sessionId: SessionId)
      modifies this`clientToSessions
      ensures clientToSessions == Untrack(old(clientToSessions), clientId, sessionId)
    {
      if clientId in clientToSessions {
        var clientSessions := clientToSessions[clientId] - {sessionId};
        if clientSessions == {} {
          clientToSessions := clientToSessions - {clientId};
        } else {
          clientToSessions := clientToSessions[clientId := clientSessions];
        }
      }
    }

    method HandleOrphanedSession(sessionId: SessionId)
      requires sessionId in sessions
      modifies this
      ensures View() == Orphaned(old(View()), sessionId)
    {
      var session := sessions[sessionId].(orphanedAt := Some(now));
      sessions := sessions[sessionId := session];
      if session.useTmux {
        return;
      }
      var timeout := if session.orphanTimeout.Some? then session.orphanTimeout.value else cfg.orphanTimeout;
      orphanTimers := orphanTimers[sessionId := now + timeout];
    }

    method RemoveClient(sessionId: SessionId, clientId: ClientId)
      requires Valid()
      modifies this
      ensures Valid() && View() == Detach(old(View()), {clientId}, {sessionId})
    {
      if sessionId !in sessions || clientId !in sessions[sessionId].clients {
        NotAMember(View(), clientId, sessionId);
        return;
      }
      MemberLeft(View(), clientId, sessionId);
      DetachKeepsValid(View(), {clientId}, {sessionId});
      var session := sessions[sessionId];
      session := session.(clients := session.clients - {clientId});
      sessions := sessions[sessionId := session];
      UntrackClientSession(clientId, sessionId);
      if session.clients == {} {
        HandleOrphanedSession(sessionId);
      }
    }

    method RemoveClientFromAllSessions(clientId: ClientId) returns (sessionIds: set<SessionId>)
      requires Valid()
      modifies this
      ensures Valid() && View() == Detach(old(View()), {clientId}, old(sessions).Keys)
      ensures forall sid :: sid in sessionIds <==> old(Member(View(), sid, clientId))
    {
      ghost var before := View();
      sessionIds := if clientId in clientToSessions then clientToSessions[clientId] else {};
      AllSessionsOf(before, clientId, sessionIds);
      DetachNobody(before, {clientId}, {});
      var left := sessionIds;
      ghost var done := {};
      while left != {}
        invariant Valid() && done + left == sessionIds
        invariant View() == Detach(before, {clientId}, done)
      {
        var sessionId :| sessionId in left;
        RemoveClient(sessionId, clientId);
        OneSessionMore(before, clientId, done, sessionId);
        done, left := done + {sessionId}, left - {sessionId};
      }
      assert done == sessionIds;
    }

    // ------------------------------------------------------------ broadcasting

    method SendSerializedToClient(clientId: ClientId, m: Message) returns (sent: bool)
      requires Valid() && clientId in net.sockets
      modifies this, net
      ensures Valid() && View() == Deliver(old(View()), m, {clientId})
      ensures sent ==> net.sockets[clientId].sent == old(net.sockets)[clientId].sent + [m]
    {
      DeliverToOne(View(), m, clientId);
      var socket := net.sockets[clientId];
      if !socket.open {
        return false;
      }
      if !CanQueueWebSocketMessage(socket.buffered, cfg.byteLength(m), cfg.maxBufferedOutputBytes) {
        var _ := RemoveClientFromAllSessions(clientId);
        ghost var detached := View();
        net.sockets := net.sockets[clientId := socket.(open := false)];
        SocketsKeepValid(detached, View());
        return false;
      }
      if !socket.working {
        return false;
      }
      ghost var before := View();
      net.sockets := net.sockets[clientId := Queue(socket, m, cfg.byteLength(m))];
      SocketsKeepValid(before, View());
      return true;
    }

    method BroadcastToSession(sessionId: SessionId, m: Message, excluded: set<ClientId>)
      requires Valid()
      modifies this, net
      ensures Valid() && View() == Broadcast(old(View()), sessionId, m, excluded)
    {
      if sessionId !in sessions {
        return;
      }
      ghost var before := View();
      var left := sessions[sessionId].clients - excluded;
      ghost var targets, done := left, {};
      DeliverToNobody(before, m);
      DeliverKeepsSockets(before, m, {});
      MembersHaveSockets(before, sessionId);
      while left != {}
        invariant Valid() && done + left == targets && done !! left
        invariant View() == Deliver(before, m, done)
        invariant net.sockets.Keys == before.sockets.Keys
      {
        var clientId :| clientId in left;
        var _ := SendSerializedToClient(clientId, m);
        DeliverOneMore(before, m, done, clientId);
        DeliverKeepsSockets(before, m, done + {clientId});
        done, left := done + {clientId}, left - {clientId};
      }
      assert done == targets;
    }

    // -------------------------------------------------------- session life cycle

    /** Fails when the manager is full or the identifier is taken. */
    method CreateSession(id: SessionId, ownerId: ClientId, resumeToken: Token, o: SpawnOptions)
      returns (created: bool)
      requires Valid() && ownerId in net.sockets
      modifies this
      ensures created <==> old(CanCreate(View(), id))
      ensures Valid()
      ensures View() == if created then Create(old(View()), id, ownerId, resumeToken, o) else old(View())
    {
      if |sessions| >= cfg.maxSessionsTotal || id in sessions {
        return false;
      }
      CreateKeepsValid(View(), id, ownerId, resumeToken, o);
      var session := Session({ownerId}, ownerId, o.allowJoin, resumeToken, o.enableHistory && cfg.historyEnabled, "",
                             None, o.orphanTimeout, o.useTmux, now, false, o.target);
      TrackClientSession(ownerId, id);
      sessions := sessions[id := session];
      ptys := ptys[id := Pty(0, "", o.allowJoin, resumeToken, {ownerId})];
      return true;
    }

    /** Removes the session first and kills its PTY then, which may exit on the spot. */
    method CloseSession(sessionId: SessionId, reason: Reason)
      requires Valid()
      modifies this, net
      ensures Valid() && View() == Close(old(View()), sessionId, reason)
      decreases |sessions|, 0
    {
      if sessionId !in sessions {
        return;
      }
      CloseKeepsValid(View(), sessionId, reason);
      UnregisterSession(sessionId);
      KillPty(sessionId);
      closures := closures + [Closure(sessionId, reason)];
    }

    method UnregisterSession(sessionId: SessionId)
      requires Valid() && sessionId in sessions
      modifies this
      ensures Valid() && View() == Unregister(old(View()), sessionId) && |sessions| < old(|sessions|)
    {
      UnregisterKeepsValid(View(), sessionId);
      orphanTimers := orphanTimers - {sessionId};
      ForgetMembers(sessionId);
      assert |sessions.Keys - {sessionId}| < |sessions.Keys|;
      sessions := sessions - {sessionId};
    }

    method ForgetMembers(sessionId: SessionId)
      requires sessionId in sessions
      requires forall c :: c in sessions[sessionId].clients ==> c in clientToSessions
      modifies this`clientToSessions
      ensures clientToSessions == Forget(old(clientToSessions), sessions[sessionId].clients, sessionId)
    {
      ghost var before, done := clientToSessions, {};
      var left := sessions[sessionId].clients;
      assert Forget(before, {}, sessionId) == before;
      while left != {}
        invariant done + left == sessions[sessionId].clients && done !! left
        invariant clientToSessions == Forget(before, done, sessionId)
      {
        var clientId :| clientId in left;
        ForgetOneMore(before, done, clientId, sessionId);
        UntrackIsForget(clientToSessions, clientId, sessionId);
        UntrackClientSession(clientId, sessionId);
        done, left := done + {clientId}, left - {clientId};
      }
      assert done == sessions[sessionId].clients;
    }

    /** `pty.kill()`: the environment decides whether the exit is reported synchronously. */
    method KillPty(sessionId: SessionId)
      requires Valid() && sessionId !in sessions
      modifies this, net
      ensures Valid()
      ensures View() == old(View()).(ptys := Killed(old(ptys), sessionId))
      decreases |sessions|, 2
    {
      ghost var before := View();
      ptys := Killed(ptys, sessionId);
      SameBookkeeping(before, View());
      if * {
        var exitCode: int := *;
        OnPtyExit(sessionId, exitCode);
      }
    }

    /** The exit listener that the server registers for a session. */
    method OnPtyExit(sessionId: SessionId, exitCode: int)
      requires Valid()
      modifies this, net
      ensures Valid() && View() == Farewell(old(View()), sessionId, exitCode, ProcessExit)
      decreases |sessions|, 1
    {
      ghost var count := |sessions|;
      BroadcastKeepsKeys(View(), sessionId, Exit(sessionId, exitCode));
      BroadcastToSession(sessionId, Exit(sessionId, exitCode), {});
      BroadcastKeepsKeys(View(), sessionId, SessionClosed(sessionId, ProcessExit));
      BroadcastToSession(sessionId, SessionClosed(sessionId, ProcessExit), {});
      assert |sessions.Keys| == count;
      CloseSession(sessionId, ProcessExit);
    }

    method AddClient(sessionId: SessionId, clientId: ClientId, resumeToken: Option<Token>) returns (added: bool)
      requires Valid() && clientId in net.sockets
      modifies this
      ensures added <==> old(Admits(View(), sessionId, resumeToken))
      ensures Valid()
      ensures View() == if added then Add(old(View()), sessionId, clientId, resumeToken) else old(View())
    {
      if sessionId !in sessions {
        return false;
      }
      var session := sessions[sessionId];
      var ownerResume := resumeToken == Some(session.resumeToken);
      if !(session.accepting || ownerResume) || |session.clients| >= cfg.maxClientsPerSession {
        return false;
      }
      AddKeepsValid(View(), sessionId, clientId, resumeToken);
      hide Inverse, MembersConnected;
      if session.orphanedAt.Some? {
        orphanTimers := orphanTimers - {sessionId};
      }
      if ownerResume {
        ptys := Trusted(ptys, sessionId, clientId);
      }
      TrackClientSession(clientId, sessionId);
      sessions := sessions[sessionId := session.(clients := session.clients + {clientId}, orphanedAt := None,
                                                 owner := if ownerResume then clientId else session.owner)];
      return true;
    }

    method UpdateActivity(sessionId: SessionId)
      requires Valid()
      modifies this
      ensures Valid() && View() == if old(sessionId in sessions) then Touch(old(View()), sessionId) else old(View())
    {
      if sessionId in sessions {
        ghost var before := View();
        sessions := sessions[sessionId := sessions[sessionId].(lastActivity := now)];
        SameMembersKeepValid(before, View());
      }
    }

    /** The data listener that the server registers for a session. */
    method OnPtyData(sessionId: SessionId, data: string)
      requires Valid()
      modifies this, net
      ensures Valid()
      ensures View() == if old(sessionId in sessions)
        then Broadcast(Record(old(View()), sessionId, data), sessionId, Data(sessionId, data), {}) else old(View())
    {
      if sessionId in sessions {
        ghost var before := View();
        var session := sessions[sessionId].(lastActivity := now);
        if session.historyEnabled {
          session := session.(history := LastN(session.history + data, cfg.historySize));
        }
        sessions := sessions[sessionId := session];
        ptys := if sessionId in ptys then ptys[sessionId := ptys[sessionId].(output := ptys[sessionId].output + data)]
                else ptys;
        SameMembersKeepValid(before, View());
      }
      BroadcastToSession(sessionId, Data(sessionId, data), {});
    }

    method OnOrphanTimer(sessionId: SessionId)
      requires Valid()
      modifies this, net
      ensures Valid() && View() == TimerStep(old(View()), sessionId)
    {
      if sessionId in sessions && sessions[sessionId].clients == {} {
        CloseSession(sessionId, OrphanTimeout);
      }
    }

    /** Closes every session while iterating over the shrinking registry. */
    method Cleanup(order: seq<SessionId>)
      requires Valid()
      modifies this, net
      ensures View() == CloseAll(old(View()).(timers := map[]), order).(clientSessions := map[])
    {
      ghost var cleared := View().(timers := map[]);
      SameBookkeeping(View(), cleared);
      orphanTimers := map[];
      for i := 0 to |order|
        invariant Valid() && View() == CloseAll(cleared, order[..i])
      {
        assert order[..i + 1][..i] == order[..i];
        CloseSession(order[i], Reason.Cleanup);
      }
      assert order[..|order|] == order;
      clientToSessions := map[];
    }
  }

  ghost function Untrack(clientSessions: map<ClientId, set<SessionId>>, c: ClientId, sid: SessionId)
    : map<ClientId, set<SessionId>>
  {
    if c !in clientSessions then clientSessions
    else if clientSessions[c] - {sid} == {} then Remove(clientSessions, c)
    else clientSessions[c := clientSessions[c] - {sid}]
  }

  ghost function Orphaned(st: State, sid: SessionId): State
    requires sid in st.sessions
  {
    var s := st.sessions[sid];
    st.(sessions := st.sessions[sid := s.(orphanedAt := Some(st.now))],
        timers := if s.useTmux then st.timers else st.timers[sid := st.now + Timeout(st, s)])
  }

  ghost function MemberDropped(st: State, c: ClientId, sid: SessionId): State
    requires sid in st.sessions
  {
    var s := st.sessions[sid];
    var smaller := st.(sessions := st.sessions[sid := s.(clients := s.clients - {c})],
                       clientSessions := Untrack(st.clientSessions, c, sid));
    if s.clients - {c} == {} then Orphaned(smaller, sid) else smaller
  }

  lemma DeliverKeepsSockets(st: State, m: Message, targets: set<ClientId>)
    ensures Deliver(st, m, targets).sockets.Keys == st.sockets.Keys
    ensures Deliver(st, m, targets).sessions.Keys == st.sessions.Keys
  {}

  lemma MembersHaveSockets(st: State, sid: SessionId)
    requires MembersConnected(st) && sid in st.sessions
    ensures st.sessions[sid].clients <= st.sockets.Keys
  {
    forall c | c in st.sessions[sid].clients
      ensures c in st.sockets
    {
      assert Member(st, sid, c);
    }
  }

  /** The step-by-step removal of one member is the one-shot removal of the model. */
  lemma MemberLeft(st: State, c: ClientId, sid: SessionId)
    requires Inverse(st) && Member(st, sid, c)
    ensures MemberDropped(st, c, sid) == Detach(st, {c}, {sid})
  {
    hide DetachClients, DetachTimers, Untrack;
    var s := st.sessions[sid];
    assert s.clients - {c} == {} <==> Empties(s, {c});
    assert DetachSessions(st, {c}, {sid}) == st.sessions[sid := Shrink(s, {c}, st.now)];
    OneClientUntracked(st, c, sid);
    OneTimerStarted(st, c, sid);
  }

  lemma OneClientUntracked(st: State, c: ClientId, sid: SessionId)
    requires NoEmptyEntry(st)
    ensures DetachClients(st, {c}, {sid}) == Untrack(st.clientSessions, c, sid)
  {}

  lemma OneTimerStarted(st: State, c: ClientId, sid: SessionId)
    requires sid in st.sessions
    ensures var s := st.sessions[sid];
      DetachTimers(st, {c}, {sid}) ==
      if Empties(s, {c}) && !s.useTmux then st.timers[sid := st.now + Timeout(st, s)] else st.timers
  {}

  lemma NotAMember(st: State, c: ClientId, sid: SessionId)
    requires Inverse(st) && !Member(st, sid, c)
    ensures Detach(st, {c}, {sid}) == st
  {
    assert !Tracked(st, c, sid);
    DetachNobody(st, {c}, {sid});
  }

  ghost predicate MembersConnected(st: State) {
    forall sid, c :: Member(st, sid, c) ==> c in st.sockets
  }

  lemma DetachKeepsInverse(st: State, gone: set<ClientId>, sids: set<SessionId>)
    requires Inverse(st)
    ensures Inverse(Detach(st, gone, sids))
  {
    DetachMembers(st, gone, sids);
  }

  lemma DetachKeepsValid(st: State, gone: set<ClientId>, sids: set<SessionId>)
    requires Inverse(st) && MembersConnected(st)
    ensures Inverse(Detach(st, gone, sids)) && MembersConnected(Detach(st, gone, sids))
  {
    DetachMembers(st, gone, sids);
  }

  lemma SocketsKeepValid(st: State, after: State)
    requires Inverse(st) && MembersConnected(st)
    requires after.sessions == st.sessions && after.clientSessions == st.clientSessions
    requires st.sockets.Keys <= after.sockets.Keys
    ensures Inverse(after) && MembersConnected(after)
  {
    forall c, sid
      ensures Tracked(after, c, sid) <==> Member(after, sid, c)
    {
      assert Tracked(st, c, sid) <==> Member(st, sid, c);
    }
    forall sid, c | Member(after, sid, c)
      ensures c in after.sockets
    {
      assert Member(st, sid, c);
    }
  }

  /** The tracked sessions of a client are all the sessions it has to leave. */
  lemma AllSessionsOf(st: State, c: ClientId, sids: set<SessionId>)
    requires Inverse(st) && sids == if c in st.clientSessions then st.clientSessions[c] else {}
    ensures forall sid :: sid in sids <==> Member(st, sid, c)
    ensures Detach(st, {c}, sids) == Detach(st, {c}, st.sessions.Keys)
  {
    forall sid
      ensures sid in sids <==> Member(st, sid, c)
    {
      assert Tracked(st, c, sid) <==> Member(st, sid, c);
    }
    var others := st.sessions.Keys - sids;
    DetachKeepsInverse(st, {c}, sids);
    forall d, sid | Takes({c}, others, d, sid)
      ensures !Member(Detach(st, {c}, sids), sid, d) && !Tracked(Detach(st, {c}, sids), d, sid)
    {
      DetachMembers(st, {c}, sids);
      assert !Member(st, sid, d);
    }
    DetachNobody(Detach(st, {c}, sids), {c}, others);
    assert sids <= st.sessions.Keys by {
      forall sid | sid in sids
        ensures sid in st.sessions
      {
        assert Member(st, sid, c);
      }
    }
    DetachTwice(st, {c}, sids, {c}, others, {c}, st.sessions.Keys);
  }

  lemma OneSessionMore(st: State, c: ClientId, done: set<SessionId>, sid: SessionId)
    ensures Detach(Detach(st, {c}, done), {c}, {sid}) == Detach(st, {c}, done + {sid})
  {
    DetachTwice(st, {c}, done, {c}, {sid}, {c}, done + {sid});
  }

  lemma UntrackIsForget(clientSessions: map<ClientId, set<SessionId>>, c: ClientId, sid: SessionId)
    requires c in clientSessions
    ensures Untrack(clientSessions, c, sid) == Forget(clientSessions, {c}, sid)
  {}

  lemma SameBookkeeping(st: State, after: State)
    requires Inverse(st) && MembersConnected(st)
    requires after.sessions == st.sessions && after.clientSessions == st.clientSessions && after.sockets == st.sockets
    ensures Inverse(after) && MembersConnected(after)
  {
    SocketsKeepValid(st, after);
  }

  lemma UnregisterKeepsValid(st: State, sid: SessionId)
    requires Inverse(st) && MembersConnected(st) && sid in st.sessions
    ensures Inverse(Unregister(st, sid)) && MembersConnected(Unregister(st, sid))
    ensures forall c :: c in st.sessions[sid].clients ==> c in st.clientSessions
  {
    CloseKeepsValid(st, sid, Cleanup);
    SameBookkeeping(Close(st, sid, Cleanup), Unregister(st, sid));
  }

  lemma CloseKeepsValid(st: State, sid: SessionId, reason: Reason)
    requires Inverse(st) && MembersConnected(st) && sid in st.sessions
    ensures Inverse(Close(st, sid, reason)) && MembersConnected(Close(st, sid, reason))
    ensures forall c :: c in st.sessions[sid].clients ==> c in st.clientSessions
  {
    CloseInverse(st, sid, reason);
    forall c | c in st.sessions[sid].clients
      ensures c in st.clientSessions
    {
      assert Member(st, sid, c);
    }
    forall other, c | Member(Close(st, sid, reason), other, c)
      ensures c in st.sockets
    {
      assert Member(st, other, c);
    }
  }

  lemma BroadcastKeepsKeys(st: State, sid: SessionId, m: Message)
    ensures Broadcast(st, sid, m, {}).sessions.Keys == st.sessions.Keys
  {}

  lemma CreateKeepsValid(st: State, sid: SessionId, c: ClientId, token: Token, o: SpawnOptions)
    requires Inverse(st) && MembersConnected(st) && CanCreate(st, sid) && c in st.sockets
    ensures Inverse(Create(st, sid, c, token, o)) && MembersConnected(Create(st, sid, c, token, o))
  {
    var after := Create(st, sid, c, token, o);
    forall other, d
      ensures Member(after, other, d) <==> Member(st, other, d) || (d == c && other == sid)
    {}
    TrackInverse(st, after, c, sid);
  }

  lemma AddKeepsValid(st: State, sid: SessionId, c: ClientId, token: Option<Token>)
    requires Inverse(st) && MembersConnected(st) && sid in st.sessions && c in st.sockets
    ensures Inverse(Add(st, sid, c, token)) && MembersConnected(Add(st, sid, c, token))
  {
    var after := Add(st, sid, c, token);
    forall other, d
      ensures Member(after, other, d) <==> Member(st, other, d) || (d == c && other == sid)
    {}
    TrackInverse(st, after, c, sid);
  }

  lemma SameMembersKeepValid(st: State, after: State)
    requires Inverse(st) && MembersConnected(st)
    requires after.sessions.Keys == st.sessions.Keys
    requires forall sid :: sid in st.sessions ==> after.sessions[sid].clients == st.sessions[sid].clients
    requires after.clientSessions == st.clientSessions && after.sockets == st.sockets
    ensures Inverse(after) && MembersConnected(after)
  {
    forall c, sid
      ensures Tracked(after, c, sid) <==> Member(after, sid, c)
    {
      assert Tracked(st, c, sid) <==> Member(st, sid, c);
    }
    forall sid, c | Member(after, sid, c)
      ensures c in after.sockets
    {
      assert Member(st, sid, c);
    }
  }
}
