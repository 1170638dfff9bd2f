/** The invariant of the multiplexer and the proof that every handler keeps it. */
module SessionInvariant {
  import opened Common
  import opened SessionModel

  // ------------------------------------------------------------- the invariant

  ghost predicate Member(st: State, sid: SessionId, c: ClientId) {
    sid in st.sessions && c in st.sessions[sid].clients
  }

  ghost predicate Tracked(st: State, c: ClientId, sid: SessionId) {
    c in st.clientSessions && sid in st.clientSessions[c]
  }

  /** client -> sessions is exactly the inverse of session -> clients, without empty entries. */
  ghost predicate Inverse(st: State) {
    (forall c, sid :: Tracked(st, c, sid) <==> Member(st, sid, c)) &&
    (forall c :: c in st.clientSessions ==> st.clientSessions[c] != {})
  }

  ghost predicate SessionOk(st: State, sid: SessionId)
    requires sid in st.sessions
  {
    var s := st.sessions[sid];
    |s.clients| <= st.cfg.maxClientsPerSession &&
    s.clients <= st.sockets.Keys &&
    (s.orphanedAt.Some? <==> s.clients == {}) &&
    (s.orphanedAt.Some? ==> s.orphanedAt.value <= st.now)
  }

  /** A timer runs exactly for an orphaned session without tmux, due when its timeout is over. */
  ghost predicate TimerOk(st: State, sid: SessionId) {
    (sid in st.timers <==> sid in st.sessions && st.sessions[sid].orphanedAt.Some? && !st.sessions[sid].useTmux) &&
    (sid in st.timers ==> st.timers[sid] == st.sessions[sid].orphanedAt.value + Timeout(st, st.sessions[sid]))
  }

  ghost predicate SessionsOk(st: State) {
    |st.sessions| <= st.cfg.maxSessionsTotal && forall sid :: sid in st.sessions ==> SessionOk(st, sid)
  }

  ghost predicate TimersOk(st: State) {
    forall sid :: TimerOk(st, sid)
  }

  ghost predicate ClientCaps(st: State) {
    forall c :: c in st.clientSessions ==> |st.clientSessions[c]| <= st.cfg.maxSessionsPerClient
  }

  ghost predicate Registry(st: State) {
    ValidConfig(st.cfg) && Inverse(st) && SessionsOk(st) && TimersOk(st) && ClientCaps(st)
  }

  lemma SubsetSize<T>(a: set<T>, b: set<T>)
    requires a <= b
    ensures |a| <= |b|
  {
    assert b == a + (b - a);
  }

  lemma EmptyDifference<T>(a: set<T>, b: set<T>)
    ensures a - b == {} <==> a <= b
  {
    assert forall x :: x in a && x !in b ==> x in a - b;
  }

  lemma DetachMembers(st: State, gone: set<ClientId>, sids: set<SessionId>)
    ensures forall c, sid :: Member(Detach(st, gone, sids), sid, c) <==> Member(st, sid, c) && !(c in gone && sid in sids)
    ensures forall c, sid :: Tracked(Detach(st, gone, sids), c, sid) <==> Tracked(st, c, sid) && !(c in gone && sid in sids)
  {
    var after := Detach(st, gone, sids);
    forall c, sid
      ensures Tracked(after, c, sid) <==> Tracked(st, c, sid) && !(c in gone && sid in sids)
    {
      if c in st.clientSessions {
        assert sid in SessionsLeft(st, c, gone, sids) ==> SessionsLeft(st, c, gone, sids) != {};
      }
    }
  }

  lemma DetachSessionOk(st: State, gone: set<ClientId>, sids: set<SessionId>, sid: SessionId)
    requires sid in st.sessions && SessionOk(st, sid)
    ensures SessionOk(Detach(st, gone, sids), sid)
  {
    SubsetSize(st.sessions[sid].clients - gone, st.sessions[sid].clients);
    EmptyDifference(st.sessions[sid].clients, gone);
    assert Detach(st, gone, sids).sessions[sid] == DetachSession(st, sid, gone, sids);
    hide Detach;
  }

  /** A timer is only ever started where none is running, so none is overwritten and left to fire on its own. */
  lemma NoTimerIsOverwritten(st: State, sid: SessionId, gone: set<ClientId>, sids: set<SessionId>)
    requires Registry(st) && StartsTimer(st, sid, gone, sids)
    ensures sid !in st.timers && sid in DetachTimers(st, gone, sids)
    ensures DetachTimers(st, gone, sids)[sid] == st.now + Timeout(st, st.sessions[sid])
  {
    assert SessionOk(st, sid) && TimerOk(st, sid);
  }

  lemma DetachTimerOk(st: State, gone: set<ClientId>, sids: set<SessionId>, sid: SessionId)
    requires TimerOk(st, sid) && (sid in st.sessions ==> SessionOk(st, sid))
    ensures TimerOk(Detach(st, gone, sids), sid)
  {}

  lemma DetachSessionsOk(st: State, gone: set<ClientId>, sids: set<SessionId>)
    requires SessionsOk(st)
    ensures SessionsOk(Detach(st, gone, sids))
  {
    var after := Detach(st, gone, sids);
    assert after.sessions.Keys == st.sessions.Keys;
    forall sid | sid in after.sessions
      ensures SessionOk(after, sid)
    {
      DetachSessionOk(st, gone, sids, sid);
    }
  }

  lemma DetachTimersOk(st: State, gone: set<ClientId>, sids: set<SessionId>)
    requires SessionsOk(st) && TimersOk(st)
    ensures TimersOk(Detach(st, gone, sids))
  {
    forall sid
      ensures TimerOk(Detach(st, gone, sids), sid)
    {
      DetachTimerOk(st, gone, sids, sid);
    }
  }

  lemma DetachClientCaps(st: State, gone: set<ClientId>, sids: set<SessionId>)
    requires ClientCaps(st)
    ensures ClientCaps(Detach(st, gone, sids))
  {}

  lemma DetachRegistry(st: State, gone: set<ClientId>, sids: set<SessionId>)
    requires Registry(st)
    ensures Registry(Detach(st, gone, sids))
  {
    DetachSessionsOk(st, gone, sids);
    DetachTimersOk(st, gone, sids);
    DetachClientCaps(st, gone, sids);
    DetachMembers(st, gone, sids);
  }


  lemma CloseRegistry(st: State, sid: SessionId, reason: Reason)
    requires Registry(st)
    ensures Registry(Close(st, sid, reason))
  {
    if sid in st.sessions {
      var after := Close(st, sid, reason);
      assert |after.sessions| == |st.sessions.Keys - {sid}|;
      SubsetSize(st.sessions.Keys - {sid}, st.sessions.Keys);
      forall other | other in after.sessions
        ensures SessionOk(after, other)
      {
        assert SessionOk(st, other);
      }
      forall other
        ensures TimerOk(after, other)
      {
        assert TimerOk(st, other);
      }
      CloseInverse(st, sid, reason);
      forall c | c in after.clientSessions
        ensures |after.clientSessions[c]| <= st.cfg.maxSessionsPerClient
      {
        SubsetSize(after.clientSessions[c], st.clientSessions[c]);
      }
    }
  }

  lemma CloseInverse(st: State, sid: SessionId, reason: Reason)
    requires Inverse(st) && sid in st.sessions
    ensures Inverse(Close(st, sid, reason))
  {
    var after := Close(st, sid, reason);
    forall c, other
      ensures Tracked(after, c, other) <==> Member(after, other, c)
    {
      assert Tracked(st, c, other) <==> Member(st, other, c);
      assert Tracked(st, c, sid) <==> Member(st, sid, c);
    }
    forall c | c in after.clientSessions
      ensures after.clientSessions[c] != {}
    {
      if c in st.sessions[sid].clients {
        assert Tracked(st, c, sid);
      }
    }
  }

  lemma TrackInverse(st: State, after: State, c: ClientId, sid: SessionId)
    requires Inverse(st)
    requires after.clientSessions == Track(st.clientSessions, c, sid)
    requires forall d, other :: Member(after, other, d) <==> Member(st, other, d) || (d == c && other == sid)
    ensures Inverse(after)
  {}

  lemma TrackCaps(st: State, after: State, c: ClientId, sid: SessionId)
    requires ClientCaps(st) && 1 <= st.cfg.maxSessionsPerClient && after.cfg == st.cfg
    requires Tracked(st, c, sid) || !AtClientLimit(st, c)
    requires after.clientSessions == Track(st.clientSessions, c, sid)
    ensures ClientCaps(after)
  {}

  lemma CreateRegistry(st: State, sid: SessionId, c: ClientId, token: Token, o: SpawnOptions)
    requires Registry(st) && CanCreate(st, sid) && !AtClientLimit(st, c) && c in st.sockets
    ensures Registry(Create(st, sid, c, token, o))
  {
    var after := Create(st, sid, c, token, o);
    forall other | other in after.sessions
      ensures SessionOk(after, other)
    {
      assert other != sid ==> SessionOk(st, other);
    }
    forall other
      ensures TimerOk(after, other)
    {
      assert TimerOk(st, other);
    }
    TrackInverse(st, after, c, sid);
    TrackCaps(st, after, c, sid);
  }

  lemma AddRegistry(st: State, sid: SessionId, c: ClientId, token: Option<Token>)
    requires Registry(st) && Admits(st, sid, token) && c in st.sockets
    requires Member(st, sid, c) || !AtClientLimit(st, c)
    ensures Registry(Add(st, sid, c, token))
  {
    var after := Add(st, sid, c, token);
    assert after.sessions.Keys == st.sessions.Keys;
    assert |after.sessions| == |after.sessions.Keys|;
    forall other | other in after.sessions
      ensures SessionOk(after, other)
    {
      assert SessionOk(st, other);
    }
    forall other
      ensures TimerOk(after, other)
    {
      assert TimerOk(st, other) && SessionOk(st, sid);
    }
    TrackInverse(st, after, c, sid);
    assert Tracked(st, c, sid) <==> Member(st, sid, c);
    TrackCaps(st, after, c, sid);
  }

  /** Nothing the registry depends on changed. */
  ghost predicate SameRegistry(st: State, after: State) {
    after.cfg == st.cfg && after.clientSessions == st.clientSessions && after.timers == st.timers &&
    st.sockets.Keys <= after.sockets.Keys && st.now <= after.now &&
    after.sessions.Keys == st.sessions.Keys &&
    forall sid :: sid in st.sessions ==> SameMembership(st.sessions[sid], after.sessions[sid])
  }

  ghost predicate SameMembership(s: Session, t: Session) {
    t == s.(lastActivity := t.lastActivity, history := t.history, wired := t.wired)
  }

  lemma SameKeepsRegistry(st: State, after: State)
    requires Registry(st) && SameRegistry(st, after)
    ensures Registry(after)
  {
    assert |after.sessions| == |after.sessions.Keys| == |st.sessions|;
    forall sid | sid in after.sessions
      ensures SessionOk(after, sid)
    {
      assert SessionOk(st, sid) && SameMembership(st.sessions[sid], after.sessions[sid]);
    }
    forall sid
      ensures TimerOk(after, sid)
    {
      assert TimerOk(st, sid);
      assert sid in st.sessions ==> SameMembership(st.sessions[sid], after.sessions[sid]);
    }
    forall c, sid
      ensures Tracked(after, c, sid) <==> Member(after, sid, c)
    {
      assert Tracked(st, c, sid) <==> Member(st, sid, c);
      assert sid in st.sessions ==> SameMembership(st.sessions[sid], after.sessions[sid]);
    }
  }

  lemma DeliverRegistry(st: State, m: Message, targets: set<ClientId>)
    requires Registry(st)
    ensures Registry(Deliver(st, m, targets))
  {
    hide Registry, Detach, Slow;
    DetachRegistry(st, Slow(st, m, targets), st.sessions.Keys);
    DeliverSame(st, m, targets);
    SameKeepsRegistry(Detach(st, Slow(st, m, targets), st.sessions.Keys), Deliver(st, m, targets));
  }

  lemma DeliverSame(st: State, m: Message, targets: set<ClientId>)
    ensures SameRegistry(Detach(st, Slow(st, m, targets), st.sessions.Keys), Deliver(st, m, targets))
  {}
}
