/**
 * How partial sends and removals compose: the laws that let loops over clients
 * and sessions meet the one-shot definitions of the model, in any order.
 */
module SessionAlgebra {
  import opened Common
  import opened SessionModel
  import opened SessionInvariant

  ghost predicate Takes(gone: set<ClientId>, sids: set<SessionId>, c: ClientId, sid: SessionId) {
    c in gone && sid in sids
  }

  /** Removing two rectangles of memberships one after the other removes their union. */
  ghost predicate Union(g1: set<ClientId>, s1: set<SessionId>, g2: set<ClientId>, s2: set<SessionId>,
                        g: set<ClientId>, s: set<SessionId>) {
    forall c, sid :: Takes(g, s, c, sid) <==> Takes(g1, s1, c, sid) || Takes(g2, s2, c, sid)
  }

  ghost function GoneFrom(gone: set<ClientId>, sids: set<SessionId>, sid: SessionId): set<ClientId> {
    if sid in sids then gone else {}
  }

  lemma ShrinkTwice(s: Session, g1: set<ClientId>, g2: set<ClientId>, now: nat)
    ensures Shrink(Shrink(s, g1, now), g2, now) == Shrink(s, g1 + g2, now)
  {
    assert s.clients - g1 - g2 == s.clients - (g1 + g2);
    assert Empties(s, g1 + g2) <==> Empties(s, g1) || Empties(Shrink(s, g1, now), g2) by {
      if Empties(s, g1 + g2) && !Empties(s, g1) {
        var c :| c in s.clients && c !in g1;
        assert c in s.clients - g1;
      }
    }
  }

  lemma DetachSessionIsShrink(st: State, sid: SessionId, gone: set<ClientId>, sids: set<SessionId>)
    requires sid in st.sessions
    ensures DetachSession(st, sid, gone, sids) == Shrink(st.sessions[sid], GoneFrom(gone, sids, sid), st.now)
  {}

  lemma GoneUnion(g1: set<ClientId>, s1: set<SessionId>, g2: set<ClientId>, s2: set<SessionId>,
                  g: set<ClientId>, s: set<SessionId>, sid: SessionId)
    requires Union(g1, s1, g2, s2, g, s)
    ensures GoneFrom(g, s, sid) == GoneFrom(g1, s1, sid) + GoneFrom(g2, s2, sid)
  {
    forall c
      ensures c in GoneFrom(g, s, sid) <==> c in GoneFrom(g1, s1, sid) + GoneFrom(g2, s2, sid)
    {
      assert Takes(g, s, c, sid) <==> Takes(g1, s1, c, sid) || Takes(g2, s2, c, sid);
    }
  }

  lemma DetachSessionsTwice(st: State, g1: set<ClientId>, s1: set<SessionId>, g2: set<ClientId>, s2: set<SessionId>,
                            g: set<ClientId>, s: set<SessionId>)
    requires Union(g1, s1, g2, s2, g, s)
    ensures DetachSessions(Detach(st, g1, s1), g2, s2) == DetachSessions(st, g, s)
  {
    var mid := Detach(st, g1, s1);
    forall sid | sid in st.sessions
      ensures DetachSession(mid, sid, g2, s2) == DetachSession(st, sid, g, s)
    {
      DetachSessionIsShrink(st, sid, g1, s1);
      DetachSessionIsShrink(mid, sid, g2, s2);
      DetachSessionIsShrink(st, sid, g, s);
      GoneUnion(g1, s1, g2, s2, g, s, sid);
      ShrinkTwice(st.sessions[sid], GoneFrom(g1, s1, sid), GoneFrom(g2, s2, sid), st.now);
    }
  }

  lemma DetachClientsTwice(st: State, g1: set<ClientId>, s1: set<SessionId>, g2: set<ClientId>, s2: set<SessionId>,
                           g: set<ClientId>, s: set<SessionId>)
    requires Union(g1, s1, g2, s2, g, s)
    ensures DetachClients(Detach(st, g1, s1), g2, s2) == DetachClients(st, g, s)
  {
    var mid := Detach(st, g1, s1);
    forall c | c in st.clientSessions
      ensures if c in mid.clientSessions then SessionsLeft(mid, c, g2, s2) == SessionsLeft(st, c, g, s)
              else SessionsLeft(st, c, g, s) == {}
    {
      forall sid | sid in st.clientSessions[c]
        ensures sid in SessionsLeft(st, c, g, s) <==> sid in SessionsLeft(st, c, g1, s1) && !Takes(g2, s2, c, sid)
      {
        assert Takes(g, s, c, sid) <==> Takes(g1, s1, c, sid) || Takes(g2, s2, c, sid);
      }
    }
  }

  lemma DetachTimersTwice(st: State, g1: set<ClientId>, s1: set<SessionId>, g2: set<ClientId>, s2: set<SessionId>,
                          g: set<ClientId>, s: set<SessionId>)
    requires Union(g1, s1, g2, s2, g, s)
    ensures DetachTimers(Detach(st, g1, s1), g2, s2) == DetachTimers(st, g, s)
  {
    var mid := Detach(st, g1, s1);
    forall sid | sid in st.timers.Keys + st.sessions.Keys
      ensures HasTimer(mid, sid, g2, s2) <==> HasTimer(st, sid, g, s)
      ensures HasTimer(st, sid, g, s) ==> DetachTimer(mid, sid, g2, s2) == DetachTimer(st, sid, g, s)
    {
      if sid in st.sessions {
        GoneUnion(g1, s1, g2, s2, g, s, sid);
        StartsTwice(st, g1, s1, g2, s2, g, s, sid);
      }
    }
  }

  lemma StartsTwice(st: State, g1: set<ClientId>, s1: set<SessionId>, g2: set<ClientId>, s2: set<SessionId>,
                    g: set<ClientId>, s: set<SessionId>, sid: SessionId)
    requires Union(g1, s1, g2, s2, g, s) && sid in st.sessions
    ensures StartsTimer(st, sid, g, s) <==>
            StartsTimer(st, sid, g1, s1) || StartsTimer(Detach(st, g1, s1), sid, g2, s2)
    ensures !(StartsTimer(st, sid, g1, s1) && StartsTimer(Detach(st, g1, s1), sid, g2, s2))
  {
    var x := st.sessions[sid];
    var y := Detach(st, g1, s1).sessions[sid];
    DetachSessionIsShrink(st, sid, g1, s1);
    GoneUnion(g1, s1, g2, s2, g, s, sid);
    EmptiesTwice(x, GoneFrom(g1, s1, sid), GoneFrom(g2, s2, sid), st.now);
    StartsIff(st, g1, s1, sid);
    StartsIff(st, g, s, sid);
    StartsIff(Detach(st, g1, s1), g2, s2, sid);
  }

  lemma StartsIff(st: State, gone: set<ClientId>, sids: set<SessionId>, sid: SessionId)
    requires sid in st.sessions
    ensures StartsTimer(st, sid, gone, sids) <==>
            Empties(st.sessions[sid], GoneFrom(gone, sids, sid)) && !st.sessions[sid].useTmux
  {}

  lemma EmptiesTwice(s: Session, g1: set<ClientId>, g2: set<ClientId>, now: nat)
    ensures Empties(s, g1 + g2) <==> Empties(s, g1) || Empties(Shrink(s, g1, now), g2)
    ensures !(Empties(s, g1) && Empties(Shrink(s, g1, now), g2))
  {
    if Empties(s, g1 + g2) && !Empties(s, g1) {
      var c :| c in s.clients && c !in g1;
      assert c in s.clients - g1;
    }
  }

  lemma DetachTwice(st: State, g1: set<ClientId>, s1: set<SessionId>, g2: set<ClientId>, s2: set<SessionId>,
                    g: set<ClientId>, s: set<SessionId>)
    requires Union(g1, s1, g2, s2, g, s)
    ensures Detach(Detach(st, g1, s1), g2, s2) == Detach(st, g, s)
  {
    hide DetachSessions, DetachClients, DetachTimers, Union;
    DetachSessionsTwice(st, g1, s1, g2, s2, g, s);
    DetachClientsTwice(st, g1, s1, g2, s2, g, s);
    DetachTimersTwice(st, g1, s1, g2, s2, g, s);
  }

  /** Sending to one more client, in any order, is sending to all of them at once. */
  lemma DeliverOneMore(st: State, m: Message, done: set<ClientId>, c: ClientId)
    requires c !in done
    ensures Deliver(Deliver(st, m, done), m, {c}) == Deliver(st, m, done + {c})
  {
    hide Detach;
    var mid := Deliver(st, m, done);
    var keys := st.sessions.Keys;
    DetachKeys(st, Slow(st, m, done), keys);
    SlowOneMore(st, m, done, c);
    DetachTwice(st, Slow(st, m, done), keys, Slow(mid, m, {c}), keys, Slow(st, m, done + {c}), keys);
    DetachIgnoresSockets(Detach(st, Slow(st, m, done), keys), mid.sockets, Slow(mid, m, {c}), keys);
    SocketsOneMore(st, m, done, c);
  }

  lemma DetachKeys(st: State, gone: set<ClientId>, sids: set<SessionId>)
    ensures Detach(st, gone, sids).sessions.Keys == st.sessions.Keys
    ensures Detach(st, gone, sids).sockets == st.sockets && Detach(st, gone, sids).cfg == st.cfg
  {}

  lemma DetachIgnoresSockets(st: State, sockets: map<ClientId, Socket>, gone: set<ClientId>, sids: set<SessionId>)
    ensures Detach(st.(sockets := sockets), gone, sids) == Detach(st, gone, sids).(sockets := sockets)
  {
    var other := st.(sockets := sockets);
    assert DetachSessions(other, gone, sids) == DetachSessions(st, gone, sids);
    assert DetachClients(other, gone, sids) == DetachClients(st, gone, sids);
    assert DetachTimers(other, gone, sids) == DetachTimers(st, gone, sids);
  }

  lemma SlowOneMore(st: State, m: Message, done: set<ClientId>, c: ClientId)
    requires c !in done
    ensures Slow(st, m, done + {c}) == Slow(st, m, done) + Slow(Deliver(st, m, done), m, {c})
  {}

  lemma SocketsOneMore(st: State, m: Message, done: set<ClientId>, c: ClientId)
    requires c !in done
    ensures Deliver(Deliver(st, m, done), m, {c}).sockets == Deliver(st, m, done + {c}).sockets
  {}

  lemma DeliverToNobody(st: State, m: Message)
    requires forall c :: c in st.clientSessions ==> st.clientSessions[c] != {}
    ensures Deliver(st, m, {}) == st
  {
    hide Detach;
    assert Slow(st, m, {}) == {};
    DetachNobody(st, {}, st.sessions.Keys);
    assert forall c :: c in st.sockets ==> SocketAfter(st, m, {}, c) == st.sockets[c];
  }

  ghost predicate NoEmptyEntry(st: State) {
    forall c :: c in st.clientSessions ==> st.clientSessions[c] != {}
  }

  /** Removing clients from sessions they are not in changes nothing. */
  lemma DetachNobody(st: State, gone: set<ClientId>, sids: set<SessionId>)
    requires NoEmptyEntry(st)
    requires forall c, sid :: Takes(gone, sids, c, sid) ==> !Member(st, sid, c) && !Tracked(st, c, sid)
    ensures Detach(st, gone, sids) == st
  {
    forall sid | sid in st.sessions
      ensures DetachSession(st, sid, gone, sids) == st.sessions[sid] && !StartsTimer(st, sid, gone, sids)
    {
      if sid in sids {
        forall c | c in st.sessions[sid].clients
          ensures c !in gone
        {
          assert Member(st, sid, c);
          assert !Takes(gone, sids, c, sid);
        }
        assert st.sessions[sid].clients - gone == st.sessions[sid].clients;
      }
    }
    forall c | c in st.clientSessions
      ensures SessionsLeft(st, c, gone, sids) == st.clientSessions[c]
    {
      forall sid | sid in st.clientSessions[c]
        ensures !Takes(gone, sids, c, sid)
      {
        assert Tracked(st, c, sid);
      }
    }
    assert DetachSessions(st, gone, sids) == st.sessions;
    assert DetachClients(st, gone, sids) == st.clientSessions;
    assert DetachTimers(st, gone, sids) == st.timers;
  }

  lemma ForgetOneMore(clientSessions: map<ClientId, set<SessionId>>, done: set<ClientId>, c: ClientId, sid: SessionId)
    requires c !in done && c in clientSessions
    ensures Forget(Forget(clientSessions, done, sid), {c}, sid) == Forget(clientSessions, done + {c}, sid)
  {}

  /** Sending to one client, case by case. */
  lemma DeliverToOne(st: State, m: Message, c: ClientId)
    requires NoEmptyEntry(st) && c in st.sockets
    ensures var k := st.sockets[c];
      Deliver(st, m, {c}) ==
      if !k.open then st
      else if !HasRoom(st, c, m) then
        Detach(st, {c}, st.sessions.Keys).(sockets := st.sockets[c := k.(open := false)])
      else if k.working then st.(sockets := st.sockets[c := Queue(k, m, st.cfg.byteLength(m))])
      else st
  {
    hide Detach;
    var slow := Slow(st, m, {c});
    assert NoEmptyEntry(st);
    DetachKeys(st, slow, st.sessions.Keys);
    assert slow == if st.sockets[c].open && !HasRoom(st, c, m) then {c} else {};
    if slow == {} {
      DetachNobody(st, {}, st.sessions.Keys);
    }
    assert Deliver(st, m, {c}).sockets == st.sockets[c := SocketAfter(st, m, {c}, c)];
  }
}
