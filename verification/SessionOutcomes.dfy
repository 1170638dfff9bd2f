/**
 * What each request and each loss comes to, in terms of sessions, members,
 * owners, timers and messages only: who gets in, who is refused and why, and
 * what is left when a client, a session or the whole server goes.
 */
module SessionOutcomes {
  import opened Common
  import opened SessionModel
  import opened SessionInvariant
  import opened SessionTrace
  import opened SessionEffects
  import opened SessionSteps
  import opened SessionRuns
  import opened SessionHistory
  import opened SessionTerms
  import opened SessionClosing

  /** `c` is a member of as many sessions as a client may be. */
  ghost predicate AtCap(st: State, c: ClientId) {
    c in st.clientSessions && |st.clientSessions[c]| >= st.cfg.maxSessionsPerClient
  }

  // ---------------------------------------------------------------------- orphans

  lemma OrphanedNow(st: State, e: Event, after: State, sid: SessionId)
    requires Registry(st) && Registry(after) && Accounted(st, e, after)
    requires sid in st.sessions && st.sessions[sid].clients != {}
    requires sid in after.sessions && after.sessions[sid].clients == {}
    ensures after.sessions[sid].orphanedAt == Some(after.now)
    ensures sid in after.timers <==> !after.sessions[sid].useTmux
    ensures sid in after.timers ==>
      after.timers[sid] == after.now + Timeout(after, after.sessions[sid])
  {
    assert SessionOk(st, sid) && SessionOk(after, sid) && TimerOk(after, sid) && OrphanedSince(st, after, sid);
    hide Inverse, ClientCaps;
  }

  /**
   * Whatever happens, a session that it leaves without members is orphaned at that very
   * moment, and unless it uses tmux its timer is due after the session's own
   * timeout or, when it has none, the configured one.
   */
  lemma EmptiedIsOrphaned(st: State, e: Event, sid: SessionId)
    requires Invariant(st) && Enabled(st, e)
    requires sid in st.sessions && st.sessions[sid].clients != {}
    requires sid in Step(st, e).sessions && Step(st, e).sessions[sid].clients == {}
    ensures var after := Step(st, e);
      var own := st.sessions[sid].orphanTimeout;
      after.sessions[sid].orphanedAt == Some(after.now) &&
      (sid in after.timers <==> !st.sessions[sid].useTmux) &&
      (sid in after.timers ==>
        after.timers[sid] == after.now + if own.Some? then own.value else st.cfg.orphanTimeout)
  {
    var after := Step(st, e);
    StepKeeps(st, e);
    StepAccounted(st, e);
    StepContinues(st, e, sid);
    hide Step, Enabled, Registry, TraceInvariant, Accounted;
    OrphanedNow(st, e, after, sid);
  }

  /** A session with members is not orphaned and no timer runs for it. */
  lemma PeopledHasNoTimer(st: State, sid: SessionId)
    requires Registry(st) && sid in st.sessions && st.sessions[sid].clients != {}
    ensures st.sessions[sid].orphanedAt.None? && sid !in st.timers
  {
    assert SessionOk(st, sid) && TimerOk(st, sid);
  }

  lemma DisconnectSession(st: State, c: ClientId, sid: SessionId)
    requires c in st.sockets
    ensures var after := Step(st, Disconnected(c));
      (sid in after.sessions <==> sid in st.sessions) &&
      (sid in st.sessions ==> after.sessions[sid].clients == st.sessions[sid].clients - {c})
  {
    hide DetachClients, DetachTimers;
  }

  lemma DisconnectShuts(st: State, c: ClientId)
    requires c in st.sockets
    ensures var after := Step(st, Disconnected(c));
      c in after.sockets && !after.sockets[c].open && after.sessions.Keys == st.sessions.Keys
  {
    hide DetachClients, DetachTimers;
    assert Step(st, Disconnected(c)).sessions.Keys == st.sessions.Keys;
  }

  /** A lost socket is closed, its client leaves every session, and nobody else does. */
  lemma DisconnectLeaves(st: State, c: ClientId)
    requires Invariant(st) && c in st.sockets
    ensures var after := Step(st, Disconnected(c));
      c in after.sockets && !after.sockets[c].open && c !in after.clientSessions &&
      after.sessions.Keys == st.sessions.Keys &&
      forall sid, d :: Member(after, sid, d) <==> Member(st, sid, d) && d != c
  {
    var after := Step(st, Disconnected(c));
    DisconnectKeeps(st, c);
    DisconnectShuts(st, c);
    assert Inverse(after);
    hide Step, Inverse, Invariant;
    forall sid, d
      ensures Member(after, sid, d) <==> Member(st, sid, d) && d != c
    {
      DisconnectSession(st, c, sid);
    }
    NoMemberNoEntry(after, c);
  }

  // --------------------------------------------------------------------- refusals

  /** Requests about a session that is not there, not joined or not owned come to a refusal and nothing else. */
  lemma StrangersAreRefused(st: State, c: ClientId, sid: SessionId, correlated: bool)
    requires c in st.sockets
    ensures sid !in st.sessions ==>
      Step(st, Leave(c, sid)) == Step(st, Write(c, sid)) == Step(st, CloseRequest(c, sid, correlated)) ==
      Answer(st, c, Refused(SessionNotFound))
    ensures sid in st.sessions && !Member(st, sid, c) ==>
      Step(st, Leave(c, sid)) == Step(st, Write(c, sid)) == Answer(st, c, Refused(NotMember))
    ensures sid in st.sessions && st.sessions[sid].owner != c ==>
      Step(st, CloseRequest(c, sid, correlated)) == Answer(st, c, Refused(NotOwner))
  {
    hide Deliver;
  }

  /** A member's input moves the session's stamp, and that is all. */
  lemma MembersWrite(st: State, c: ClientId, sid: SessionId)
    requires Member(st, sid, c) && c in st.sockets
    ensures Step(st, Write(c, sid)) ==
            st.(sessions := st.sessions[sid := st.sessions[sid].(lastActivity := st.now)])
  {}

  /** Any other answer goes to the one who asked and to nobody else. */
  lemma ReplyIsHeard(st: State, c: ClientId, text: string, d: ClientId)
    requires c in st.sockets && d in st.sockets && Healthy(Step(st, Reply(c, text)), d)
    ensures Heard(st, Step(st, Reply(c, text)), d, if d == c then [Plain(text)] else [])
  {
    hide Deliver;
    DeliverHeard(st, Plain(text), {c}, d);
  }

  /** The first reason, in the order in which the server looks, to refuse a join. */
  ghost function JoinRefusal(st: State, c: ClientId, sid: SessionId, token: Option<Token>): Option<Refusal> {
    if sid !in st.sessions then Some(SessionNotFound)
    else if !st.sessions[sid].accepting && token != Some(st.sessions[sid].resumeToken) then Some(NotAccepting)
    else if !Member(st, sid, c) && AtCap(st, c) then Some(ClientLimit)
    else if |st.sessions[sid].clients| >= st.cfg.maxClientsPerSession then Some(JoinFailed)
    else None
  }

  lemma RefusedJoin(st: State, e: Event)
    requires Enabled(st, e) && e.Join? && JoinRefusal(st, e.client, e.sid, e.resume).Some?
    ensures Step(st, e) == Answer(st, e.client, Refused(JoinRefusal(st, e.client, e.sid, e.resume).value))
  {
    hide Deliver, Add, Welcome, Broadcast;
  }

  // ------------------------------------------------------------------------ joining

  lemma DeliverKeepsOwner(st: State, m: Message, targets: set<ClientId>, sid: SessionId)
    requires sid in st.sessions
    ensures sid in Deliver(st, m, targets).sessions
    ensures Deliver(st, m, targets).sessions[sid].owner == st.sessions[sid].owner
  {}

  /** Whoever was let in stays, unless its own welcome puts it out. */
  lemma AdmittedStays(added: State, sid: SessionId, c: ClientId, m: Message, note: Message)
    requires Member(added, sid, c)
    ensures var after := Broadcast(Answer(added, c, m), sid, note, {c});
      sid in after.sessions && after.sessions[sid].owner == added.sessions[sid].owner &&
      (Healthy(after, c) ==> Member(after, sid, c))
  {
    var answered := Answer(added, c, m);
    var after := Broadcast(answered, sid, note, {c});
    DeliverKeepsOwner(added, m, {c}, sid);
    DeliverKeepsOwner(answered, note, answered.sessions[sid].clients - {c}, sid);
    DeliverOnlyEvicts(added, m, {c});
    BroadcastOnlyEvicts(answered, sid, note, {c});
    EvictionsCompose(added, answered, after);
    hide Deliver, OnlyEvictions;
    if Healthy(after, c) {
      HealthyStays(added, after, sid, c);
    }
  }

  lemma AdmittedJoin(st: State, e: Event)
    requires Enabled(st, e) && e.Join? && JoinRefusal(st, e.client, e.sid, e.resume).None?
    ensures Admits(st, e.sid, e.resume) && (Member(st, e.sid, e.client) || !AtClientLimit(st, e.client))
    ensures var answered := Answer(Add(st, e.sid, e.client, e.resume), e.client,
                                   Welcome(st, e.sid, e.resume, e.requestHistory, e.limit));
      Step(st, e) == Broadcast(answered, e.sid, ClientJoined(e.sid, ClientCount(answered, e.sid)), {e.client})
  {
    hide Deliver, Add, Welcome, Broadcast, ClientCount;
  }

  /** What a successful join comes to. */
  ghost predicate LetIn(st: State, e: Event, after: State)
    requires e.Join? && e.sid in st.sessions && e.sid in st.ptys && e.client in st.sockets
  {
    var s, c := st.sessions[e.sid], e.client;
    var presented := e.resume == Some(s.resumeToken);
    var history := if e.requestHistory && s.historyEnabled then Some(Replayed(st, e.sid, e.limit)) else None;
    e.sid in after.sessions && after.sessions[e.sid].owner == (if presented then c else s.owner) &&
    (Healthy(after, c) ==>
       Member(after, e.sid, c) && e.sid !in after.timers &&
       Heard(st, after, c, [Joined(e.sid, history, if presented then e.resume else None)]))
  }

  /**
   * A join succeeds exactly when there is no reason to refuse it: the joiner, unless its
   * socket fails, is then a member of a session without a timer, is sent the history and
   * the token due, and is the owner if it presented the token.
   */
  lemma JoinSucceedsIff(st: State, e: Event)
    requires Invariant(st) && Enabled(st, e) && e.Join?
    ensures var why := JoinRefusal(st, e.client, e.sid, e.resume);
      if why.Some? then Step(st, e) == Answer(st, e.client, Refused(why.value))
      else e.sid in st.sessions && e.sid in st.ptys && LetIn(st, e, Step(st, e))
  {
    var Join(c, sid, token, requested, limit) := e;
    if JoinRefusal(st, c, sid, token).Some? {
      RefusedJoin(st, e);
    } else {
      AdmittedJoin(st, e);
      var m := Welcome(st, sid, token, requested, limit);
      var answered := Answer(Add(st, sid, c, token), c, m);
      assert TraceOk(st, sid);
      WelcomeSays(st, sid, token, requested, limit);
      AddedOwner(st, sid, c, token);
      AdmittedStays(Add(st, sid, c, token), sid, c, m, ClientJoined(sid, ClientCount(answered, sid)));
      JoinIsWelcomed(st, c, sid, token, requested, limit);
      StepKeeps(st, e);
      hide Step, Deliver, Add, Broadcast, Welcome, ClientCount, Registry, TraceInvariant, Replayed, Admits, AtClientLimit;
      if Healthy(Step(st, e), c) {
        PeopledHasNoTimer(Step(st, e), sid);
      }
    }
  }

  lemma AddedOwner(st: State, sid: SessionId, c: ClientId, token: Option<Token>)
    requires sid in st.sessions
    ensures var added := Add(st, sid, c, token);
      Member(added, sid, c) &&
      added.sessions[sid].owner == if token == Some(st.sessions[sid].resumeToken) then c else st.sessions[sid].owner
  {}

  lemma HistoryDue(st: State, sid: SessionId, limit: Option<nat>)
    requires sid in st.sessions && TraceOk(st, sid) && st.sessions[sid].historyEnabled
    ensures HistoryFor(st, st.sessions[sid], true, limit) == Some(Replayed(st, sid, limit))
  {
    if limit.Some? {
      LastNOfLastN(st.ptys[sid].output, st.cfg.historySize, limit.value);
    }
    hide LastN;
  }

  lemma WelcomeSays(st: State, sid: SessionId, token: Option<Token>, requested: bool, limit: Option<nat>)
    requires sid in st.sessions && TraceOk(st, sid)
    ensures Welcome(st, sid, token, requested, limit) == Joined(
      sid,
      if requested && st.sessions[sid].historyEnabled then Some(Replayed(st, sid, limit)) else None,
      if token == Some(st.sessions[sid].resumeToken) then token else None)
  {
    if requested && st.sessions[sid].historyEnabled {
      HistoryDue(st, sid, limit);
      hide HistoryFor, Replayed, TraceOk;
    } else {
      hide Replayed, TraceOk, LastN;
    }
  }

  // ----------------------------------------------------------------------- spawning

  /** The answer to a spawn: the session and its token, or the first reason against it. */
  ghost function SpawnAnswer(st: State, e: Event): Message
    requires e.Spawn?
  {
    if SpawnsPty(st, e.client, e.policy, e.ptyFails) && !e.listenFails then Spawned(e.sid, e.token)
    else Refused(SpawnRefusal(st, e))
  }

  /** The state a spawn is answered in. */
  ghost function Unanswered(st: State, e: Event): State
    requires e.Spawn? && e.sid !in st.sessions
  {
    var created := Create(st, e.sid, e.client, e.token, EffectiveOptions(e.options));
    if !SpawnsPty(st, e.client, e.policy, e.ptyFails) then st
    else if !e.listenFails then Wire(created, e.sid)
    else if e.options.target.Local? then Close(created, e.sid, SpawnError)
    else created
  }

  lemma SpawnEndsInAnswer(st: State, e: Event)
    requires Enabled(st, e) && e.Spawn? && e.sid !in st.sessions
    ensures Step(st, e) == Answer(Unanswered(st, e), e.client, SpawnAnswer(st, e))
  {
    hide Deliver, Create, Wire, Close, EffectiveOptions;
  }

  lemma CreatedAlone(st: State, e: Event)
    requires e.Spawn? && e.sid !in st.sessions
    ensures var created := Create(st, e.sid, e.client, e.token, EffectiveOptions(e.options));
      created.sessions == st.sessions[e.sid := created.sessions[e.sid]] && created.sockets == st.sockets &&
      created.now == st.now &&
      created.sessions[e.sid].clients == {e.client} && created.sessions[e.sid].history == "" &&
      created.sessions[e.sid].owner == e.client && created.sessions[e.sid].orphanedAt.None? &&
      !created.sessions[e.sid].wired
  {}

  lemma UnansweredSockets(st: State, e: Event)
    requires e.Spawn? && e.sid !in st.sessions
    ensures Unanswered(st, e).sockets == st.sockets && Unanswered(st, e).now == st.now
  {
    CreatedAlone(st, e);
    hide Create, Forget, SpawnsPty;
  }

  /** Whoever spawns is told how it went. */
  lemma SpawnIsAnswered(st: State, e: Event)
    requires Invariant(st) && Enabled(st, e) && e.Spawn? && Healthy(Step(st, e), e.client)
    ensures Heard(st, Step(st, e), e.client, [SpawnAnswer(st, e)])
  {
    SpawnEndsInAnswer(st, e);
    UnansweredSockets(st, e);
    hide Step, Unanswered, SpawnAnswer, Invariant;
    DeliverHeard(Unanswered(st, e), SpawnAnswer(st, e), {e.client}, e.client);
    hide Deliver;
  }

  /** A session that is registered: its spawner alone is in it, or nobody, if the answer put the spawner out. */
  ghost predicate StartsWith(st: State, e: Event, after: State)
    requires e.Spawn? && e.sid in after.sessions
  {
    var s := after.sessions[e.sid];
    s.owner == e.client && s.history == "" && (s.wired <==> !e.listenFails) &&
    if Evicted(st, after, e.client) then s.clients == {} && s.orphanedAt == Some(after.now)
    else s.clients == {e.client} && s.orphanedAt.None?
  }

  lemma AnsweredAlone(mid: State, sid: SessionId, c: ClientId, m: Message)
    requires sid in mid.sessions && mid.sessions[sid].clients == {c} && c in mid.sockets
    requires mid.sessions[sid].orphanedAt.None?
    ensures var after := Answer(mid, c, m);
      sid in after.sessions && c in after.sockets && after.now == mid.now &&
      var s := after.sessions[sid];
      s == mid.sessions[sid].(clients := s.clients, orphanedAt := s.orphanedAt) &&
      if Evicted(mid, after, c) then s.clients == {} && s.orphanedAt == Some(mid.now)
      else s.clients == {c} && s.orphanedAt.None?
  {
    var after := Answer(mid, c, m);
    assert after.sockets[c] == SocketAfter(mid, m, {c}, c);
    assert after.sessions[sid] == DetachSession(mid, sid, Slow(mid, m, {c}), mid.sessions.Keys);
    hide DetachClients, DetachTimers;
  }

  lemma UnansweredAlone(st: State, e: Event)
    requires e.Spawn? && e.sid !in st.sessions
    requires SpawnsPty(st, e.client, e.policy, e.ptyFails) && (!e.listenFails || !e.options.target.Local?)
    ensures var mid := Unanswered(st, e);
      e.sid in mid.sessions &&
      var s := mid.sessions[e.sid];
      s.clients == {e.client} && s.history == "" && s.owner == e.client && s.orphanedAt.None? &&
      (s.wired <==> !e.listenFails)
  {
    CreatedAlone(st, e);
    hide Create, SpawnsPty;
  }

  /**
   * A spawned session has the terms it was asked to have and starts with its spawner as owner
   * and only member, an empty history and no orphan mark.
   */
  lemma SpawnedAsAsked(st: State, e: Event)
    requires Invariant(st) && Enabled(st, e) && e.Spawn? && e.sid in Step(st, e).sessions
    ensures AsAsked(Step(st, e).sessions[e.sid], e, st.cfg) && StartsWith(st, e, Step(st, e))
  {
    StepContinues(st, e, e.sid);
    SpawnOutcome(st, e.client, e.sid, e.token, e.options, e.policy, e.ptyFails, e.listenFails);
    SpawnEndsInAnswer(st, e);
    UnansweredSockets(st, e);
    UnansweredAlone(st, e);
    hide Step, Unanswered, SpawnAnswer, AsAsked, Continues, Invariant;
    AnsweredAlone(Unanswered(st, e), e.sid, e.client, SpawnAnswer(st, e));
  }

  lemma UnansweredOthers(st: State, e: Event, other: SessionId)
    requires e.Spawn? && e.sid !in st.sessions && other != e.sid
    ensures var mid := Unanswered(st, e);
      (other in mid.sessions <==> other in st.sessions) &&
      (other in st.sessions ==> mid.sessions[other] == st.sessions[other])
  {
    CreatedAlone(st, e);
    hide Create, Forget, SpawnsPty;
  }

  /** No other session gains or loses a member by a spawn, unless the answer puts the spawner out of all of them. */
  lemma SpawnSparesOthers(st: State, e: Event, other: SessionId, d: ClientId)
    requires Invariant(st) && Enabled(st, e) && e.Spawn? && other != e.sid
    ensures Member(Step(st, e), other, d) <==>
            Member(st, other, d) && !(d == e.client && Evicted(st, Step(st, e), e.client))
  {
    SpawnEndsInAnswer(st, e);
    UnansweredSockets(st, e);
    UnansweredOthers(st, e, other);
    hide Step, Unanswered, SpawnAnswer, Invariant;
    AnswerEvicts(Unanswered(st, e), e.client, SpawnAnswer(st, e), other, d);
  }

  lemma AnswerEvicts(mid: State, c: ClientId, m: Message, other: SessionId, d: ClientId)
    requires c in mid.sockets
    ensures Member(Answer(mid, c, m), other, d) <==>
            Member(mid, other, d) && !(d == c && Evicted(mid, Answer(mid, c, m), c))
  {
    var slow := Slow(mid, m, {c});
    var after := Answer(mid, c, m);
    assert after.sockets[c] == SocketAfter(mid, m, {c}, c);
    DetachMembers(mid, slow, mid.sessions.Keys);
    assert Member(Detach(mid, slow, mid.sessions.Keys), other, d) <==> Member(after, other, d);
    hide Detach;
  }

  // ------------------------------------------------------------------------- endings

  lemma LiveOrKilled(st: State, sid: SessionId)
    requires Invariant(st)
    ensures sid in st.sessions ==> sid in st.ptys
    ensures sid in st.ptys ==> st.ptys[sid].kills == if sid in st.sessions then 0 else 1
  {
    assert Conserved(st);
    hide Registry, Bounded, TracesOk, Discreet, Gapless;
  }

  lemma BroadcastSparesPtys(st: State, sid: SessionId, m: Message, except: set<ClientId>)
    ensures Broadcast(st, sid, m, except).ptys == st.ptys
  {}

  lemma FarewellKills(st: State, sid: SessionId, code: int, reason: Reason)
    requires sid in st.sessions && sid in st.ptys
    ensures var after := Farewell(st, sid, code, reason);
            sid in after.ptys && after.ptys[sid].kills == st.ptys[sid].kills + 1
  {
    var exited := Broadcast(st, sid, Exit(sid, code), {});
    BroadcastSparesPtys(st, sid, Exit(sid, code), {});
    BroadcastSparesPtys(exited, sid, SessionClosed(sid, reason), {});
    BroadcastCloses(st, sid, Exit(sid, code), {});
    BroadcastCloses(exited, sid, SessionClosed(sid, reason), {});
    hide Broadcast, Quieter;
  }

  /** An exit ends a session whose listeners are attached, killing its PTY once; otherwise nobody notices. */
  lemma ExitEnds(st: State, sid: SessionId, code: int)
    requires Invariant(st)
    ensures var after := Step(st, PtyExit(sid, code));
      if !Wired(st, sid) then after == st
      else
        sid !in after.sessions && sid in st.ptys && sid in after.ptys &&
        after.ptys[sid].kills == st.ptys[sid].kills + 1 &&
        after.closures == st.closures + [Closure(sid, ProcessExit)]
  {
    hide Invariant, Farewell, Quieter;
    if Wired(st, sid) {
      LiveOrKilled(st, sid);
      FarewellCloses(st, sid, code, ProcessExit);
      FarewellEnds(st, sid, code, ProcessExit, sid);
      FarewellKills(st, sid, code, ProcessExit);
    }
  }

  lemma ExitIsHeard(st: State, sid: SessionId, code: int, d: ClientId)
    requires d in st.sockets && Wired(st, sid) && Healthy(Step(st, PtyExit(sid, code)), d)
    ensures Heard(st, Step(st, PtyExit(sid, code)), d,
                  if Member(st, sid, d) then [Exit(sid, code), SessionClosed(sid, ProcessExit)] else [])
  {
    hide Farewell;
    FarewellIsHeard(st, sid, code, ProcessExit, d);
  }

  lemma CloseEndsOne(st: State, sid: SessionId, reason: Reason, other: SessionId)
    requires sid in st.ptys
    ensures var after := Close(st, sid, reason);
      (other in after.sessions <==> other in st.sessions && other != sid) &&
      (other in after.ptys <==> other in st.ptys) &&
      (other in st.ptys ==>
        after.ptys[other].kills == st.ptys[other].kills + if other == sid && sid in st.sessions then 1 else 0)
  {
    hide Forget;
  }

  lemma {:induction false} CloseAllEnds(st: State, order: seq<SessionId>, sid: SessionId)
    requires forall i, j :: 0 <= i < j < |order| ==> order[i] != order[j]
    requires forall other :: other in order ==> other in st.ptys
    ensures var after := CloseAll(st, order);
      (sid in after.sessions <==> sid in st.sessions && sid !in order) &&
      (sid in after.ptys <==> sid in st.ptys) &&
      (sid in st.ptys ==>
        after.ptys[sid].kills == st.ptys[sid].kills + if sid in order && sid in st.sessions then 1 else 0)
  {
    if order != [] {
      var init, last := order[..|order| - 1], order[|order| - 1];
      assert forall other :: other in init ==> other in order;
      assert last in order;
      CloseAllEnds(st, init, sid);
      CloseAllEnds(st, init, last);
      assert last !in init;
      assert sid in order <==> sid in init || sid == last by {
        assert order == init + [last];
      }
      hide Close;
      CloseEndsOne(CloseAll(st, init), last, Cleanup, sid);
    }
  }

  /** Stopping the server ends every session, kills every PTY that was alive once, and closes every socket. */
  lemma ShutdownEnds(st: State, order: seq<SessionId>, sid: SessionId, c: ClientId)
    requires Invariant(st) && Enabled(st, Shutdown(order))
    ensures var after := Step(st, Shutdown(order));
      sid !in after.sessions && after.clientSessions == map[] && sid !in after.timers &&
      (sid in after.ptys <==> sid in st.ptys) &&
      (sid in st.ptys ==> after.ptys[sid].kills == 1) &&
      (c in after.sockets <==> c in st.sockets) && (c in after.sockets ==> !after.sockets[c].open)
  {
    hide Invariant, CloseAll;
    var cleared := st.(timers := map[]);
    forall other | other in order
      ensures other in st.ptys
    {
      LiveOrKilled(st, other);
    }
    LiveOrKilled(st, sid);
    CloseAllEnds(cleared, order, sid);
    CloseAllQuiet(cleared, order);
  }

  lemma {:induction false} CloseAllQuiet(st: State, order: seq<SessionId>)
    requires st.timers == map[]
    ensures CloseAll(st, order).timers == map[] && CloseAll(st, order).sockets == st.sockets
  {
    if order != [] {
      CloseAllQuiet(st, order[..|order| - 1]);
    }
  }
}
