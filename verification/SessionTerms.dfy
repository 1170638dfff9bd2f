/**
 * What a session is for as long as it lives: the terms its spawn asked for, and
 * the moment somebody last used it, which is what the idle sweep goes by.
 */
module SessionTerms {
  import opened Common
  import opened SessionModel
  import opened SessionInvariant
  import opened SessionTrace
  import opened SessionSteps
  import opened SessionRuns
  import opened SessionHistory

  // ------------------------------------------------------------------- one step

  /** The options of a spawn, as the session it registers goes by them. */
  ghost predicate AsAsked(s: Session, e: Event, cfg: Config)
    requires e.Spawn?
  {
    var o := e.options;
    s.resumeToken == e.token && s.target == o.target &&
    (s.accepting <==> o.allowJoin) &&
    (s.historyEnabled <==> o.enableHistory && cfg.historyEnabled) &&
    (s.useTmux <==> o.useTmux && o.target.Exec?) &&
    s.orphanTimeout == if o.orphanTimeout.Some? && o.orphanTimeout.value > 0 then o.orphanTimeout else None
  }

  ghost predicate SameTerms(s: Session, t: Session) {
    t.resumeToken == s.resumeToken && t.target == s.target && t.accepting == s.accepting &&
    t.historyEnabled == s.historyEnabled && t.useTmux == s.useTmux && t.orphanTimeout == s.orphanTimeout
  }

  /** Sessions only disappear; those that stay have the same terms and stamps. */
  ghost predicate Kept(st: State, after: State) {
    after.now == st.now && after.cfg == st.cfg &&
    forall sid :: sid in after.sessions ==> KeptSession(st, after, sid)
  }

  ghost predicate KeptSession(st: State, after: State, sid: SessionId)
    requires sid in after.sessions
  {
    sid in st.sessions && SameTerms(st.sessions[sid], after.sessions[sid]) &&
    after.sessions[sid].lastActivity == st.sessions[sid].lastActivity
  }

  lemma KeptTransitive(a: State, b: State, c: State)
    requires Kept(a, b) && Kept(b, c)
    ensures Kept(a, c)
  {
    forall sid | sid in c.sessions
      ensures KeptSession(a, c, sid)
    {
      assert KeptSession(b, c, sid) && KeptSession(a, b, sid);
    }
  }

  lemma SameSessionsKept(st: State, after: State)
    requires after.now == st.now && after.cfg == st.cfg && after.sessions == st.sessions
    ensures Kept(st, after)
  {}

  lemma DetachKept(st: State, gone: set<ClientId>, sids: set<SessionId>)
    ensures Kept(st, Detach(st, gone, sids))
  {
    var after := Detach(st, gone, sids);
    forall sid | sid in after.sessions
      ensures KeptSession(st, after, sid)
    {
      assert after.sessions[sid] == DetachSession(st, sid, gone, sids);
    }
  }

  lemma DeliverKept(st: State, m: Message, targets: set<ClientId>)
    ensures Kept(st, Deliver(st, m, targets))
  {
    var detached := Detach(st, Slow(st, m, targets), st.sessions.Keys);
    DetachKept(st, Slow(st, m, targets), st.sessions.Keys);
    SameSessionsKept(detached, Deliver(st, m, targets));
    KeptTransitive(st, detached, Deliver(st, m, targets));
  }

  lemma CloseKept(st: State, sid: SessionId, reason: Reason)
    ensures Kept(st, Close(st, sid, reason))
  {}

  lemma BroadcastKept(st: State, sid: SessionId, m: Message, except: set<ClientId>)
    ensures Kept(st, Broadcast(st, sid, m, except))
  {
    SameSessionsKept(st, st);
    if sid in st.sessions {
      DeliverKept(st, m, st.sessions[sid].clients - except);
    }
  }

  /** Sending, and closing afterwards, from a state that kept everything. */
  lemma AnswerKept(st: State, mid: State, c: ClientId, m: Message)
    requires Kept(st, mid)
    ensures Kept(st, Answer(mid, c, m))
  {
    DeliverKept(mid, m, {c});
    KeptTransitive(st, mid, Answer(mid, c, m));
  }

  lemma NoteKept(st: State, mid: State, sid: SessionId, m: Message, except: set<ClientId>)
    requires Kept(st, mid)
    ensures Kept(st, Broadcast(mid, sid, m, except))
  {
    BroadcastKept(mid, sid, m, except);
    KeptTransitive(st, mid, Broadcast(mid, sid, m, except));
  }

  lemma EndKept(st: State, mid: State, sid: SessionId, reason: Reason)
    requires Kept(st, mid)
    ensures Kept(st, Close(mid, sid, reason))
  {
    CloseKept(mid, sid, reason);
    KeptTransitive(st, mid, Close(mid, sid, reason));
  }

  lemma FarewellKept(st: State, mid: State, sid: SessionId, code: int, reason: Reason)
    requires Kept(st, mid)
    ensures Kept(st, Farewell(mid, sid, code, reason))
  {
    var exited := Broadcast(mid, sid, Exit(sid, code), {});
    var told := Broadcast(exited, sid, SessionClosed(sid, reason), {});
    NoteKept(st, mid, sid, Exit(sid, code), {});
    NoteKept(st, exited, sid, SessionClosed(sid, reason), {});
    EndKept(st, told, sid, reason);
  }

  lemma {:induction false} SweepKept(st: State, order: seq<SessionId>)
    ensures Kept(st, Sweep(st, order))
  {
    SameSessionsKept(st, st);
    hide Kept, Farewell;
    if order != [] {
      SweepKept(st, order[..|order| - 1]);
      FarewellKept(st, Sweep(st, order[..|order| - 1]), order[|order| - 1], -1, IdleTimeout);
    }
  }

  lemma {:induction false} CloseAllKept(st: State, order: seq<SessionId>)
    ensures Kept(st, CloseAll(st, order))
  {
    SameSessionsKept(st, st);
    hide Kept, Close;
    if order != [] {
      CloseAllKept(st, order[..|order| - 1]);
      EndKept(st, CloseAll(st, order[..|order| - 1]), order[|order| - 1], Cleanup);
    }
  }

  /** `e` registers the session. */
  ghost predicate Born(st: State, e: Event, after: State, sid: SessionId) {
    e.Spawn? && e.sid == sid && sid !in st.sessions && sid in after.sessions
  }

  /** `e` is what counts as activity: output of the PTY, a member's input, or the birth itself. */
  ghost predicate Used(st: State, e: Event, after: State, sid: SessionId) {
    (e.PtyOutput? && e.sid == sid && Wired(st, sid)) ||
    (e.Write? && e.sid == sid && Member(st, sid, e.client)) ||
    Born(st, e, after, sid)
  }

  /** What a step makes of one session that is there afterwards. */
  ghost predicate Continues(st: State, e: Event, after: State, sid: SessionId)
    requires sid in after.sessions
  {
    after.cfg == st.cfg &&
    (if sid in st.sessions then SameTerms(st.sessions[sid], after.sessions[sid])
     else Born(st, e, after, sid) && AsAsked(after.sessions[sid], e, st.cfg)) &&
    after.sessions[sid].lastActivity ==
      if Used(st, e, after, sid) then st.now else if sid in st.sessions then st.sessions[sid].lastActivity else st.now
  }

  lemma KeptContinues(st: State, e: Event, after: State, sid: SessionId)
    requires Kept(st, after) && sid in after.sessions && !Used(st, e, after, sid)
    ensures Continues(st, e, after, sid)
  {
    assert KeptSession(st, after, sid);
  }

  /** After a state in which one session continues as it should, the rest of the step keeps it. */
  lemma ContinuesAfter(st: State, e: Event, mid: State, after: State, sid: SessionId)
    requires Kept(mid, after) && sid in after.sessions
    requires sid in mid.sessions ==> Continues(st, e, mid, sid)
    ensures Continues(st, e, after, sid)
  {
    assert KeptSession(mid, after, sid);
  }

  lemma CreateContinues(st: State, e: Event, sid: SessionId)
    requires e.Spawn? && e.sid !in st.sessions
    ensures var created := Create(st, e.sid, e.client, e.token, EffectiveOptions(e.options));
            sid in created.sessions ==> Continues(st, e, created, sid)
  {
    hide Track;
  }

  lemma WireContinues(st: State, e: Event, sid: SessionId)
    requires e.Spawn? && e.sid !in st.sessions
    ensures var wired := Wire(Create(st, e.sid, e.client, e.token, EffectiveOptions(e.options)), e.sid);
            sid in wired.sessions ==> Continues(st, e, wired, sid)
  {
    var created := Create(st, e.sid, e.client, e.token, EffectiveOptions(e.options));
    CreateContinues(st, e, sid);
    assert Kept(created, Wire(created, e.sid));
    hide Create, Wire, Kept, Continues;
    if sid in Wire(created, e.sid).sessions {
      ContinuesAfter(st, e, created, Wire(created, e.sid), sid);
    }
  }

  lemma RefusedContinues(st: State, e: Event, why: Refusal, sid: SessionId)
    requires e.Spawn? && sid in Answer(st, e.client, Refused(why)).sessions
    ensures Continues(st, e, Answer(st, e.client, Refused(why)), sid)
  {
    SameSessionsKept(st, st);
    AnswerKept(st, st, e.client, Refused(why));
    hide Deliver;
    assert KeptSession(st, Answer(st, e.client, Refused(why)), sid);
  }

  lemma WiredContinues(st: State, e: Event, sid: SessionId)
    requires e.Spawn? && e.sid !in st.sessions
    ensures var wired := Wire(Create(st, e.sid, e.client, e.token, EffectiveOptions(e.options)), e.sid);
            var after := Answer(wired, e.client, Spawned(e.sid, e.token));
            sid in after.sessions ==> Continues(st, e, after, sid)
  {
    var wired := Wire(Create(st, e.sid, e.client, e.token, EffectiveOptions(e.options)), e.sid);
    var after := Answer(wired, e.client, Spawned(e.sid, e.token));
    WireContinues(st, e, sid);
    DeliverKept(wired, Spawned(e.sid, e.token), {e.client});
    hide Deliver, Create, Wire, Kept, Continues;
    if sid in after.sessions {
      ContinuesAfter(st, e, wired, after, sid);
    }
  }

  lemma UnwiredContinues(st: State, e: Event, sid: SessionId)
    requires e.Spawn? && e.sid !in st.sessions
    ensures var created := Create(st, e.sid, e.client, e.token, EffectiveOptions(e.options));
            var after := Answer(created, e.client, Refused(SpawnFailed));
            sid in after.sessions ==> Continues(st, e, after, sid)
    ensures var created := Create(st, e.sid, e.client, e.token, EffectiveOptions(e.options));
            var after := Answer(Close(created, e.sid, SpawnError), e.client, Refused(SpawnFailed));
            sid in after.sessions ==> Continues(st, e, after, sid)
  {
    var created := Create(st, e.sid, e.client, e.token, EffectiveOptions(e.options));
    var left := Answer(created, e.client, Refused(SpawnFailed));
    var closed := Answer(Close(created, e.sid, SpawnError), e.client, Refused(SpawnFailed));
    CreateContinues(st, e, sid);
    SameSessionsKept(created, created);
    EndKept(created, created, e.sid, SpawnError);
    hide Deliver, Create, Close, Kept, Continues;
    AnswerKept(created, created, e.client, Refused(SpawnFailed));
    AnswerKept(created, Close(created, e.sid, SpawnError), e.client, Refused(SpawnFailed));
    if sid in left.sessions {
      ContinuesAfter(st, e, created, left, sid);
    }
    if sid in closed.sessions {
      ContinuesAfter(st, e, created, closed, sid);
    }
  }

  lemma SpawnContinues(st: State, e: Event, sid: SessionId)
    requires Enabled(st, e) && e.Spawn? && sid in Step(st, e).sessions && e.sid !in st.sessions
    ensures Continues(st, e, Step(st, e), sid)
  {
    SpawnShapes(st, e);
    hide Continues, Create, Wire, Close, Deliver, Step, AtClientLimit, SpawnRefusal, EffectiveOptions;
    WiredContinues(st, e, sid);
    UnwiredContinues(st, e, sid);
    if Step(st, e) == Answer(st, e.client, Refused(SpawnRefusal(st, e))) {
      RefusedContinues(st, e, SpawnRefusal(st, e), sid);
    }
  }

  /** The first reason, in the order in which the server looks, to refuse a spawn. */
  ghost function SpawnRefusal(st: State, e: Event): Refusal
    requires e.Spawn?
  {
    if e.policy.ModeDisabled? then NotAllowed
    else if e.client in st.clientSessions && |st.clientSessions[e.client]| >= st.cfg.maxSessionsPerClient then ClientLimit
    else if |st.sessions| >= st.cfg.maxSessionsTotal then ServerFull
    else if e.policy.TargetRefused? then NotAllowed
    else SpawnFailed
  }

  lemma SpawnShapes(st: State, e: Event)
    requires Enabled(st, e) && e.Spawn? && e.sid !in st.sessions
    ensures var created := Create(st, e.sid, e.client, e.token, EffectiveOptions(e.options));
      var after := Step(st, e);
      after == Answer(st, e.client, Refused(SpawnRefusal(st, e))) ||
      after == Answer(Wire(created, e.sid), e.client, Spawned(e.sid, e.token)) ||
      after == Answer(created, e.client, Refused(SpawnFailed)) ||
      after == Answer(Close(created, e.sid, SpawnError), e.client, Refused(SpawnFailed))
  {
    hide Create, Close, Deliver, Wire;
  }

  lemma AddKept(st: State, sid: SessionId, c: ClientId, token: Option<Token>)
    requires sid in st.sessions
    ensures Kept(st, Add(st, sid, c, token))
  {}

  lemma JoinKept(st: State, e: Event)
    requires Enabled(st, e) && e.Join?
    ensures Kept(st, Step(st, e))
  {
    var Join(c, sid, token, requested, limit) := e;
    SameSessionsKept(st, st);
    hide Kept, Deliver, Broadcast, Add, Welcome, ClientCount;
    if sid !in st.sessions {
      AnswerKept(st, st, c, Refused(SessionNotFound));
    } else if !st.sessions[sid].accepting && !Resumes(st.sessions[sid], token) {
      AnswerKept(st, st, c, Refused(NotAccepting));
    } else if c !in st.sessions[sid].clients && AtClientLimit(st, c) {
      AnswerKept(st, st, c, Refused(ClientLimit));
    } else if !Admits(st, sid, token) {
      AnswerKept(st, st, c, Refused(JoinFailed));
    } else {
      var answered := Answer(Add(st, sid, c, token), c, Welcome(st, sid, token, requested, limit));
      AddKept(st, sid, c, token);
      AnswerKept(st, Add(st, sid, c, token), c, Welcome(st, sid, token, requested, limit));
      NoteKept(st, answered, sid, ClientJoined(sid, ClientCount(answered, sid)), {c});
    }
  }

  lemma LeaveKept(st: State, c: ClientId, sid: SessionId)
    ensures Kept(st, LeaveStep(st, c, sid))
  {
    SameSessionsKept(st, st);
    AnswerKept(st, st, c, Refused(SessionNotFound));
    AnswerKept(st, st, c, Refused(NotMember));
    var left := Detach(st, {c}, {sid});
    DetachKept(st, {c}, {sid});
    AnswerKept(st, left, c, Left(sid));
    var answered := Answer(left, c, Left(sid));
    NoteKept(st, answered, sid, ClientLeft(sid, ClientCount(answered, sid)), {});
    hide Kept, Deliver, Broadcast, Detach;
  }

  lemma CloseRequestKept(st: State, c: ClientId, sid: SessionId, correlated: bool)
    ensures Kept(st, CloseStep(st, c, sid, correlated))
  {
    SameSessionsKept(st, st);
    hide Kept, Deliver, Broadcast, Close;
    if sid !in st.sessions {
      AnswerKept(st, st, c, Refused(SessionNotFound));
    } else if st.sessions[sid].owner != c {
      AnswerKept(st, st, c, Refused(NotOwner));
    } else {
      var m := SessionClosed(sid, OwnerClosed);
      NoteKept(st, st, sid, m, {});
      NoteKept(st, st, sid, m, {c});
      AnswerKept(st, Broadcast(st, sid, m, {c}), c, m);
      var told := if correlated then Answer(Broadcast(st, sid, m, {c}), c, m) else Broadcast(st, sid, m, {});
      EndKept(st, told, sid, OwnerClosed);
    }
  }

  lemma OutputContinues(st: State, e: Event, other: SessionId)
    requires Enabled(st, e) && e.PtyOutput? && other in Step(st, e).sessions
    ensures Continues(st, e, Step(st, e), other)
  {
    var PtyOutput(sid, data) := e;
    SameSessionsKept(st, st);
    if Wired(st, sid) {
      var recorded := Record(st, sid, data);
      assert other in recorded.sessions ==> Continues(st, e, recorded, other);
      BroadcastKept(recorded, sid, Data(sid, data), {});
      hide Kept, Continues, Broadcast, Record;
      ContinuesAfter(st, e, recorded, Step(st, e), other);
    }
  }

  lemma WriteContinues(st: State, e: Event, other: SessionId)
    requires Enabled(st, e) && e.Write? && other in Step(st, e).sessions
    ensures Continues(st, e, Step(st, e), other)
  {
    var Write(c, sid) := e;
    if Member(st, sid, c) {
      assert Continues(st, e, Touch(st, sid), other);
    } else {
      SameSessionsKept(st, st);
      AnswerKept(st, st, c, Refused(SessionNotFound));
      AnswerKept(st, st, c, Refused(NotMember));
      hide Kept, Deliver, Continues;
      KeptContinues(st, e, Step(st, e), other);
    }
  }

  /** Every other step leaves alone the terms and the stamps of all sessions. */
  lemma EndingKept(st: State, e: Event)
    requires Enabled(st, e) && (e.PtyExit? || e.OrphanTimer? || e.IdleSweep? || e.Shutdown? || e.Disconnected?)
    ensures Kept(st, Step(st, e))
  {
    SameSessionsKept(st, st);
    match e
    case PtyExit(sid, code) => FarewellKept(st, st, sid, code, ProcessExit);
    case OrphanTimer(sid) => CloseKept(st, sid, OrphanTimeout);
    case IdleSweep(order) => SweepKept(st, order);
    case Shutdown(order) =>
      var cleared := st.(timers := map[]);
      SameSessionsKept(st, cleared);
      CloseAllKept(cleared, order);
      KeptTransitive(st, cleared, CloseAll(cleared, order));
      SameSessionsKept(CloseAll(cleared, order), ShutdownStep(st, order));
      KeptTransitive(st, CloseAll(cleared, order), ShutdownStep(st, order));
    case Disconnected(c) =>
      var closed := st.(sockets := st.sockets[c := st.sockets[c].(open := false)]);
      SameSessionsKept(st, closed);
      DetachKept(closed, {c}, st.sessions.Keys);
      KeptTransitive(st, closed, DisconnectStep(st, c));
  }

  lemma AnsweringKept(st: State, e: Event)
    requires Enabled(st, e) && (e.Reply? || e.List? || e.Leave? || e.CloseRequest?)
    ensures Kept(st, Step(st, e))
  {
    SameSessionsKept(st, st);
    match e
    case Reply(c, text) => AnswerKept(st, st, c, Plain(text));
    case List(c, f) => AnswerKept(st, st, c, Listing(set sid | sid in st.sessions && Visible(st.sessions[sid], c, f)));
    case Leave(c, sid) => LeaveKept(st, c, sid);
    case CloseRequest(c, sid, correlated) => CloseRequestKept(st, c, sid, correlated);
  }

  lemma EnvironmentContinues(st: State, e: Event, sid: SessionId)
    requires Enabled(st, e) && sid in st.sessions
    requires e.Tick? || e.Connected? || e.Drained? || e.Broken? || e.Closing?
    ensures sid in Step(st, e).sessions && Continues(st, e, Step(st, e), sid)
  {}

  lemma QuietStepKept(st: State, e: Event)
    requires Enabled(st, e) && !e.Spawn? && !e.PtyOutput? && !e.Write?
    requires !e.Tick? && !e.Connected? && !e.Drained? && !e.Broken? && !e.Closing?
    ensures Kept(st, Step(st, e))
  {
    hide Kept, Step, Enabled;
    if e.Join? {
      JoinKept(st, e);
    } else if e.Reply? || e.List? || e.Leave? || e.CloseRequest? {
      AnsweringKept(st, e);
    } else {
      EndingKept(st, e);
    }
  }

  /**
   * Every step leaves the terms of a session as they are, gives a new one the terms it was
   * asked to have, and moves the stamp exactly when the session is used.
   */
  lemma StepContinues(st: State, e: Event, sid: SessionId)
    requires Invariant(st) && Enabled(st, e) && sid in Step(st, e).sessions
    ensures Continues(st, e, Step(st, e), sid)
  {
    assert e.Spawn? ==> e.sid !in st.sessions;
    hide Invariant, Continues, Kept, Step, Enabled;
    if e.Spawn? {
      SpawnContinues(st, e, sid);
    } else if e.PtyOutput? {
      OutputContinues(st, e, sid);
    } else if e.Write? {
      WriteContinues(st, e, sid);
    } else if e.Tick? || e.Connected? || e.Drained? || e.Broken? || e.Closing? {
      EnvironmentSessions(st, e);
      EnvironmentContinues(st, e, sid);
    } else {
      QuietStepKept(st, e);
      KeptContinues(st, e, Step(st, e), sid);
    }
  }

  lemma EnvironmentSessions(st: State, e: Event)
    requires Enabled(st, e)
    requires e.Tick? || e.Connected? || e.Drained? || e.Broken? || e.Closing?
    ensures Step(st, e).sessions == st.sessions
  {}

  // ------------------------------------------------------------------- whole runs

  lemma RunStep(cfg: Config, states: seq<State>, events: seq<Event>, n: nat)
    requires IsRun(cfg, states, events) && n < |events|
    ensures Enabled(states[n], events[n]) && states[n + 1] == Step(states[n], events[n])
  {}

  lemma SpawnKeepsConfig(st: State, e: Event)
    requires Enabled(st, e) && e.Spawn?
    ensures Step(st, e).cfg == st.cfg
  {
    hide Slow, DetachSessions, DetachClients, DetachTimers, Track, Forget;
  }

  lemma StepKeepsConfig(st: State, e: Event)
    requires Enabled(st, e)
    ensures Step(st, e).cfg == st.cfg
  {
    if e.Spawn? {
      SpawnKeepsConfig(st, e);
    } else if e.PtyOutput? || e.Write? {
      hide Slow, DetachSessions, DetachClients, DetachTimers;
    } else if !e.Tick? && !e.Connected? && !e.Drained? && !e.Broken? && !e.Closing? {
      hide Step;
      QuietStepKept(st, e);
    }
  }

  lemma {:induction false} ConfigStays(cfg: Config, states: seq<State>, events: seq<Event>, i: nat)
    requires IsRun(cfg, states, events) && i < |states|
    ensures states[i].cfg == cfg
  {
    hide Step, Enabled;
    if i > 0 {
      ConfigStays(cfg, states, events, i - 1);
      RunStep(cfg, states, events, i - 1);
      hide IsRun;
      StepKeepsConfig(states[i - 1], events[i - 1]);
    }
  }

  ghost predicate BornAt(states: seq<State>, events: seq<Event>, j: nat, sid: SessionId)
    requires j < |events| && |states| == |events| + 1
  {
    Born(states[j], events[j], states[j + 1], sid)
  }

  ghost predicate UsedAt(states: seq<State>, events: seq<Event>, j: nat, sid: SessionId)
    requires j < |events| && |states| == |events| + 1
  {
    Used(states[j], events[j], states[j + 1], sid)
  }

  /**
   * As long as a session lives it is what its spawn asked for: open to others only if that
   * was allowed, with a history, tmux and an orphan timeout of its own as requested.
   */
  lemma {:induction false} TermsOfSpawn(cfg: Config, states: seq<State>, events: seq<Event>, i: nat, sid: SessionId)
    returns (j: nat)
    requires IsRun(cfg, states, events) && i < |states| && sid in states[i].sessions
    ensures j < i && BornAt(states, events, j, sid) && AsAsked(states[i].sessions[sid], events[j], cfg)
  {
    hide Step, Enabled, Invariant, AsAsked;
    assert i > 0;
    InvariantHolds(cfg, states, events, i - 1);
    ConfigStays(cfg, states, events, i - 1);
    RunStep(cfg, states, events, i - 1);
    hide IsRun;
    StepContinues(states[i - 1], events[i - 1], sid);
    if sid in states[i - 1].sessions {
      j := TermsOfSpawn(cfg, states, events, i - 1, sid);
      SameAsAsked(states[i - 1].sessions[sid], states[i].sessions[sid], events[j], cfg);
    } else {
      j := i - 1;
    }
  }

  lemma SameAsAsked(s: Session, t: Session, e: Event, cfg: Config)
    requires e.Spawn? && AsAsked(s, e, cfg) && SameTerms(s, t)
    ensures AsAsked(t, e, cfg)
  {}

  /** The stamp of a live session is the time of its last use. */
  lemma {:induction false} LastUse(cfg: Config, states: seq<State>, events: seq<Event>, i: nat, sid: SessionId)
    returns (j: nat)
    requires IsRun(cfg, states, events) && i < |states| && sid in states[i].sessions
    ensures j < i && UsedAt(states, events, j, sid) && states[i].sessions[sid].lastActivity == states[j].now
    ensures forall k :: j < k < i ==> !UsedAt(states, events, k, sid)
  {
    hide Step, Enabled, Invariant, SameTerms, AsAsked;
    assert i > 0;
    InvariantHolds(cfg, states, events, i - 1);
    RunStep(cfg, states, events, i - 1);
    hide IsRun;
    StepContinues(states[i - 1], events[i - 1], sid);
    if Used(states[i - 1], events[i - 1], states[i], sid) {
      j := i - 1;
    } else {
      assert sid in states[i - 1].sessions;
      j := LastUse(cfg, states, events, i - 1, sid);
    }
  }

  // ---------------------------------------------------------------- idle sessions

  ghost predicate Overdue(st: State, sid: SessionId) {
    sid in st.sessions && st.now - st.sessions[sid].lastActivity > st.cfg.idleTimeout
  }

  lemma FarewellEnds(st: State, sid: SessionId, code: int, reason: Reason, other: SessionId)
    ensures other in Farewell(st, sid, code, reason).sessions <==> other in st.sessions && other != sid
  {
    hide Slow, DetachClients, DetachTimers, Forget;
  }

  /** Nothing a sweep does makes a session overdue that was not, or the other way round. */
  lemma KeptOverdue(st: State, after: State, sid: SessionId)
    requires Kept(st, after) && sid in after.sessions
    ensures sid in st.sessions && (Overdue(after, sid) <==> Overdue(st, sid))
    ensures Idle(after, sid) <==> Overdue(st, sid)
  {
    assert KeptSession(st, after, sid);
  }

  lemma {:induction false} SweepEnds(st: State, order: seq<SessionId>, sid: SessionId)
    ensures sid in Sweep(st, order).sessions <==> sid in st.sessions && !(sid in order && Overdue(st, sid))
  {
    if order != [] {
      var init, last := order[..|order| - 1], order[|order| - 1];
      var before := Sweep(st, init);
      SweepEnds(st, init, sid);
      SweepEnds(st, init, last);
      SweepKept(st, init);
      FarewellEnds(before, last, -1, IdleTimeout, sid);
      assert sid in order <==> sid in init || sid == last by {
        assert order == init + [last];
      }
      assert Sweep(st, order) == if Idle(before, last) then Farewell(before, last, -1, IdleTimeout) else before;
      hide Farewell, Kept, Sweep, Idle, Overdue;
      if last in before.sessions {
        KeptOverdue(st, before, last);
      } else {
        NotIdle(before, last);
      }
    }
  }

  lemma NotIdle(st: State, sid: SessionId)
    requires sid !in st.sessions
    ensures !Idle(st, sid) && !Overdue(st, sid)
  {}

  /**
   * The idle sweep ends exactly those sessions that nobody has used for longer than the idle
   * timeout: no output, no member's input, no birth since. A zero timeout ends none.
   */
  lemma SweptIff(cfg: Config, states: seq<State>, events: seq<Event>, i: nat, sid: SessionId) returns (j: nat)
    requires IsRun(cfg, states, events) && i < |events| && events[i].IdleSweep? && sid in states[i].sessions
    ensures j < i && UsedAt(states, events, j, sid) && forall k :: j < k < i ==> !UsedAt(states, events, k, sid)
    ensures sid !in states[i + 1].sessions <==> cfg.idleTimeout > 0 && states[i].now - states[j].now > cfg.idleTimeout
  {
    ConfigStays(cfg, states, events, i);
    j := LastUse(cfg, states, events, i, sid);
    RunStep(cfg, states, events, i);
    hide IsRun, Sweep, UsedAt;
    SweepEnds(states[i], events[i].order, sid);
  }

  // ------------------------------------------------------------- private sessions

  lemma StepKeepsPtys(st: State, e: Event)
    requires Invariant(st) && Enabled(st, e)
    ensures st.ptys.Keys <= Step(st, e).ptys.Keys
  {
    hide Invariant, Enabled, Step;
    StepAccounted(st, e);
    assert forall sid :: sid in st.ptys ==> sid in Step(st, e).ptys;
  }

  lemma {:induction false} PtysStay(cfg: Config, states: seq<State>, events: seq<Event>, i: nat, j: nat, sid: SessionId)
    requires IsRun(cfg, states, events) && i <= j < |states| && sid in states[i].ptys
    ensures sid in states[j].ptys
    decreases j - i
  {
    hide Step, Enabled, Invariant;
    if i < j {
      PtysStay(cfg, states, events, i, j - 1, sid);
      InvariantHolds(cfg, states, events, j - 1);
      RunStep(cfg, states, events, j - 1);
      StepKeepsPtys(states[j - 1], events[j - 1]);
    }
  }

  lemma LiveHasPty(cfg: Config, states: seq<State>, events: seq<Event>, i: nat, sid: SessionId)
    requires IsRun(cfg, states, events) && i < |states| && sid in states[i].sessions
    ensures sid in states[i].ptys
  {
    InvariantHolds(cfg, states, events, i);
  }

  /** An identifier is registered at most once. */
  lemma BornOnce(cfg: Config, states: seq<State>, events: seq<Event>, j: nat, k: nat, sid: SessionId)
    requires IsRun(cfg, states, events) && j < |events| && k < |events|
    requires BornAt(states, events, j, sid) && events[k].Spawn? && events[k].sid == sid
    requires sid in states[k + 1].ptys
    ensures k == j
  {
    RunStep(cfg, states, events, j);
    RunStep(cfg, states, events, k);
    LiveHasPty(cfg, states, events, j + 1, sid);
    hide IsRun;
    if k < j {
      PtysStay(cfg, states, events, k + 1, j, sid);
    } else if j < k {
      PtysStay(cfg, states, events, j + 1, k, sid);
    }
  }

  /**
   * Of a session spawned with joining disallowed, nobody but the spawner is ever a member who
   * has not presented its resume token since the spawn.
   */
  lemma PrivateMeansInvited(cfg: Config, states: seq<State>, events: seq<Event>, j: nat, i: nat,
                            sid: SessionId, c: ClientId)
    requires IsRun(cfg, states, events) && j < i < |states| && Member(states[i], sid, c)
    requires BornAt(states, events, j, sid) && !events[j].options.allowJoin
    ensures c == events[j].client ||
            exists k :: j < k < i && events[k].Join? && events[k].client == c && events[k].sid == sid &&
                        events[k].resume == Some(events[j].token)
  {
    var b := TermsOfSpawn(cfg, states, events, i, sid);
    LiveHasPty(cfg, states, events, b + 1, sid);
    BornOnce(cfg, states, events, j, b, sid);
    Authority(cfg, states, events, i, sid, c);
    var k :| 0 <= k < i &&
      Earns(states[k], events[k], states[k + 1], sid, c, states[i].sessions[sid].resumeToken);
    RunStep(cfg, states, events, j);
    hide IsRun;
    if events[k].Spawn? {
      BornOnce(cfg, states, events, j, k, sid);
    } else {
      LiveHasPty(cfg, states, events, k, sid);
      if k <= j {
        PtysStay(cfg, states, events, k, j, sid);
      }
    }
  }

  // ---------------------------------------------------------------- orphan timers

  /** The timeout a session was spawned with, or the server's own. */
  ghost function AskedTimeout(e: Event, cfg: Config): nat
    requires e.Spawn?
  {
    if e.options.orphanTimeout.Some? && e.options.orphanTimeout.value > 0 then e.options.orphanTimeout.value
    else cfg.orphanTimeout
  }

  /** The timer of a session may fire exactly when it is empty, without tmux, for at least its timeout. */
  lemma OrphanTimerDueIff(st: State, sid: SessionId)
    requires Registry(st)
    ensures Enabled(st, OrphanTimer(sid)) <==>
      sid in st.sessions && st.sessions[sid].clients == {} && !st.sessions[sid].useTmux &&
      st.sessions[sid].orphanedAt.Some? &&
      st.now - st.sessions[sid].orphanedAt.value >=
        if st.sessions[sid].orphanTimeout.Some? then st.sessions[sid].orphanTimeout.value else st.cfg.orphanTimeout
  {
    assert TimerOk(st, sid);
    assert sid in st.sessions ==> SessionOk(st, sid);
  }

  /**
   * A session that its timer closes was spawned without tmux and has been empty, without
   * interruption, for at least the timeout its spawn asked for, or the server's.
   */
  lemma OrphanTimeoutAsAsked(cfg: Config, states: seq<State>, events: seq<Event>, i: nat, sid: SessionId)
    returns (j: nat, since: nat)
    requires IsRun(cfg, states, events) && i < |events| && events[i] == OrphanTimer(sid)
    ensures sid in states[i].sessions && sid !in states[i + 1].sessions
    ensures j < i && BornAt(states, events, j, sid)
    ensures !(events[j].options.useTmux && events[j].options.target.Exec?)
    ensures since <= i && EmptyThroughout(states, since, i, sid)
    ensures states[i].now - states[since].now >= AskedTimeout(events[j], cfg)
  {
    since := OrphanTimeoutIsDue(cfg, states, events, i, sid);
    j := TermsOfSpawn(cfg, states, events, i, sid);
    ConfigStays(cfg, states, events, i);
    hide IsRun;
  }
}
