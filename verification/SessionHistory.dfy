/**
 * Facts about whole runs that relate a state to the events before it: where
 * authority comes from, why sessions are closed, and silence afterwards.
 */
module SessionHistory {
  import opened Common
  import opened SessionModel
  import opened SessionInvariant
  import opened SessionTrace
  import opened SessionSteps
  import opened SessionRuns

  // ------------------------------------------------------------------ frames

  /** What sending, detaching and closing leave alone. */
  ghost predicate Frame(st: State, after: State) {
    after.now == st.now && after.cfg == st.cfg &&
    after.ptys.Keys == st.ptys.Keys && after.sessions.Keys <= st.sessions.Keys &&
    (forall sid :: sid in st.ptys ==> SameBirth(st.ptys[sid], after.ptys[sid])) &&
    (forall sid :: sid in after.sessions ==> OrphanedSince(st, after, sid))
  }

  ghost predicate SameBirth(p: Pty, q: Pty) {
    q.accepting == p.accepting && q.resumeToken == p.resumeToken && q.trusted == p.trusted
  }

  /** A session orphaned afterwards was so before, since the same moment, or became so now. */
  ghost predicate OrphanedSince(st: State, after: State, sid: SessionId)
    requires sid in after.sessions
  {
    after.sessions[sid].orphanedAt.Some? ==>
      after.sessions[sid].orphanedAt.value == after.now ||
      (sid in st.sessions && st.sessions[sid].orphanedAt == after.sessions[sid].orphanedAt)
  }

  lemma DeliverFrame(st: State, m: Message, targets: set<ClientId>)
    ensures Frame(st, Deliver(st, m, targets))
  {}

  lemma CloseFrame(st: State, sid: SessionId, reason: Reason)
    ensures Frame(st, Close(st, sid, reason))
  {}

  lemma FrameTransitive(a: State, b: State, c: State)
    requires Frame(a, b) && Frame(b, c)
    ensures Frame(a, c)
  {}

  lemma BroadcastFrame(st: State, sid: SessionId, m: Message, except: set<ClientId>)
    ensures Frame(st, Broadcast(st, sid, m, except))
  {
    if sid in st.sessions {
      DeliverFrame(st, m, st.sessions[sid].clients - except);
    }
  }

  lemma FarewellFrame(st: State, sid: SessionId, code: int, reason: Reason)
    ensures Frame(st, Farewell(st, sid, code, reason))
  {
    var exited := Broadcast(st, sid, Exit(sid, code), {});
    var told := Broadcast(exited, sid, SessionClosed(sid, reason), {});
    BroadcastFrame(st, sid, Exit(sid, code), {});
    BroadcastFrame(exited, sid, SessionClosed(sid, reason), {});
    CloseFrame(told, sid, reason);
    FrameTransitive(st, exited, told);
    FrameTransitive(st, told, Close(told, sid, reason));
  }

  lemma {:induction false} SweepFrame(st: State, order: seq<SessionId>)
    ensures Frame(st, Sweep(st, order))
  {
    if order != [] {
      var before := Sweep(st, order[..|order| - 1]);
      SweepFrame(st, order[..|order| - 1]);
      FarewellFrame(before, order[|order| - 1], -1, IdleTimeout);
      FrameTransitive(st, before, Farewell(before, order[|order| - 1], -1, IdleTimeout));
    }
  }

  lemma {:induction false} CloseAllFrame(st: State, order: seq<SessionId>)
    ensures Frame(st, CloseAll(st, order))
  {
    if order != [] {
      var before := CloseAll(st, order[..|order| - 1]);
      CloseAllFrame(st, order[..|order| - 1]);
      CloseFrame(before, order[|order| - 1], Cleanup);
      FrameTransitive(st, before, Close(before, order[|order| - 1], Cleanup));
    }
  }

  // ------------------------------------------------- authority and its sources

  /**
   * On behalf of `c`, `e` creates the session, which did not exist before, or
   * presents the resume token of the session, which is live.
   */
  ghost predicate Earns(st: State, e: Event, after: State, sid: SessionId, c: ClientId, token: Token) {
    (e.Spawn? && e.client == c && e.sid == sid && e.token == token && sid !in st.ptys && sid in after.ptys) ||
    (e.Join? && e.client == c && e.sid == sid && e.resume == Some(token) && sid in st.sessions)
  }

  /** How one event may change the births, the trust and the orphan marks. */
  ghost predicate Accounted(st: State, e: Event, after: State) {
    (forall sid :: sid in st.ptys ==> sid in after.ptys) &&
    (forall sid :: sid in after.ptys ==> TrustAccounted(st, e, after, sid)) &&
    (forall sid :: sid in after.sessions ==> OrphanedSince(st, after, sid))
  }

  ghost predicate TrustAccounted(st: State, e: Event, after: State, sid: SessionId)
    requires sid in after.ptys
  {
    (sid in st.ptys ==> after.ptys[sid].resumeToken == st.ptys[sid].resumeToken) &&
    forall c :: c in after.ptys[sid].trusted ==>
      Trusts(st, sid, c) || Earns(st, e, after, sid, c, after.ptys[sid].resumeToken)
  }

  lemma FrameAccounted(st: State, mid: State, e: Event, after: State)
    requires Accounted(st, e, mid) && Frame(mid, after)
    ensures Accounted(st, e, after)
  {
    forall sid | sid in after.ptys
      ensures TrustAccounted(st, e, after, sid)
    {
      assert TrustAccounted(st, e, mid, sid) && SameBirth(mid.ptys[sid], after.ptys[sid]);
    }
    forall sid | sid in after.sessions
      ensures OrphanedSince(st, after, sid)
    {
      assert OrphanedSince(mid, after, sid) && OrphanedSince(st, mid, sid);
    }
  }

  lemma AnswerAccounted(st: State, mid: State, e: Event, c: ClientId, m: Message)
    requires Accounted(st, e, mid)
    ensures Accounted(st, e, Answer(mid, c, m))
  {
    DeliverFrame(mid, m, {c});
    FrameAccounted(st, mid, e, Answer(mid, c, m));
  }

  lemma NothingAccounted(st: State, e: Event)
    ensures Accounted(st, e, st)
  {}

  lemma CreateAccounted(st: State, e: Event, o: SpawnOptions)
    requires Enabled(st, e) && e.Spawn?
    ensures Accounted(st, e, Create(st, e.sid, e.client, e.token, o))
    ensures Accounted(st, e, Wire(Create(st, e.sid, e.client, e.token, o), e.sid))
  {}

  lemma SpawnAccounted(st: State, e: Event)
    requires Enabled(st, e) && e.Spawn?
    ensures Accounted(st, e, Step(st, e))
  {
    var Spawn(c, sid, token, o, policy, ptyFails, listenFails) := e;
    NothingAccounted(st, e);
    if policy.ModeDisabled? {
      AnswerAccounted(st, st, e, c, Refused(NotAllowed));
    } else if AtClientLimit(st, c) {
      AnswerAccounted(st, st, e, c, Refused(ClientLimit));
    } else if |st.sessions| >= st.cfg.maxSessionsTotal {
      AnswerAccounted(st, st, e, c, Refused(ServerFull));
    } else if policy.TargetRefused? {
      AnswerAccounted(st, st, e, c, Refused(NotAllowed));
    } else if ptyFails || sid in st.sessions {
      AnswerAccounted(st, st, e, c, Refused(SpawnFailed));
    } else {
      CreatedAccounted(st, e, EffectiveOptions(o));
    }
  }

  lemma CreatedAccounted(st: State, e: Event, o: SpawnOptions)
    requires Enabled(st, e) && e.Spawn?
    ensures var created := Create(st, e.sid, e.client, e.token, o);
      Accounted(st, e, Answer(created, e.client, Refused(SpawnFailed))) &&
      Accounted(st, e, Answer(Wire(created, e.sid), e.client, Spawned(e.sid, e.token))) &&
      Accounted(st, e, Answer(Close(created, e.sid, SpawnError), e.client, Refused(SpawnFailed)))
  {
    var created := Create(st, e.sid, e.client, e.token, o);
    CreateAccounted(st, e, o);
    AnswerAccounted(st, created, e, e.client, Refused(SpawnFailed));
    AnswerAccounted(st, Wire(created, e.sid), e, e.client, Spawned(e.sid, e.token));
    CloseFrame(created, e.sid, SpawnError);
    FrameAccounted(st, created, e, Close(created, e.sid, SpawnError));
    AnswerAccounted(st, Close(created, e.sid, SpawnError), e, e.client, Refused(SpawnFailed));
  }

  lemma JoinAccounted(st: State, e: Event)
    requires Enabled(st, e) && e.Join? && Invariant(st)
    ensures Accounted(st, e, Step(st, e))
  {
    var Join(c, sid, token, requested, limit) := e;
    NothingAccounted(st, e);
    if sid !in st.sessions {
      AnswerAccounted(st, st, e, c, Refused(SessionNotFound));
    } else if !st.sessions[sid].accepting && !Resumes(st.sessions[sid], token) {
      AnswerAccounted(st, st, e, c, Refused(NotAccepting));
    } else if c !in st.sessions[sid].clients && AtClientLimit(st, c) {
      AnswerAccounted(st, st, e, c, Refused(ClientLimit));
    } else if !Admits(st, sid, token) {
      AnswerAccounted(st, st, e, c, Refused(JoinFailed));
    } else {
      var added := Add(st, sid, c, token);
      var m := Welcome(st, sid, token, requested, limit);
      assert TraceOk(st, sid);
      AddAccounted(st, e);
      AnswerAccounted(st, added, e, c, m);
      var answered := Answer(added, c, m);
      BroadcastAccounted(st, answered, e, sid, ClientJoined(sid, ClientCount(answered, sid)), {c});
    }
  }

  lemma AddAccounted(st: State, e: Event)
    requires e.Join? && e.sid in st.sessions && TraceOk(st, e.sid)
    ensures Accounted(st, e, Add(st, e.sid, e.client, e.resume))
  {}

  lemma BroadcastAccounted(st: State, mid: State, e: Event, sid: SessionId, m: Message, except: set<ClientId>)
    requires Accounted(st, e, mid)
    ensures Accounted(st, e, Broadcast(mid, sid, m, except))
  {
    BroadcastFrame(mid, sid, m, except);
    FrameAccounted(st, mid, e, Broadcast(mid, sid, m, except));
  }

  lemma LeaveAccounted(st: State, e: Event)
    requires e.Leave?
    ensures Accounted(st, e, LeaveStep(st, e.client, e.sid))
  {
    NothingAccounted(st, e);
    if !Member(st, e.sid, e.client) {
      AnswerAccounted(st, st, e, e.client, Refused(SessionNotFound));
      AnswerAccounted(st, st, e, e.client, Refused(NotMember));
    } else {
      var detached := Detach(st, {e.client}, {e.sid});
      DetachAccounted(st, e, {e.client}, {e.sid});
      AnswerAccounted(st, detached, e, e.client, Left(e.sid));
      var answered := Answer(detached, e.client, Left(e.sid));
      BroadcastAccounted(st, answered, e, e.sid, ClientLeft(e.sid, ClientCount(answered, e.sid)), {});
    }
  }

  lemma DetachAccounted(st: State, e: Event, gone: set<ClientId>, sids: set<SessionId>)
    ensures Accounted(st, e, Detach(st, gone, sids))
  {
    var after := Detach(st, gone, sids);
    forall sid | sid in after.sessions
      ensures OrphanedSince(st, after, sid)
    {
      assert after.sessions[sid] == DetachSession(st, sid, gone, sids);
    }
  }

  lemma CloseRequestAccounted(st: State, e: Event)
    requires e.CloseRequest?
    ensures Accounted(st, e, CloseStep(st, e.client, e.sid, e.correlated))
  {
    var c, sid := e.client, e.sid;
    NothingAccounted(st, e);
    if sid !in st.sessions {
      AnswerAccounted(st, st, e, c, Refused(SessionNotFound));
    } else if st.sessions[sid].owner != c {
      AnswerAccounted(st, st, e, c, Refused(NotOwner));
    } else {
      var m := SessionClosed(sid, OwnerClosed);
      BroadcastAccounted(st, st, e, sid, m, {});
      BroadcastAccounted(st, st, e, sid, m, {c});
      AnswerAccounted(st, Broadcast(st, sid, m, {c}), e, c, m);
      var told := if e.correlated then Answer(Broadcast(st, sid, m, {c}), c, m) else Broadcast(st, sid, m, {});
      CloseFrame(told, sid, OwnerClosed);
      FrameAccounted(st, told, e, Close(told, sid, OwnerClosed));
    }
  }

  lemma RecordAccounted(st: State, e: Event, sid: SessionId, data: string)
    requires sid in st.sessions
    ensures Accounted(st, e, Record(st, sid, data))
  {
    var after := Record(st, sid, data);
    forall other | other in after.ptys
      ensures TrustAccounted(st, e, after, other)
    {}
    forall other | other in after.sessions
      ensures OrphanedSince(st, after, other)
    {}
  }

  lemma OutputAccounted(st: State, e: Event, sid: SessionId, data: string)
    ensures Accounted(st, e, OutputStep(st, sid, data))
  {
    NothingAccounted(st, e);
    if Wired(st, sid) {
      RecordAccounted(st, e, sid, data);
      BroadcastAccounted(st, Record(st, sid, data), e, sid, Data(sid, data), {});
    }
  }

  lemma SameRecordsAccounted(st: State, e: Event, after: State)
    requires after.ptys == st.ptys && after.sessions == st.sessions
    ensures Accounted(st, e, after)
  {}

  lemma SameRecordsFrame(st: State, after: State)
    requires after.ptys == st.ptys && after.sessions == st.sessions && after.now == st.now && after.cfg == st.cfg
    ensures Frame(st, after)
  {}

  lemma ShutdownAccounted(st: State, e: Event, order: seq<SessionId>)
    ensures Accounted(st, e, ShutdownStep(st, order))
  {
    var cleared := st.(timers := map[]);
    var closed := CloseAll(cleared, order);
    SameRecordsAccounted(st, e, cleared);
    CloseAllFrame(cleared, order);
    SameRecordsFrame(closed, ShutdownStep(st, order));
    FrameTransitive(cleared, closed, ShutdownStep(st, order));
    FrameAccounted(st, cleared, e, ShutdownStep(st, order));
  }

  lemma ClosingAccounted(st: State, e: Event)
    requires e.PtyExit? || e.OrphanTimer? || e.IdleSweep?
    requires Enabled(st, e)
    ensures Accounted(st, e, Step(st, e))
  {
    NothingAccounted(st, e);
    match e
    case PtyExit(sid, code) =>
      FarewellFrame(st, sid, code, ProcessExit);
      FrameAccounted(st, st, e, Farewell(st, sid, code, ProcessExit));
    case OrphanTimer(sid) =>
      CloseFrame(st, sid, OrphanTimeout);
      FrameAccounted(st, st, e, Close(st, sid, OrphanTimeout));
    case IdleSweep(order) =>
      SweepFrame(st, order);
      FrameAccounted(st, st, e, Sweep(st, order));
  }

  lemma ListAccounted(st: State, e: Event, c: ClientId, filter: Filter)
    ensures Accounted(st, e, ListStep(st, c, filter))
  {}

  lemma WriteAccounted(st: State, e: Event, c: ClientId, sid: SessionId)
    ensures Accounted(st, e, WriteStep(st, c, sid))
  {
    hide Deliver;
    NothingAccounted(st, e);
    if !Member(st, sid, c) {
      AnswerAccounted(st, st, e, c, Refused(SessionNotFound));
      AnswerAccounted(st, st, e, c, Refused(NotMember));
    } else {
      var after := Touch(st, sid);
      forall other | other in after.sessions
        ensures OrphanedSince(st, after, other)
      {}
    }
  }

  lemma DisconnectAccounted(st: State, e: Event, c: ClientId)
    requires e == Disconnected(c) && Enabled(st, e)
    ensures Accounted(st, e, Step(st, e))
  {
    DetachAccounted(st.(sockets := st.sockets[c := st.sockets[c].(open := false)]), e, {c}, st.sessions.Keys);
  }

  lemma SimpleAccounted(st: State, e: Event)
    requires Enabled(st, e)
    requires e.Tick? || e.Connected? || e.Drained? || e.Broken? || e.Closing? ||
             e.Reply? || e.List? || e.Write?
    ensures Accounted(st, e, Step(st, e))
  {
    NothingAccounted(st, e);
    hide Deliver, Detach, Accounted, WriteStep, ListStep;
    if e.Reply? {
      AnswerAccounted(st, st, e, e.client, Plain(e.text));
    } else if e.List? {
      ListAccounted(st, e, e.client, e.filter);
    } else if e.Write? {
      WriteAccounted(st, e, e.client, e.sid);
    } else {
      SameRecordsAccounted(st, e, Step(st, e));
    }
  }

  lemma StepAccounted(st: State, e: Event)
    requires Invariant(st) && Enabled(st, e)
    ensures Accounted(st, e, Step(st, e))
  {
    hide Deliver, Registry, TraceInvariant, Accounted, SpawnStep, JoinStep, LeaveStep, CloseStep, ListStep, WriteStep,
         OutputStep, ShutdownStep, Sweep, Farewell, Close, Detach;
    match e
    case Spawn(_, _, _, _, _, _, _) => SpawnAccounted(st, e);
    case Join(_, _, _, _, _) => JoinAccounted(st, e);
    case Leave(_, _) => LeaveAccounted(st, e);
    case CloseRequest(_, _, _) => CloseRequestAccounted(st, e);
    case PtyOutput(sid, data) => OutputAccounted(st, e, sid, data);
    case PtyExit(_, _) => ClosingAccounted(st, e);
    case OrphanTimer(_) => ClosingAccounted(st, e);
    case IdleSweep(_) => ClosingAccounted(st, e);
    case Shutdown(order) =>
      NothingAccounted(st, e);
      ShutdownAccounted(st, e, order);
    case Disconnected(c) => DisconnectAccounted(st, e, c);
    case _ => SimpleAccounted(st, e);
  }

  lemma TrustBefore(st: State, e: Event, sid: SessionId, c: ClientId)
    requires Invariant(st) && Enabled(st, e) && Trusts(Step(st, e), sid, c)
    ensures Earns(st, e, Step(st, e), sid, c, Step(st, e).ptys[sid].resumeToken) ||
            (Trusts(st, sid, c) && st.ptys[sid].resumeToken == Step(st, e).ptys[sid].resumeToken)
  {
    hide Invariant, Enabled, Step, OrphanedSince;
    StepAccounted(st, e);
    assert TrustAccounted(st, e, Step(st, e), sid);
  }

  /** Trust is only ever earned: by creating the session or presenting its resume token. */
  lemma {:induction false} TrustIsEarned(cfg: Config, states: seq<State>, events: seq<Event>, i: nat,
                                         sid: SessionId, c: ClientId)
    requires IsRun(cfg, states, events) && i < |states| && Trusts(states[i], sid, c)
    ensures exists j :: 0 <= j < i && Earns(states[j], events[j], states[j + 1], sid, c, states[i].ptys[sid].resumeToken)
  {
    hide Invariant, Enabled, Step;
    if i > 0 {
      InvariantHolds(cfg, states, events, i - 1);
      TrustBefore(states[i - 1], events[i - 1], sid, c);
      if !Earns(states[i - 1], events[i - 1], states[i], sid, c, states[i].ptys[sid].resumeToken) {
        TrustIsEarned(cfg, states, events, i - 1, sid, c);
      }
    }
  }

  /**
   * Whoever owns a session, or is a member of a private one, created it or
   * presented its resume token earlier in the run.
   */
  lemma Authority(cfg: Config, states: seq<State>, events: seq<Event>, i: nat, sid: SessionId, c: ClientId)
    requires IsRun(cfg, states, events) && i < |states| && sid in states[i].sessions
    requires states[i].sessions[sid].owner == c || (Member(states[i], sid, c) && !states[i].sessions[sid].accepting)
    ensures exists j :: 0 <= j < i && Earns(states[j], events[j], states[j + 1], sid, c, states[i].sessions[sid].resumeToken)
  {
    InvariantHolds(cfg, states, events, i);
    assert TraceOk(states[i], sid);
    TrustIsEarned(cfg, states, events, i, sid, c);
  }

  /** Session traffic, as opposed to listings and refusals. */
  ghost predicate Reveals(m: Message, sid: SessionId) {
    (m.Spawned? && m.sid == sid) || (m.Joined? && m.sid == sid) || (m.Data? && m.sid == sid) ||
    (m.Listing? && sid in m.sids)
  }

  ghost predicate RevealsToken(m: Message, sid: SessionId) {
    (m.Spawned? && m.sid == sid) || (m.Joined? && m.sid == sid && m.resume.Some?)
  }

  /**
   * Output and listings of a private session, and the resume token of any,
   * only ever went to clients that had earned it.
   */
  lemma Discretion(cfg: Config, states: seq<State>, events: seq<Event>, i: nat, sid: SessionId, c: ClientId, k: nat)
    requires IsRun(cfg, states, events) && i < |states| && c in states[i].sockets
    requires k < |states[i].sockets[c].sent|
    requires var m := states[i].sockets[c].sent[k];
      RevealsToken(m, sid) || (Reveals(m, sid) && sid in states[i].ptys && !states[i].ptys[sid].accepting)
    ensures sid in states[i].ptys
    ensures exists j :: 0 <= j < i && Earns(states[j], events[j], states[j + 1], sid, c, states[i].ptys[sid].resumeToken)
  {
    InvariantHolds(cfg, states, events, i);
    assert AllMayReceive(states[i], c, states[i].sockets[c].sent);
    assert MayReceive(states[i], c, states[i].sockets[c].sent[k]);
    if states[i].sockets[c].sent[k].Listing? {
      assert MaySee(states[i], sid, c);
    }
    TrustIsEarned(cfg, states, events, i, sid, c);
  }

  // ------------------------------------------------------------- orphan timing

  /** In every state from `j` to `i` the session is live and has no clients. */
  ghost predicate EmptyThroughout(states: seq<State>, j: nat, i: nat, sid: SessionId)
    requires j <= i < |states|
  {
    forall k :: j <= k <= i ==> sid in states[k].sessions && states[k].sessions[sid].clients == {}
  }

  lemma OrphanBefore(st: State, e: Event, sid: SessionId)
    requires Invariant(st) && Enabled(st, e)
    requires sid in Step(st, e).sessions && Step(st, e).sessions[sid].orphanedAt.Some?
    requires Step(st, e).sessions[sid].orphanedAt.value != Step(st, e).now
    ensures sid in st.sessions && st.sessions[sid].orphanedAt == Step(st, e).sessions[sid].orphanedAt
  {
    hide Invariant, Enabled, Step, TrustAccounted;
    StepAccounted(st, e);
    assert OrphanedSince(st, Step(st, e), sid);
  }

  lemma OrphanIsEmpty(st: State, sid: SessionId)
    requires Invariant(st) && sid in st.sessions && st.sessions[sid].orphanedAt.Some?
    ensures st.sessions[sid].clients == {}
  {}

  lemma {:induction false} OrphanedMeansEmptySince(cfg: Config, states: seq<State>, events: seq<Event>, i: nat,
                                                   sid: SessionId) returns (j: nat)
    requires IsRun(cfg, states, events) && i < |states|
    requires sid in states[i].sessions && states[i].sessions[sid].orphanedAt.Some?
    ensures j <= i && states[j].now == states[i].sessions[sid].orphanedAt.value
    ensures EmptyThroughout(states, j, i, sid)
  {
    hide Invariant, Enabled, Step;
    InvariantHolds(cfg, states, events, i);
    OrphanIsEmpty(states[i], sid);
    if states[i].sessions[sid].orphanedAt.value == states[i].now {
      j := i;
    } else {
      InvariantHolds(cfg, states, events, i - 1);
      OrphanBefore(states[i - 1], events[i - 1], sid);
      j := OrphanedMeansEmptySince(cfg, states, events, i - 1, sid);
    }
  }

  lemma TimerFiresOnOrphan(st: State, sid: SessionId)
    requires Registry(st) && Enabled(st, OrphanTimer(sid))
    ensures sid in st.sessions && !st.sessions[sid].useTmux && st.sessions[sid].orphanedAt.Some?
    ensures st.sessions[sid].orphanedAt.value + Timeout(st, st.sessions[sid]) <= st.now
    ensures Step(st, OrphanTimer(sid)) == Close(st, sid, OrphanTimeout)
  {
    assert TimerOk(st, sid) && SessionOk(st, sid);
  }

  /**
   * A timer that fires belongs to a live session without tmux that has been
   * empty, without interruption, for at least its effective timeout; the
   * session is closed.
   */
  lemma OrphanTimeoutIsDue(cfg: Config, states: seq<State>, events: seq<Event>, i: nat, sid: SessionId)
    returns (j: nat)
    requires IsRun(cfg, states, events) && i < |events| && events[i] == OrphanTimer(sid)
    ensures sid in states[i].sessions && !states[i].sessions[sid].useTmux
    ensures j <= i && EmptyThroughout(states, j, i, sid)
    ensures states[j].now + Timeout(states[i], states[i].sessions[sid]) <= states[i].now
    ensures states[i + 1] == Close(states[i], sid, OrphanTimeout)
  {
    InvariantHolds(cfg, states, events, i);
    TimerFiresOnOrphan(states[i], sid);
    j := OrphanedMeansEmptySince(cfg, states, events, i, sid);
  }

  /**
   * While a session is orphaned, a fresh client with its resume token joins it,
   * becomes its owner, stops the timer and stays unless its socket fails.
   */
  lemma ResumeSucceeds(st: State, sid: SessionId, c: ClientId, requested: bool, limit: Option<nat>)
    requires Invariant(st) && sid in st.sessions && st.sessions[sid].clients == {}
    requires c in st.sockets && c !in st.clientSessions
    ensures var token := st.sessions[sid].resumeToken;
      var after := JoinStep(st, c, sid, Some(token), requested, limit);
      sid in after.sessions && after.sessions[sid].owner == c &&
      c in after.sockets &&
      (Healthy(after, c) ==>
        Member(after, sid, c) && sid !in after.timers &&
        after.sockets[c].sent == st.sockets[c].sent + [Welcome(st, sid, Some(token), requested, limit)])
  {
    var token := Some(st.sessions[sid].resumeToken);
    var m := Welcome(st, sid, token, requested, limit);
    var added := Add(st, sid, c, token);
    var answered := Answer(added, c, m);
    var note := ClientJoined(sid, ClientCount(answered, sid));
    var after := JoinStep(st, c, sid, token, requested, limit);
    JoinIsWelcomed(st, c, sid, token, requested, limit);
    JoinKeeps(st, c, sid, token, requested, limit);
    ResumedStays(added, sid, c, m);
    ResumedStaysAfterNote(answered, sid, c, note);
    assert TimerOk(after, sid) && SessionOk(after, sid);
  }

  lemma ResumedStays(st: State, sid: SessionId, c: ClientId, m: Message)
    requires sid in st.sessions && st.sessions[sid].owner == c && Member(st, sid, c)
    ensures var after := Answer(st, c, m);
      sid in after.sessions && after.sessions[sid].owner == c &&
      (Healthy(after, c) ==> Member(after, sid, c))
  {}

  lemma ResumedStaysAfterNote(st: State, sid: SessionId, c: ClientId, note: Message)
    requires sid in st.sessions && st.sessions[sid].owner == c
    ensures var after := Broadcast(st, sid, note, {c});
      sid in after.sessions && after.sessions[sid].owner == c &&
      (Member(st, sid, c) ==> Member(after, sid, c))
  {}
}
