/** Why sessions are closed, and that nothing more is heard of a closed session. */
module SessionClosing {
  import opened Common
  import opened SessionModel
  import opened SessionInvariant
  import opened SessionTrace
  import opened SessionSteps
  import opened SessionRuns

  // ------------------------------------------------------------------ silence

  /** Everything a session's members are told, and the answers that name it as theirs. */
  ghost predicate Traffic(m: Message, sid: SessionId) {
    match m
    case Spawned(s, _) => s == sid
    case Joined(s, _, _) => s == sid
    case Left(s) => s == sid
    case Listing(sids) => sid in sids
    case Data(s, _) => s == sid
    case Exit(s, _) => s == sid
    case SessionClosed(s, _) => s == sid
    case ClientJoined(s, _) => s == sid
    case ClientLeft(s, _) => s == sid
    case _ => false
  }

  ghost predicate SilentSocket(before: seq<Message>, after: seq<Message>, sid: SessionId) {
    before <= after && forall k :: |before| <= k < |after| ==> !Traffic(after[k], sid)
  }

  /** Between the two states no socket was sent any traffic of the dead session `sid`. */
  ghost predicate Silent(st: State, after: State, sid: SessionId) {
    sid !in after.sessions && sid in after.ptys && st.sockets.Keys <= after.sockets.Keys &&
    (forall c :: c in after.sockets ==>
      SilentSocket(if c in st.sockets then st.sockets[c].sent else [], after.sockets[c].sent, sid))
  }

  ghost predicate Dead(st: State, sid: SessionId) {
    sid in st.ptys && sid !in st.sessions
  }

  lemma SilentTransitive(a: State, b: State, c: State, sid: SessionId)
    requires Silent(a, b, sid) && Silent(b, c, sid)
    ensures Silent(a, c, sid)
  {}

  lemma SameSentSilent(st: State, after: State, sid: SessionId)
    requires Dead(after, sid) && st.sockets.Keys <= after.sockets.Keys
    requires forall c :: c in after.sockets ==>
      after.sockets[c].sent == if c in st.sockets then st.sockets[c].sent else []
    ensures Silent(st, after, sid)
  {}

  lemma DeliverSilent(st: State, m: Message, targets: set<ClientId>, sid: SessionId)
    requires Dead(st, sid) && !Traffic(m, sid)
    ensures Silent(st, Deliver(st, m, targets), sid)
  {
    var after := Deliver(st, m, targets);
    forall c | c in after.sockets
      ensures SilentSocket(st.sockets[c].sent, after.sockets[c].sent, sid)
    {
      assert after.sockets[c] == SocketAfter(st, m, targets, c);
    }
  }

  lemma DeliverSilentAfter(st: State, mid: State, m: Message, targets: set<ClientId>, sid: SessionId)
    requires Silent(st, mid, sid) && !Traffic(m, sid)
    ensures Silent(st, Deliver(mid, m, targets), sid)
  {
    DeliverSilent(mid, m, targets, sid);
    SilentTransitive(st, mid, Deliver(mid, m, targets), sid);
  }

  lemma BroadcastSilent(st: State, mid: State, other: SessionId, m: Message, except: set<ClientId>, sid: SessionId)
    requires Silent(st, mid, sid) && (other != sid ==> !Traffic(m, sid))
    ensures Silent(st, Broadcast(mid, other, m, except), sid)
  {
    if other in mid.sessions {
      DeliverSilentAfter(st, mid, m, mid.sessions[other].clients - except, sid);
    }
  }

  lemma CloseSilent(st: State, mid: State, other: SessionId, reason: Reason, sid: SessionId)
    requires Silent(st, mid, sid)
    ensures Silent(st, Close(mid, other, reason), sid)
  {}

  lemma FarewellSilent(st: State, mid: State, other: SessionId, code: int, reason: Reason, sid: SessionId)
    requires Silent(st, mid, sid)
    ensures Silent(st, Farewell(mid, other, code, reason), sid)
  {
    var exited := Broadcast(mid, other, Exit(other, code), {});
    BroadcastSilent(st, mid, other, Exit(other, code), {}, sid);
    BroadcastSilent(st, exited, other, SessionClosed(other, reason), {}, sid);
    CloseSilent(st, Broadcast(exited, other, SessionClosed(other, reason), {}), other, reason, sid);
  }

  lemma {:induction false} SweepSilent(st: State, order: seq<SessionId>, sid: SessionId)
    requires Dead(st, sid)
    ensures Silent(st, Sweep(st, order), sid)
  {
    if order != [] {
      SweepSilent(st, order[..|order| - 1], sid);
      FarewellSilent(st, Sweep(st, order[..|order| - 1]), order[|order| - 1], -1, IdleTimeout, sid);
    }
  }

  lemma {:induction false} CloseAllSilent(st: State, order: seq<SessionId>, sid: SessionId)
    requires Dead(st, sid)
    ensures Silent(st, CloseAll(st, order), sid) && CloseAll(st, order).sockets == st.sockets
  {
    if order != [] {
      CloseAllSilent(st, order[..|order| - 1], sid);
      CloseSilent(st, CloseAll(st, order[..|order| - 1]), order[|order| - 1], Cleanup, sid);
    }
  }

  lemma SpawnSilent(st: State, e: Event, sid: SessionId)
    requires Dead(st, sid) && Enabled(st, e) && e.Spawn?
    ensures Silent(st, Step(st, e), sid)
  {
    var Spawn(c, other, token, o, policy, ptyFails, listenFails) := e;
    assert Silent(st, st, sid);
    if policy.ModeDisabled? {
      DeliverSilent(st, Refused(NotAllowed), {c}, sid);
    } else if AtClientLimit(st, c) {
      DeliverSilent(st, Refused(ClientLimit), {c}, sid);
    } else if |st.sessions| >= st.cfg.maxSessionsTotal {
      DeliverSilent(st, Refused(ServerFull), {c}, sid);
    } else if policy.TargetRefused? {
      DeliverSilent(st, Refused(NotAllowed), {c}, sid);
    } else if ptyFails || other in st.sessions {
      DeliverSilent(st, Refused(SpawnFailed), {c}, sid);
    } else {
      CreatedSilent(st, c, other, token, EffectiveOptions(o), sid);
    }
  }

  lemma CreatedSilent(st: State, c: ClientId, other: SessionId, token: Token, o: SpawnOptions, sid: SessionId)
    requires Dead(st, sid) && other != sid
    ensures var created := Create(st, other, c, token, o);
      Silent(st, Answer(Wire(created, other), c, Spawned(other, token)), sid) &&
      Silent(st, Answer(created, c, Refused(SpawnFailed)), sid) &&
      Silent(st, Answer(Close(created, other, SpawnError), c, Refused(SpawnFailed)), sid)
  {
    var created := Create(st, other, c, token, o);
    SameSentSilent(st, created, sid);
    DeliverSilentAfter(st, created, Refused(SpawnFailed), {c}, sid);
    SameSentSilent(st, Wire(created, other), sid);
    DeliverSilentAfter(st, Wire(created, other), Spawned(other, token), {c}, sid);
    CloseSilent(st, created, other, SpawnError, sid);
    DeliverSilentAfter(st, Close(created, other, SpawnError), Refused(SpawnFailed), {c}, sid);
  }

  lemma JoinSilent(st: State, e: Event, sid: SessionId)
    requires Dead(st, sid) && Enabled(st, e) && e.Join?
    ensures Silent(st, Step(st, e), sid)
  {
    hide Deliver, Add, Silent;
    var Join(c, other, token, requested, limit) := e;
    if other !in st.sessions {
      DeliverSilent(st, Refused(SessionNotFound), {c}, sid);
    } else if !st.sessions[other].accepting && !Resumes(st.sessions[other], token) {
      DeliverSilent(st, Refused(NotAccepting), {c}, sid);
    } else if c !in st.sessions[other].clients && AtClientLimit(st, c) {
      DeliverSilent(st, Refused(ClientLimit), {c}, sid);
    } else if !Admits(st, other, token) {
      DeliverSilent(st, Refused(JoinFailed), {c}, sid);
    } else {
      var m := Welcome(st, other, token, requested, limit);
      var answered := Answer(Add(st, other, c, token), c, m);
      AddedSilent(st, c, other, token, m, sid);
      BroadcastSilent(st, answered, other, ClientJoined(other, ClientCount(answered, other)), {c}, sid);
    }
  }

  lemma AddedSilent(st: State, c: ClientId, other: SessionId, token: Option<Token>, m: Message, sid: SessionId)
    requires Dead(st, sid) && other in st.sessions && !Traffic(m, sid)
    ensures Silent(st, Answer(Add(st, other, c, token), c, m), sid)
  {
    SameSentSilent(st, Add(st, other, c, token), sid);
    DeliverSilentAfter(st, Add(st, other, c, token), m, {c}, sid);
  }

  lemma LeaveSilent(st: State, c: ClientId, other: SessionId, sid: SessionId)
    requires Dead(st, sid)
    ensures Silent(st, LeaveStep(st, c, other), sid)
  {
    if !Member(st, other, c) {
      DeliverSilent(st, Refused(SessionNotFound), {c}, sid);
      DeliverSilent(st, Refused(NotMember), {c}, sid);
    } else {
      var detached := Detach(st, {c}, {other});
      SameSentSilent(st, detached, sid);
      DeliverSilentAfter(st, detached, Left(other), {c}, sid);
      var answered := Answer(detached, c, Left(other));
      BroadcastSilent(st, answered, other, ClientLeft(other, ClientCount(answered, other)), {}, sid);
    }
  }

  lemma CloseRequestSilent(st: State, c: ClientId, other: SessionId, correlated: bool, sid: SessionId)
    requires Dead(st, sid)
    ensures Silent(st, CloseStep(st, c, other, correlated), sid)
  {
    SameSentSilent(st, st, sid);
    if other !in st.sessions {
      DeliverSilent(st, Refused(SessionNotFound), {c}, sid);
    } else if st.sessions[other].owner != c {
      DeliverSilent(st, Refused(NotOwner), {c}, sid);
    } else {
      var m := SessionClosed(other, OwnerClosed);
      BroadcastSilent(st, st, other, m, {}, sid);
      BroadcastSilent(st, st, other, m, {c}, sid);
      DeliverSilentAfter(st, Broadcast(st, other, m, {c}), m, {c}, sid);
      var told := if correlated then Answer(Broadcast(st, other, m, {c}), c, m) else Broadcast(st, other, m, {});
      CloseSilent(st, told, other, OwnerClosed, sid);
    }
  }

  lemma OutputSilent(st: State, other: SessionId, data: string, sid: SessionId)
    requires Dead(st, sid)
    ensures Silent(st, OutputStep(st, other, data), sid)
  {
    SameSentSilent(st, st, sid);
    if Wired(st, other) {
      SameSentSilent(st, Record(st, other, data), sid);
      BroadcastSilent(st, Record(st, other, data), other, Data(other, data), {}, sid);
    }
  }

  lemma ListSilent(st: State, c: ClientId, filter: Filter, sid: SessionId)
    requires Dead(st, sid)
    ensures Silent(st, ListStep(st, c, filter), sid)
  {
    DeliverSilent(st, Listing(set other | other in st.sessions && Visible(st.sessions[other], c, filter)), {c}, sid);
  }

  lemma WriteSilent(st: State, c: ClientId, other: SessionId, sid: SessionId)
    requires Dead(st, sid)
    ensures Silent(st, WriteStep(st, c, other), sid)
  {
    if !Member(st, other, c) {
      DeliverSilent(st, Refused(SessionNotFound), {c}, sid);
      DeliverSilent(st, Refused(NotMember), {c}, sid);
    } else {
      SameSentSilent(st, Touch(st, other), sid);
    }
  }

  lemma TimerSilent(st: State, other: SessionId, sid: SessionId)
    requires Dead(st, sid)
    ensures Silent(st, TimerStep(st, other), sid)
  {}

  lemma ShutdownSilent(st: State, order: seq<SessionId>, sid: SessionId)
    requires Dead(st, sid)
    ensures Silent(st, ShutdownStep(st, order), sid)
  {
    var cleared := st.(timers := map[]);
    CloseAllSilent(cleared, order, sid);
    SameSentSilent(st, ShutdownStep(st, order), sid);
  }

  lemma EnvironmentSilent(st: State, e: Event, sid: SessionId)
    requires Dead(st, sid) && Enabled(st, e)
    requires e.Tick? || e.Connected? || e.Drained? || e.Broken? || e.Closing? || e.Disconnected?
    ensures Silent(st, Step(st, e), sid)
  {
    SameSentSilent(st, Step(st, e), sid);
  }

  lemma StepSilent(st: State, e: Event, sid: SessionId)
    requires Dead(st, sid) && Enabled(st, e)
    ensures Silent(st, Step(st, e), sid)
  {
    hide Deliver, Close, ListStep, WriteStep, Silent, SpawnStep, JoinStep, LeaveStep, CloseStep, OutputStep, Farewell,
         Sweep, ShutdownStep;
    SameSentSilent(st, st, sid);
    match e
    case Spawn(_, _, _, _, _, _, _) => SpawnSilent(st, e, sid);
    case Join(_, _, _, _, _) => JoinSilent(st, e, sid);
    case Leave(c, other) => LeaveSilent(st, c, other, sid);
    case CloseRequest(c, other, correlated) => CloseRequestSilent(st, c, other, correlated, sid);
    case List(c, filter) => ListSilent(st, c, filter, sid);
    case Reply(c, text) => DeliverSilent(st, Plain(text), {c}, sid);
    case Write(c, other) => WriteSilent(st, c, other, sid);
    case PtyOutput(other, data) => OutputSilent(st, other, data, sid);
    case PtyExit(other, code) => FarewellSilent(st, st, other, code, ProcessExit, sid);
    case OrphanTimer(other) => TimerSilent(st, other, sid);
    case IdleSweep(order) => SweepSilent(st, order, sid);
    case Shutdown(order) => ShutdownSilent(st, order, sid);
    case _ => EnvironmentSilent(st, e, sid);
  }

  lemma ClosedIsDead(st: State, sid: SessionId)
    requires Invariant(st) && ClosedIn(st, sid)
    ensures Dead(st, sid) && Silent(st, st, sid)
  {
    SameSentSilent(st, st, sid);
  }

  lemma SilentIsDead(st: State, after: State, sid: SessionId)
    requires Silent(st, after, sid)
    ensures Dead(after, sid)
  {}

  /** Once closed, a session stays closed and no client ever gets traffic of it again. */
  lemma {:induction false} SilenceAfterClose(cfg: Config, states: seq<State>, events: seq<Event>, i: nat, j: nat,
                                             sid: SessionId)
    requires IsRun(cfg, states, events) && i <= j < |states| && ClosedIn(states[i], sid)
    ensures Dead(states[i], sid) && Silent(states[i], states[j], sid)
    decreases j
  {
    hide Step, Enabled, Silent, Dead, Invariant, ClosedIn;
    InvariantHolds(cfg, states, events, i);
    ClosedIsDead(states[i], sid);
    if i < j {
      SilenceAfterClose(cfg, states, events, i, j - 1, sid);
      SilentIsDead(states[i], states[j - 1], sid);
      StepSilent(states[j - 1], events[j - 1], sid);
      SilentTransitive(states[i], states[j - 1], states[j], sid);
    }
  }

  // ------------------------------------------------------------------- reasons

  /** Why an event may close a session, judged in the state before it. */
  ghost predicate Justified(st: State, e: Event, x: Closure) {
    match x.reason
    case OrphanTimeout => e == OrphanTimer(x.sid)
    case OwnerClosed =>
      e.CloseRequest? && e.sid == x.sid && x.sid in st.sessions && st.sessions[x.sid].owner == e.client
    case ProcessExit => e.PtyExit? && e.sid == x.sid
    case IdleTimeout => e.IdleSweep? && Idle(st, x.sid)
    case Cleanup => e.Shutdown?
    case SpawnError => e.Spawn? && e.sid == x.sid
  }

  ghost predicate ClosuresJustified(st: State, e: Event, after: State) {
    st.closures <= after.closures &&
    forall k :: |st.closures| <= k < |after.closures| ==> Justified(st, e, after.closures[k])
  }

  /** Sessions only disappear, and nobody's activity stamp moves. */
  ghost predicate Quieter(st: State, after: State) {
    after.now == st.now && after.cfg == st.cfg &&
    forall sid :: sid in after.sessions ==>
      sid in st.sessions && after.sessions[sid].lastActivity == st.sessions[sid].lastActivity
  }

  lemma {:induction false} SweepJustified(st: State, e: Event, order: seq<SessionId>)
    requires e.IdleSweep?
    ensures ClosuresJustified(st, e, Sweep(st, order)) && Quieter(st, Sweep(st, order))
  {
    hide Farewell;
    if order != [] {
      var before := Sweep(st, order[..|order| - 1]);
      var sid := order[|order| - 1];
      SweepJustified(st, e, order[..|order| - 1]);
      FarewellCloses(before, sid, -1, IdleTimeout);
    }
  }

  lemma FarewellCloses(st: State, sid: SessionId, code: int, reason: Reason)
    ensures var after := Farewell(st, sid, code, reason);
      Quieter(st, after) &&
      after.closures == st.closures + if sid in st.sessions then [Closure(sid, reason)] else []
  {}

  lemma DeliverQuieter(st: State, m: Message, targets: set<ClientId>)
    ensures Quieter(st, Deliver(st, m, targets))
  {
    var after := Deliver(st, m, targets);
    var slow := Slow(st, m, targets);
    forall other | other in after.sessions
      ensures other in st.sessions && after.sessions[other].lastActivity == st.sessions[other].lastActivity
    {
      assert after.sessions[other] == DetachSession(st, other, slow, st.sessions.Keys);
    }
    hide DetachClients, DetachTimers, Slow;
  }

  lemma BroadcastCloses(st: State, sid: SessionId, m: Message, except: set<ClientId>)
    ensures var after := Broadcast(st, sid, m, except);
      Quieter(st, after) && after.closures == st.closures && after.sessions.Keys == st.sessions.Keys
  {
    if sid in st.sessions {
      DeliverQuieter(st, m, st.sessions[sid].clients - except);
      hide Quieter, DetachClients, DetachTimers, Slow;
    }
  }

  lemma {:induction false} CloseAllJustified(st: State, e: Event, order: seq<SessionId>)
    requires e.Shutdown?
    ensures ClosuresJustified(st, e, CloseAll(st, order))
  {
    if order != [] {
      CloseAllJustified(st, e, order[..|order| - 1]);
    }
  }

  lemma AnswerCloses(st: State, c: ClientId, m: Message)
    ensures Answer(st, c, m).closures == st.closures && Answer(st, c, m).sessions.Keys == st.sessions.Keys
  {}

  lemma SpawnJustified(st: State, e: Event)
    requires Enabled(st, e) && e.Spawn?
    ensures ClosuresJustified(st, e, Step(st, e))
  {
    hide Deliver, Close, Create, Wire;
    var Spawn(c, sid, token, o, policy, ptyFails, listenFails) := e;
    if policy.ModeDisabled? {
      AnswerCloses(st, c, Refused(NotAllowed));
    } else if AtClientLimit(st, c) {
      AnswerCloses(st, c, Refused(ClientLimit));
    } else if |st.sessions| >= st.cfg.maxSessionsTotal {
      AnswerCloses(st, c, Refused(ServerFull));
    } else if policy.TargetRefused? {
      AnswerCloses(st, c, Refused(NotAllowed));
    } else if ptyFails || sid in st.sessions {
      AnswerCloses(st, c, Refused(SpawnFailed));
    } else {
      CreatedCloses(st, sid, c, token, EffectiveOptions(o));
    }
  }

  lemma CreatedCloses(st: State, sid: SessionId, c: ClientId, token: Token, o: SpawnOptions)
    ensures var created := Create(st, sid, c, token, o);
      Answer(Wire(created, sid), c, Spawned(sid, token)).closures == st.closures &&
      Answer(created, c, Refused(SpawnFailed)).closures == st.closures &&
      Answer(Close(created, sid, SpawnError), c, Refused(SpawnFailed)).closures ==
      st.closures + [Closure(sid, SpawnError)]
  {}

  lemma CloseRequestJustified(st: State, e: Event, c: ClientId, sid: SessionId, correlated: bool)
    requires e == CloseRequest(c, sid, correlated)
    ensures ClosuresJustified(st, e, CloseStep(st, c, sid, correlated))
  {
    hide Deliver, Broadcast;
    if sid !in st.sessions {
      AnswerCloses(st, c, Refused(SessionNotFound));
    } else if st.sessions[sid].owner != c {
      AnswerCloses(st, c, Refused(NotOwner));
    } else {
      var m := SessionClosed(sid, OwnerClosed);
      var told := if correlated then Answer(Broadcast(st, sid, m, {c}), c, m) else Broadcast(st, sid, m, {});
      BroadcastCloses(st, sid, m, {});
      BroadcastCloses(st, sid, m, {c});
      AnswerCloses(Broadcast(st, sid, m, {c}), c, m);
      assert Close(told, sid, OwnerClosed).closures == st.closures + [Closure(sid, OwnerClosed)];
    }
  }

  lemma ShutdownJustified(st: State, e: Event, order: seq<SessionId>)
    requires e.Shutdown?
    ensures ClosuresJustified(st, e, ShutdownStep(st, order))
  {
    CloseAllJustified(st.(timers := map[]), e, order);
    assert ShutdownStep(st, order).closures == CloseAll(st.(timers := map[]), order).closures;
  }

  lemma MemberStepCloses(st: State, e: Event)
    requires e.Join? || e.Leave? || e.PtyOutput?
    requires Enabled(st, e)
    ensures Step(st, e).closures == st.closures
  {
    hide DetachSessions, DetachClients, DetachTimers, Slow, Track;
  }

  lemma OtherStepCloses(st: State, e: Event)
    requires Enabled(st, e)
    requires !e.Spawn? && !e.CloseRequest? && !e.PtyExit? && !e.OrphanTimer? && !e.IdleSweep? && !e.Shutdown?
    requires !e.Join? && !e.Leave? && !e.PtyOutput?
    ensures Step(st, e).closures == st.closures
  {
    hide DetachSessions, DetachClients, DetachTimers, Slow, Track;
  }

  lemma SingleCloseJustified(st: State, e: Event)
    requires Enabled(st, e) && (e.PtyExit? || e.OrphanTimer?)
    ensures ClosuresJustified(st, e, Step(st, e))
  {
    hide Farewell;
    if e.PtyExit? {
      FarewellCloses(st, e.sid, e.code, ProcessExit);
    }
  }

  /** Every close has its cause: the owner's request, the due timer, the exit, real idleness. */
  lemma StepJustified(st: State, e: Event)
    requires Enabled(st, e)
    ensures ClosuresJustified(st, e, Step(st, e))
  {
    if e.PtyExit? || e.OrphanTimer? {
      SingleCloseJustified(st, e);
    } else if e.IdleSweep? {
      SweepJustified(st, e, e.order);
    } else if e.Shutdown? {
      ShutdownJustified(st, e, e.order);
    } else if e.Spawn? {
      SpawnJustified(st, e);
    } else if e.CloseRequest? {
      CloseRequestJustified(st, e, e.client, e.sid, e.correlated);
    } else if e.Join? || e.Leave? || e.PtyOutput? {
      MemberStepCloses(st, e);
    } else {
      OtherStepCloses(st, e);
    }
  }

  /** Every `sessionClosed` event of a run was emitted by an event that justified it when it happened. */
  lemma {:induction false} EveryClosureHasCause(cfg: Config, states: seq<State>, events: seq<Event>, i: nat, k: nat)
    requires IsRun(cfg, states, events) && i < |states| && k < |states[i].closures|
    ensures exists j :: 0 <= j < i && |states[j].closures| <= k < |states[j + 1].closures| &&
                        Justified(states[j], events[j], states[i].closures[k])
  {
    hide Step, Enabled, Justified;
    if i > 0 {
      StepJustified(states[i - 1], events[i - 1]);
      if k < |states[i - 1].closures| {
        EveryClosureHasCause(cfg, states, events, i - 1, k);
      }
    }
  }
}
