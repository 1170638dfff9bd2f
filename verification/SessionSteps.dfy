/** Every handler keeps the whole invariant, and so does every run. */
module SessionSteps {
  import opened Common
  import opened SessionModel
  import opened SessionInvariant
  import opened SessionTrace

  ghost predicate Invariant(st: State) {
    Registry(st) && TraceInvariant(st)
  }

  // ----------------------------------------------------------- stream handlers

  lemma OutputKeeps(st: State, sid: SessionId, data: string)
    requires Invariant(st)
    ensures Invariant(OutputStep(st, sid, data))
  {
    hide Deliver, Record, Registry, TraceInvariant;
    if Wired(st, sid) {
      var recorded := Record(st, sid, data);
      RecordSame(st, sid, data);
      var members := recorded.sessions[sid].clients - {};
      assert members == st.sessions[sid].clients;
      OutputKeepsRegistry(st, recorded, Data(sid, data), members);
      OutputKeepsTrace(st, sid, data);
    }
  }

  lemma RecordSame(st: State, sid: SessionId, data: string)
    requires sid in st.sessions
    ensures SameRegistry(st, Record(st, sid, data))
    ensures Record(st, sid, data).sessions[sid].clients == st.sessions[sid].clients
  {}

  lemma OutputKeepsRegistry(st: State, recorded: State, m: Message, members: set<ClientId>)
    requires Registry(st) && SameRegistry(st, recorded)
    ensures Registry(Deliver(recorded, m, members))
  {
    SameKeepsRegistry(st, recorded);
    DeliverRegistry(recorded, m, members);
  }

  lemma OutputKeepsTrace(st: State, sid: SessionId, data: string)
    requires TraceInvariant(st) && sid in st.sessions
    ensures TraceInvariant(Deliver(Record(st, sid, data), Data(sid, data), st.sessions[sid].clients))
  {
    RecordTrace(st, sid, data);
    DataSendable(st, sid, data);
    DeliverTrace(Record(st, sid, data), Data(sid, data), st.sessions[sid].clients);
  }

  lemma RecordTrace(st: State, sid: SessionId, data: string)
    requires TraceInvariant(st) && sid in st.sessions
    ensures var recorded := Record(st, sid, data);
      Conserved(recorded) && Bounded(recorded) && TracesOk(recorded) && Discreet(recorded)
  {
    var recorded := Record(st, sid, data);
    assert TraceOk(st, sid);
    LastNAbsorbs(st.ptys[sid].output, data, st.cfg.historySize);
    forall other | other in recorded.sessions
      ensures TraceOk(recorded, other)
    {
      assert TraceOk(st, other);
    }
    forall other | ClosedIn(st, other)
      ensures ClosedIn(recorded, other)
    {}
    SamePtysDiscreet(st, recorded);
  }

  lemma DataFaithful(sent: seq<Message>, sid: SessionId, data: string, other: SessionId, output: string)
    requires Faithful(StreamOf(sent, other), output)
    ensures Faithful(StreamOf(sent + [Data(sid, data)], other), if other == sid then output + data else output)
  {}

  lemma DataSendable(st: State, sid: SessionId, data: string)
    requires TraceInvariant(st) && sid in st.sessions
    ensures var recorded := Record(st, sid, data);
      Sendable(recorded, Data(sid, data), st.sessions[sid].clients) &&
      GaplessExcept(recorded, st.sessions[sid].clients)
  {
    hide StreamOf, Faithful, Discreet, Bounded, Conserved;
    var recorded := Record(st, sid, data);
    assert TraceOk(st, sid);
    forall c | Healthy(recorded, c)
      ensures c in st.sessions[sid].clients ==> FaithfulTo(recorded, c, st.sockets[c].sent + [Data(sid, data)])
      ensures c !in st.sessions[sid].clients ==> FaithfulTo(recorded, c, st.sockets[c].sent)
    {
      var sent := st.sockets[c].sent;
      assert Healthy(st, c);
      forall other | Member(recorded, other, c)
        ensures Faithful(StreamOf(sent + [Data(sid, data)], other), recorded.ptys[other].output)
        ensures other != sid ==> Faithful(StreamOf(sent, other), recorded.ptys[other].output)
      {
        assert Member(st, other, c);
        DataFaithful(sent, sid, data, other, st.ptys[other].output);
      }
    }
  }

  lemma AddTracesOk(st: State, sid: SessionId, c: ClientId, token: Option<Token>)
    requires TracesOk(st) && Admits(st, sid, token)
    ensures TracesOk(Add(st, sid, c, token))
  {}

  lemma AddTrace(st: State, sid: SessionId, c: ClientId, token: Option<Token>)
    requires TraceInvariant(st) && Admits(st, sid, token)
    ensures var added := Add(st, sid, c, token);
      Conserved(added) && Bounded(added) && TracesOk(added) && Discreet(added) && GaplessExcept(added, {c})
  {
    hide Discreet, TracesOk, Gapless, GaplessExcept, Conserved;
    var added := Add(st, sid, c, token);
    AddTracesOk(st, sid, c, token);
    ClosuresKept(st, added);
    SamePtysDiscreet(st, added);
    GaplessShrinks(st, added, {c});
  }

  lemma ReplayIsSuffix(st: State, sid: SessionId, requested: bool, limit: Option<nat>)
    requires sid in st.sessions && TraceOk(st, sid)
    ensures var replay := HistoryFor(st, st.sessions[sid], requested, limit);
            IsSuffix(if replay.Some? then replay.value else "", st.ptys[sid].output)
  {}

  lemma WelcomeFaithful(st: State, sid: SessionId, token: Option<Token>, requested: bool, limit: Option<nat>,
                        sent: seq<Message>, other: SessionId, output: string)
    requires sid in st.sessions && TraceOk(st, sid)
    requires if other == sid then output == st.ptys[sid].output else Faithful(StreamOf(sent, other), output)
    ensures Faithful(StreamOf(sent + [Welcome(st, sid, token, requested, limit)], other), output)
  {
    var m := Welcome(st, sid, token, requested, limit);
    ReplayIsSuffix(st, sid, requested, limit);
    hide HistoryFor, LastN, IsSuffix, TraceOk;
    assert (sent + [m])[..|sent|] == sent;
  }

  lemma WelcomeMayGo(st: State, sid: SessionId, c: ClientId, token: Option<Token>, requested: bool, limit: Option<nat>)
    requires TracesOk(st) && Admits(st, sid, token)
    ensures MayReceive(Add(st, sid, c, token), c, Welcome(st, sid, token, requested, limit))
  {}

  lemma JoinedSendable(st: State, sid: SessionId, c: ClientId, token: Option<Token>, requested: bool, limit: Option<nat>)
    requires TracesOk(st) && Gapless(st) && Admits(st, sid, token)
    ensures Sendable(Add(st, sid, c, token), Welcome(st, sid, token, requested, limit), {c})
  {
    hide StreamOf, Faithful, Welcome, MayReceive;
    var added := Add(st, sid, c, token);
    var m := Welcome(st, sid, token, requested, limit);
    assert TraceOk(st, sid);
    WelcomeMayGo(st, sid, c, token, requested, limit);
    if Healthy(added, c) {
      var sent := st.sockets[c].sent;
      assert Healthy(st, c) && FaithfulTo(st, c, sent);
      forall other | Member(added, other, c)
        ensures other in added.ptys && Faithful(StreamOf(sent + [m], other), added.ptys[other].output)
      {
        assert other != sid ==> Member(st, other, c);
        WelcomeFaithful(st, sid, token, requested, limit, sent, other, added.ptys[other].output);
      }
    }
  }

  lemma JoinedKeeps(st: State, c: ClientId, sid: SessionId, token: Option<Token>, requested: bool, limit: Option<nat>)
    requires Invariant(st) && c in st.sockets && Admits(st, sid, token)
    requires Member(st, sid, c) || !AtClientLimit(st, c)
    ensures Invariant(Answer(Add(st, sid, c, token), c, Welcome(st, sid, token, requested, limit)))
  {
    var m := Welcome(st, sid, token, requested, limit);
    assert Registry(Answer(Add(st, sid, c, token), c, m)) by {
      AddRegistry(st, sid, c, token);
      DeliverRegistry(Add(st, sid, c, token), m, {c});
    }
    assert TraceInvariant(Answer(Add(st, sid, c, token), c, m)) by {
      AddTrace(st, sid, c, token);
      JoinedSendable(st, sid, c, token, requested, limit);
      DeliverTrace(Add(st, sid, c, token), m, {c});
    }
  }

  lemma JoinKeeps(st: State, c: ClientId, sid: SessionId, token: Option<Token>, requested: bool, limit: Option<nat>)
    requires Invariant(st) && c in st.sockets
    ensures Invariant(JoinStep(st, c, sid, token, requested, limit))
  {
    hide Deliver, Add, Registry, TraceInvariant;
    if sid !in st.sessions {
      AnswerKeeps(st, c, Refused(SessionNotFound));
    } else {
      var s := st.sessions[sid];
      if !s.accepting && !Resumes(s, token) {
        AnswerKeeps(st, c, Refused(NotAccepting));
      } else if c !in s.clients && AtClientLimit(st, c) {
        AnswerKeeps(st, c, Refused(ClientLimit));
      } else if !Admits(st, sid, token) {
        AnswerKeeps(st, c, Refused(JoinFailed));
      } else {
        var m := Welcome(st, sid, token, requested, limit);
        var answered := Answer(Add(st, sid, c, token), c, m);
        JoinedKeeps(st, c, sid, token, requested, limit);
        BroadcastKeeps(answered, sid, ClientJoined(sid, ClientCount(answered, sid)), {c});
      }
    }
  }

  // ------------------------------------------------------------ quiet handlers

  lemma AnswerKeeps(st: State, c: ClientId, m: Message)
    requires Invariant(st) && Quiet(m) && MayReceive(st, c, m)
    ensures Invariant(Answer(st, c, m))
  {
    DeliverRegistry(st, m, {c});
    QuietTrace(st, m, {c});
  }

  lemma BroadcastKeeps(st: State, sid: SessionId, m: Message, except: set<ClientId>)
    requires Invariant(st)
    requires m.Exit? || m.SessionClosed? || m.ClientJoined? || m.ClientLeft?
    requires m.sid == sid
    ensures Invariant(Broadcast(st, sid, m, except))
  {
    BroadcastTrace(st, sid, m, except);
    if sid in st.sessions {
      DeliverRegistry(st, m, st.sessions[sid].clients - except);
    }
  }

  lemma CloseKeeps(st: State, sid: SessionId, reason: Reason)
    requires Invariant(st)
    ensures Invariant(Close(st, sid, reason))
  {
    CloseRegistry(st, sid, reason);
    CloseTrace(st, sid, reason);
  }

  lemma DetachKeeps(st: State, gone: set<ClientId>, sids: set<SessionId>)
    requires Invariant(st)
    ensures Invariant(Detach(st, gone, sids))
  {
    DetachRegistry(st, gone, sids);
    DetachTrace(st, gone, sids);
  }

  lemma LeaveKeeps(st: State, c: ClientId, sid: SessionId)
    requires Invariant(st)
    ensures Invariant(LeaveStep(st, c, sid))
  {
    AnswerKeeps(st, c, Refused(SessionNotFound));
    AnswerKeeps(st, c, Refused(NotMember));
    if Member(st, sid, c) {
      var detached := Detach(st, {c}, {sid});
      DetachKeeps(st, {c}, {sid});
      assert TraceOk(st, sid) && MaySee(detached, sid, c);
      AnswerKeeps(detached, c, Left(sid));
      var answered := Answer(detached, c, Left(sid));
      BroadcastKeeps(answered, sid, ClientLeft(sid, ClientCount(answered, sid)), {});
    }
  }

  lemma CloseRequestKeeps(st: State, c: ClientId, sid: SessionId, correlated: bool)
    requires Invariant(st)
    ensures Invariant(CloseStep(st, c, sid, correlated))
  {
    AnswerKeeps(st, c, Refused(SessionNotFound));
    AnswerKeeps(st, c, Refused(NotOwner));
    if sid in st.sessions && st.sessions[sid].owner == c {
      var m := SessionClosed(sid, OwnerClosed);
      assert TraceOk(st, sid);
      BroadcastKeeps(st, sid, m, {});
      BroadcastKeeps(st, sid, m, {c});
      var told := Broadcast(st, sid, m, {c});
      AnswerKeeps(told, c, m);
      CloseKeeps(if correlated then Answer(told, c, m) else Broadcast(st, sid, m, {}), sid, OwnerClosed);
    }
  }

  lemma ListKeeps(st: State, c: ClientId, filter: Filter)
    requires Invariant(st)
    ensures Invariant(ListStep(st, c, filter))
  {
    var sids := set sid | sid in st.sessions && Visible(st.sessions[sid], c, filter);
    forall sid | sid in sids
      ensures MaySee(st, sid, c)
    {
      assert TraceOk(st, sid);
    }
    AnswerKeeps(st, c, Listing(sids));
  }

  lemma SameKeeps(st: State, after: State)
    requires Invariant(st) && SameRegistry(st, after) && SameTrace(st, after)
    ensures Invariant(after)
  {
    SameKeepsRegistry(st, after);
    forall sid, c | Member(st, sid, c)
      ensures c in st.sockets
    {
      assert SessionOk(st, sid);
    }
    SameKeepsTrace(st, after);
  }

  lemma FarewellKeeps(st: State, sid: SessionId, code: int, reason: Reason)
    requires Invariant(st)
    ensures Invariant(Farewell(st, sid, code, reason))
  {
    var exited := Broadcast(st, sid, Exit(sid, code), {});
    BroadcastKeeps(st, sid, Exit(sid, code), {});
    BroadcastKeeps(exited, sid, SessionClosed(sid, reason), {});
    CloseKeeps(Broadcast(exited, sid, SessionClosed(sid, reason), {}), sid, reason);
  }

  lemma {:induction false} SweepKeeps(st: State, order: seq<SessionId>)
    requires Invariant(st)
    ensures Invariant(Sweep(st, order))
  {
    if order != [] {
      SweepKeeps(st, order[..|order| - 1]);
      FarewellKeeps(Sweep(st, order[..|order| - 1]), order[|order| - 1], -1, IdleTimeout);
    }
  }

  // --------------------------------------------------------- spawn and shutdown

  lemma CreateKeeps(st: State, sid: SessionId, c: ClientId, token: Token, o: SpawnOptions)
    requires Invariant(st) && CanCreate(st, sid) && !AtClientLimit(st, c) && c in st.sockets && sid !in st.ptys
    ensures Invariant(Create(st, sid, c, token, o))
  {
    CreateRegistry(st, sid, c, token, o);
    CreateTrace(st, sid, c, token, o);
  }

  lemma SpawnKeeps(st: State, c: ClientId, sid: SessionId, token: Token, o: SpawnOptions,
                   policy: Policy, ptyFails: bool, listenFails: bool)
    requires Invariant(st) && c in st.sockets && sid !in st.ptys
    ensures Invariant(SpawnStep(st, c, sid, token, o, policy, ptyFails, listenFails))
  {
    hide Deliver, Create, Close, Wire, Registry, TraceInvariant;
    if policy.ModeDisabled? {
      AnswerKeeps(st, c, Refused(NotAllowed));
    } else if AtClientLimit(st, c) {
      AnswerKeeps(st, c, Refused(ClientLimit));
    } else if |st.sessions| >= st.cfg.maxSessionsTotal {
      AnswerKeeps(st, c, Refused(ServerFull));
    } else if policy.TargetRefused? {
      AnswerKeeps(st, c, Refused(NotAllowed));
    } else if ptyFails || sid in st.sessions {
      AnswerKeeps(st, c, Refused(SpawnFailed));
    } else {
      CreatedKeeps(st, c, sid, token, EffectiveOptions(o));
    }
  }

  /** Whatever becomes of a created session, the invariant holds. */
  lemma CreatedKeeps(st: State, c: ClientId, sid: SessionId, token: Token, o: SpawnOptions)
    requires Invariant(st) && CanCreate(st, sid) && !AtClientLimit(st, c) && c in st.sockets && sid !in st.ptys
    ensures var created := Create(st, sid, c, token, o);
      Invariant(Answer(Wire(created, sid), c, Spawned(sid, token))) &&
      Invariant(Answer(created, c, Refused(SpawnFailed))) &&
      Invariant(Answer(Close(created, sid, SpawnError), c, Refused(SpawnFailed)))
  {
    var created := Create(st, sid, c, token, o);
    CreateKeeps(st, sid, c, token, o);
    WireKeeps(created, sid, c, token);
    AnswerKeeps(created, c, Refused(SpawnFailed));
    CloseKeeps(created, sid, SpawnError);
    AnswerKeeps(Close(created, sid, SpawnError), c, Refused(SpawnFailed));
  }

  lemma SpawnedSendable(st: State, sid: SessionId, c: ClientId, token: Token)
    requires TraceInvariant(st) && sid in st.sessions
    requires st.ptys[sid].output == "" && c in st.ptys[sid].trusted
    ensures Sendable(st, Spawned(sid, token), {c})
  {}

  lemma DeliverKeeps(st: State, m: Message, targets: set<ClientId>)
    requires Invariant(st) && Sendable(st, m, targets)
    ensures Invariant(Deliver(st, m, targets))
  {
    DeliverRegistry(st, m, targets);
    DeliverTrace(st, m, targets);
  }

  lemma WireKeeps(st: State, sid: SessionId, c: ClientId, token: Token)
    requires Invariant(st) && sid in st.sessions
    requires st.ptys[sid].output == "" && c in st.ptys[sid].trusted
    ensures Invariant(Answer(Wire(st, sid), c, Spawned(sid, token)))
  {
    hide Deliver, Registry, TraceInvariant, Sendable;
    var wired := Wire(st, sid);
    SameKeeps(st, wired);
    SpawnedSendable(wired, sid, c, token);
    DeliverKeeps(wired, Spawned(sid, token), {c});
  }

  lemma {:induction false} CloseAllTrace(st: State, order: seq<SessionId>)
    requires TraceInvariant(st)
    ensures var after := CloseAll(st, order);
      TraceInvariant(after) &&
      after.sessions.Keys == st.sessions.Keys - (set sid | sid in order) &&
      after.timers.Keys <= st.timers.Keys &&
      after.sockets == st.sockets && after.cfg == st.cfg
  {
    hide TraceInvariant;
    if order != [] {
      var init, last := order[..|order| - 1], order[|order| - 1];
      assert order == init + [last];
      CloseAllTrace(st, init);
      CloseTrace(CloseAll(st, init), last, Cleanup);
    }
  }

  lemma ShutdownTrace(closed: State, st: State)
    requires TraceInvariant(closed) && closed.sessions == map[] && closed.sockets == st.sockets
    ensures TraceInvariant(closed.(clientSessions := map[],
                                   sockets := map c | c in st.sockets :: st.sockets[c].(open := false)))
  {
    SameKeepsTrace(closed, closed.(clientSessions := map[],
                                   sockets := map c | c in st.sockets :: st.sockets[c].(open := false)));
  }

  lemma TimersCleared(st: State)
    requires TraceInvariant(st)
    ensures TraceInvariant(st.(timers := map[]))
  {
    var after := st.(timers := map[]);
    DetachConserved(st, {}, {});
    forall sid | sid in after.sessions
      ensures TraceOk(after, sid)
    {
      assert TraceOk(st, sid);
    }
    forall sid | ClosedIn(st, sid)
      ensures ClosedIn(after, sid)
    {}
    SamePtysDiscreet(st, after);
    forall c | Healthy(after, c)
      ensures FaithfulTo(after, c, after.sockets[c].sent)
    {
      assert Healthy(st, c);
    }
  }

  lemma ShutdownEmpties(st: State, order: seq<SessionId>)
    requires TraceInvariant(st) && Enumerates(order, st.sessions.Keys)
    ensures var after := ShutdownStep(st, order);
      after.sessions == map[] && after.timers == map[] && after.clientSessions == map[] && after.cfg == st.cfg &&
      TraceInvariant(after)
  {
    var cleared := st.(timers := map[]);
    TimersCleared(st);
    CloseAllTrace(cleared, order);
    var closed := CloseAll(cleared, order);
    assert closed.sessions.Keys == {};
    assert closed.timers.Keys == {};
    ShutdownTrace(closed, st);
  }

  lemma ShutdownKeeps(st: State, order: seq<SessionId>)
    requires Invariant(st) && Enumerates(order, st.sessions.Keys)
    ensures Invariant(ShutdownStep(st, order))
  {
    ShutdownEmpties(st, order);
    EmptyRegistry(ShutdownStep(st, order));
  }

  lemma EmptyRegistry(st: State)
    requires ValidConfig(st.cfg) && st.sessions == map[] && st.timers == map[] && st.clientSessions == map[]
    ensures Registry(st)
  {}

  // ------------------------------------------------------------ steps and runs

  lemma StepKeeps(st: State, e: Event)
    requires Invariant(st) && Enabled(st, e)
    ensures Invariant(Step(st, e))
  {
    hide Registry, TraceInvariant, SpawnStep, JoinStep, LeaveStep, CloseStep, ListStep, WriteStep, OutputStep,
         ShutdownStep, Sweep, Farewell, Close, Deliver, Detach;
    match e
    case Spawn(c, sid, token, o, policy, ptyFails, listenFails) =>
      SpawnKeeps(st, c, sid, token, o, policy, ptyFails, listenFails);
    case Join(c, sid, token, requested, limit) => JoinKeeps(st, c, sid, token, requested, limit);
    case Leave(c, sid) => LeaveKeeps(st, c, sid);
    case CloseRequest(c, sid, correlated) => CloseRequestKeeps(st, c, sid, correlated);
    case List(c, filter) => ListKeeps(st, c, filter);
    case Write(c, sid) => WriteKeeps(st, c, sid);
    case Reply(c, text) => AnswerKeeps(st, c, Plain(text));
    case PtyOutput(sid, data) => OutputKeeps(st, sid, data);
    case PtyExit(sid, code) => FarewellKeeps(st, sid, code, ProcessExit);
    case OrphanTimer(sid) => CloseKeeps(st, sid, OrphanTimeout);
    case IdleSweep(order) => SweepKeeps(st, order);
    case Shutdown(order) => ShutdownKeeps(st, order);
    case Disconnected(c) => DisconnectKeeps(st, c);
    case _ => EnvironmentKeeps(st, e);
  }

  lemma WriteKeeps(st: State, c: ClientId, sid: SessionId)
    requires Invariant(st)
    ensures Invariant(WriteStep(st, c, sid))
  {
    hide Deliver, Registry, TraceInvariant;
    if sid !in st.sessions {
      AnswerKeeps(st, c, Refused(SessionNotFound));
    } else if c !in st.sessions[sid].clients {
      AnswerKeeps(st, c, Refused(NotMember));
    } else {
      SameKeeps(st, Touch(st, sid));
    }
  }

  lemma SocketSame(st: State, c: ClientId, k: Socket)
    requires if c in st.sockets
             then k.sent == st.sockets[c].sent && k.buffered <= st.sockets[c].buffered &&
                  (k.open && k.working ==> Healthy(st, c))
             else k.sent == [] && k.buffered == 0
    ensures var after := st.(sockets := st.sockets[c := k]); SameRegistry(st, after) && SameTrace(st, after)
  {}

  lemma DisconnectKeeps(st: State, c: ClientId)
    requires Invariant(st) && c in st.sockets
    ensures Invariant(Step(st, Disconnected(c)))
  {
    hide Registry, TraceInvariant;
    var k := st.sockets[c].(open := false);
    var shut := st.(sockets := st.sockets[c := k]);
    SocketSame(st, c, k);
    SameKeeps(st, shut);
    DetachKeeps(shut, {c}, shut.sessions.Keys);
    hide Detach, SameRegistry, SameTrace;
  }

  lemma EnvironmentSame(st: State, e: Event)
    requires Enabled(st, e)
    requires e.Tick? || e.Connected? || e.Drained? || e.Broken? || e.Closing?
    ensures SameRegistry(st, Step(st, e)) && SameTrace(st, Step(st, e))
  {
    match e
    case Tick(ms) =>
      forall sid | sid in st.sessions
        ensures SameMembership(st.sessions[sid], Step(st, e).sessions[sid])
      {}
    case Connected(c) => SocketSame(st, c, Socket(true, true, 0, []));
    case Drained(c, bytes) => SocketSame(st, c, Step(st, e).sockets[c]);
    case Broken(c) => SocketSame(st, c, st.sockets[c].(working := false));
    case Closing(c) => SocketSame(st, c, st.sockets[c].(open := false));
  }

  lemma EnvironmentKeeps(st: State, e: Event)
    requires Invariant(st) && Enabled(st, e)
    requires e.Tick? || e.Connected? || e.Drained? || e.Broken? || e.Closing?
    ensures Invariant(Step(st, e))
  {
    EnvironmentSame(st, e);
    SameKeeps(st, Step(st, e));
  }
}
