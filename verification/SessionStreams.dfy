/**
 * Every healthy member of a session whose listeners are attached has a stream:
 * it was sent the spawned or the joined message that its stream starts with.
 */
module SessionStreams {
  import opened Common
  import opened SessionModel
  import opened SessionInvariant
  import opened SessionTrace
  import opened SessionSteps
  import opened SessionRuns
  import opened SessionEffects

  ghost predicate Listening(st: State, sid: SessionId, c: ClientId) {
    Healthy(st, c) && Member(st, sid, c) && Wired(st, sid)
  }

  ghost predicate HasStream(sent: seq<Message>, sid: SessionId) {
    StreamOf(sent, sid).From?
  }

  ghost predicate AllStarted(st: State) {
    forall c, sid :: Listening(st, sid, c) ==> HasStream(st.sockets[c].sent, sid)
  }

  /** Whoever listens afterwards listened before, and has only been sent more. */
  ghost predicate Continued(st: State, after: State) {
    forall c, sid :: Listening(after, sid, c) ==> Listening(st, sid, c) && st.sockets[c].sent <= after.sockets[c].sent
  }

  lemma {:induction false} StreamStays(sent: seq<Message>, longer: seq<Message>, sid: SessionId)
    requires HasStream(sent, sid) && sent <= longer
    ensures HasStream(longer, sid)
    decreases |longer|
  {
    if sent == longer {
    } else {
      StreamStays(sent, longer[..|longer| - 1], sid);
    }
  }

  lemma ContinuedStarted(st: State, after: State)
    requires AllStarted(st) && Continued(st, after)
    ensures AllStarted(after)
  {
    forall c, sid | Listening(after, sid, c)
      ensures HasStream(after.sockets[c].sent, sid)
    {
      StreamStays(st.sockets[c].sent, after.sockets[c].sent, sid);
    }
  }

  lemma ContinuedTransitive(a: State, b: State, c: State)
    requires Continued(a, b) && Continued(b, c)
    ensures Continued(a, c)
  {
    hide Listening;
  }

  lemma DetachContinued(st: State, gone: set<ClientId>, sids: set<SessionId>)
    ensures Continued(st, Detach(st, gone, sids))
  {
    var after := Detach(st, gone, sids);
    forall c, sid | Listening(after, sid, c)
      ensures Listening(st, sid, c) && st.sockets[c].sent <= after.sockets[c].sent
    {
      assert after.sessions[sid] == DetachSession(st, sid, gone, sids);
    }
  }

  lemma DeliverContinued(st: State, m: Message, targets: set<ClientId>)
    ensures Continued(st, Deliver(st, m, targets))
  {
    var after := Deliver(st, m, targets);
    var slow := Slow(st, m, targets);
    forall c, sid | Listening(after, sid, c)
      ensures Listening(st, sid, c) && st.sockets[c].sent <= after.sockets[c].sent
    {
      assert after.sockets[c] == SocketAfter(st, m, targets, c);
      assert after.sessions[sid] == DetachSession(st, sid, slow, st.sessions.Keys);
    }
  }

  lemma AnswerContinued(st: State, c: ClientId, m: Message)
    ensures Continued(st, Answer(st, c, m))
  {
    DeliverContinued(st, m, {c});
  }

  lemma BroadcastContinued(st: State, sid: SessionId, m: Message, except: set<ClientId>)
    ensures Continued(st, Broadcast(st, sid, m, except))
  {
    if sid in st.sessions {
      DeliverContinued(st, m, st.sessions[sid].clients - except);
    }
  }

  lemma CloseContinued(st: State, sid: SessionId, reason: Reason)
    ensures Continued(st, Close(st, sid, reason))
  {}

  lemma FarewellContinued(st: State, sid: SessionId, code: int, reason: Reason)
    ensures Continued(st, Farewell(st, sid, code, reason))
  {
    var exited := Broadcast(st, sid, Exit(sid, code), {});
    var told := Broadcast(exited, sid, SessionClosed(sid, reason), {});
    BroadcastContinued(st, sid, Exit(sid, code), {});
    BroadcastContinued(exited, sid, SessionClosed(sid, reason), {});
    CloseContinued(told, sid, reason);
    hide Broadcast, Close, Continued;
    ContinuedTransitive(st, exited, told);
    ContinuedTransitive(st, told, Close(told, sid, reason));
  }

  lemma {:induction false} SweepContinued(st: State, order: seq<SessionId>)
    ensures Continued(st, Sweep(st, order))
  {
    if order != [] {
      var before := Sweep(st, order[..|order| - 1]);
      var sid := order[|order| - 1];
      hide Farewell, Continued;
      SweepContinued(st, order[..|order| - 1]);
      FarewellContinued(before, sid, -1, IdleTimeout);
      ContinuedTransitive(st, before, Farewell(before, sid, -1, IdleTimeout));
    }
  }

  lemma {:induction false} CloseAllContinued(st: State, order: seq<SessionId>)
    ensures Continued(st, CloseAll(st, order))
  {
    if order != [] {
      var before := CloseAll(st, order[..|order| - 1]);
      hide Close, Continued;
      CloseAllContinued(st, order[..|order| - 1]);
      CloseContinued(before, order[|order| - 1], Cleanup);
      ContinuedTransitive(st, before, Close(before, order[|order| - 1], Cleanup));
    }
  }

  // ---------------------------------------------------------- where streams begin

  /** A listener is old, or has just been sent the message its stream begins with. */
  ghost predicate Begun(st: State, after: State) {
    forall c, sid :: Listening(after, sid, c) ==>
      HasStream(after.sockets[c].sent, sid) ||
      (Listening(st, sid, c) && st.sockets[c].sent <= after.sockets[c].sent)
  }

  lemma BegunStarted(st: State, after: State)
    requires AllStarted(st) && Begun(st, after)
    ensures AllStarted(after)
  {
    forall c, sid | Listening(after, sid, c)
      ensures HasStream(after.sockets[c].sent, sid)
    {
      if !HasStream(after.sockets[c].sent, sid) {
        StreamStays(st.sockets[c].sent, after.sockets[c].sent, sid);
      }
    }
  }

  lemma BegunContinued(a: State, b: State, c: State)
    requires Begun(a, b) && Continued(b, c)
    ensures Begun(a, c)
  {
    forall d, sid | Listening(c, sid, d)
      ensures HasStream(c.sockets[d].sent, sid) ||
              (Listening(a, sid, d) && a.sockets[d].sent <= c.sockets[d].sent)
    {
      if HasStream(b.sockets[d].sent, sid) {
        StreamStays(b.sockets[d].sent, c.sockets[d].sent, sid);
      }
    }
  }

  /** `m` begins the stream of `sid`. */
  ghost predicate Begins(m: Message, sid: SessionId) {
    (m.Spawned? && m.sid == sid) || (m.Joined? && m.sid == sid)
  }

  /** Answering `c` begins its stream, when all that changed before is that `c` became a listener. */
  lemma AnswerBegins(st: State, mid: State, c: ClientId, sid: SessionId, m: Message)
    requires c in mid.sockets && Begins(m, sid) && mid.sockets == st.sockets
    requires forall d, other :: Listening(mid, other, d) ==> Listening(st, other, d) || (d == c && other == sid)
    ensures Begun(st, Answer(mid, c, m))
  {
    var after := Answer(mid, c, m);
    DeliverContinued(mid, m, {c});
    forall d, other | Listening(after, other, d)
      ensures HasStream(after.sockets[d].sent, other) ||
              (Listening(st, other, d) && st.sockets[d].sent <= after.sockets[d].sent)
    {
      if d == c && other == sid {
        AnswerReaches(mid, c, m);
        assert after.sockets[c].sent[..|mid.sockets[c].sent|] == mid.sockets[c].sent;
      }
    }
  }

  lemma SpawnBegins(st: State, e: Event)
    requires Enabled(st, e) && e.Spawn?
    ensures Begun(st, Step(st, e))
  {
    var Spawn(c, sid, token, o, policy, ptyFails, listenFails) := e;
    var options := EffectiveOptions(o);
    var created := Create(st, sid, c, token, options);
    if policy.ModeDisabled? {
      AnswerContinued(st, c, Refused(NotAllowed));
    } else if AtClientLimit(st, c) {
      AnswerContinued(st, c, Refused(ClientLimit));
    } else if |st.sessions| >= st.cfg.maxSessionsTotal {
      AnswerContinued(st, c, Refused(ServerFull));
    } else if policy.TargetRefused? {
      AnswerContinued(st, c, Refused(NotAllowed));
    } else if ptyFails || sid in st.sessions {
      AnswerContinued(st, c, Refused(SpawnFailed));
    } else if !listenFails {
      CreatedListener(st, sid, c, token, options);
      hide Create, Wire;
      AnswerBegins(st, Wire(created, sid), c, sid, Spawned(sid, token));
    } else {
      CreatedUnwired(st, sid, c, token, options);
      CloseContinued(created, sid, SpawnError);
      ContinuedTransitive(st, created, Close(created, sid, SpawnError));
      var left := if !o.target.Local? then created else Close(created, sid, SpawnError);
      AnswerContinued(left, c, Refused(SpawnFailed));
      ContinuedTransitive(st, left, Answer(left, c, Refused(SpawnFailed)));
      hide Create, Close, Deliver;
    }
    hide Deliver, Create, Wire;
  }

  lemma CreatedUnwired(st: State, sid: SessionId, c: ClientId, token: Token, o: SpawnOptions)
    ensures Continued(st, Create(st, sid, c, token, o))
  {}

  lemma CreatedListener(st: State, sid: SessionId, c: ClientId, token: Token, o: SpawnOptions)
    requires c in st.sockets
    ensures var mid := Wire(Create(st, sid, c, token, o), sid);
            mid.sockets == st.sockets &&
            forall d, other :: Listening(mid, other, d) ==> Listening(st, other, d) || (d == c && other == sid)
  {}

  lemma AddedListener(st: State, sid: SessionId, c: ClientId, token: Option<Token>)
    requires sid in st.sessions
    ensures var mid := Add(st, sid, c, token);
            mid.sockets == st.sockets &&
            forall d, other :: Listening(mid, other, d) ==> Listening(st, other, d) || (d == c && other == sid)
  {}

  lemma ContinuedBegun(st: State, after: State)
    requires Continued(st, after)
    ensures Begun(st, after)
  {
    hide Listening, HasStream;
  }

  lemma WelcomeBegins(st: State, sid: SessionId, c: ClientId, token: Option<Token>, m: Message)
    requires sid in st.sessions && c in st.sockets && Begins(m, sid)
    ensures var answered := Answer(Add(st, sid, c, token), c, m);
            Begun(st, Broadcast(answered, sid, ClientJoined(sid, ClientCount(answered, sid)), {c}))
  {
    var added := Add(st, sid, c, token);
    AddedListener(st, sid, c, token);
    hide Add, Begun, Continued, Listening, Broadcast, Answer;
    var answered := Answer(added, c, m);
    var note := ClientJoined(sid, ClientCount(answered, sid));
    AnswerBegins(st, added, c, sid, m);
    BroadcastContinued(answered, sid, note, {c});
    BegunContinued(st, answered, Broadcast(answered, sid, note, {c}));
  }

  /** A join that is not admitted is answered with a refusal and changes nothing else. */
  lemma JoinRefused(st: State, c: ClientId, sid: SessionId, token: Option<Token>, requested: bool, limit: Option<nat>)
    returns (why: Refusal)
    requires !Admits(st, sid, token) || (!Member(st, sid, c) && AtClientLimit(st, c))
    ensures JoinStep(st, c, sid, token, requested, limit) == Answer(st, c, Refused(why))
  {
    hide Answer, Broadcast, Add, Welcome;
    if sid !in st.sessions {
      why := SessionNotFound;
    } else if !st.sessions[sid].accepting && !Resumes(st.sessions[sid], token) {
      why := NotAccepting;
    } else if c !in st.sessions[sid].clients && AtClientLimit(st, c) {
      why := ClientLimit;
    } else {
      why := JoinFailed;
    }
  }

  lemma JoinBegins(st: State, e: Event)
    requires Enabled(st, e) && e.Join?
    ensures Begun(st, Step(st, e))
  {
    var Join(c, sid, token, requested, limit) := e;
    hide Begun, Continued, Answer, Broadcast, Add;
    if !Admits(st, sid, token) || (!Member(st, sid, c) && AtClientLimit(st, c)) {
      var why := JoinRefused(st, c, sid, token, requested, limit);
      hide JoinStep;
      AnswerContinued(st, c, Refused(why));
      ContinuedBegun(st, Step(st, e));
    } else {
      WelcomeBegins(st, sid, c, token, Welcome(st, sid, token, requested, limit));
    }
  }

  // ------------------------------------------------------------------- all the steps

  lemma LeaveContinued(st: State, c: ClientId, sid: SessionId)
    ensures Continued(st, LeaveStep(st, c, sid))
  {
    AnswerContinued(st, c, Refused(SessionNotFound));
    AnswerContinued(st, c, Refused(NotMember));
    var left := Detach(st, {c}, {sid});
    var answered := Answer(left, c, Left(sid));
    var note := ClientLeft(sid, ClientCount(answered, sid));
    DetachContinued(st, {c}, {sid});
    AnswerContinued(left, c, Left(sid));
    BroadcastContinued(answered, sid, note, {});
    hide Detach, Answer, Broadcast, Continued;
    ContinuedTransitive(st, left, answered);
    ContinuedTransitive(st, answered, Broadcast(answered, sid, note, {}));
  }

  lemma CloseRequestContinued(st: State, c: ClientId, sid: SessionId, correlated: bool)
    ensures Continued(st, CloseStep(st, c, sid, correlated))
  {
    var m := SessionClosed(sid, OwnerClosed);
    AnswerContinued(st, c, Refused(SessionNotFound));
    AnswerContinued(st, c, Refused(NotOwner));
    var told := if correlated then Broadcast(st, sid, m, {c}) else Broadcast(st, sid, m, {});
    var answered := if correlated then Answer(told, c, m) else told;
    BroadcastContinued(st, sid, m, {c});
    BroadcastContinued(st, sid, m, {});
    AnswerContinued(told, c, m);
    CloseContinued(answered, sid, OwnerClosed);
    hide Answer, Broadcast, Close, Continued;
    if correlated {
      ContinuedTransitive(st, told, answered);
    }
    ContinuedTransitive(st, answered, Close(answered, sid, OwnerClosed));
  }

  lemma OutputContinued(st: State, sid: SessionId, data: string)
    ensures Continued(st, OutputStep(st, sid, data))
  {
    if Wired(st, sid) {
      var recorded := Record(st, sid, data);
      assert Continued(st, recorded);
      BroadcastContinued(recorded, sid, Data(sid, data), {});
      hide Record, Broadcast, Continued;
      ContinuedTransitive(st, recorded, Broadcast(recorded, sid, Data(sid, data), {}));
    }
  }

  lemma DisconnectContinued(st: State, c: ClientId)
    requires c in st.sockets
    ensures Continued(st, DisconnectStep(st, c))
  {
    var shut := st.(sockets := st.sockets[c := st.sockets[c].(open := false)]);
    assert Continued(st, shut);
    DetachContinued(shut, {c}, shut.sessions.Keys);
    hide Detach, Continued;
    ContinuedTransitive(st, shut, Detach(shut, {c}, shut.sessions.Keys));
  }

  lemma ShutdownContinued(st: State, order: seq<SessionId>)
    ensures Continued(st, ShutdownStep(st, order))
  {
    var cleared := st.(timers := map[]);
    var closed := CloseAll(cleared, order);
    CloseAllContinued(cleared, order);
    assert Continued(st, cleared);
    hide CloseAll;
    assert Continued(closed, ShutdownStep(st, order));
    hide Continued;
    ContinuedTransitive(st, cleared, closed);
    ContinuedTransitive(st, closed, ShutdownStep(st, order));
  }

  lemma EnvironmentContinued(st: State, e: Event)
    requires Invariant(st) && Enabled(st, e)
    requires e.Tick? || e.Connected? || e.Drained? || e.Broken? || e.Closing?
    ensures Continued(st, Step(st, e))
  {
    var after := Step(st, e);
    forall c, sid | Listening(after, sid, c)
      ensures Listening(st, sid, c) && st.sockets[c].sent <= after.sockets[c].sent
    {
      assert SessionOk(st, sid);
    }
  }

  lemma WriteContinued(st: State, c: ClientId, sid: SessionId)
    ensures Continued(st, WriteStep(st, c, sid))
  {
    AnswerContinued(st, c, Refused(SessionNotFound));
    AnswerContinued(st, c, Refused(NotMember));
    hide Answer;
  }

  lemma RequestContinued(st: State, e: Event)
    requires Enabled(st, e) && (e.Leave? || e.CloseRequest? || e.List? || e.Write? || e.Reply?)
    ensures Continued(st, Step(st, e))
  {
    hide Continued, LeaveStep, CloseStep, WriteStep, Answer;
    match e
    case Leave(c, sid) => LeaveContinued(st, c, sid);
    case CloseRequest(c, sid, correlated) => CloseRequestContinued(st, c, sid, correlated);
    case List(c, _) =>
      AnswerContinued(st, c, Listing(set sid | sid in st.sessions && Visible(st.sessions[sid], c, e.filter)));
    case Write(c, sid) => WriteContinued(st, c, sid);
    case Reply(c, text) => AnswerContinued(st, c, Plain(text));
  }

  lemma NoticeContinued(st: State, e: Event)
    requires Enabled(st, e)
    requires e.PtyOutput? || e.PtyExit? || e.OrphanTimer? || e.IdleSweep? || e.Disconnected? || e.Shutdown?
    ensures Continued(st, Step(st, e))
  {
    match e
    case PtyOutput(sid, data) => OutputContinued(st, sid, data);
    case PtyExit(sid, code) => FarewellContinued(st, sid, code, ProcessExit);
    case OrphanTimer(sid) => CloseContinued(st, sid, OrphanTimeout);
    case IdleSweep(order) => SweepContinued(st, order);
    case Disconnected(c) => DisconnectContinued(st, c);
    case Shutdown(order) => ShutdownContinued(st, order);
  }

  lemma StepStarted(st: State, e: Event)
    requires Invariant(st) && Enabled(st, e) && AllStarted(st)
    ensures AllStarted(Step(st, e))
  {
    var after := Step(st, e);
    hide Invariant, Enabled, Step, AllStarted, Continued, Begun;
    if e.Spawn? {
      SpawnBegins(st, e);
      BegunStarted(st, after);
    } else if e.Join? {
      JoinBegins(st, e);
      BegunStarted(st, after);
    } else {
      if e.Leave? || e.CloseRequest? || e.List? || e.Write? || e.Reply? {
        RequestContinued(st, e);
      } else if e.Tick? || e.Connected? || e.Drained? || e.Broken? || e.Closing? {
        EnvironmentContinued(st, e);
      } else {
        NoticeContinued(st, e);
      }
      ContinuedStarted(st, after);
    }
  }

  lemma InitiallyStarted(cfg: Config)
    ensures AllStarted(Initial(cfg))
  {}

  lemma {:induction false} StartedHolds(cfg: Config, states: seq<State>, events: seq<Event>, i: nat)
    requires IsRun(cfg, states, events) && i < |states|
    ensures AllStarted(states[i])
  {
    hide Step, Enabled, Invariant, Initial, AllStarted;
    if i == 0 {
      InitiallyStarted(cfg);
    } else {
      StartedHolds(cfg, states, events, i - 1);
      InvariantHolds(cfg, states, events, i - 1);
      StepStarted(states[i - 1], events[i - 1]);
    }
  }

  /**
   * In every reachable state a healthy member of a wired session has a stream, and it is a
   * suffix of all the PTY has printed; for the spawner it is everything.
   */
  lemma EveryListenerHasItsStream(cfg: Config, states: seq<State>, events: seq<Event>, i: nat,
                                  sid: SessionId, c: ClientId)
    requires IsRun(cfg, states, events) && i < |states| && Listening(states[i], sid, c)
    ensures sid in states[i].ptys
    ensures var stream := StreamOf(states[i].sockets[c].sent, sid); var output := states[i].ptys[sid].output;
            stream.From? && IsSuffix(stream.text, output) && (stream.whole ==> stream.text == output)
  {
    StartedHolds(cfg, states, events, i);
    GaplessReplay(cfg, states, events, i, sid, c);
    assert HasStream(states[i].sockets[c].sent, sid);
    hide IsRun, StreamOf, IsSuffix;
  }
}
