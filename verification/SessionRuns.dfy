/** What holds in every state that any sequence of events can lead the server to. */
module SessionRuns {
  import opened Common
  import opened SessionModel
  import opened SessionInvariant
  import opened SessionTrace
  import opened SessionSteps

  ghost predicate IsRun(cfg: Config, states: seq<State>, events: seq<Event>) {
    ValidConfig(cfg) && |states| == |events| + 1 && states[0] == Initial(cfg) &&
    forall i :: 0 <= i < |events| ==> Enabled(states[i], events[i]) && states[i + 1] == Step(states[i], events[i])
  }

  lemma InitialHolds(cfg: Config)
    requires ValidConfig(cfg)
    ensures Invariant(Initial(cfg))
  {}

  /** The registry and trace invariants hold throughout every run. */
  lemma {:induction false} InvariantHolds(cfg: Config, states: seq<State>, events: seq<Event>, i: nat)
    requires IsRun(cfg, states, events) && i < |states|
    ensures Invariant(states[i])
  {
    hide Step, Enabled, Invariant, Initial;
    if i == 0 {
      InitialHolds(cfg);
    } else {
      InvariantHolds(cfg, states, events, i - 1);
      StepKeeps(states[i - 1], events[i - 1]);
    }
  }

  // ------------------------------------------------------------- gapless replay

  /**
   * A healthy member's stream since it spawned or last joined is a suffix of
   * everything the PTY printed; for the spawner it is everything.
   */
  lemma GaplessReplay(cfg: Config, states: seq<State>, events: seq<Event>, i: nat, sid: SessionId, c: ClientId)
    requires IsRun(cfg, states, events) && i < |states|
    requires Member(states[i], sid, c) && Healthy(states[i], c)
    ensures sid in states[i].ptys
    ensures var stream := StreamOf(states[i].sockets[c].sent, sid); var output := states[i].ptys[sid].output;
      stream.From? ==> IsSuffix(stream.text, output) && (stream.whole ==> stream.text == output)
  {
    InvariantHolds(cfg, states, events, i);
    assert FaithfulTo(states[i], c, states[i].sockets[c].sent);
  }

  lemma AnswerReaches(st: State, c: ClientId, m: Message)
    requires Healthy(Answer(st, c, m), c)
    ensures Answer(st, c, m).sockets[c].sent == st.sockets[c].sent + [m]
  {}

  lemma BroadcastSpares(st: State, sid: SessionId, m: Message, c: ClientId)
    requires c in st.sockets
    ensures c in Broadcast(st, sid, m, {c}).sockets && Broadcast(st, sid, m, {c}).sockets[c] == st.sockets[c]
  {}

  lemma JoinIsWelcomed(st: State, c: ClientId, sid: SessionId, token: Option<Token>, requested: bool, limit: Option<nat>)
    requires c in st.sockets && Admits(st, sid, token) && (Member(st, sid, c) || !AtClientLimit(st, c))
    ensures var after := JoinStep(st, c, sid, token, requested, limit);
      c in after.sockets &&
      (Healthy(after, c) ==>
        after.sockets[c].sent == st.sockets[c].sent + [Welcome(st, sid, token, requested, limit)])
  {
    var m := Welcome(st, sid, token, requested, limit);
    var answered := Answer(Add(st, sid, c, token), c, m);
    BroadcastSpares(answered, sid, ClientJoined(sid, ClientCount(answered, sid)), c);
    if Healthy(answered, c) {
      AnswerReaches(Add(st, sid, c, token), c, m);
    }
  }

  /** The newest output within the capacity, and within the limit if one is given. */
  ghost function Replayed(st: State, sid: SessionId, limit: Option<nat>): string
    requires sid in st.ptys
  {
    LastN(st.ptys[sid].output, if limit.Some? then Min(limit.value, st.cfg.historySize) else st.cfg.historySize)
  }

  /** The replayed history is the newest output within both the limit and the capacity. */
  lemma JoinReplaysHistory(st: State, c: ClientId, sid: SessionId, token: Option<Token>, limit: Option<nat>)
    requires Invariant(st) && c in st.sockets && Admits(st, sid, token)
    requires Member(st, sid, c) || !AtClientLimit(st, c)
    requires st.sessions[sid].historyEnabled
    ensures sid in st.ptys
    ensures var after := JoinStep(st, c, sid, token, true, limit);
      c in after.sockets &&
      (Healthy(after, c) ==>
        after.sockets[c].sent ==
        st.sockets[c].sent +
        [Joined(sid, Some(Replayed(st, sid, limit)), if Resumes(st.sessions[sid], token) then token else None)])
  {
    assert TraceOk(st, sid);
    if limit.Some? {
      LastNOfLastN(st.ptys[sid].output, st.cfg.historySize, limit.value);
    }
    JoinIsWelcomed(st, c, sid, token, true, limit);
    hide Invariant, JoinStep, Healthy;
  }

  // ------------------------------------------------------- broadcast exactness

  /**
   * What sending `m` does to one client: an open target whose queue can take the bytes has
   * it queued once, an open target whose queue cannot is closed and leaves every
   * session, and nothing happens to anybody else.
   */
  ghost predicate SentExactly(st: State, after: State, m: Message, targeted: bool, c: ClientId)
    requires c in st.sockets && c in after.sockets
  {
    var k, k' := st.sockets[c], after.sockets[c];
    var bytes := k.buffered + st.cfg.byteLength(m);
    if !targeted || !k.open then k' == k && SameMemberships(st, after, c)
    else if bytes > st.cfg.maxBufferedOutputBytes then
      k' == k.(open := false) && c !in after.clientSessions && forall sid :: !Member(after, sid, c)
    else k' == (if k.working then Socket(true, true, bytes, k.sent + [m]) else k) && SameMemberships(st, after, c)
  }

  ghost predicate SameMemberships(st: State, after: State, c: ClientId) {
    forall sid :: Member(after, sid, c) <==> Member(st, sid, c)
  }

  lemma DeliverIsExact(st: State, m: Message, targets: set<ClientId>, c: ClientId)
    requires Registry(st) && c in st.sockets
    ensures var after := Deliver(st, m, targets);
            c in after.sockets && SentExactly(st, after, m, c in targets, c)
  {
    hide Registry, DetachSessions, DetachClients, DetachTimers;
    var after := Deliver(st, m, targets);
    assert after.sockets[c] == SocketAfter(st, m, targets, c);
    DeliverMembers(st, m, targets);
    if c in Slow(st, m, targets) {
      assert Inverse(after);
      NoMemberNoEntry(after, c);
    }
  }

  lemma BroadcastIsExact(st: State, sid: SessionId, m: Message, except: set<ClientId>, c: ClientId)
    requires Registry(st) && sid in st.sessions && c in st.sockets
    ensures var after := Broadcast(st, sid, m, except);
            c in after.sockets && SentExactly(st, after, m, Member(st, sid, c) && c !in except, c)
  {
    DeliverIsExact(st, m, st.sessions[sid].clients - except, c);
    hide Registry, Deliver, SentExactly;
  }

  lemma AnswerIsExact(st: State, m: Message, client: ClientId, c: ClientId)
    requires Registry(st) && c in st.sockets
    ensures var after := Answer(st, client, m);
            c in after.sockets && SentExactly(st, after, m, c == client, c)
  {
    DeliverIsExact(st, m, {client}, c);
    hide Registry, Deliver, SentExactly;
  }

  lemma DeliverMembers(st: State, m: Message, targets: set<ClientId>)
    requires Registry(st)
    ensures Registry(Deliver(st, m, targets)) && Inverse(Deliver(st, m, targets))
    ensures forall c, other ::
      Member(Deliver(st, m, targets), other, c) <==> Member(st, other, c) && c !in Slow(st, m, targets)
  {
    hide Slow;
    var detached := Detach(st, Slow(st, m, targets), st.sessions.Keys);
    DetachMembers(st, Slow(st, m, targets), st.sessions.Keys);
    DeliverRegistry(st, m, targets);
    forall c, other
      ensures Member(Deliver(st, m, targets), other, c) <==> Member(st, other, c) && c !in Slow(st, m, targets)
    {
      assert Member(Deliver(st, m, targets), other, c) <==> Member(detached, other, c);
    }
  }

  lemma NoMemberNoEntry(st: State, c: ClientId)
    requires Inverse(st) && forall other :: !Member(st, other, c)
    ensures c !in st.clientSessions
  {
    if c in st.clientSessions {
      var other :| other in st.clientSessions[c];
      assert Tracked(st, c, other);
      assert false;
    }
  }

  /** A session that a broadcast empties is orphaned there and then, with its own timer. */
  lemma BroadcastOrphans(st: State, sid: SessionId, m: Message, except: set<ClientId>, other: SessionId)
    requires Registry(st) && sid in st.sessions && other in st.sessions
    ensures var after := Broadcast(st, sid, m, except);
      other in after.sessions &&
      (st.sessions[other].clients != {} && after.sessions[other].clients == {} ==>
        after.sessions[other].orphanedAt == Some(st.now) &&
        (!st.sessions[other].useTmux ==>
          other in after.timers && after.timers[other] == st.now + Timeout(st, st.sessions[other])))
  {
    var targets := st.sessions[sid].clients - except;
    var detached := Detach(st, Slow(st, m, targets), st.sessions.Keys);
    assert detached.sessions[other] == DetachSession(st, other, Slow(st, m, targets), st.sessions.Keys);
    DeliverRegistry(st, m, targets);
    assert TimerOk(Deliver(st, m, targets), other);
  }

  // ----------------------------------------------------------- PTY conservation

  /** Every PTY ever spawned is held by its live session, or was killed exactly once. */
  lemma PtyConservation(cfg: Config, states: seq<State>, events: seq<Event>, i: nat, sid: SessionId)
    requires IsRun(cfg, states, events) && i < |states|
    requires sid in states[i].ptys || sid in states[i].sessions
    ensures sid in states[i].ptys
    ensures states[i].ptys[sid].kills == if sid in states[i].sessions then 0 else 1
    ensures sid in states[i].sessions <==> !ClosedIn(states[i], sid)
    ensures forall j, k :: 0 <= j < k < |states[i].closures| ==> states[i].closures[j].sid != states[i].closures[k].sid
  {
    InvariantHolds(cfg, states, events, i);
  }

  /** No client's queue ever exceeds the configured bound. */
  lemma OutputBound(cfg: Config, states: seq<State>, events: seq<Event>, i: nat, c: ClientId)
    requires IsRun(cfg, states, events) && i < |states| && c in states[i].sockets
    ensures states[i].sockets[c].buffered <= states[i].cfg.maxBufferedOutputBytes
  {
    InvariantHolds(cfg, states, events, i);
  }
}
