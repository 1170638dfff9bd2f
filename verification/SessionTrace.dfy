/**
 * What the multiplexer may send, keep and kill: the trace half of the
 * invariant, covering PTY conservation, bounded output, authority, discretion
 * and gapless replay.
 */
module SessionTrace {
  import opened Common
  import opened SessionModel
  import opened SessionInvariant

  // ------------------------------------------------------------- the invariant

  ghost predicate ClosedIn(st: State, sid: SessionId) {
    exists i :: 0 <= i < |st.closures| && st.closures[i].sid == sid
  }

  /** Every PTY is held by one live session, or was killed once and its session closed once. */
  ghost predicate Conserved(st: State) {
    (forall sid :: sid in st.sessions ==> sid in st.ptys && st.ptys[sid].kills == 0) &&
    (forall sid :: sid in st.ptys && sid !in st.sessions ==> st.ptys[sid].kills == 1 && ClosedIn(st, sid)) &&
    (forall i :: 0 <= i < |st.closures| ==> st.closures[i].sid in st.ptys && st.closures[i].sid !in st.sessions) &&
    (forall i, j :: 0 <= i < j < |st.closures| ==> st.closures[i].sid != st.closures[j].sid)
  }

  /** No socket ever queues more than the configured number of bytes. */
  ghost predicate Bounded(st: State) {
    forall c :: c in st.sockets ==> st.sockets[c].buffered <= st.cfg.maxBufferedOutputBytes
  }

  /** History is the newest output that fits; owners and private members are trusted. */
  ghost predicate TraceOk(st: State, sid: SessionId)
    requires sid in st.sessions
  {
    sid in st.ptys &&
    var s, p := st.sessions[sid], st.ptys[sid];
    s.accepting == p.accepting && s.resumeToken == p.resumeToken &&
    s.history == (if s.historyEnabled then LastN(p.output, st.cfg.historySize) else "") &&
    s.owner in p.trusted &&
    (!s.accepting ==> s.clients <= p.trusted)
  }

  ghost predicate TracesOk(st: State) {
    forall sid :: sid in st.sessions ==> TraceOk(st, sid)
  }

  ghost predicate Trusts(st: State, sid: SessionId, c: ClientId) {
    sid in st.ptys && c in st.ptys[sid].trusted
  }

  ghost predicate MaySee(st: State, sid: SessionId, c: ClientId) {
    sid in st.ptys && (st.ptys[sid].accepting || c in st.ptys[sid].trusted)
  }

  /** Who may receive what: session traffic, listings and resume tokens. */
  ghost predicate MayReceive(st: State, c: ClientId, m: Message) {
    match m
    case Plain(_) => true
    case Refused(_) => true
    case Spawned(sid, _) => Trusts(st, sid, c)
    case Joined(sid, _, resume) => MaySee(st, sid, c) && (resume.Some? ==> Trusts(st, sid, c))
    case Left(sid) => MaySee(st, sid, c)
    case Listing(sids) => forall sid :: sid in sids ==> MaySee(st, sid, c)
    case Data(sid, _) => MaySee(st, sid, c)
    case Exit(sid, _) => MaySee(st, sid, c)
    case SessionClosed(sid, _) => MaySee(st, sid, c)
    case ClientJoined(sid, _) => MaySee(st, sid, c)
    case ClientLeft(sid, _) => MaySee(st, sid, c)
  }

  ghost predicate AllMayReceive(st: State, c: ClientId, sent: seq<Message>) {
    forall i :: 0 <= i < |sent| ==> MayReceive(st, c, sent[i])
  }

  ghost predicate Discreet(st: State) {
    forall c :: c in st.sockets ==> AllMayReceive(st, c, st.sockets[c].sent)
  }

  /** The terminal stream a client reconstructs; `whole` when it starts with the spawn. */
  datatype Stream = Nothing | From(whole: bool, text: string)

  ghost function StreamOf(sent: seq<Message>, sid: SessionId): Stream {
    if sent == [] then Nothing
    else
      var before := StreamOf(sent[..|sent| - 1], sid);
      match sent[|sent| - 1]
      case Spawned(s, _) => if s == sid then From(true, "") else before
      case Joined(s, history, _) =>
        if s == sid then From(false, if history.Some? then history.value else "") else before
      case Data(s, data) => if s == sid && before.From? then before.(text := before.text + data) else before
      case _ => before
  }

  ghost predicate Faithful(stream: Stream, output: string) {
    stream.From? ==> IsSuffix(stream.text, output) && (stream.whole ==> stream.text == output)
  }

  ghost predicate FaithfulTo(st: State, c: ClientId, sent: seq<Message>) {
    forall sid :: Member(st, sid, c) ==> sid in st.ptys && Faithful(StreamOf(sent, sid), st.ptys[sid].output)
  }

  ghost predicate Healthy(st: State, c: ClientId) {
    c in st.sockets && st.sockets[c].open && st.sockets[c].working
  }

  /** What every healthy member received since joining is a suffix of the PTY output. */
  ghost predicate Gapless(st: State) {
    forall c :: Healthy(st, c) ==> FaithfulTo(st, c, st.sockets[c].sent)
  }

  ghost predicate TraceInvariant(st: State) {
    Conserved(st) && Bounded(st) && TracesOk(st) && Discreet(st) && Gapless(st)
  }

  // ------------------------------------------------------ sending and detaching

  /** `m` may go to the targets and keeps their reconstructed streams faithful. */
  ghost predicate Sendable(st: State, m: Message, targets: set<ClientId>) {
    forall c :: c in targets && c in st.sockets ==>
      MayReceive(st, c, m) && (Healthy(st, c) ==> FaithfulTo(st, c, st.sockets[c].sent + [m]))
  }

  ghost predicate GaplessExcept(st: State, targets: set<ClientId>) {
    forall c :: Healthy(st, c) && c !in targets ==> FaithfulTo(st, c, st.sockets[c].sent)
  }

  /** Fewer memberships and the same sockets and outputs leave no new gap. */
  lemma GaplessShrinks(st: State, after: State, targets: set<ClientId>)
    requires Gapless(st)
    requires forall c :: Healthy(after, c) && c !in targets ==>
      Healthy(st, c) && after.sockets[c].sent == st.sockets[c].sent
    requires forall c, sid :: c !in targets && Member(after, sid, c) ==> Member(st, sid, c)
    requires forall sid :: sid in st.ptys ==> sid in after.ptys && after.ptys[sid].output == st.ptys[sid].output
    ensures GaplessExcept(after, targets)
  {}

  lemma ClosuresKept(st: State, after: State)
    requires Conserved(st)
    requires after.closures == st.closures && after.sessions.Keys == st.sessions.Keys
    requires after.ptys.Keys == st.ptys.Keys
    requires forall sid :: sid in st.ptys ==> after.ptys[sid].kills == st.ptys[sid].kills
    ensures Conserved(after)
  {}

  lemma DetachConserved(st: State, gone: set<ClientId>, sids: set<SessionId>)
    requires Conserved(st)
    ensures Conserved(Detach(st, gone, sids))
  {}

  lemma DetachTracesOk(st: State, gone: set<ClientId>, sids: set<SessionId>)
    requires TracesOk(st)
    ensures TracesOk(Detach(st, gone, sids))
  {}

  lemma DetachTrace(st: State, gone: set<ClientId>, sids: set<SessionId>)
    requires TraceInvariant(st)
    ensures TraceInvariant(Detach(st, gone, sids))
  {
    var after := Detach(st, gone, sids);
    DetachConserved(st, gone, sids);
    DetachTracesOk(st, gone, sids);
    DetachMembers(st, gone, sids);
    SamePtysDiscreet(st, after);
    forall c | Healthy(after, c)
      ensures FaithfulTo(after, c, after.sockets[c].sent)
    {
      assert Healthy(st, c);
    }
  }

  ghost predicate PtysGrow(st: State, after: State) {
    forall sid :: sid in st.ptys ==>
      sid in after.ptys && after.ptys[sid].accepting == st.ptys[sid].accepting &&
      st.ptys[sid].trusted <= after.ptys[sid].trusted
  }

  lemma MayReceiveGrows(st: State, after: State, c: ClientId, sent: seq<Message>)
    requires PtysGrow(st, after) && AllMayReceive(st, c, sent)
    ensures AllMayReceive(after, c, sent)
  {}

  lemma SamePtysDiscreet(st: State, after: State)
    requires Discreet(st) && PtysGrow(st, after)
    requires forall c :: c in after.sockets ==> c in st.sockets && after.sockets[c].sent == st.sockets[c].sent
    ensures Discreet(after)
  {}

  lemma DeliverSockets(st: State, m: Message, targets: set<ClientId>)
    requires Bounded(st) && Discreet(st) && Sendable(st, m, targets)
    ensures Bounded(Deliver(st, m, targets)) && Discreet(Deliver(st, m, targets))
  {
    var after := Deliver(st, m, targets);
    forall c | c in after.sockets
      ensures AllMayReceive(after, c, after.sockets[c].sent)
    {
      assert AllMayReceive(st, c, st.sockets[c].sent);
      assert after.sockets[c] == SocketAfter(st, m, targets, c);
      assert AllMayReceive(st, c, after.sockets[c].sent);
      MayReceiveGrows(st, after, c, after.sockets[c].sent);
    }
  }

  lemma DeliverGapless(st: State, m: Message, targets: set<ClientId>)
    requires Sendable(st, m, targets) && GaplessExcept(st, targets)
    ensures Gapless(Deliver(st, m, targets))
  {}

  lemma DeliverTrace(st: State, m: Message, targets: set<ClientId>)
    requires Conserved(st) && Bounded(st) && TracesOk(st) && Discreet(st)
    requires Sendable(st, m, targets) && GaplessExcept(st, targets)
    ensures TraceInvariant(Deliver(st, m, targets))
  {
    var slow := Slow(st, m, targets);
    var detached := Detach(st, slow, st.sessions.Keys);
    var after := Deliver(st, m, targets);
    DetachConserved(st, slow, st.sessions.Keys);
    DetachTracesOk(st, slow, st.sessions.Keys);
    DeliverSockets(st, m, targets);
    DeliverGapless(st, m, targets);
    forall sid | ClosedIn(detached, sid)
      ensures ClosedIn(after, sid)
    {}
    forall sid | sid in after.sessions
      ensures TraceOk(after, sid)
    {
      assert TraceOk(detached, sid);
    }
  }

  // ----------------------------------------------- messages outside the stream

  ghost predicate Quiet(m: Message) {
    !m.Spawned? && !m.Joined? && !m.Data?
  }

  lemma QuietFaithful(st: State, c: ClientId, sent: seq<Message>, m: Message)
    requires FaithfulTo(st, c, sent) && Quiet(m)
    ensures FaithfulTo(st, c, sent + [m])
  {}

  lemma QuietTrace(st: State, m: Message, targets: set<ClientId>)
    requires TraceInvariant(st) && Quiet(m)
    requires forall c :: c in targets && c in st.sockets ==> MayReceive(st, c, m)
    ensures TraceInvariant(Deliver(st, m, targets))
  {
    forall c | c in targets && Healthy(st, c)
      ensures FaithfulTo(st, c, st.sockets[c].sent + [m])
    {
      QuietFaithful(st, c, st.sockets[c].sent, m);
    }
    DeliverTrace(st, m, targets);
  }

  /** A quiet message about a session may be broadcast to it. */
  lemma BroadcastTrace(st: State, sid: SessionId, m: Message, except: set<ClientId>)
    requires TraceInvariant(st)
    requires m.Exit? || m.SessionClosed? || m.ClientJoined? || m.ClientLeft?
    requires m.sid == sid
    ensures TraceInvariant(Broadcast(st, sid, m, except))
  {
    if sid in st.sessions {
      assert TraceOk(st, sid);
      QuietTrace(st, m, st.sessions[sid].clients - except);
    }
  }

  // ----------------------------------------------------- changes to one session

  lemma CloseTrace(st: State, sid: SessionId, reason: Reason)
    requires TraceInvariant(st)
    ensures TraceInvariant(Close(st, sid, reason))
  {
    if sid in st.sessions {
      var after := Close(st, sid, reason);
      forall other | other in after.sessions
        ensures TraceOk(after, other)
      {
        assert TraceOk(st, other);
      }
      CloseConserved(st, sid, reason);
      SamePtysDiscreet(st, after);
      forall c | Healthy(after, c)
        ensures FaithfulTo(after, c, after.sockets[c].sent)
      {
        assert Healthy(st, c);
        assert forall other :: Member(after, other, c) ==> Member(st, other, c);
      }
    }
  }

  lemma CloseConserved(st: State, sid: SessionId, reason: Reason)
    requires Conserved(st) && sid in st.sessions
    ensures Conserved(Close(st, sid, reason))
  {
    var after := Close(st, sid, reason);
    assert after.closures[|st.closures|].sid == sid;
    forall other | other in after.ptys && other !in after.sessions
      ensures after.ptys[other].kills == 1 && ClosedIn(after, other)
    {
      if other != sid {
        assert ClosedIn(st, other);
        var i :| 0 <= i < |st.closures| && st.closures[i].sid == other;
        assert after.closures[i].sid == other;
      }
    }
  }

  /** Nothing about a session that was never spawned can have been received. */
  lemma {:induction false} FreshStream(st: State, c: ClientId, sent: seq<Message>, sid: SessionId)
    requires AllMayReceive(st, c, sent) && sid !in st.ptys
    ensures StreamOf(sent, sid) == Nothing
  {
    if sent != [] {
      var before, last := sent[..|sent| - 1], sent[|sent| - 1];
      forall i | 0 <= i < |before|
        ensures MayReceive(st, c, before[i])
      {
        assert before[i] == sent[i];
      }
      FreshStream(st, c, before, sid);
      assert MayReceive(st, c, last);
    }
  }

  lemma CreateConserved(st: State, sid: SessionId, c: ClientId, token: Token, o: SpawnOptions)
    requires Conserved(st) && sid !in st.ptys
    ensures Conserved(Create(st, sid, c, token, o))
  {
    var after := Create(st, sid, c, token, o);
    forall other | ClosedIn(st, other)
      ensures ClosedIn(after, other)
    {}
  }

  lemma CreateFaithful(st: State, sid: SessionId, c: ClientId, token: Token, o: SpawnOptions, d: ClientId)
    requires TraceInvariant(st) && sid !in st.ptys && Healthy(st, d)
    ensures FaithfulTo(Create(st, sid, c, token, o), d, st.sockets[d].sent)
  {
    hide StreamOf;
    var after := Create(st, sid, c, token, o);
    FreshStream(st, d, st.sockets[d].sent, sid);
    assert FaithfulTo(st, d, st.sockets[d].sent);
    forall other | Member(after, other, d)
      ensures Faithful(StreamOf(st.sockets[d].sent, other), after.ptys[other].output)
    {
      assert other != sid ==> Member(st, other, d);
    }
  }

  lemma CreateTrace(st: State, sid: SessionId, c: ClientId, token: Token, o: SpawnOptions)
    requires TraceInvariant(st) && sid !in st.ptys
    ensures TraceInvariant(Create(st, sid, c, token, o))
  {
    hide FaithfulTo, Discreet, Conserved;
    var after := Create(st, sid, c, token, o);
    CreateConserved(st, sid, c, token, o);
    forall other | other in after.sessions
      ensures TraceOk(after, other)
    {
      assert other != sid ==> TraceOk(st, other);
    }
    SamePtysDiscreet(st, after);
    forall d | Healthy(after, d)
      ensures FaithfulTo(after, d, after.sockets[d].sent)
    {
      CreateFaithful(st, sid, c, token, o, d);
    }
  }

  /** Sessions differ at most in their activity stamp and listener flag; sockets at most in health. */
  ghost predicate SameTrace(st: State, after: State) {
    after.cfg == st.cfg && after.ptys == st.ptys && after.closures == st.closures &&
    after.sessions.Keys == st.sessions.Keys &&
    (forall sid :: sid in st.sessions ==>
      after.sessions[sid] ==
      st.sessions[sid].(lastActivity := after.sessions[sid].lastActivity, wired := after.sessions[sid].wired)) &&
    (forall c :: c in after.sockets ==> SameSent(st, after, c))
  }

  ghost predicate SameSent(st: State, after: State, c: ClientId)
    requires c in after.sockets
  {
    var k := after.sockets[c];
    if c in st.sockets then
      k.sent == st.sockets[c].sent && k.buffered <= st.sockets[c].buffered &&
      (k.open && k.working ==> Healthy(st, c))
    else k.sent == [] && k.buffered == 0
  }

  lemma SameKeepsTrace(st: State, after: State)
    requires TraceInvariant(st) && SameTrace(st, after)
    requires forall sid, c :: Member(st, sid, c) ==> c in st.sockets
    ensures TraceInvariant(after)
  {
    forall sid | sid in after.sessions
      ensures TraceOk(after, sid)
    {
      assert TraceOk(st, sid);
    }
    forall sid | ClosedIn(st, sid)
      ensures ClosedIn(after, sid)
    {}
    forall c | c in after.sockets
      ensures AllMayReceive(after, c, after.sockets[c].sent)
    {
      assert SameSent(st, after, c);
      if c in st.sockets {
        MayReceiveGrows(st, after, c, st.sockets[c].sent);
      }
    }
    forall c | Healthy(after, c)
      ensures FaithfulTo(after, c, after.sockets[c].sent)
    {
      assert SameSent(st, after, c);
      assert forall sid :: Member(after, sid, c) ==> Member(st, sid, c);
    }
  }
}
