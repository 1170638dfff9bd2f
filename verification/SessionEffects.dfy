/**
 * What the requests of the multiplexer achieve, seen from the clients: who is
 * a member afterwards and which messages each healthy client has received.
 */
module SessionEffects {
  import opened Common
  import opened SessionModel
  import opened SessionInvariant
  import opened SessionTrace

  /** `d` heard exactly `messages` between the two states. */
  ghost predicate Heard(st: State, after: State, d: ClientId, messages: seq<Message>)
    requires d in st.sockets
  {
    d in after.sockets && after.sockets[d].sent == st.sockets[d].sent + messages
  }

  /** A membership that ended, or is about to, because the client was too slow. */
  ghost predicate Evicted(st: State, after: State, d: ClientId) {
    d in st.sockets && d in after.sockets && st.sockets[d].open && !after.sockets[d].open
  }

  ghost predicate OnlyEvictions(st: State, after: State) {
    after.sockets.Keys == st.sockets.Keys &&
    (forall d :: d in st.sockets && after.sockets[d].open ==> st.sockets[d].open) &&
    (forall d, sid :: Member(after, sid, d) ==> Member(st, sid, d)) &&
    (forall d, sid :: Member(st, sid, d) && !Member(after, sid, d) ==> Evicted(st, after, d))
  }

  lemma DeliverOnlyEvicts(st: State, m: Message, targets: set<ClientId>)
    ensures OnlyEvictions(st, Deliver(st, m, targets))
  {
    var after := Deliver(st, m, targets);
    var slow := Slow(st, m, targets);
    DetachMembers(st, slow, st.sessions.Keys);
    forall d, sid
      ensures Member(after, sid, d) <==> Member(st, sid, d) && d !in slow
    {
      assert Member(after, sid, d) <==> Member(Detach(st, slow, st.sessions.Keys), sid, d);
    }
    forall d | d in st.sockets
      ensures after.sockets[d] == SocketAfter(st, m, targets, d)
    {}
  }

  lemma DeliverHeard(st: State, m: Message, targets: set<ClientId>, d: ClientId)
    requires d in st.sockets && Healthy(Deliver(st, m, targets), d)
    ensures Healthy(st, d) && Heard(st, Deliver(st, m, targets), d, if d in targets then [m] else [])
  {
    assert Deliver(st, m, targets).sockets[d] == SocketAfter(st, m, targets, d);
  }

  lemma BroadcastOnlyEvicts(st: State, sid: SessionId, m: Message, except: set<ClientId>)
    ensures OnlyEvictions(st, Broadcast(st, sid, m, except))
  {
    if sid in st.sessions {
      DeliverOnlyEvicts(st, m, st.sessions[sid].clients - except);
    }
  }

  lemma BroadcastHeard(st: State, sid: SessionId, m: Message, except: set<ClientId>, d: ClientId)
    requires d in st.sockets && Healthy(Broadcast(st, sid, m, except), d)
    ensures Healthy(st, d)
    ensures Heard(st, Broadcast(st, sid, m, except), d, if Member(st, sid, d) && d !in except then [m] else [])
  {
    if sid in st.sessions {
      DeliverHeard(st, m, st.sessions[sid].clients - except, d);
    }
  }

  lemma EvictionsCompose(a: State, b: State, c: State)
    requires OnlyEvictions(a, b) && OnlyEvictions(b, c)
    ensures OnlyEvictions(a, c)
  {
    forall d, sid | Member(a, sid, d) && !Member(c, sid, d)
      ensures Evicted(a, c, d)
    {
      if Member(b, sid, d) {
        assert Evicted(b, c, d);
      } else {
        assert Evicted(a, b, d);
      }
    }
  }

  /** Whoever is healthy in the end was never evicted on the way. */
  lemma HealthyStays(a: State, b: State, sid: SessionId, d: ClientId)
    requires OnlyEvictions(a, b) && Healthy(b, d)
    ensures Member(b, sid, d) <==> Member(a, sid, d)
  {
    assert Member(a, sid, d) && !Member(b, sid, d) ==> Evicted(a, b, d);
  }

  // --------------------------------------------------------------------- requests

  /** A chunk of output reaches every healthy member once and nobody else. */
  lemma OutputIsHeard(st: State, sid: SessionId, data: string, d: ClientId)
    requires Wired(st, sid) && d in st.sockets && Healthy(Step(st, PtyOutput(sid, data)), d)
    ensures Heard(st, Step(st, PtyOutput(sid, data)), d, if Member(st, sid, d) then [Data(sid, data)] else [])
  {
    BroadcastHeard(Record(st, sid, data), sid, Data(sid, data), {}, d);
    hide Broadcast;
  }

  /** What a session listing can be asked to show only. */
  ghost predicate Wanted(s: Session, f: Filter) {
    (f.sessionType == Some(LocalShell) ==> s.target == Local) &&
    (f.sessionType == Some(DockerExec) ==> s.target.Exec?) &&
    (f.sessionType == Some(DockerAttach) ==> s.target.Attach?) &&
    (f.container.Some? ==> s.target == Exec(f.container.value) || s.target == Attach(f.container.value)) &&
    (f.accepting == Some(true) ==> s.accepting) && (f.accepting == Some(false) ==> !s.accepting)
  }

  /** A listing names exactly the sessions that pass the filter and are open to, owned by or joined by the client. */
  lemma ListIsHeard(st: State, c: ClientId, f: Filter) returns (sids: set<SessionId>)
    requires c in st.sockets && Healthy(Step(st, List(c, f)), c)
    ensures Heard(st, Step(st, List(c, f)), c, [Listing(sids)])
    ensures forall sid :: sid in sids <==>
      sid in st.sessions && Wanted(st.sessions[sid], f) &&
      (st.sessions[sid].accepting || st.sessions[sid].owner == c || Member(st, sid, c))
  {
    sids := set sid | sid in st.sessions && Visible(st.sessions[sid], c, f);
    DeliverHeard(st, Listing(sids), {c}, c);
    hide Deliver;
    forall sid | sid in st.sessions
      ensures Passes(st.sessions[sid], f) <==> Wanted(st.sessions[sid], f)
    {
      PassesWhenWanted(st.sessions[sid], f);
    }
  }

  lemma PassesWhenWanted(s: Session, f: Filter)
    ensures Passes(s, f) <==> Wanted(s, f)
  {}

  /** Whom one answer leaves in a session. */
  lemma AnswerLeaves(st: State, c: ClientId, m: Message, sid: SessionId)
    requires sid in st.sessions
    ensures var after := Answer(st, c, m);
      sid in after.sessions &&
      after.sessions[sid].clients ==
        if Member(after, sid, c) then st.sessions[sid].clients else st.sessions[sid].clients - {c}
  {
    var slow := Slow(st, m, {c});
    assert slow == {} || slow == {c};
    assert Answer(st, c, m).sessions[sid] == DetachSession(st, sid, slow, st.sessions.Keys);
    hide Slow, DetachClients, DetachTimers;
  }

  lemma LeftCount(st: State, c: ClientId, sid: SessionId)
    requires Member(st, sid, c)
    ensures ClientCount(Answer(Detach(st, {c}, {sid}), c, Left(sid)), sid) == |st.sessions[sid].clients - {c}|
  {
    var left := Detach(st, {c}, {sid});
    assert left.sessions[sid] == DetachSession(st, sid, {c}, {sid});
    AnswerLeaves(left, c, Left(sid), sid);
    assert st.sessions[sid].clients - {c} - {c} == st.sessions[sid].clients - {c};
    hide Detach, Deliver;
  }

  lemma LeavingEnds(st: State, c: ClientId, sid: SessionId, d: ClientId)
    requires Member(st, sid, c) && c in st.sockets && d in st.sockets
    ensures var after := LeaveStep(st, c, sid);
            var n := |st.sessions[sid].clients - {c}|;
            OnlyEvictions(Detach(st, {c}, {sid}), after) && !Member(after, sid, c) &&
            (Healthy(after, d) && d == c ==> Heard(st, after, d, [Left(sid)])) &&
            (Healthy(after, d) && d != c && Member(st, sid, d) ==> Heard(st, after, d, [ClientLeft(sid, n)])) &&
            (Healthy(after, d) && d != c && !Member(st, sid, d) ==> Heard(st, after, d, []))
  {
    var left := Detach(st, {c}, {sid});
    var answered := Answer(left, c, Left(sid));
    var note := ClientLeft(sid, ClientCount(answered, sid));
    var after := Broadcast(answered, sid, note, {});
    DetachMembers(st, {c}, {sid});
    DeliverOnlyEvicts(left, Left(sid), {c});
    BroadcastOnlyEvicts(answered, sid, note, {});
    EvictionsCompose(left, answered, after);
    assert !Member(left, sid, c);
    LeftCount(st, c, sid);
    if Healthy(after, d) {
      BroadcastHeard(answered, sid, note, {}, d);
      DeliverHeard(left, Left(sid), {c}, d);
      HealthyStays(left, answered, sid, d);
      assert Member(left, sid, d) <==> Member(st, sid, d) && d != c;
    }
    hide Detach, Deliver, Broadcast, OnlyEvictions;
  }

  lemma RequestSteps(st: State, c: ClientId, sid: SessionId, correlated: bool,
                     token: Option<Token>, requested: bool, limit: Option<nat>)
    requires c in st.sockets
    ensures Step(st, Leave(c, sid)) == LeaveStep(st, c, sid)
    ensures Step(st, CloseRequest(c, sid, correlated)) == CloseStep(st, c, sid, correlated)
    ensures Step(st, Join(c, sid, token, requested, limit)) == JoinStep(st, c, sid, token, requested, limit)
  {
    hide LeaveStep, CloseStep, JoinStep;
  }

  /** Leaving ends exactly this membership; the leaver is answered and the others told who is left. */
  lemma LeaveEnds(st: State, c: ClientId, sid: SessionId, d: ClientId)
    requires Member(st, sid, c) && c in st.sockets && d in st.sockets
    ensures var after := Step(st, Leave(c, sid));
            var n := |st.sessions[sid].clients - {c}|;
            OnlyEvictions(Detach(st, {c}, {sid}), after) && !Member(after, sid, c) &&
            (Healthy(after, d) && d == c ==> Heard(st, after, d, [Left(sid)])) &&
            (Healthy(after, d) && d != c && Member(st, sid, d) ==> Heard(st, after, d, [ClientLeft(sid, n)])) &&
            (Healthy(after, d) && d != c && !Member(st, sid, d) ==> Heard(st, after, d, []))
  {
    RequestSteps(st, c, sid, false, None, false, None);
    hide *;
    LeavingEnds(st, c, sid, d);
  }

  lemma ClosingEnds(st: State, c: ClientId, sid: SessionId, correlated: bool, d: ClientId)
    requires sid in st.sessions && st.sessions[sid].owner == c && c in st.sockets && d in st.sockets && sid in st.ptys
    ensures var after := CloseStep(st, c, sid, correlated);
            sid !in after.sessions && sid in after.ptys && after.ptys[sid].kills == st.ptys[sid].kills + 1 &&
            after.closures == st.closures + [Closure(sid, OwnerClosed)] &&
            (Healthy(after, d) ==>
              Heard(st, after, d,
                    if Member(st, sid, d) || (correlated && d == c) then [SessionClosed(sid, OwnerClosed)] else []))
  {
    var m := SessionClosed(sid, OwnerClosed);
    var except := if correlated then {c} else {};
    var told := Broadcast(st, sid, m, except);
    var answered := if correlated then Answer(told, c, m) else told;
    BroadcastOnlyEvicts(st, sid, m, except);
    DeliverOnlyEvicts(told, m, {c});
    assert sid in answered.sessions && answered.closures == st.closures && answered.ptys == st.ptys;
    assert CloseStep(st, c, sid, correlated) == Close(answered, sid, OwnerClosed);
    if Healthy(Close(answered, sid, OwnerClosed), d) {
      assert Healthy(answered, d);
      if correlated {
        DeliverHeard(told, m, {c}, d);
      }
      BroadcastHeard(st, sid, m, except, d);
    }
    hide Deliver, Broadcast, OnlyEvictions;
  }

  /**
   * An owner's close ends the session, kills its PTY and tells every healthy
   * member once; a requester who asked for an answer gets that one message too.
   */
  lemma CloseEnds(st: State, c: ClientId, sid: SessionId, correlated: bool, d: ClientId)
    requires sid in st.sessions && st.sessions[sid].owner == c && c in st.sockets && d in st.sockets && sid in st.ptys
    ensures var after := Step(st, CloseRequest(c, sid, correlated));
            sid !in after.sessions && sid in after.ptys && after.ptys[sid].kills == st.ptys[sid].kills + 1 &&
            after.closures == st.closures + [Closure(sid, OwnerClosed)] &&
            (Healthy(after, d) ==>
              Heard(st, after, d,
                    if Member(st, sid, d) || (correlated && d == c) then [SessionClosed(sid, OwnerClosed)] else []))
  {
    RequestSteps(st, c, sid, correlated, None, false, None);
    hide *;
    ClosingEnds(st, c, sid, correlated, d);
  }

  lemma TwoBroadcastsHeard(st: State, sid: SessionId, first: Message, second: Message, d: ClientId)
    requires d in st.sockets && Healthy(Broadcast(Broadcast(st, sid, first, {}), sid, second, {}), d)
    ensures Heard(st, Broadcast(Broadcast(st, sid, first, {}), sid, second, {}), d,
                  if Member(st, sid, d) then [first, second] else [])
  {
    var once := Broadcast(st, sid, first, {});
    BroadcastOnlyEvicts(st, sid, first, {});
    hide Broadcast;
    BroadcastHeard(once, sid, second, {}, d);
    BroadcastHeard(st, sid, first, {}, d);
    HealthyStays(st, once, sid, d);
    hide OnlyEvictions;
    assert [first] + [second] == [first, second];
  }

  /** An exiting or idle session says goodbye to every healthy member with two messages, in order. */
  lemma FarewellIsHeard(st: State, sid: SessionId, code: int, reason: Reason, d: ClientId)
    requires d in st.sockets && Healthy(Farewell(st, sid, code, reason), d)
    ensures Heard(st, Farewell(st, sid, code, reason), d,
                  if Member(st, sid, d) then [Exit(sid, code), SessionClosed(sid, reason)] else [])
  {
    var told := Broadcast(Broadcast(st, sid, Exit(sid, code), {}), sid, SessionClosed(sid, reason), {});
    assert Farewell(st, sid, code, reason).sockets == told.sockets;
    hide Broadcast, Close, Farewell;
    TwoBroadcastsHeard(st, sid, Exit(sid, code), SessionClosed(sid, reason), d);
  }

  lemma BroadcastKeepsMember(st: State, sid: SessionId, m: Message, c: ClientId)
    ensures Member(Broadcast(st, sid, m, {c}), sid, c) <==> Member(st, sid, c)
  {
    if sid in st.sessions {
      var slow := Slow(st, m, st.sessions[sid].clients - {c});
      DetachMembers(st, slow, st.sessions.Keys);
      assert Member(Detach(st, slow, st.sessions.Keys), sid, c) <==> Member(st, sid, c);
      hide Slow, Detach;
    }
  }

  lemma JoinedCount(added: State, before: set<ClientId>, c: ClientId, m: Message, sid: SessionId, note: Message)
    requires sid in added.sessions && added.sessions[sid].clients == before + {c}
    ensures var answered := Answer(added, c, m);
      ClientCount(answered, sid) ==
        if Member(Broadcast(answered, sid, note, {c}), sid, c) then |before + {c}| else |before - {c}|
  {
    var answered := Answer(added, c, m);
    AnswerLeaves(added, c, m, sid);
    BroadcastKeepsMember(answered, sid, note, c);
    assert before + {c} - {c} == before - {c};
    hide Deliver, Broadcast;
  }

  lemma JoiningIsAnnounced(st: State, c: ClientId, sid: SessionId, token: Option<Token>, requested: bool,
                        limit: Option<nat>, d: ClientId)
    requires c in st.sockets && Admits(st, sid, token) && (Member(st, sid, c) || !AtClientLimit(st, c))
    requires d in st.sockets && d != c
    ensures var after := JoinStep(st, c, sid, token, requested, limit);
            var clients := st.sessions[sid].clients;
            var n := if Member(after, sid, c) then |clients + {c}| else |clients - {c}|;
            OnlyEvictions(Add(st, sid, c, token), after) &&
            (Healthy(after, d) && Member(st, sid, d) ==> Heard(st, after, d, [ClientJoined(sid, n)])) &&
            (Healthy(after, d) && !Member(st, sid, d) ==> Heard(st, after, d, []))
  {
    var added := Add(st, sid, c, token);
    var m := Welcome(st, sid, token, requested, limit);
    var answered := Answer(added, c, m);
    var note := ClientJoined(sid, ClientCount(answered, sid));
    var after := Broadcast(answered, sid, note, {c});
    DeliverOnlyEvicts(added, m, {c});
    BroadcastOnlyEvicts(answered, sid, note, {c});
    EvictionsCompose(added, answered, after);
    assert JoinStep(st, c, sid, token, requested, limit) == after;
    assert added.sessions[sid].clients == st.sessions[sid].clients + {c};
    JoinedCount(added, st.sessions[sid].clients, c, m, sid, note);
    if Healthy(after, d) {
      BroadcastHeard(answered, sid, note, {c}, d);
      DeliverHeard(added, m, {c}, d);
      HealthyStays(added, answered, sid, d);
      assert Member(added, sid, d) <==> Member(st, sid, d);
    }
    hide Deliver, Broadcast, OnlyEvictions;
  }

  /** Joining tells each healthy old member who else is there now, and changes no other membership but evictions. */
  lemma JoinIsAnnounced(st: State, c: ClientId, sid: SessionId, token: Option<Token>, requested: bool,
                        limit: Option<nat>, d: ClientId)
    requires c in st.sockets && Admits(st, sid, token) && (Member(st, sid, c) || !AtClientLimit(st, c))
    requires d in st.sockets && d != c
    ensures var after := Step(st, Join(c, sid, token, requested, limit));
            var clients := st.sessions[sid].clients;
            var n := if Member(after, sid, c) then |clients + {c}| else |clients - {c}|;
            OnlyEvictions(Add(st, sid, c, token), after) &&
            (Healthy(after, d) && Member(st, sid, d) ==> Heard(st, after, d, [ClientJoined(sid, n)])) &&
            (Healthy(after, d) && !Member(st, sid, d) ==> Heard(st, after, d, []))
  {
    RequestSteps(st, c, sid, false, token, requested, limit);
    hide *;
    JoiningIsAnnounced(st, c, sid, token, requested, limit, d);
  }

  // ----------------------------------------------------------------------- spawning

  ghost predicate SpawnsPty(st: State, c: ClientId, policy: Policy, ptyFails: bool) {
    policy.Permitted? && !AtClientLimit(st, c) && |st.sessions| < st.cfg.maxSessionsTotal && !ptyFails
  }

  lemma SpawningOutcome(st: State, c: ClientId, sid: SessionId, token: Token, o: SpawnOptions,
                        policy: Policy, ptyFails: bool, listenFails: bool)
    requires c in st.sockets && sid !in st.ptys && sid !in st.sessions
    ensures var after := SpawnStep(st, c, sid, token, o, policy, ptyFails, listenFails);
            (sid in after.sessions <==> SpawnsPty(st, c, policy, ptyFails) && (!listenFails || !o.target.Local?)) &&
            (sid in after.ptys <==> SpawnsPty(st, c, policy, ptyFails)) &&
            (sid in after.sessions ==> after.sessions[sid].owner == c && after.sessions[sid].wired == !listenFails) &&
            (sid in after.ptys && sid !in after.sessions ==> after.ptys[sid].kills == 1)
  {
    hide Slow, DetachClients, DetachTimers, Track, Forget;
  }

  lemma SpawnIsStep(st: State, c: ClientId, sid: SessionId, token: Token, o: SpawnOptions,
                    policy: Policy, ptyFails: bool, listenFails: bool)
    requires c in st.sockets && sid !in st.ptys
    ensures Step(st, Spawn(c, sid, token, o, policy, ptyFails, listenFails)) ==
            SpawnStep(st, c, sid, token, o, policy, ptyFails, listenFails)
  {
    hide SpawnStep;
  }

  /**
   * A spawn registers a session, owned by the requester, exactly when it is permitted, within
   * both caps, and neither the PTY nor (on the local path) its wiring fails; a PTY without a
   * session has been killed.
   */
  lemma SpawnOutcome(st: State, c: ClientId, sid: SessionId, token: Token, o: SpawnOptions,
                     policy: Policy, ptyFails: bool, listenFails: bool)
    requires c in st.sockets && sid !in st.ptys && sid !in st.sessions
    ensures var after := Step(st, Spawn(c, sid, token, o, policy, ptyFails, listenFails));
            (sid in after.sessions <==> SpawnsPty(st, c, policy, ptyFails) && (!listenFails || !o.target.Local?)) &&
            (sid in after.ptys <==> SpawnsPty(st, c, policy, ptyFails)) &&
            (sid in after.sessions ==> after.sessions[sid].owner == c && after.sessions[sid].wired == !listenFails) &&
            (sid in after.ptys && sid !in after.sessions ==> after.ptys[sid].kills == 1)
  {
    SpawnIsStep(st, c, sid, token, o, policy, ptyFails, listenFails);
    hide *;
    SpawningOutcome(st, c, sid, token, o, policy, ptyFails, listenFails);
  }
}
