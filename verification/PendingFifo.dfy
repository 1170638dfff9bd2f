/**
 * Which request a response without id reaches, when the server answers the
 * requests of one type in the order they were issued (the promise of the class
 * comment at bindings/python/lit_shell/client.py:64-72), over whole runs with
 * requests, time-outs and responses of all types in between.
 */
module PendingFifo {
  import opened Common
  import opened PendingModel

  /** The keys so far, and that of the request which `e` issues, if it is of `kind`. */
  function Noted(issued: seq<nat>, kind: Kind, e: Event, key: nat): seq<nat> {
    if e.Issue? && e.kind == kind then issued + [key] else issued
  }

  /** The keys of the requests of `kind` issued from event `m` up to event `n`. */
  ghost function Issued(states: seq<Pending>, events: seq<Event>, kind: Kind, m: nat, n: nat): seq<nat>
    requires m <= n <= |events| && |states| == |events| + 1
  {
    if m == n then []
    else Noted(Issued(states, events, kind, m, n - 1), kind, events[n - 1], |states[n - 1].futures|)
  }

  /** How many responses of `kind` came from event `m` up to event `n`. */
  ghost function Responses(events: seq<Event>, kind: Kind, m: nat, n: nat): nat
    requires m <= n <= |events|
  {
    if m == n then 0
    else Counted(Responses(events, kind, m, n - 1), kind, events[n - 1])
  }

  /**
   * From event `m` on, over one connection, the server answers what was asked of
   * it and nothing else, without ids for `kind`, and never with an error.
   */
  ghost predicate PlainServer(states: seq<Pending>, events: seq<Event>, kind: Kind, m: nat, n: nat)
    requires m <= n <= |events| && |states| == |events| + 1
  {
    forall k :: m <= k < n ==>
      Plain(kind, Issued(states, events, kind, m, k), Responses(events, kind, m, k), events[k])
  }

  /** `key` was asked at or after place `n`. */
  ghost predicate AskedFrom(issued: seq<nat>, n: nat, key: nat) {
    exists i :: n <= i < |issued| && issued[i] == key
  }

  /** Only requests from place `n` on are still listed. */
  ghost predicate OnlyLater(order: seq<Request>, kind: Kind, issued: seq<nat>, n: nat) {
    forall r :: r in order && r.kind == kind ==> AskedFrom(issued, n, r.key)
  }

  ghost predicate Increasing(issued: seq<nat>, bound: nat) {
    (forall i, j :: 0 <= i < j < |issued| ==> issued[i] < issued[j]) &&
    forall i :: 0 <= i < |issued| ==> issued[i] < bound
  }

  /** After `count` responses to the requests in `issued`. */
  ghost predicate InStep(s: Pending, kind: Kind, issued: seq<nat>, count: nat) {
    Increasing(issued, |s.futures|) && count <= |issued| && OnlyLater(s.order, kind, issued, count)
  }

  function Counted(count: nat, kind: Kind, e: Event): nat {
    if e.Response? && e.kind == kind then count + 1 else count
  }

  /** `e` is what a plain server's side of the conversation allows. */
  ghost predicate Plain(kind: Kind, issued: seq<nat>, count: nat, e: Event) {
    !e.ConnectionLost? && !e.Error? && (e.Response? && e.kind == kind ==> e.id == None && count < |issued|)
  }

  lemma HeadIsOldest(order: seq<Request>, kind: Kind, r: Request)
    requires Ordered(order) && r in order && r.kind == kind
    ensures OfKind(order, kind) != [] && OfKind(order, kind)[0].key <= r.key
  {
    OfKindMembers(order, kind);
    OfKindOrdered(order, kind);
    var queue := OfKind(order, kind);
    hide OfKind, Ordered;
    assert r in queue;
    var i :| 0 <= i < |queue| && queue[i] == r;
    if i > 0 {
      OrderedAt(queue, 0, i);
    }
  }

  /** Under a plain server the next response reaches its own request exactly when that is still listed. */
  lemma OwnIfListed(s: Pending, kind: Kind, issued: seq<nat>, n: nat)
    requires Good(s) && Increasing(issued, |s.futures|) && OnlyLater(s.order, kind, issued, n) && n < |issued|
    ensures var target := Target(s.order, kind, None);
            target.Some? && target.value.key == issued[n] <==> Listed(OfKind(s.order, kind), issued[n])
  {
    var queue := OfKind(s.order, kind);
    OfKindMembers(s.order, kind);
    assert Ordered(s.order);
    hide OfKind, Ordered, Good;
    if Listed(queue, issued[n]) {
      var r :| r in queue && r.key == issued[n];
      HeadIsOldest(s.order, kind, r);
      assert AskedFrom(issued, n, queue[0].key);
    }
    if queue != [] {
      assert queue[0] in queue;
    }
  }

  lemma RespondInStep(s: Pending, kind: Kind, issued: seq<nat>, n: nat, e: Event)
    requires Good(s) && Increasing(issued, |s.futures|) && OnlyLater(s.order, kind, issued, n) && n < |issued|
    requires e.Response? && e.kind == kind && e.id == None
    ensures OnlyLater(Step(s, e).order, kind, issued, n + 1)
  {
    var target := Target(s.order, kind, None);
    var after := Step(s, e);
    if target.Some? {
      WithoutMembers(s.order, target.value.key);
    }
    OfKindMembers(s.order, kind);
    forall r | r in after.order && r.kind == kind
      ensures AskedFrom(issued, n + 1, r.key)
    {
      HeadIsOldest(s.order, kind, r);
      assert target.value in OfKind(s.order, kind);
      hide OfKind, Good, Step;
      assert AskedFrom(issued, n, target.value.key) && AskedFrom(issued, n, r.key);
    }
  }

  lemma OrderShrinks(s: Pending, e: Event)
    requires !e.Issue?
    ensures forall r :: r in Step(s, e).order ==> r in s.order
    ensures |Step(s, e).futures| == |s.futures|
  {
    FailAllSettles(s.order, s.futures);
    match e
    case Response(kind, id, _, _) =>
      var target := Target(s.order, kind, id);
      if target.Some? {
        WithoutMembers(s.order, target.value.key);
      }
    case Error(id) =>
      var target := ErrorTarget(s.order, s.futures, id);
      if target.Some? {
        WithoutMembers(s.order, target.value.key);
      }
    case Finish(key) => WithoutMembers(s.order, key);
    case _ =>
  }

  lemma IssueInStep(s: Pending, kind: Kind, issued: seq<nat>, n: nat, e: Event)
    requires Good(s) && Increasing(issued, |s.futures|) && OnlyLater(s.order, kind, issued, n) && n <= |issued|
    requires e.Issue?
    ensures var longer := Noted(issued, kind, e, |s.futures|);
            Increasing(longer, |Step(s, e).futures|) && OnlyLater(Step(s, e).order, kind, longer, n)
  {
    var longer := Noted(issued, kind, e, |s.futures|);
    var after := Step(s, e);
    forall r | r in after.order && r.kind == kind
      ensures AskedFrom(longer, n, r.key)
    {
      if r in s.order {
        var i :| n <= i < |issued| && issued[i] == r.key;
        assert longer[i] == r.key;
      } else {
        assert longer[|issued|] == r.key;
      }
    }
  }

  lemma OthersInStep(s: Pending, kind: Kind, issued: seq<nat>, n: nat, e: Event)
    requires OnlyLater(s.order, kind, issued, n) && !e.Issue?
    ensures OnlyLater(Step(s, e).order, kind, issued, n) && |Step(s, e).futures| == |s.futures|
  {
    OrderShrinks(s, e);
    hide Step;
  }

  lemma RunStep(states: seq<Pending>, events: seq<Event>, n: nat)
    requires IsRun(states, events) && n < |events|
    ensures Enabled(states[n], events[n]) && states[n + 1] == Step(states[n], events[n]) && Good(states[n])
  {
    RunGood(states, events, n);
  }

  lemma StepInStep(s: Pending, kind: Kind, issued: seq<nat>, count: nat, e: Event)
    requires Good(s) && InStep(s, kind, issued, count) && Plain(kind, issued, count, e)
    ensures InStep(Step(s, e), kind, Noted(issued, kind, e, |s.futures|), Counted(count, kind, e))
  {
    hide Good, Step, OnlyLater, Increasing;
    if e.Issue? {
      IssueInStep(s, kind, issued, count, e);
    } else {
      OthersInStep(s, kind, issued, count, e);
      if e.Response? && e.kind == kind {
        RespondInStep(s, kind, issued, count, e);
      }
    }
  }

  /** What the last event of a stretch adds to the conversation. */
  lemma LastEvent(states: seq<Pending>, events: seq<Event>, kind: Kind, m: nat, n: nat)
    requires IsRun(states, events) && m <= n < |events| && PlainServer(states, events, kind, m, n + 1)
    ensures PlainServer(states, events, kind, m, n)
    ensures Plain(kind, Issued(states, events, kind, m, n), Responses(events, kind, m, n), events[n])
    ensures Issued(states, events, kind, m, n + 1) ==
            Noted(Issued(states, events, kind, m, n), kind, events[n], |states[n].futures|)
    ensures Responses(events, kind, m, n + 1) == Counted(Responses(events, kind, m, n), kind, events[n])
  {
    hide IsRun, Plain, Noted, Counted;
  }

  lemma NothingYet(states: seq<Pending>, events: seq<Event>, kind: Kind, m: nat)
    requires |states| == |events| + 1 && m <= |events| && OfKind(states[m].order, kind) == []
    ensures InStep(states[m], kind, Issued(states, events, kind, m, m), Responses(events, kind, m, m))
    ensures AllLaterListed(states[m].order, kind, Issued(states, events, kind, m, m), Responses(events, kind, m, m))
  {
    OfKindMembers(states[m].order, kind);
  }

  lemma {:induction false} StaysInStep(states: seq<Pending>, events: seq<Event>, kind: Kind, m: nat, n: nat)
    requires IsRun(states, events) && m <= n <= |events|
    requires OfKind(states[m].order, kind) == [] && PlainServer(states, events, kind, m, n)
    ensures InStep(states[n], kind, Issued(states, events, kind, m, n), Responses(events, kind, m, n))
  {
    hide Good, Step, Enabled, InStep, Noted, Counted, Plain, PlainServer, Issued, Responses, OfKind;
    if m == n {
      NothingYet(states, events, kind, m);
    } else {
      LastEvent(states, events, kind, m, n - 1);
      RunStep(states, events, n - 1);
      hide IsRun;
      StaysInStep(states, events, kind, m, n - 1);
      StepInStep(states[n - 1], kind, Issued(states, events, kind, m, n - 1), Responses(events, kind, m, n - 1),
                 events[n - 1]);
    }
  }

  /**
   * Over any stretch of a run on one connection: the n-th response of a type reaches the
   * n-th request of that type exactly when that request is still waiting in the
   * indexes; when it has left them, the response goes to a later request.
   */
  lemma OwnRequestIff(states: seq<Pending>, events: seq<Event>, kind: Kind, m: nat, i: nat)
    requires IsRun(states, events) && m <= i < |events|
    requires OfKind(states[m].order, kind) == [] && PlainServer(states, events, kind, m, i + 1)
    requires events[i].Response? && events[i].kind == kind
    ensures var n, issued := Responses(events, kind, m, i), Issued(states, events, kind, m, i);
            n < |issued| &&
            var target := Target(states[i].order, kind, events[i].id);
            (target.Some? && target.value.key == issued[n] <==> Listed(OfKind(states[i].order, kind), issued[n])) &&
            (target.Some? ==> AskedFrom(issued, n, target.value.key))
  {
    StaysInStep(states, events, kind, m, i);
    RunGood(states, events, i);
    var n, issued := Responses(events, kind, m, i), Issued(states, events, kind, m, i);
    OwnIfListed(states[i], kind, issued, n);
    TargetListed(states[i].order, kind, events[i].id);
  }

  // --------------------------------------------------------- when nobody leaves early

  /** No request of `kind` leaves the indexes before its response has come. */
  ghost predicate NobodyLeavesEarly(states: seq<Pending>, events: seq<Event>, kind: Kind, m: nat, n: nat)
    requires m <= n <= |events| && |states| == |events| + 1
  {
    forall k :: m <= k < n && events[k].Finish? ==>
      !AskedFrom(Issued(states, events, kind, m, k), Responses(events, kind, m, k), events[k].key)
  }

  ghost predicate AllLaterListed(order: seq<Request>, kind: Kind, issued: seq<nat>, n: nat) {
    forall i :: n <= i < |issued| ==> Listed(OfKind(order, kind), issued[i])
  }

  lemma ListedAfterRemoval(order: seq<Request>, kind: Kind, key: nat, removed: nat)
    requires Listed(OfKind(order, kind), key) && removed != key
    ensures Listed(OfKind(Without(order, removed), kind), key)
  {
    OfKindWithout(order, kind, removed);
    WithoutMembers(OfKind(order, kind), removed);
    hide OfKind;
    var r :| r in OfKind(order, kind) && r.key == key;
    assert r in Without(OfKind(order, kind), removed);
  }

  /** An event that issues nothing and takes away at most the request with key `removed`. */
  ghost predicate Removes(s: Pending, after: Pending, removed: Option<nat>) {
    after.order == if removed.Some? then Without(s.order, removed.value) else s.order
  }

  lemma RemovalKeepsLater(s: Pending, after: Pending, removed: Option<nat>, kind: Kind, issued: seq<nat>, n: nat)
    requires Removes(s, after, removed) && AllLaterListed(s.order, kind, issued, n)
    requires removed.Some? ==> !AskedFrom(issued, n, removed.value)
    ensures AllLaterListed(after.order, kind, issued, n)
  {
    if removed.Some? {
      forall i | n <= i < |issued|
        ensures Listed(OfKind(after.order, kind), issued[i])
      {
        ListedAfterRemoval(s.order, kind, issued[i], removed.value);
      }
    }
  }

  /** The key a listed request has is no other request's. */
  lemma OtherKindNotAsked(s: Pending, kind: Kind, issued: seq<nat>, n: nat, r: Request)
    requires Good(s) && AllLaterListed(s.order, kind, issued, n) && r in s.order && r.kind != kind
    ensures !AskedFrom(issued, n, r.key)
  {
    OfKindMembers(s.order, kind);
    if AskedFrom(issued, n, r.key) {
      var i :| n <= i < |issued| && issued[i] == r.key;
      var q :| q in OfKind(s.order, kind) && q.key == r.key;
      IdsAreUnique(s.order, q, r);
    }
  }

  lemma IssueKeepsLater(s: Pending, kind: Kind, issued: seq<nat>, n: nat, e: Event)
    requires AllLaterListed(s.order, kind, issued, n) && n <= |issued| && e.Issue?
    ensures AllLaterListed(Step(s, e).order, kind, Noted(issued, kind, e, |s.futures|), n)
  {
    var longer := Noted(issued, kind, e, |s.futures|);
    var after := Step(s, e);
    var added := after.order[|s.order|];
    assert after.order[..|s.order|] == s.order;
    assert OfKind(after.order, kind) == OfKind(s.order, kind) + if e.kind == kind then [added] else [];
    forall i | n <= i < |longer|
      ensures Listed(OfKind(after.order, kind), longer[i])
    {
      if i < |issued| {
        assert Listed(OfKind(s.order, kind), issued[i]);
        var r :| r in OfKind(s.order, kind) && r.key == issued[i];
        assert r in OfKind(after.order, kind);
      } else {
        assert added in OfKind(after.order, kind);
      }
    }
  }

  lemma RespondKeepsLater(s: Pending, kind: Kind, issued: seq<nat>, n: nat, e: Event)
    requires Good(s) && Increasing(issued, |s.futures|) && OnlyLater(s.order, kind, issued, n) && n < |issued|
    requires AllLaterListed(s.order, kind, issued, n)
    requires e.Response? && e.kind == kind && e.id == None
    ensures AllLaterListed(Step(s, e).order, kind, issued, n + 1)
  {
    OwnIfListed(s, kind, issued, n);
    hide Good;
    assert !AskedFrom(issued, n + 1, issued[n]);
    RemovalKeepsLater(s, Step(s, e), Some(issued[n]), kind, issued, n + 1);
  }

  lemma OtherEventsKeepLater(s: Pending, kind: Kind, issued: seq<nat>, n: nat, e: Event)
    requires Good(s) && AllLaterListed(s.order, kind, issued, n)
    requires !e.Issue? && !e.ConnectionLost? && !e.Error? && !(e.Response? && e.kind == kind)
    requires e.Finish? ==> !AskedFrom(issued, n, e.key)
    ensures AllLaterListed(Step(s, e).order, kind, issued, n)
  {
    match e
    case Response(other, id, _, _) =>
      var target := Target(s.order, other, id);
      TargetListed(s.order, other, id);
      if target.Some? {
        OtherKindNotAsked(s, kind, issued, n, target.value);
      }
      hide Good, Target;
      RemovalKeepsLater(s, Step(s, e), if target.Some? then Some(target.value.key) else None, kind, issued, n);
    case Finish(key) => RemovalKeepsLater(s, Step(s, e), Some(key), kind, issued, n);
    case GiveUp(_) => RemovalKeepsLater(s, Step(s, e), None, kind, issued, n);
  }

  lemma StepKeepsLater(s: Pending, kind: Kind, issued: seq<nat>, count: nat, e: Event)
    requires Good(s) && InStep(s, kind, issued, count) && Plain(kind, issued, count, e)
    requires AllLaterListed(s.order, kind, issued, count) && (e.Finish? ==> !AskedFrom(issued, count, e.key))
    ensures AllLaterListed(Step(s, e).order, kind, Noted(issued, kind, e, |s.futures|), Counted(count, kind, e))
  {
    hide Good, Step, AllLaterListed, OnlyLater, Increasing;
    if e.Issue? {
      IssueKeepsLater(s, kind, issued, count, e);
    } else if e.Response? && e.kind == kind {
      RespondKeepsLater(s, kind, issued, count, e);
    } else {
      OtherEventsKeepLater(s, kind, issued, count, e);
    }
  }

  lemma {:induction false} AllLaterStayListed(states: seq<Pending>, events: seq<Event>, kind: Kind, m: nat, n: nat)
    requires IsRun(states, events) && m <= n <= |events|
    requires OfKind(states[m].order, kind) == [] && PlainServer(states, events, kind, m, n)
    requires NobodyLeavesEarly(states, events, kind, m, n)
    ensures AllLaterListed(states[n].order, kind, Issued(states, events, kind, m, n), Responses(events, kind, m, n))
  {
    hide Good, Step, Enabled, InStep, AllLaterListed, Noted, Counted, Plain, PlainServer, Issued, Responses, OfKind,
         AskedFrom;
    if m == n {
      NothingYet(states, events, kind, m);
    } else {
      LastLeaver(states, events, kind, m, n - 1);
      LastEvent(states, events, kind, m, n - 1);
      RunStep(states, events, n - 1);
      hide IsRun, NobodyLeavesEarly;
      AllLaterStayListed(states, events, kind, m, n - 1);
      StaysInStep(states, events, kind, m, n - 1);
      StepKeepsLater(states[n - 1], kind, Issued(states, events, kind, m, n - 1), Responses(events, kind, m, n - 1),
                     events[n - 1]);
    }
  }

  lemma LastLeaver(states: seq<Pending>, events: seq<Event>, kind: Kind, m: nat, n: nat)
    requires |states| == |events| + 1 && m <= n < |events| && NobodyLeavesEarly(states, events, kind, m, n + 1)
    ensures NobodyLeavesEarly(states, events, kind, m, n)
    ensures events[n].Finish? ==>
            !AskedFrom(Issued(states, events, kind, m, n), Responses(events, kind, m, n), events[n].key)
  {
    hide AskedFrom;
  }

  /**
   * First in, first out: while no request of a type leaves before its response, the n-th
   * response of that type reaches the n-th request, whatever else is issued,
   * answered, given up or finished in between.
   */
  lemma PunctualIsFirstInFirstOut(states: seq<Pending>, events: seq<Event>, kind: Kind, m: nat, i: nat)
    requires IsRun(states, events) && m <= i < |events|
    requires OfKind(states[m].order, kind) == [] && PlainServer(states, events, kind, m, i + 1)
    requires NobodyLeavesEarly(states, events, kind, m, i)
    requires events[i].Response? && events[i].kind == kind
    ensures var n, issued := Responses(events, kind, m, i), Issued(states, events, kind, m, i);
            n < |issued| && issued[n] < |states[i].futures| &&
            states[i + 1].futures == Settle(states[i].futures, issued[n], Fate(events[i]))
  {
    OwnRequestIff(states, events, kind, m, i);
    StaysInStep(states, events, kind, m, i);
    AllLaterStayListed(states, events, kind, m, i);
    assert states[i + 1] == Step(states[i], events[i]);
  }

  lemma RemovedFromPair(a: Request, b: Request)
    requires a.key != b.key && a.kind == b.kind
    ensures Without([a, b], a.key) == [b] && Without([b], b.key) == [] && OfKind([b], b.kind) == [b]
  {
    assert [a, b][..1] == [a] && [a][..0] == [] && [b][..0] == [];
    assert Without([a], a.key) == [];
    assert Without([a, b], a.key) == Without([a], a.key) + [b];
  }

  lemma FirstLeaves(a: Request, b: Request)
    requires a == Request(0, Joined, None) && b == Request(1, Joined, None)
    ensures Step(Pending([], [], 0), Issue(Joined, false)) == Pending([a], [Waiting], 0)
    ensures Step(Pending([a], [Waiting], 0), Issue(Joined, false)) == Pending([a, b], [Waiting, Waiting], 0)
    ensures Step(Pending([a, b], [Waiting, Waiting], 0), GiveUp(0)) == Pending([a, b], [Cancelled, Waiting], 0)
    ensures Step(Pending([a, b], [Cancelled, Waiting], 0), Finish(0)) == Pending([b], [Cancelled, Waiting], 0)
  {
    RemovedFromPair(a, b);
    hide OfKind, Without, WithId;
  }

  lemma SecondIsAnswered(b: Request)
    requires b == Request(1, Joined, None)
    ensures Step(Pending([b], [Cancelled, Waiting], 0), Response(Joined, None, 7, true)) ==
            Pending([], [Cancelled, Answered(7)], 0)
  {
    RemovedFromPair(Request(0, Joined, None), b);
    hide OfKind, Without, WithId;
  }

  /** A request that times out and leaves hands its late response to the next one. */
  lemma LateResponseIsMisdirected() returns (states: seq<Pending>, events: seq<Event>)
    ensures IsRun(states, events) && |events| == 5
    ensures events[4] == Response(Joined, None, 7, true) && states[5].futures == [Cancelled, Answered(7)]
  {
    var a, b := Request(0, Joined, None), Request(1, Joined, None);
    FirstLeaves(a, b);
    SecondIsAnswered(b);
    hide Step;
    events := [Issue(Joined, false), Issue(Joined, false), GiveUp(0), Finish(0), Response(Joined, None, 7, true)];
    states := [Pending([], [], 0), Pending([a], [Waiting], 0), Pending([a, b], [Waiting, Waiting], 0),
               Pending([a, b], [Cancelled, Waiting], 0), Pending([b], [Cancelled, Waiting], 0),
               Pending([], [Cancelled, Answered(7)], 0)];
  }
}
