/**
 * Requests of the Python client that wait for a protocol response
 * (bindings/python/lit_shell/client.py), as one list in order of issue. The
 * client's three indexes are proved to be views of this list in PendingIndex.
 */
module PendingModel {
  import opened Common

  /** Response types; no request ever waits for `Other`. */
  datatype Kind = Spawned | SessionList | Joined | Other

  /** The fate of a future. `Failed` also stands for a response its caller could not apply. */
  datatype Outcome = Waiting | Answered(answer: nat) | Failed | Cancelled

  /** `key` is the request's identity: its place among all requests ever issued. */
  datatype Request = Request(key: nat, kind: Kind, id: Option<nat>)

  /** `futures` holds the fate of every request ever issued, by key. */
  datatype Pending = Pending(order: seq<Request>, futures: seq<Outcome>, counter: nat)

  datatype Event =
    | Issue(kind: Kind, correlated: bool)
    | Response(kind: Kind, id: Option<nat>, answer: nat, applies: bool)
    | Error(id: Option<nat>)
    | ConnectionLost
    | GiveUp(key: nat)
    | Finish(key: nat)

  // ---------------------------------------------------------------------- lists

  function OfKind(order: seq<Request>, kind: Kind): seq<Request> {
    if order == [] then []
    else
      var last := order[|order| - 1];
      OfKind(order[..|order| - 1], kind) + if last.kind == kind then [last] else []
  }

  function Without(order: seq<Request>, key: nat): seq<Request> {
    if order == [] then []
    else
      var last := order[|order| - 1];
      Without(order[..|order| - 1], key) + if last.key == key then [] else [last]
  }

  function WithId(order: seq<Request>, id: nat): Option<Request> {
    if order == [] then None
    else if order[|order| - 1].id == Some(id) then Some(order[|order| - 1])
    else WithId(order[..|order| - 1], id)
  }

  predicate IsWaiting(futures: seq<Outcome>, key: nat) {
    key < |futures| && futures[key] == Waiting
  }

  /** The first request in the list that is still waiting. */
  function FirstWaiting(order: seq<Request>, futures: seq<Outcome>): Option<Request> {
    if order == [] then None
    else if IsWaiting(futures, order[0].key) then Some(order[0])
    else FirstWaiting(order[1..], futures)
  }

  // ---------------------------------------------------------------------- steps

  /** The request a response of `kind` is taken to answer. */
  function Target(order: seq<Request>, kind: Kind, id: Option<nat>): Option<Request> {
    var named := if id.Some? then WithId(order, id.value) else None;
    if named.Some? && named.value.kind == kind then named
    else if OfKind(order, kind) == [] then None
    else Some(OfKind(order, kind)[0])
  }

  /** The request an error is taken to answer. */
  function ErrorTarget(order: seq<Request>, futures: seq<Outcome>, id: Option<nat>): Option<Request> {
    var named := if id.Some? then WithId(order, id.value) else None;
    if named.Some? then named else FirstWaiting(order, futures)
  }

  function Settle(futures: seq<Outcome>, key: nat, outcome: Outcome): seq<Outcome> {
    if IsWaiting(futures, key) then futures[key := outcome] else futures
  }

  function Take(s: Pending, target: Option<Request>, outcome: Outcome): Pending {
    if target.None? then s
    else s.(order := Without(s.order, target.value.key), futures := Settle(s.futures, target.value.key, outcome))
  }

  function FailAll(order: seq<Request>, futures: seq<Outcome>): seq<Outcome> {
    if order == [] then futures else FailAll(order[1..], Settle(futures, order[0].key, Failed))
  }

  function Add(s: Pending, kind: Kind, correlated: bool): Pending {
    var id := if correlated then Some(s.counter + 1) else None;
    Pending(s.order + [Request(|s.futures|, kind, id)], s.futures + [Waiting],
            if correlated then s.counter + 1 else s.counter)
  }

  function Fate(e: Event): Outcome
    requires e.Response?
  {
    if e.applies then Answered(e.answer) else Failed
  }

  ghost predicate Enabled(s: Pending, e: Event) {
    match e
    case Issue(kind, _) => kind != Other
    case GiveUp(key) => key < |s.futures|
    case Finish(key) => key < |s.futures| && s.futures[key] != Waiting
    case _ => true
  }

  function Step(s: Pending, e: Event): Pending {
    match e
    case Issue(kind, correlated) => Add(s, kind, correlated)
    case Response(kind, id, _, _) => Take(s, Target(s.order, kind, id), Fate(e))
    case Error(id) => Take(s, ErrorTarget(s.order, s.futures, id), Failed)
    case ConnectionLost => s.(order := [], futures := FailAll(s.order, s.futures))
    case GiveUp(key) => s.(futures := Settle(s.futures, key, Cancelled))
    case Finish(key) => s.(order := Without(s.order, key))
  }

  // ------------------------------------------------------------------ invariant

  /** Later in the list means issued later, with a later id. */
  ghost predicate Ordered(order: seq<Request>) {
    order == [] ||
    var init, last := order[..|order| - 1], order[|order| - 1];
    Ordered(init) &&
    forall r :: r in init ==> r.key < last.key && (r.id.Some? && last.id.Some? ==> r.id.value < last.id.value)
  }

  ghost predicate Listed(order: seq<Request>, key: nat) {
    exists r :: r in order && r.key == key
  }

  /** Every request still waiting is in the list; nothing in the list is made up. */
  ghost predicate Good(s: Pending) {
    Ordered(s.order) &&
    (forall r :: r in s.order ==>
      r.key < |s.futures| && r.kind != Other && (r.id.Some? ==> 0 < r.id.value <= s.counter)) &&
    forall key: nat :: IsWaiting(s.futures, key) ==> Listed(s.order, key)
  }

  lemma {:induction false} WithoutMembers(order: seq<Request>, key: nat)
    ensures forall r :: r in Without(order, key) <==> r in order && r.key != key
  {
    if order != [] {
      var init, last := order[..|order| - 1], order[|order| - 1];
      WithoutMembers(init, key);
      assert order == init + [last];
    }
  }

  lemma {:induction false} WithoutOrdered(order: seq<Request>, key: nat)
    requires Ordered(order)
    ensures Ordered(Without(order, key))
  {
    if order != [] {
      var init, last := order[..|order| - 1], order[|order| - 1];
      WithoutOrdered(init, key);
      WithoutMembers(init, key);
      var kept := Without(init, key);
      if last.key != key {
        assert (kept + [last])[..|kept|] == kept;
      } else {
        assert kept + [] == kept;
      }
    }
  }

  lemma {:induction false} OfKindMembers(order: seq<Request>, kind: Kind)
    ensures forall r :: r in OfKind(order, kind) <==> r in order && r.kind == kind
  {
    if order != [] {
      var init, last := order[..|order| - 1], order[|order| - 1];
      OfKindMembers(init, kind);
      assert order == init + [last];
    }
  }

  lemma {:induction false} WithIdFinds(order: seq<Request>, id: nat)
    ensures WithId(order, id).Some? ==> WithId(order, id).value in order && WithId(order, id).value.id == Some(id)
    ensures WithId(order, id).None? ==> forall r :: r in order ==> r.id != Some(id)
  {
    if order != [] {
      WithIdFinds(order[..|order| - 1], id);
      assert order == order[..|order| - 1] + [order[|order| - 1]];
    }
  }

  lemma {:induction false} FirstWaitingFinds(order: seq<Request>, futures: seq<Outcome>)
    ensures var w := FirstWaiting(order, futures);
            w.Some? ==> w.value in order && IsWaiting(futures, w.value.key)
    ensures FirstWaiting(order, futures).None? ==>
            forall r :: r in order ==> !IsWaiting(futures, r.key)
  {
    if order != [] {
      FirstWaitingFinds(order[1..], futures);
    }
  }

  lemma TargetListed(order: seq<Request>, kind: Kind, id: Option<nat>)
    ensures var t := Target(order, kind, id);
            t.Some? ==> t.value in order && t.value.kind == kind
  {
    OfKindMembers(order, kind);
    if id.Some? {
      WithIdFinds(order, id.value);
    }
  }

  lemma ErrorTargetListed(order: seq<Request>, futures: seq<Outcome>, id: Option<nat>)
    ensures var t := ErrorTarget(order, futures, id);
            t.Some? ==> t.value in order
  {
    FirstWaitingFinds(order, futures);
    if id.Some? {
      WithIdFinds(order, id.value);
    }
  }

  lemma TakeKeeps(s: Pending, target: Option<Request>, outcome: Outcome)
    requires Good(s) && outcome != Waiting && (target.Some? ==> target.value in s.order)
    ensures Good(Take(s, target, outcome))
  {
    if target.Some? {
      var key := target.value.key;
      var after := Take(s, target, outcome);
      WithoutOrdered(s.order, key);
      WithoutMembers(s.order, key);
      forall k: nat | IsWaiting(after.futures, k)
        ensures Listed(after.order, k)
      {
        assert IsWaiting(s.futures, k);
        var r :| r in s.order && r.key == k;
        assert r in after.order;
      }
    }
  }

  lemma AddKeeps(s: Pending, kind: Kind, correlated: bool)
    requires Good(s) && kind != Other
    ensures Good(Add(s, kind, correlated))
  {
    var after := Add(s, kind, correlated);
    var fresh' := after.order[|s.order|];
    assert after.order[..|s.order|] == s.order;
    forall k: nat | IsWaiting(after.futures, k)
      ensures Listed(after.order, k)
    {
      if k < |s.futures| {
        assert IsWaiting(s.futures, k);
        var r :| r in s.order && r.key == k;
        assert r in after.order;
      } else {
        assert fresh' in after.order;
      }
    }
  }

  lemma {:induction false} FailAllSettles(order: seq<Request>, futures: seq<Outcome>)
    ensures var after := FailAll(order, futures);
            |after| == |futures| &&
            forall k: nat :: k < |futures| ==>
              after[k] == if IsWaiting(futures, k) && Listed(order, k) then Failed else futures[k]
  {
    if order != [] {
      var rest := Settle(futures, order[0].key, Failed);
      FailAllSettles(order[1..], rest);
      forall k: nat | k < |futures|
        ensures Listed(order, k) <==> k == order[0].key || Listed(order[1..], k)
      {
        if k == order[0].key {
          assert order[0] in order;
        } else if Listed(order, k) {
          var r :| r in order && r.key == k;
          assert r in order[1..];
        }
      }
    }
  }

  /** After the connection is lost nothing is left waiting. */
  lemma AllSettledWhenLost(s: Pending)
    requires Good(s)
    ensures var after := Step(s, ConnectionLost);
            Good(after) && after.order == [] && |after.futures| == |s.futures| &&
            forall k: nat :: k < |s.futures| ==>
              after.futures[k] == if s.futures[k] == Waiting then Failed else s.futures[k]
  {
    FailAllSettles(s.order, s.futures);
  }

  lemma FinishKeeps(s: Pending, key: nat)
    requires Good(s) && Enabled(s, Finish(key))
    ensures Good(Step(s, Finish(key)))
  {
    WithoutOrdered(s.order, key);
    WithoutMembers(s.order, key);
    var after := Step(s, Finish(key));
    forall k: nat | IsWaiting(after.futures, k)
      ensures Listed(after.order, k)
    {
      var r :| r in s.order && r.key == k;
      assert r in after.order;
    }
  }

  lemma StepKeepsGood(s: Pending, e: Event)
    requires Good(s) && Enabled(s, e)
    ensures Good(Step(s, e))
  {
    match e
    case Issue(kind, correlated) => AddKeeps(s, kind, correlated);
    case Response(kind, id, _, _) =>
      TargetListed(s.order, kind, id);
      TakeKeeps(s, Target(s.order, kind, id), Fate(e));
    case Error(id) =>
      ErrorTargetListed(s.order, s.futures, id);
      TakeKeeps(s, ErrorTarget(s.order, s.futures, id), Failed);
    case ConnectionLost => AllSettledWhenLost(s);
    case GiveUp(key) =>
    case Finish(key) => FinishKeeps(s, key);
  }

  // ------------------------------------------------------------------------ runs

  ghost predicate IsRun(states: seq<Pending>, events: seq<Event>) {
    |states| == |events| + 1 &&
    states[0] == Pending([], [], 0) &&
    forall i :: 0 <= i < |events| ==> Enabled(states[i], events[i]) && states[i + 1] == Step(states[i], events[i])
  }

  /** In every reachable state each request issued so far is done or listed exactly once. */
  lemma {:induction false} RunGood(states: seq<Pending>, events: seq<Event>, n: nat)
    requires IsRun(states, events) && n <= |events|
    ensures Good(states[n])
  {
    if n > 0 {
      RunGood(states, events, n - 1);
      assert Enabled(states[n - 1], events[n - 1]);
      StepKeepsGood(states[n - 1], events[n - 1]);
    }
  }

  ghost predicate HasOutcome(s: Pending, key: nat, outcome: Outcome) {
    key < |s.futures| && s.futures[key] == outcome
  }

  lemma StepSettlesOnce(s: Pending, e: Event, key: nat, outcome: Outcome)
    requires Good(s) && HasOutcome(s, key, outcome) && outcome != Waiting
    ensures HasOutcome(Step(s, e), key, outcome)
  {
    FailAllSettles(s.order, s.futures);
  }

  /** A future is settled at most once: its first outcome is its last. */
  lemma {:induction false} SettledOnce(states: seq<Pending>, events: seq<Event>, i: nat, j: nat,
                                       key: nat, outcome: Outcome)
    requires IsRun(states, events) && i <= j <= |events|
    requires HasOutcome(states[i], key, outcome) && outcome != Waiting
    ensures HasOutcome(states[j], key, outcome)
    decreases j - i
  {
    hide Good, Step, Enabled, HasOutcome;
    if i < j {
      SettledOnce(states, events, i, j - 1, key, outcome);
      RunGood(states, events, j - 1);
      assert Enabled(states[j - 1], events[j - 1]) && states[j - 1 + 1] == Step(states[j - 1], events[j - 1]);
      StepSettlesOnce(states[j - 1], events[j - 1], key, outcome);
    }
  }

  // ------------------------------------------------------------ what is answered

  /** What became of one request: it has left the list, and if it was waiting, with this outcome. */
  ghost predicate Concluded(s: Pending, after: Pending, key: nat, outcome: Outcome) {
    after.order == Without(s.order, key) && after.counter == s.counter &&
    |after.futures| == |s.futures| &&
    forall k: nat :: k < |s.futures| ==>
      after.futures[k] == if k == key && s.futures[k] == Waiting then outcome else s.futures[k]
  }

  /**
   * A response that names a pending request of its own type answers that request alone, or
   * fails it when the caller cannot apply it.
   */
  lemma CorrelatedAnswersItsRequest(s: Pending, r: Request, answer: nat, applies: bool)
    requires Good(s) && r in s.order && r.id.Some?
    ensures Concluded(s, Step(s, Response(r.kind, r.id, answer, applies)), r.key,
                  if applies then Answered(answer) else Failed)
  {
    WithIdFinds(s.order, r.id.value);
    IdsAreUnique(s.order, r, WithId(s.order, r.id.value).value);
    hide Without, Ordered, Listed;
  }

  /** An error that names a pending request fails that request alone. */
  lemma ErrorFailsItsRequest(s: Pending, r: Request)
    requires Good(s) && r in s.order && r.id.Some?
    ensures Concluded(s, Step(s, Error(r.id)), r.key, Failed)
  {
    WithIdFinds(s.order, r.id.value);
    IdsAreUnique(s.order, r, WithId(s.order, r.id.value).value);
    hide Without, Ordered, Listed;
  }

  lemma {:induction false} FirstWaitingIsOldest(order: seq<Request>, futures: seq<Outcome>, i: nat)
    requires i < |order| && IsWaiting(futures, order[i].key)
    requires forall k :: 0 <= k < i ==> !IsWaiting(futures, order[k].key)
    ensures FirstWaiting(order, futures) == Some(order[i])
  {
    if i > 0 {
      FirstWaitingIsOldest(order[1..], futures, i - 1);
    }
  }

  lemma {:induction false} NobodyWaiting(order: seq<Request>, futures: seq<Outcome>)
    requires forall k :: 0 <= k < |order| ==> !IsWaiting(futures, order[k].key)
    ensures FirstWaiting(order, futures) == None
  {
    if order != [] {
      NobodyWaiting(order[1..], futures);
    }
  }

  /** An error without an id, or with one that nobody waits under, fails the oldest request still waiting, if any. */
  lemma OtherErrorsFailOldest(s: Pending, id: Option<nat>, i: nat)
    requires Good(s) && (id.Some? ==> forall r :: r in s.order ==> r.id != id)
    requires i <= |s.order| && forall k :: 0 <= k < i ==> !IsWaiting(s.futures, s.order[k].key)
    requires i < |s.order| ==> IsWaiting(s.futures, s.order[i].key)
    ensures if i < |s.order| then Concluded(s, Step(s, Error(id)), s.order[i].key, Failed) else Step(s, Error(id)) == s
  {
    if id.Some? {
      WithIdFinds(s.order, id.value);
    }
    hide Good, Without, WithId;
    if i < |s.order| {
      FirstWaitingIsOldest(s.order, s.futures, i);
    } else {
      NobodyWaiting(s.order, s.futures);
    }
    hide FirstWaiting;
  }

  /**
   * A request is filed as the youngest of all, waiting, and with an id that no other request
   * has, exactly when the server supports ids.
   */
  lemma IssuedIsFresh(s: Pending, kind: Kind, correlated: bool)
    requires Good(s) && kind != Other
    ensures var after := Step(s, Issue(kind, correlated));
      var r := Request(|s.futures|, kind, if correlated then Some(after.counter) else None);
      after.order == s.order + [r] && after.futures == s.futures + [Waiting] &&
      (correlated ==> forall other :: other in s.order ==> other.id != r.id) &&
      after.counter == s.counter + if correlated then 1 else 0
  {
    hide Ordered, Listed;
  }

  /** Giving up cancels this request alone, and only while it waits; it leaves the list when its caller is done. */
  lemma GivingUpCancels(s: Pending, key: nat)
    requires key < |s.futures|
    ensures var given := Step(s, GiveUp(key));
      given.order == s.order && given.counter == s.counter &&
      given.futures == s.futures[key := if s.futures[key] == Waiting then Cancelled else s.futures[key]] &&
      Concluded(given, Step(given, Finish(key)), key, Cancelled)
  {
    hide Without;
  }

  lemma {:induction false} IdsAreUnique(order: seq<Request>, a: Request, b: Request)
    requires Ordered(order) && a in order && b in order && (a.key == b.key || (a.id.Some? && a.id == b.id))
    ensures a == b
  {
    var init, last := order[..|order| - 1], order[|order| - 1];
    assert order == init + [last];
    if a in init && b in init {
      IdsAreUnique(init, a, b);
    }
  }

  /** A response whose id is pending for another type, or not at all, counts as one without id. */
  lemma UnknownIdFallsBack(s: Pending, kind: Kind, id: nat, answer: nat, applies: bool)
    requires WithId(s.order, id).None? || WithId(s.order, id).value.kind != kind
    ensures Step(s, Response(kind, Some(id), answer, applies)) == Step(s, Response(kind, None, answer, applies))
  {}

  lemma {:induction false} OfKindWithout(order: seq<Request>, kind: Kind, key: nat)
    ensures OfKind(Without(order, key), kind) == Without(OfKind(order, kind), key)
  {
    if order != [] {
      var init, last := order[..|order| - 1], order[|order| - 1];
      OfKindWithout(init, kind, key);
      var kept := Without(init, key);
      if last.key != key {
        assert (kept + [last])[..|kept|] == kept;
      } else {
        assert kept + [] == kept;
      }
      var some := OfKind(init, kind);
      if last.kind == kind {
        assert (some + [last])[..|some|] == some;
      } else {
        assert some + [] == some;
      }
    }
  }

  lemma {:induction false} OfKindOrdered(order: seq<Request>, kind: Kind)
    requires Ordered(order)
    ensures Ordered(OfKind(order, kind))
  {
    if order != [] {
      var init, last := order[..|order| - 1], order[|order| - 1];
      OfKindOrdered(init, kind);
      OfKindMembers(init, kind);
      var kept := OfKind(init, kind);
      if last.kind == kind {
        assert (kept + [last])[..|kept|] == kept;
      } else {
        assert kept + [] == kept;
      }
    }
  }

  lemma {:induction false} OrderedAt(order: seq<Request>, i: nat, j: nat)
    requires Ordered(order) && i < j < |order|
    ensures order[i].key < order[j].key
  {
    var init := order[..|order| - 1];
    if j < |init| {
      OrderedAt(init, i, j);
    } else {
      assert init[i] in init;
    }
  }

  lemma {:induction false} WithoutHead(order: seq<Request>)
    requires order != [] && Ordered(order)
    ensures Without(order, order[0].key) == order[1..]
  {
    if |order| > 1 {
      var init, last := order[..|order| - 1], order[|order| - 1];
      WithoutHead(init);
      OrderedAt(order, 0, |order| - 1);
      assert init[1..] + [last] == order[1..];
    }
  }

  /**
   * A response without id answers the oldest waiting request of its type exactly
   * when that request heads its queue. When the head has already been given up on,
   * the response is swallowed: the head leaves the queue and no future changes.
   */
  lemma UncorrelatedAnswersOldestIff(s: Pending, kind: Kind, answer: nat)
    requires Good(s) && FirstWaiting(OfKind(s.order, kind), s.futures).Some?
    ensures OfKind(s.order, kind) != []
    ensures var oldest := FirstWaiting(OfKind(s.order, kind), s.futures).value;
            var head := OfKind(s.order, kind)[0];
            var after := Step(s, Response(kind, None, answer, true));
            OfKind(after.order, kind) == OfKind(s.order, kind)[1..] &&
            (IsWaiting(s.futures, head.key) <==> after.futures == Settle(s.futures, oldest.key, Answered(answer))) &&
            (!IsWaiting(s.futures, head.key) <==> after.futures == s.futures)
  {
    var queue := OfKind(s.order, kind);
    FirstWaitingFinds(queue, s.futures);
    OfKindOrdered(s.order, kind);
    OfKindWithout(s.order, kind, queue[0].key);
    WithoutHead(queue);
    hide Without, OfKind, Ordered;
    var oldest := FirstWaiting(queue, s.futures).value;
    assert Settle(s.futures, oldest.key, Answered(answer))[oldest.key] != s.futures[oldest.key];
  }

  /** The swallowing does happen: two requests, the older given up on, one response. */
  lemma ResponseSwallowed()
    ensures var asked := Step(Step(Pending([], [], 0), Issue(Joined, false)), Issue(Joined, false));
            var after := Step(Step(asked, GiveUp(0)), Response(Joined, None, 7, true));
            after == Pending([Request(1, Joined, None)], [Cancelled, Waiting], 0)
  {
    var a, b := Request(0, Joined, None), Request(1, Joined, None);
    var given := Pending([a, b], [Cancelled, Waiting], 0);
    assert [a, b][..1] == [a] && [a][..0] == [];
    assert OfKind([a], Joined) == [a] && Without([a], 0) == [];
    assert OfKind([a, b], Joined) == [a, b] && Without([a, b], 0) == [b];
    hide OfKind, Without;
    var asked := Step(Step(Pending([], [], 0), Issue(Joined, false)), Issue(Joined, false));
    assert Step(asked, GiveUp(0)) == given;
  }

  function AnswerAll(s: Pending, kind: Kind, answers: seq<nat>): Pending
    decreases |answers|
  {
    if answers == [] then s else AnswerAll(Step(s, Response(kind, None, answers[0], true)), kind, answers[1..])
  }

  ghost predicate AllWaiting(queue: seq<Request>, futures: seq<Outcome>) {
    forall r :: r in queue ==> IsWaiting(futures, r.key)
  }

  lemma TailWaits(queue: seq<Request>, futures: seq<Outcome>, answer: nat)
    requires queue != [] && Ordered(queue) && AllWaiting(queue, futures)
    ensures IsWaiting(futures, queue[0].key)
    ensures AllWaiting(queue[1..], Settle(futures, queue[0].key, Answered(answer)))
    ensures !Listed(queue[1..], queue[0].key)
  {}

  /** A response without id to a queue that has a head. */
  lemma HeadTaken(s: Pending, kind: Kind, answer: nat)
    requires Good(s) && OfKind(s.order, kind) != []
    ensures var queue := OfKind(s.order, kind);
            var next := Step(s, Response(kind, None, answer, true));
            Good(next) && Ordered(queue) && OfKind(next.order, kind) == queue[1..] &&
            next.futures == Settle(s.futures, queue[0].key, Answered(answer))
  {
    var queue := OfKind(s.order, kind);
    OfKindOrdered(s.order, kind);
    hide Good, Ordered;
    StepKeepsGood(s, Response(kind, None, answer, true));
    hide Without, OfKind;
    OfKindWithout(s.order, kind, queue[0].key);
    WithoutHead(queue);
  }

  /** While nobody gives up, responses of one type are matched to its requests first in, first out. */
  lemma {:induction false} FirstInFirstOut(s: Pending, kind: Kind, answers: seq<nat>, i: nat)
    requires Good(s) && i < |answers| <= |OfKind(s.order, kind)| && AllWaiting(OfKind(s.order, kind), s.futures)
    ensures var key := OfKind(s.order, kind)[i].key;
            var after := AnswerAll(s, kind, answers);
            key < |after.futures| && after.futures[key] == Answered(answers[i])
    decreases |answers|
  {
    hide OfKind, Good, Step, Ordered, AllWaiting, Listed;
    var queue := OfKind(s.order, kind);
    var next := Step(s, Response(kind, None, answers[0], true));
    HeadTaken(s, kind, answers[0]);
    TailWaits(queue, s.futures, answers[0]);
    if i == 0 {
      AnsweredStays(next, kind, answers[1..], queue[0].key);
    } else {
      assert queue[i] == queue[1..][i - 1];
      FirstInFirstOut(next, kind, answers[1..], i - 1);
    }
  }

  /** Answering a type leaves alone every future that is done. */
  lemma {:induction false} AnsweredStays(s: Pending, kind: Kind, answers: seq<nat>, k: nat)
    requires Good(s) && k < |s.futures| && s.futures[k] != Waiting
    ensures var after := AnswerAll(s, kind, answers);
            k < |after.futures| && after.futures[k] == s.futures[k]
    decreases |answers|
  {
    if answers != [] {
      var e := Response(kind, None, answers[0], true);
      hide OfKind, Good, Step;
      assert Enabled(s, e);
      StepKeepsGood(s, e);
      StepSettlesOnce(s, e, k, s.futures[k]);
      AnsweredStays(Step(s, e), kind, answers[1..], k);
    }
  }
}
