/**
 * The server's cache of container listings (src/server/terminal-server.ts): one
 * query at a time, shared by everyone who asks meanwhile, and its result, good or
 * bad, kept for a second.
 */
module ContainerListing {
  import opened Common

  type Listing = seq<string>

  const CACHE_TTL_MS: nat := 1000

  datatype Cache = Cache(containers: Listing, expiresAt: nat)

  datatype Query = Query(start: nat, outcome: Option<Finished>)

  /** A query's end, and its listing unless it failed. */
  datatype Finished = Finished(at: nat, listing: Option<Listing>)

  /** What a caller is given: a listing at once, or the promise of a query. */
  datatype Answer = Now(containers: Listing) | Later(query: nat)

  /** `queries` and `answers` record every query started and every caller answered. */
  datatype State = State(
    now: nat,
    cache: Option<Cache>,
    inFlight: Option<nat>,
    queries: seq<Query>,
    answers: seq<Answer>)

  const INITIAL: State := State(0, None, None, [], [])

  datatype Event = Pass(ms: nat) | Ask | Settle(listing: Option<Listing>) | Release

  function AskFor(s: State): (r: (State, Answer)) {
    if s.cache.Some? && s.cache.value.expiresAt > s.now then
      var a := Now(s.cache.value.containers);
      (s.(answers := s.answers + [a]), a)
    else if s.inFlight.Some? then
      var a := Later(s.inFlight.value);
      (s.(answers := s.answers + [a]), a)
    else
      var a := Later(|s.queries|);
      (s.(inFlight := Some(|s.queries|), queries := s.queries + [Query(s.now, None)], answers := s.answers + [a]), a)
  }

  /** What everyone who waits for a query is finally sent. */
  function Shown(f: Finished): Listing {
    if f.listing.Some? then f.listing.value else []
  }

  ghost predicate Running(s: State, q: nat) {
    q < |s.queries| && s.queries[q].outcome.None?
  }

  ghost predicate Enabled(s: State, e: Event) {
    match e
    case Settle(_) => s.inFlight.Some? && Running(s, s.inFlight.value)
    case Release => s.inFlight.Some? && !Running(s, s.inFlight.value)
    case _ => true
  }

  function Finish(s: State, listing: Option<Listing>): State
    requires s.inFlight.Some? && s.inFlight.value < |s.queries|
  {
    var q := s.inFlight.value;
    var f := Finished(s.now, listing);
    s.(queries := s.queries[q := s.queries[q].(outcome := Some(f))],
       cache := Some(Cache(Shown(f), s.now + CACHE_TTL_MS)))
  }

  function Step(s: State, e: Event): State
    requires Enabled(s, e)
  {
    match e
    case Pass(ms) => s.(now := s.now + ms)
    case Ask => AskFor(s).0
    case Settle(listing) => Finish(s, listing)
    case Release => s.(inFlight := None)
  }

  // -------------------------------------------------------------------- invariant

  /** `b` started a second or more after `a` ended. */
  ghost predicate Follows(a: Query, b: Query) {
    a.outcome.Some? && a.outcome.value.at + CACHE_TTL_MS <= b.start
  }

  ghost predicate Spaced(queries: seq<Query>) {
    forall j, k :: 0 <= j < k < |queries| ==> Follows(queries[j], queries[k])
  }

  ghost predicate InOrder(q: Query, now: nat) {
    q.start <= now && (q.outcome.Some? ==> q.start <= q.outcome.value.at <= now)
  }

  ghost predicate Known(a: Answer, queries: seq<Query>) {
    match a
    case Later(q) => q < |queries|
    case Now(containers) =>
      exists q :: 0 <= q < |queries| && queries[q].outcome.Some? && Shown(queries[q].outcome.value) == containers
  }

  ghost predicate Invariant(s: State) {
    Spaced(s.queries) &&
    (forall k :: 0 <= k < |s.queries| ==> InOrder(s.queries[k], s.now)) &&
    (s.inFlight.Some? ==> s.inFlight.value + 1 == |s.queries|) &&
    (s.queries != [] && s.inFlight.None? ==> s.queries[|s.queries| - 1].outcome.Some?) &&
    (s.cache.None? ==> |s.queries| <= 1 && (s.queries != [] ==> s.queries[0].outcome.None?)) &&
    (s.cache.Some? ==>
      exists f: Finished :: LastFinished(s, f) && s.cache.value == Cache(Shown(f), f.at + CACHE_TTL_MS)) &&
    forall i :: 0 <= i < |s.answers| ==> Known(s.answers[i], s.queries)
  }

  /** `f` is how the latest finished query ended. */
  ghost predicate LastFinished(s: State, f: Finished) {
    var n := |s.queries|;
    (n > 0 && s.queries[n - 1].outcome == Some(f)) ||
    (n > 1 && s.queries[n - 1].outcome.None? && s.queries[n - 2].outcome == Some(f))
  }

  lemma KnownStays(a: Answer, queries: seq<Query>, more: seq<Query>)
    requires Known(a, queries) && |queries| <= |more|
    requires forall k :: 0 <= k < |queries| && queries[k].outcome.Some? ==> more[k] == queries[k]
    ensures Known(a, more)
  {}

  lemma QueryStarts(s: State)
    requires Invariant(s) && s.inFlight.None? && (s.cache.Some? ==> s.cache.value.expiresAt <= s.now)
    ensures Spaced(s.queries + [Query(s.now, None)])
  {}

  lemma AskKeeps(s: State)
    requires Invariant(s)
    ensures Invariant(AskFor(s).0)
  {
    var after := AskFor(s).0;
    forall i | 0 <= i < |s.answers|
      ensures Known(s.answers[i], after.queries)
    {
      KnownStays(s.answers[i], s.queries, after.queries);
    }
    if s.cache.Some? {
      var f: Finished :| LastFinished(s, f) && s.cache.value == Cache(Shown(f), f.at + CACHE_TTL_MS);
      assert LastFinished(after, f);
      CachedIsKnown(s, f);
    }
    if |after.queries| > |s.queries| {
      QueryStarts(s);
    }
    hide Spaced, Known, LastFinished;
  }

  lemma CachedIsKnown(s: State, f: Finished)
    requires LastFinished(s, f)
    ensures Known(Now(Shown(f)), s.queries)
  {}

  lemma SettleKeeps(s: State, listing: Option<Listing>)
    requires Invariant(s) && Enabled(s, Settle(listing))
    ensures Invariant(Finish(s, listing))
  {
    var after := Finish(s, listing);
    assert LastFinished(after, Finished(s.now, listing));
    forall i | 0 <= i < |s.answers|
      ensures Known(s.answers[i], after.queries)
    {
      KnownStays(s.answers[i], s.queries, after.queries);
    }
  }

  lemma QuietStepKeeps(s: State, e: Event)
    requires Invariant(s) && Enabled(s, e) && (e.Pass? || e.Release?)
    ensures Invariant(Step(s, e))
  {}

  lemma StepKeepsInvariant(s: State, e: Event)
    requires Invariant(s) && Enabled(s, e)
    ensures Invariant(Step(s, e))
  {
    match e
    case Ask => AskKeeps(s);
    case Settle(listing) => SettleKeeps(s, listing);
    case Pass(_) => QuietStepKeeps(s, e);
    case Release => QuietStepKeeps(s, e);
  }

  ghost predicate IsRun(states: seq<State>, events: seq<Event>) {
    |states| == |events| + 1 && states[0] == INITIAL &&
    forall i :: 0 <= i < |events| ==> Enabled(states[i], events[i]) && states[i + 1] == Step(states[i], events[i])
  }

  lemma {:induction false} InvariantHolds(states: seq<State>, events: seq<Event>, n: nat)
    requires IsRun(states, events) && n <= |events|
    ensures Invariant(states[n])
  {
    if n > 0 {
      InvariantHolds(states, events, n - 1);
      assert Enabled(states[n - 1], events[n - 1]) && states[n - 1 + 1] == Step(states[n - 1], events[n - 1]);
      hide Invariant, Step, Enabled;
      StepKeepsInvariant(states[n - 1], events[n - 1]);
    }
  }

  // --------------------------------------------------------------------- the rate

  /** At most one query runs at a time. */
  lemma OneAtATime(states: seq<State>, events: seq<Event>, n: nat, p: nat, q: nat)
    requires IsRun(states, events) && n <= |events| && Running(states[n], p) && Running(states[n], q)
    ensures p == q && states[n].inFlight == Some(q)
  {
    InvariantHolds(states, events, n);
    var s := states[n];
    var last := |s.queries| - 1;
    assert forall k :: 0 <= k < last ==> Follows(s.queries[k], s.queries[last]);
  }

  /** Queries started between `from` and `to`. */
  ghost function StartedBetween(queries: seq<Query>, from: int, to: int): nat {
    if queries == [] then 0
    else
      var last := queries[|queries| - 1];
      StartedBetween(queries[..|queries| - 1], from, to) + if from <= last.start <= to then 1 else 0
  }

  lemma {:induction false} NoneAfter(queries: seq<Query>, from: int, to: int, last: int)
    requires forall k :: 0 <= k < |queries| ==> queries[k].start <= last
    ensures last < from ==> StartedBetween(queries, from, to) == 0
    ensures last <= to ==> StartedBetween(queries, from, to) == StartedBetween(queries, from, last)
  {
    if queries != [] {
      NoneAfter(queries[..|queries| - 1], from, to, last);
    }
  }

  lemma {:induction false} SpacedRate(queries: seq<Query>, now: nat, from: int, to: int)
    requires Spaced(queries) && from <= to
    requires forall i :: 0 <= i < |queries| ==> InOrder(queries[i], now)
    ensures StartedBetween(queries, from, to) <= (to - from) / CACHE_TTL_MS + 1
    decreases |queries|
  {
    if queries != [] {
      var init, last := queries[..|queries| - 1], queries[|queries| - 1];
      SpacedRate(init, now, from, to);
      if from <= last.start <= to {
        var before := last.start - CACHE_TTL_MS;
        forall k | 0 <= k < |init|
          ensures init[k].start <= before
        {
          assert Follows(queries[k], last) && InOrder(queries[k], now);
        }
        NoneAfter(init, from, to, before);
        if from <= before {
          SpacedRate(init, now, from, before);
        }
      }
    }
  }

  /** Any stretch of L milliseconds sees at most L / 1000, rounded down, plus one queries start. */
  lemma QueryRate(states: seq<State>, events: seq<Event>, n: nat, from: nat, length: nat)
    requires IsRun(states, events) && n <= |events|
    ensures StartedBetween(states[n].queries, from, from + length) <= length / 1000 + 1
  {
    InvariantHolds(states, events, n);
    SpacedRate(states[n].queries, states[n].now, from, from + length);
  }

  // ------------------------------------------------------------------ the answers

  /** What the `i`th caller has been sent, once its query has ended. */
  ghost function Received(s: State, i: nat): Option<Listing>
    requires i < |s.answers| && Known(s.answers[i], s.queries)
  {
    match s.answers[i]
    case Now(containers) => Some(containers)
    case Later(q) => if s.queries[q].outcome.Some? then Some(Shown(s.queries[q].outcome.value)) else None
  }

  /** Every caller answered so far was answered from, or with, a query of the run. */
  lemma AnswersKnown(states: seq<State>, events: seq<Event>, n: nat, caller: nat)
    requires IsRun(states, events) && n <= |events| && caller < |states[n].answers|
    ensures Known(states[n].answers[caller], states[n].queries)
  {
    InvariantHolds(states, events, n);
  }

  lemma RunStep(states: seq<State>, events: seq<Event>, n: nat)
    requires IsRun(states, events) && n < |events|
    ensures Enabled(states[n], events[n]) && states[n + 1] == Step(states[n], events[n])
  {}

  /** A caller's answer never changes, and neither does a query once it has ended. */
  ghost predicate Lasting(s: State, later: State) {
    s.answers <= later.answers && |s.queries| <= |later.queries| &&
    forall q :: 0 <= q < |s.queries| && s.queries[q].outcome.Some? ==> later.queries[q] == s.queries[q]
  }

  lemma StepLasts(s: State, e: Event)
    requires Enabled(s, e)
    ensures Lasting(s, Step(s, e))
  {}

  lemma {:induction false} RunLasts(states: seq<State>, events: seq<Event>, m: nat, n: nat)
    requires IsRun(states, events) && m <= n <= |events|
    ensures Lasting(states[m], states[n])
    decreases n - m
  {
    if m < n {
      hide Enabled, Step;
      RunLasts(states, events, m, n - 1);
      RunStep(states, events, n - 1);
      hide IsRun;
      StepLasts(states[n - 1], events[n - 1]);
    }
  }

  /** What a caller has been sent is final. */
  lemma ReceivedIsFinal(states: seq<State>, events: seq<Event>, m: nat, n: nat, caller: nat)
    requires IsRun(states, events) && m <= n <= |events| && caller < |states[m].answers|
    ensures caller < |states[n].answers| && states[n].answers[caller] == states[m].answers[caller]
    ensures Known(states[m].answers[caller], states[m].queries) && Known(states[n].answers[caller], states[n].queries)
    ensures Received(states[m], caller).Some? ==> Received(states[n], caller) == Received(states[m], caller)
  {
    RunLasts(states, events, m, n);
    AnswersKnown(states, events, m, caller);
    AnswersKnown(states, events, n, caller);
    hide IsRun;
  }

  lemma QueryStaysInFlight(s: State, e: Event)
    requires Enabled(s, e) && s.inFlight.Some? && e != Release
    ensures Step(s, e).inFlight == s.inFlight && |Step(s, e).queries| == |s.queries|
  {}

  lemma {:induction false} QueryInFlight(states: seq<State>, events: seq<Event>, i: nat, j: nat)
    requires IsRun(states, events) && i <= j <= |events| && states[i].inFlight.Some?
    requires forall k :: i <= k < j ==> events[k] != Release
    ensures states[j].inFlight == states[i].inFlight && |states[j].queries| == |states[i].queries|
    decreases j - i
  {
    if i < j {
      hide Enabled, Step;
      QueryInFlight(states, events, i, j - 1);
      RunStep(states, events, j - 1);
      hide IsRun;
      QueryStaysInFlight(states[j - 1], events[j - 1]);
    }
  }

  lemma AskedOfQuery(s: State)
    requires AskFor(s).1.Later?
    ensures var (after, a) := AskFor(s);
            after.inFlight == Some(a.query) && after.answers == s.answers + [a] &&
            (s.inFlight.Some? ==> a.query == s.inFlight.value && |after.queries| == |s.queries|)
  {}

  /**
   * Coalescing, over any run: two callers who ask while a query is not yet released, and are not
   * answered from the cache, get the same query, no second one is started for
   * them, and at every later moment they have been sent the same listing.
   */
  lemma CoalescedCallersAgree(states: seq<State>, events: seq<Event>, i: nat, j: nat, n: nat)
    requires IsRun(states, events) && i < j < n <= |events| && events[i] == Ask && events[j] == Ask
    requires forall k :: i < k < j ==> events[k] != Release
    requires AskFor(states[i]).1.Later? && AskFor(states[j]).1.Later?
    ensures AskFor(states[i]).1 == AskFor(states[j]).1
    ensures |states[j + 1].queries| == |states[i + 1].queries|
    ensures var a, b := |states[i].answers|, |states[j].answers|;
            a < b < |states[n].answers| && states[n].answers[a] == states[n].answers[b] == AskFor(states[i]).1 &&
            Known(states[n].answers[a], states[n].queries) && Received(states[n], a) == Received(states[n], b)
  {
    var a, b := |states[i].answers|, |states[j].answers|;
    RunStep(states, events, i);
    RunStep(states, events, j);
    AskedOfQuery(states[i]);
    AskedOfQuery(states[j]);
    hide AskFor, Received;
    QueryInFlight(states, events, i + 1, j);
    RunLasts(states, events, i + 1, j);
    ReceivedIsFinal(states, events, i + 1, n, a);
    ReceivedIsFinal(states, events, j + 1, n, b);
  }

  /** A caller answered from the cache gets the latest finished listing, less than a second old. */
  lemma CachedAnswerIsRecent(s: State)
    requires Invariant(s) && AskFor(s).1.Now?
    ensures exists f: Finished :: LastFinished(s, f) && AskFor(s).1 == Now(Shown(f)) && s.now < f.at + CACHE_TTL_MS
  {}

  /** Once a query is released, and its listing is no longer fresh, the next caller starts a query of its own. */
  lemma ReleaseAllowsNextQuery(s: State, ms: nat)
    requires Invariant(s) && Enabled(s, Release)
    requires s.cache.Some? && s.now + ms >= s.cache.value.expiresAt
    ensures var released := Step(s, Release);
      var later := Step(released, Pass(ms));
      released.queries == s.queries && released.cache == s.cache && later.now == s.now + ms &&
      AskFor(later).1 == Later(|s.queries|) && |AskFor(later).0.queries| == |s.queries| + 1
  {
    hide Spaced, Known;
  }

  /** What a query that ended with `listing`, or failed, is worth to those who asked. */
  ghost predicate Worth(containers: Listing, listing: Option<Listing>) {
    containers == if listing.Some? then listing.value else []
  }

  /**
   * Whoever asks is answered from the latest finished query exactly when that ended less than a
   * second ago, with its listing or, if it failed, with none; otherwise with the
   * promise of the query in flight, or of a new one.
   */
  lemma AskedIsAnswered(s: State)
    requires Invariant(s)
    ensures var (after, a) := AskFor(s);
      Step(s, Ask) == after && after.answers == s.answers + [a] &&
      (a.Now? <==> exists f: Finished :: LastFinished(s, f) && s.now < f.at + 1000) &&
      (a.Now? ==> exists f: Finished :: LastFinished(s, f) && s.now < f.at + 1000 && Worth(a.containers, f.listing)) &&
      (a.Later? && s.inFlight.Some? ==> a.query == s.inFlight.value && after.queries == s.queries) &&
      (a.Later? && s.inFlight.None? ==>
        a.query == |s.queries| && after.queries == s.queries + [Query(s.now, None)] && after.inFlight == Some(a.query)) &&
      (a.Now? ==> after.queries == s.queries && after.inFlight == s.inFlight)
  {
    forall f: Finished | LastFinished(s, f)
      ensures s.cache == Some(Cache(Shown(f), f.at + 1000))
    {
      LastFinishedIsCached(s, f);
    }
    hide Spaced, Known;
  }

  lemma LastFinishedIsCached(s: State, f: Finished)
    requires Invariant(s) && LastFinished(s, f)
    ensures s.cache == Some(Cache(Shown(f), f.at + 1000))
  {
    hide Spaced, Known;
  }

  /**
   * Over any run: whoever was promised query `q` has been sent what that query ended with, its
   * listing or none, in every state after it ended.
   */
  lemma PromiseIsKept(states: seq<State>, events: seq<Event>, j: nat, n: nat, q: nat, listing: Option<Listing>,
                      caller: nat)
    requires IsRun(states, events) && j < n <= |events|
    requires events[j] == Settle(listing) && states[j].inFlight == Some(q)
    requires caller < |states[n].answers| && states[n].answers[caller] == Later(q)
    ensures Known(states[n].answers[caller], states[n].queries)
    ensures Received(states[n], caller).Some? && Worth(Received(states[n], caller).value, listing)
  {
    RunStep(states, events, j);
    AnswersKnown(states, events, n, caller);
    RunLasts(states, events, j + 1, n);
    hide IsRun;
    assert states[j + 1].queries[q].outcome == Some(Finished(states[j].now, listing));
  }

  // -------------------------------------------------------------------- the class

  class ContainerLists {
    var containerListCache: Option<Cache>
    var containerListInFlight: Option<nat>
    /** The environment: the clock, the queries started and the callers answered. */
    var clock: nat
    var queries: seq<Query>
    var answers: seq<Answer>

    ghost function View(): State
      reads this
    {
      State(clock, containerListCache, containerListInFlight, queries, answers)
    }

    constructor ()
      ensures View() == INITIAL && Invariant(View())
    {
      containerListCache, containerListInFlight, clock, queries, answers := None, None, 0, [], [];
    }

    method GetContainerList() returns (answer: Answer)
      requires Invariant(View())
      modifies this
      ensures (View(), answer) == AskFor(old(View())) && Invariant(View())
    {
      AskKeeps(View());
      hide Invariant;
      if containerListCache.Some? && containerListCache.value.expiresAt > clock {
        answer := Now(containerListCache.value.containers);
      } else if containerListInFlight.Some? {
        answer := Later(containerListInFlight.value);
      } else {
        var request := |queries|;
        queries := queries + [Query(clock, None)];
        containerListInFlight := Some(request);
        answer := Later(request);
      }
      answers := answers + [answer];
    }

    /** A failure is cached as an empty listing for as long as a success. */
    method QuerySettled(listing: Option<Listing>)
      requires Invariant(View()) && Enabled(View(), Settle(listing))
      modifies this
      ensures View() == Step(old(View()), Settle(listing)) && Invariant(View())
    {
      SettleKeeps(View(), listing);
      hide Invariant;
      var q := containerListInFlight.value;
      queries := queries[q := queries[q].(outcome := Some(Finished(clock, listing)))];
      if listing.Some? {
        containerListCache := Some(Cache(listing.value, clock + CACHE_TTL_MS));
      } else {
        containerListCache := Some(Cache([], clock + CACHE_TTL_MS));
      }
    }

    method QueryReleased(request: nat)
      requires Invariant(View()) && request < |queries| && queries[request].outcome.Some?
      modifies this
      ensures Invariant(View())
      ensures View() == if old(containerListInFlight) == Some(request) then Step(old(View()), Release) else old(View())
    {
      if containerListInFlight == Some(request) {
        QuietStepKeeps(View(), Release);
        hide Invariant;
        containerListInFlight := None;
      }
    }
  }
}
