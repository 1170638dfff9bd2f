/**
 * The Python client as a whole: its connection and its pending requests. The
 * connection goes through the steps of PythonLifecycle, the requests through
 * those of PendingModel, in any interleaving; where the code fails all pending
 * requests in the same stretch that drops the transport, so does the step here.
 */
module PythonRequests {
  import opened Common
  import L = PythonLifecycle
  import P = PendingModel

  datatype Whole = Whole(client: L.Client, requests: P.Pending)

  const INITIAL: Whole := Whole(L.INITIAL, P.Pending([], [], 0))

  /** A stretch of connection code, or something that happens to a request. */
  datatype Event = Life(e: L.Event) | Traffic(t: P.Event)

  /** disconnect(), the loss of the current socket, and the abandonment of an open, unannounced connection. */
  predicate FailsRequests(c: L.Client, e: L.Event) {
    e.Disconnect? ||
    (e.RemoteLost? && c.ws == Some(e.socket)) ||
    (e.AbandonUnannounced? && !c.announced && L.TransportOpen(c))
  }

  /** Requests are issued only over an open transport; they are failed only with it. */
  ghost predicate Enabled(w: Whole, e: Event) {
    match e
    case Life(life) => L.Enabled(w.client, life)
    case Traffic(t) => P.Enabled(w.requests, t) && !t.ConnectionLost? && (t.Issue? ==> L.TransportOpen(w.client))
  }

  function Step(w: Whole, e: Event): Whole
    requires Enabled(w, e)
  {
    match e
    case Life(life) =>
      Whole(L.Step(w.client, life),
            if FailsRequests(w.client, life) then P.Step(w.requests, P.ConnectionLost) else w.requests)
    case Traffic(t) => w.(requests := P.Step(w.requests, t))
  }

  /** No request is in any index unless the transport is open. */
  ghost predicate Invariant(w: Whole) {
    L.Invariant(w.client) && P.Good(w.requests) && (w.requests.order != [] ==> L.TransportOpen(w.client))
  }

  /** Nothing closes an open transport without failing the requests. */
  lemma StaysOpen(c: L.Client, e: L.Event)
    requires L.Consistent(c) && L.Enabled(c, e) && L.TransportOpen(c) && !FailsRequests(c, e)
    ensures L.TransportOpen(L.Step(c, e))
  {}

  lemma LifeKeeps(w: Whole, life: L.Event)
    requires Invariant(w) && L.Enabled(w.client, life)
    ensures Invariant(Step(w, Life(life)))
  {
    L.StepKeepsInvariant(w.client, life);
    P.AllSettledWhenLost(w.requests);
    assert L.Consistent(w.client);
    hide L.Invariant, L.Consistent, L.Step, L.Enabled, P.Good, P.Step;
    if L.TransportOpen(w.client) && !FailsRequests(w.client, life) {
      StaysOpen(w.client, life);
    }
  }

  lemma TrafficListsNothingNew(s: P.Pending, t: P.Event)
    requires !t.Issue? && s.order == []
    ensures P.Step(s, t).order == []
  {}

  lemma TrafficKeeps(w: Whole, t: P.Event)
    requires Invariant(w) && Enabled(w, Traffic(t))
    ensures Invariant(Step(w, Traffic(t)))
  {
    P.StepKeepsGood(w.requests, t);
    hide L.Invariant, P.Good, P.Step;
    if !t.Issue? && w.requests.order == [] {
      TrafficListsNothingNew(w.requests, t);
    }
  }

  lemma StepKeepsInvariant(w: Whole, e: Event)
    requires Invariant(w) && Enabled(w, e)
    ensures Invariant(Step(w, e))
  {
    match e
    case Life(life) => LifeKeeps(w, life);
    case Traffic(t) => TrafficKeeps(w, t);
  }

  // ------------------------------------------------------------------------- runs

  ghost predicate IsRun(states: seq<Whole>, events: seq<Event>) {
    |states| == |events| + 1 && states[0] == INITIAL &&
    forall i :: 0 <= i < |events| ==> Enabled(states[i], events[i]) && states[i + 1] == Step(states[i], events[i])
  }

  lemma RunStep(states: seq<Whole>, events: seq<Event>, n: nat)
    requires IsRun(states, events) && n < |events|
    ensures Enabled(states[n], events[n]) && states[n + 1] == Step(states[n], events[n])
  {}

  lemma InitiallyInvariant()
    ensures Invariant(INITIAL)
  {}

  lemma {:induction false} InvariantHolds(states: seq<Whole>, events: seq<Event>, n: nat)
    requires IsRun(states, events) && n <= |events|
    ensures Invariant(states[n])
  {
    hide Invariant, Step, Enabled;
    if n == 0 {
      InitiallyInvariant();
    } else {
      RunStep(states, events, n - 1);
      InvariantHolds(states, events, n - 1);
      StepKeepsInvariant(states[n - 1], events[n - 1]);
    }
  }

  /**
   * Over every run of connection and requests together: unless the transport is
   * open, no index holds a request and no future is waiting.
   */
  lemma NothingWaitsWhenClosed(states: seq<Whole>, events: seq<Event>, n: nat)
    requires IsRun(states, events) && n <= |events| && !L.TransportOpen(states[n].client)
    ensures states[n].requests.order == []
    ensures forall key: nat :: !P.IsWaiting(states[n].requests.futures, key)
  {
    InvariantHolds(states, events, n);
    assert P.Good(states[n].requests);
    hide IsRun, L.Invariant;
  }

  /** Whatever step closes the transport fails exactly the requests that were waiting. */
  lemma ClosingFailsWaiting(states: seq<Whole>, events: seq<Event>, n: nat, key: nat)
    requires IsRun(states, events) && n < |events| && key < |states[n].requests.futures|
    requires L.TransportOpen(states[n].client) && !L.TransportOpen(states[n + 1].client)
    ensures var before, after := states[n].requests.futures, states[n + 1].requests.futures;
            |after| == |before| && after[key] == if before[key] == P.Waiting then P.Failed else before[key]
  {
    InvariantHolds(states, events, n);
    RunStep(states, events, n);
    var w, e := states[n], events[n];
    assert L.Consistent(w.client) && P.Good(w.requests);
    hide IsRun, L.Invariant, L.Consistent, L.Step, L.Enabled, P.Good, P.Step;
    P.AllSettledWhenLost(w.requests);
    if e.Life? && !FailsRequests(w.client, e.e) {
      StaysOpen(w.client, e.e);
    }
  }

  /** Nothing that happens to the connection touches a request as long as the transport stays open. */
  lemma OpenSparesRequests(w: Whole, life: L.Event)
    requires Invariant(w) && L.Enabled(w.client, life)
    requires L.TransportOpen(w.client) && L.TransportOpen(L.Step(w.client, life))
    ensures Step(w, Life(life)).requests == w.requests
  {
    if FailsRequests(w.client, life) {
      FailingCloses(w.client, life);
    }
    hide L.Step, L.Invariant, P.Step;
  }

  lemma FailingCloses(c: L.Client, e: L.Event)
    requires L.Enabled(c, e) && FailsRequests(c, e)
    ensures !L.TransportOpen(L.Step(c, e))
  {}

  lemma StepSettlesOnce(w: Whole, e: Event, key: nat, outcome: P.Outcome)
    requires Invariant(w) && Enabled(w, e) && P.HasOutcome(w.requests, key, outcome) && outcome != P.Waiting
    ensures P.HasOutcome(Step(w, e).requests, key, outcome)
  {
    assert P.Good(w.requests);
    hide L.Invariant, L.Step, P.Good, P.Step, P.HasOutcome;
    P.StepSettlesOnce(w.requests, P.ConnectionLost, key, outcome);
    if e.Traffic? {
      P.StepSettlesOnce(w.requests, e.t, key, outcome);
    }
  }

  /** Also across disconnects and reconnections the first outcome of a request is its last. */
  lemma {:induction false} SettledOnce(states: seq<Whole>, events: seq<Event>, i: nat, j: nat,
                                       key: nat, outcome: P.Outcome)
    requires IsRun(states, events) && i <= j <= |events|
    requires P.HasOutcome(states[i].requests, key, outcome) && outcome != P.Waiting
    ensures P.HasOutcome(states[j].requests, key, outcome)
    decreases j - i
  {
    hide Invariant, Step, Enabled, P.HasOutcome;
    if i < j {
      SettledOnce(states, events, i, j - 1, key, outcome);
      InvariantHolds(states, events, j - 1);
      RunStep(states, events, j - 1);
      StepSettlesOnce(states[j - 1], events[j - 1], key, outcome);
    }
  }
}
