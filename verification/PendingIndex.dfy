/**
 * The Python client's three pending-request indexes, updated in place. Each
 * method is proved to do to the one ordered list what PendingModel says, and to
 * keep the by-type queues and the by-id table in agreement with that list.
 */
module PendingIndexes {
  import opened Common
  import opened PendingModel

  /** Every by-type queue is the list filtered by type, none is empty, and by-id holds the outstanding ids. */
  ghost predicate Agree(byType: map<Kind, seq<Request>>, byId: map<nat, Request>, order: seq<Request>) {
    (forall k :: k in byType <==> OfKind(order, k) != []) &&
    (forall k :: k in byType ==> byType[k] == OfKind(order, k)) &&
    (forall id :: id in byId <==> WithId(order, id).Some?) &&
    (forall id :: id in byId ==> byId[id] == WithId(order, id).value)
  }

  lemma {:induction false} WithIdWithout(order: seq<Request>, r: Request, id: nat)
    requires Ordered(order) && r in order
    ensures WithId(Without(order, r.key), id) == if r.id == Some(id) then None else WithId(order, id)
  {
    var after := Without(order, r.key);
    WithoutMembers(order, r.key);
    WithoutOrdered(order, r.key);
    WithIdFinds(after, id);
    WithIdFinds(order, id);
    var before, now := WithId(order, id), WithId(after, id);
    hide Without, WithId;
    if before.Some? {
      if before.value.key == r.key || before.value.id == r.id {
        IdsAreUnique(order, before.value, r);
      }
      if now.Some? {
        IdsAreUnique(order, before.value, now.value);
      }
    }
  }

  function Queued(byType: map<Kind, seq<Request>>, r: Request): map<Kind, seq<Request>> {
    byType[r.kind := (if r.kind in byType then byType[r.kind] else []) + [r]]
  }

  function Named(byId: map<nat, Request>, r: Request): map<nat, Request> {
    if r.id.Some? then byId[r.id.value := r] else byId
  }

  lemma GrownAgree(byType: map<Kind, seq<Request>>, byId: map<nat, Request>, order: seq<Request>, r: Request)
    requires Agree(byType, byId, order)
    ensures Agree(Queued(byType, r), Named(byId, r), order + [r])
  {
    assert (order + [r])[..|order|] == order;
    forall k: Kind
      ensures OfKind(order + [r], k) == OfKind(order, k) + if r.kind == k then [r] else []
    {}
    forall id: nat
      ensures WithId(order + [r], id) == if r.id == Some(id) then Some(r) else WithId(order, id)
    {}
    hide OfKind, WithId;
    forall k: Kind
      ensures OfKind(order, k) + [] == OfKind(order, k) && (k !in byType ==> OfKind(order, k) == [])
    {}
  }

  function QueueWithout(byType: map<Kind, seq<Request>>, r: Request): map<Kind, seq<Request>> {
    if r.kind !in byType then byType
    else
      var rest := Without(byType[r.kind], r.key);
      if rest == [] then byType - {r.kind} else byType[r.kind := rest]
  }

  lemma OfKindAfter(order: seq<Request>, r: Request, kind: Kind)
    requires Ordered(order) && r in order
    ensures OfKind(Without(order, r.key), kind) ==
            if kind == r.kind then Without(OfKind(order, kind), r.key) else OfKind(order, kind)
  {
    hide OfKind, Without, Ordered;
    OfKindWithout(order, kind, r.key);
    if kind != r.kind {
      OtherKindUntouched(order, r, kind);
    }
  }

  lemma QueuesShrink(byType: map<Kind, seq<Request>>, order: seq<Request>, r: Request)
    requires Ordered(order) && r in order
    requires forall k :: k in byType <==> OfKind(order, k) != []
    requires forall k :: k in byType ==> byType[k] == OfKind(order, k)
    ensures var after := QueueWithout(byType, r);
            (forall k :: k in after <==> OfKind(Without(order, r.key), k) != []) &&
            (forall k :: k in after ==> after[k] == OfKind(Without(order, r.key), k))
  {
    OfKindMembers(order, r.kind);
    hide OfKind, Without, Ordered;
    var after := QueueWithout(byType, r);
    forall k: Kind
      ensures k in after <==> OfKind(Without(order, r.key), k) != []
      ensures k in after ==> after[k] == OfKind(Without(order, r.key), k)
    {
      OfKindAfter(order, r, k);
    }
  }

  lemma OtherKindUntouched(order: seq<Request>, r: Request, kind: Kind)
    requires Ordered(order) && r in order && kind != r.kind
    ensures Without(OfKind(order, kind), r.key) == OfKind(order, kind)
  {
    OfKindMembers(order, kind);
    var queue := OfKind(order, kind);
    hide OfKind, Ordered, Without;
    if Listed(queue, r.key) {
      var q :| q in queue && q.key == r.key;
      IdsAreUnique(order, q, r);
    }
    AbsentUntouched(queue, r.key);
  }

  lemma {:induction false} AbsentUntouched(queue: seq<Request>, key: nat)
    requires !Listed(queue, key)
    ensures Without(queue, key) == queue
  {
    if queue != [] {
      var init, last := queue[..|queue| - 1], queue[|queue| - 1];
      assert last in queue && forall r :: r in init ==> r in queue;
      AbsentUntouched(init, key);
    }
  }

  lemma ShrunkAgree(byType: map<Kind, seq<Request>>, byId: map<nat, Request>, order: seq<Request>, r: Request)
    requires Agree(byType, byId, order) && Ordered(order) && r in order
    ensures Agree(
      QueueWithout(byType, r),
      TableWithout(byId, r),
      Without(order, r.key))
  {
    QueuesShrink(byType, order, r);
    hide OfKind, Without, Ordered, QueueWithout;
    forall id: nat
      ensures WithId(Without(order, r.key), id) == if r.id == Some(id) then None else WithId(order, id)
    {
      WithIdWithout(order, r, id);
    }
    hide WithId;
  }

  function TableWithout(byId: map<nat, Request>, r: Request): map<nat, Request> {
    if r.id.Some? then byId - {r.id.value} else byId
  }

  class PendingIndex {
    var pendingByType: map<Kind, seq<Request>>
    var pendingById: map<nat, Request>
    var pendingOrder: seq<Request>
    var requestId: nat
    /** The event loop's futures, one for each request ever issued. */
    var futures: seq<Outcome>

    ghost function View(): Pending
      reads this
    {
      Pending(pendingOrder, futures, requestId)
    }

    ghost predicate Valid()
      reads this
    {
      Good(View()) && Agree(pendingByType, pendingById, pendingOrder)
    }

    constructor ()
      ensures Valid() && View() == Pending([], [], 0)
    {
      pendingByType, pendingById, pendingOrder, requestId, futures := map[], map[], [], 0, [];
    }

    /** Issues a request, with an id when the server supports them, and files it in every index. */
    method AddPending(kind: Kind, supportsRequestIds: bool) returns (pending: Request)
      requires Valid() && kind != Other
      modifies this
      ensures Valid() && View() == Step(old(View()), Issue(kind, supportsRequestIds))
      ensures pendingOrder == old(pendingOrder) + [pending] && futures[pending.key] == Waiting
    {
      ghost var added := Add(View(), kind, supportsRequestIds);
      StepKeepsGood(View(), Issue(kind, supportsRequestIds));
      assert Step(View(), Issue(kind, supportsRequestIds)) == added;
      hide Good, OfKind, WithId, Step;
      var id := None;
      if supportsRequestIds {
        requestId := requestId + 1;
        id := Some(requestId);
      }
      pending := Request(|futures|, kind, id);
      futures := futures + [Waiting];
      GrownAgree(pendingByType, pendingById, pendingOrder, pending);
      ghost var queued, named := Queued(pendingByType, pending), Named(pendingById, pending);
      hide Agree;
      assert View().(order := pendingOrder + [pending]) == added;
      pendingByType := pendingByType[kind := (if kind in pendingByType then pendingByType[kind] else []) + [pending]];
      pendingOrder := pendingOrder + [pending];
      if id.Some? {
        pendingById := pendingById[id.value := pending];
      }
      assert pendingByType == queued && pendingById == named;
    }

    /** Removes a request from whichever indexes still hold it. */
    method RemovePending(pending: Request)
      requires Ordered(pendingOrder) && Agree(pendingByType, pendingById, pendingOrder)
      requires pending in pendingOrder
      modifies this
      ensures pendingOrder == Without(old(pendingOrder), pending.key)
      ensures Agree(pendingByType, pendingById, pendingOrder)
      ensures futures == old(futures) && requestId == old(requestId)
    {
      ShrunkAgree(pendingByType, pendingById, pendingOrder, pending);
      hide Agree, OfKind, WithId, Without, Ordered;
      ghost var queues, table := QueueWithout(pendingByType, pending), TableWithout(pendingById, pending);
      if pending.kind in pendingByType {
        var queue := Without(pendingByType[pending.kind], pending.key);
        if queue == [] {
          pendingByType := pendingByType - {pending.kind};
        } else {
          pendingByType := pendingByType[pending.kind := queue];
        }
      }
      assert pendingByType == queues;
      hide QueueWithout;
      pendingOrder := Without(pendingOrder, pending.key);
      if pending.id.Some? {
        pendingById := pendingById - {pending.id.value};
      }
      assert pendingById == table;
    }

    method PendingForMessage(kind: Kind, id: Option<nat>) returns (pending: Option<Request>)
      requires Valid()
      ensures pending == Target(pendingOrder, kind, id)
    {
      if id.Some? {
        if id.value in pendingById && pendingById[id.value].kind == kind {
          return Some(pendingById[id.value]);
        }
      }
      if kind in pendingByType {
        return Some(pendingByType[kind][0]);
      }
      return None;
    }

    /** `applies` says whether the caller's own handling of the response succeeds. */
    method ResolvePending(kind: Kind, id: Option<nat>, answer: nat, applies: bool) returns (handled: bool)
      requires Valid()
      modifies this
      ensures Valid() && View() == Step(old(View()), Response(kind, id, answer, applies))
      ensures handled <==> old(Target(pendingOrder, kind, id)).Some?
    {
      StepKeepsGood(View(), Response(kind, id, answer, applies));
      TargetListed(pendingOrder, kind, id);
      var pending := PendingForMessage(kind, id);
      if pending.None? {
        return false;
      }
      hide Agree, OfKind, WithId, Without, Target;
      RemovePending(pending.value);
      var key := pending.value.key;
      if futures[key] == Waiting {
        if applies {
          futures := futures[key := Answered(answer)];
        } else {
          futures := futures[key := Failed];
        }
      }
      return true;
    }

    method RejectPending(id: Option<nat>) returns (handled: bool)
      requires Valid()
      modifies this
      ensures Valid() && View() == Step(old(View()), Error(id))
      ensures handled <==> old(ErrorTarget(pendingOrder, futures, id)).Some?
    {
      StepKeepsGood(View(), Error(id));
      ErrorTargetListed(pendingOrder, futures, id);
      ghost var target := ErrorTarget(pendingOrder, futures, id);
      var pending := None;
      if id.Some? && id.value in pendingById {
        pending := Some(pendingById[id.value]);
      }
      if pending.None? {
        var i := 0;
        while i < |pendingOrder| && pending.None?
          invariant i <= |pendingOrder|
          invariant if pending.Some? then target == pending else target == FirstWaiting(pendingOrder[i..], futures)
        {
          assert pendingOrder[i..][1..] == pendingOrder[i + 1..];
          if IsWaiting(futures, pendingOrder[i].key) {
            pending := Some(pendingOrder[i]);
          }
          i := i + 1;
        }
      }
      assert pending == target;
      if pending.None? {
        return false;
      }
      hide Agree, OfKind, WithId, Without, ErrorTarget, FirstWaiting;
      RemovePending(pending.value);
      var key := pending.value.key;
      if futures[key] == Waiting {
        futures := futures[key := Failed];
      }
      return true;
    }

    /** Clears every index first, then fails whatever was still waiting. */
    method FailPending()
      requires Valid()
      modifies this
      ensures Valid() && View() == Step(old(View()), ConnectionLost)
      ensures pendingOrder == [] && forall k: nat :: k < |futures| ==> futures[k] != Waiting
    {
      AllSettledWhenLost(View());
      var pendingRequests := pendingOrder;
      ghost var all := FailAll(pendingOrder, futures);
      hide Good;
      pendingByType := map[];
      pendingById := map[];
      pendingOrder := [];
      var i := 0;
      while i < |pendingRequests|
        invariant i <= |pendingRequests|
        invariant pendingOrder == [] && Agree(pendingByType, pendingById, pendingOrder)
        invariant requestId == old(requestId)
        invariant all == FailAll(pendingRequests[i..], futures)
      {
        assert pendingRequests[i..][1..] == pendingRequests[i + 1..];
        if IsWaiting(futures, pendingRequests[i].key) {
          futures := futures[pendingRequests[i].key := Failed];
        }
        i := i + 1;
      }
    }

    /** The caller's wait ends early: a time-out, a cancellation or a failed send. */
    method GiveUpOn(key: nat)
      requires Valid() && key < |futures|
      modifies this
      ensures Valid() && View() == Step(old(View()), GiveUp(key))
    {
      StepKeepsGood(View(), GiveUp(key));
      if futures[key] == Waiting {
        futures := futures[key := Cancelled];
      }
    }

    /** The caller's last act: its request leaves the indexes, if it is still there. */
    method FinishRequest(pending: Request)
      requires Valid() && pending.key < |futures| && futures[pending.key] != Waiting
      requires pending in pendingOrder || !Listed(pendingOrder, pending.key)
      modifies this
      ensures Valid() && View() == Step(old(View()), Finish(pending.key))
    {
      StepKeepsGood(View(), Finish(pending.key));
      hide Agree, OfKind, WithId;
      if pending in pendingOrder {
        hide Without;
        RemovePending(pending);
      } else {
        AbsentUntouched(pendingOrder, pending.key);
      }
    }
  }
}
