/** The session-continue queue (internal/tasks/session_continue_queue.go): claiming,
    positions, putting back, and the reset after a crash. */
module ContinueQueue {
  import opened Wrappers
  import opened Text
  import opened Sorting

  datatype State = Pending | Dispatching | Done | Canceled | Failed

  datatype Item = Item(
    conversation: string, prompt: string, options: string, priority: int,
    state: State, createdAt: int, updatedAt: int)

  type Items = map<string, Item>

  /** ORDER BY priority DESC, created_at ASC, id ASC */
  predicate Before(items: Items, a: string, b: string)
    requires a in items && b in items
  {
    var x, y := items[a], items[b];
    || x.priority > y.priority
    || (x.priority == y.priority && x.createdAt < y.createdAt)
    || (x.priority == y.priority && x.createdAt == y.createdAt && Less(a, b))
  }

  lemma BeforeIsStrictTotalOrder(items: Items, a: string, b: string, c: string)
    requires a in items && b in items && c in items
    ensures !Before(items, a, a)
    ensures Before(items, a, b) && Before(items, b, c) ==> Before(items, a, c)
    ensures a == b || Before(items, a, b) || Before(items, b, a)
    ensures !(Before(items, a, b) && Before(items, b, a))
  {
    LessIrreflexive(a);
    LessTotal(a, b);
    if Less(a, b) { LessAsymmetric(a, b); }
    if Less(a, b) && Less(b, c) { LessTransitive(a, b, c); }
  }

  function PendingOf(items: Items, conversation: string): set<string> {
    set id | id in items && items[id].conversation == conversation && items[id].state == Pending
  }

  /** The item that claiming takes. */
  predicate First(items: Items, conversation: string, id: string) {
    && id in PendingOf(items, conversation)
    && forall k | k in items :: k in PendingOf(items, conversation) ==> k == id || Before(items, id, k)
  }

  lemma {:induction false} FirstExists(items: Items, ids: set<string>) returns (id: string)
    requires ids != {} && forall k :: k in ids ==> k in items
    ensures id in ids && forall k :: k in ids ==> k == id || Before(items, id, k)
    decreases ids
  {
    id :| id in ids;
    if ids != {id} {
      var k := FirstExists(items, ids - {id});
      forall j | j in ids { BeforeIsStrictTotalOrder(items, id, k, j); }
      if Before(items, k, id) { id := k; }
    }
  }

  lemma FirstIsUnique(items: Items, conversation: string, a: string, b: string)
    requires First(items, conversation, a) && First(items, conversation, b)
    ensures a == b
  {
    BeforeIsStrictTotalOrder(items, a, b, a);
  }

  lemma SomeFirst(items: Items, conversation: string)
    requires PendingOf(items, conversation) != {}
    ensures exists id :: First(items, conversation, id)
  {
    var id := FirstExists(items, PendingOf(items, conversation));
    assert First(items, conversation, id);
  }

  ghost function FirstOf(items: Items, conversation: string): (id: string)
    requires PendingOf(items, conversation) != {}
    ensures First(items, conversation, id)
  {
    SomeFirst(items, conversation);
    var id :| First(items, conversation, id);
    id
  }

  /** The rows the position query counts: pending, and ahead of `id` or `id` itself. */
  function Counted(items: Items, id: string): set<string>
    requires id in items
  {
    set k | k in PendingOf(items, items[id].conversation) && (k == id || Before(items, k, id))
  }

  /** None for an unknown id, 0 for an item that is neither pending nor dispatching. */
  function PositionOf(items: Items, id: string): Option<nat> {
    if id !in items then None
    else if items[id].state != Pending && items[id].state != Dispatching then Some(0)
    else Some(if |Counted(items, id)| < 1 then 1 else |Counted(items, id)|)
  }

  function AfterMark(items: Items, id: string, state: State, now: int): Items {
    if id in items then items[id := items[id].(state := state, updatedAt := now)] else items
  }

  function AfterReset(items: Items, now: int): Items {
    map id | id in items ::
      if items[id].state == Dispatching then items[id].(state := Pending, updatedAt := now) else items[id]
  }

  /** Nothing but the state and time of one item changes. */
  ghost predicate OnlyMarks(items: Items, items': Items, id: string, state: State, now: int) {
    && items'.Keys == items.Keys && id in items
    && (forall k :: k in items && k != id ==> items'[k] == items[k])
    && items'[id] == Item(items[id].conversation, items[id].prompt, items[id].options, items[id].priority, state,
                          items[id].createdAt, now)
  }

  /** The item was pending, and no pending item of the conversation has a higher priority,
      or the same and is older, or as old with a smaller id. */
  ghost predicate TakesTurn(items: Items, items': Items, conversation: string, id: string, now: int) {
    && OnlyMarks(items, items', id, Dispatching, now)
    && items[id].conversation == conversation && items[id].state == Pending
    && forall k :: k in items && items[k].conversation == conversation && items[k].state == Pending ==>
         && items[k].priority <= items[id].priority
         && (items[k].priority == items[id].priority ==> items[id].createdAt <= items[k].createdAt)
         && (items[k].priority == items[id].priority && items[id].createdAt == items[k].createdAt ==>
              id == k || Less(id, k))
  }

  lemma ClaimTakesTurn(items: Items, conversation: string, id: string, now: int)
    requires First(items, conversation, id)
    ensures TakesTurn(items, AfterMark(items, id, Dispatching, now), conversation, id, now)
  {
    forall k | k in items && items[k].conversation == conversation && items[k].state == Pending
      ensures k == id || Before(items, id, k)
    {
      assert k in PendingOf(items, conversation);
    }
  }

  /** What is ahead of an item: what has a higher priority, or the same and is older, or is
      as old and has a smaller id. */
  lemma AheadIff(items: Items, a: string, b: string)
    requires a in items && b in items
    ensures items[a].priority > items[b].priority ==> Before(items, a, b)
    ensures items[a].priority == items[b].priority && items[a].createdAt < items[b].createdAt ==> Before(items, a, b)
    ensures items[a].priority == items[b].priority && items[a].createdAt == items[b].createdAt ==>
      (Before(items, a, b) <==> Less(a, b))
  {
  }

  /** What marking and resetting do, item by item. */
  lemma MarkingIs(items: Items, id: string, state: State, now: int)
    ensures if id in items then OnlyMarks(items, AfterMark(items, id, state, now), id, state, now)
            else AfterMark(items, id, state, now) == items
  {
  }

  lemma ResettingIs(items: Items, now: int, id: string)
    ensures id in AfterReset(items, now) <==> id in items
    ensures id in items ==>
      AfterReset(items, now)[id] ==
        if items[id].state != Dispatching then items[id]
        else Item(items[id].conversation, items[id].prompt, items[id].options, items[id].priority, Pending,
                  items[id].createdAt, now)
  {
  }

  class Queue {
    var items: Items

    constructor ()
      ensures items == map[]
    {
      items := map[];
    }

    /** `id` is a fresh random id. */
    method Enqueue(id: string, conversation: string, prompt: string, options: string, priority: int, now: int)
      returns (ok: bool)
      requires id !in items
      modifies this
      ensures ok <==> conversation != "" && prompt != ""
      ensures items == if ok then old(items)[id := Item(conversation, prompt, options, priority, Pending, now, now)]
                             else old(items)
    {
      if conversation == "" || prompt == "" { return false; }
      items := items[id := Item(conversation, prompt, options, priority, Pending, now, now)];
      return true;
    }

    method ClaimNext(conversation: string, now: int) returns (claimed: Option<string>)
      modifies this
      ensures claimed.None? <==> PendingOf(old(items), conversation) == {}
      ensures claimed.None? ==> items == old(items)
      ensures claimed.Some? ==>
        && First(old(items), conversation, claimed.value)
        && items == AfterMark(old(items), claimed.value, Dispatching, now)
        && TakesTurn(old(items), items, conversation, claimed.value, now)
    {
      var pending := PendingOf(items, conversation);
      if pending == {} { return None; }
      ghost var first := FirstExists(items, pending);
      assert First(items, conversation, first);
      var id :| id in items && First(items, conversation, id);
      ClaimTakesTurn(items, conversation, id, now);
      items := items[id := items[id].(state := Dispatching, updatedAt := now)];
      return Some(id);
    }

    method Mark(id: string, state: State, now: int)
      modifies this
      ensures items == AfterMark(old(items), id, state, now)
    {
      if id in items {
        items := items[id := items[id].(state := state, updatedAt := now)];
      }
    }

    method Position(id: string) returns (p: Option<nat>)
      ensures p == PositionOf(items, id)
    {
      if id !in items { return None; }
      var item := items[id];
      if item.state != Pending && item.state != Dispatching { return Some(0); }
      var n := |set k | k in items && items[k].conversation == item.conversation && items[k].state == Pending
                        && (k == id || Before(items, k, id))|;
      assert Counted(items, id) == set k | k in items && items[k].conversation == item.conversation
               && items[k].state == Pending && (k == id || Before(items, k, id));
      if n < 1 { n := 1; }
      return Some(n);
    }

    method ResetDispatching(now: int) returns (n: nat)
      modifies this
      ensures items == AfterReset(old(items), now)
      ensures n == |set id | id in old(items) && old(items)[id].state == Dispatching|
    {
      n := |set id | id in items && items[id].state == Dispatching|;
      items := map id | id in items ::
        if items[id].state == Dispatching then items[id].(state := Pending, updatedAt := now) else items[id];
    }
  }

  // ------------------------------------------------------------- positions

  lemma PendingPosition(items: Items, id: string)
    requires id in items && items[id].state == Pending
    ensures PositionOf(items, id) == Some(|Counted(items, id)|) && |Counted(items, id)| >= 1
  {
    assert id in Counted(items, id);
    assert Counted(items, id) == (Counted(items, id) - {id}) + {id};
  }

  /** The counting query agrees with the ordering query: in any listing of the
      pending items in claiming order, the k-th has position k. */
  lemma PositionIsRank(items: Items, conversation: string, order: seq<string>, k: nat)
    requires forall id :: id in order <==> id in PendingOf(items, conversation)
    requires forall i, j :: 0 <= i < j < |order| ==>
      order[i] in items && order[j] in items && Before(items, order[i], order[j])
    requires k < |order|
    ensures PositionOf(items, order[k]) == Some(k + 1)
  {
    assert order[k] in order;
    forall i, j | 0 <= i < j < |order| ensures order[i] != order[j] {
      assert order[i] in order && order[j] in order;
      BeforeIsStrictTotalOrder(items, order[i], order[j], order[i]);
    }
    var head := order[..k + 1];
    forall id | id in Counted(items, order[k]) ensures id in head {
      assert id in order;
      var i :| 0 <= i < |order| && order[i] == id;
      if i > k { BeforeIsStrictTotalOrder(items, order[k], order[i], order[k]); }
      assert head[i] == id;
    }
    forall id | id in head ensures id in Counted(items, order[k]) {
      var i :| 0 <= i < |head| && head[i] == id;
      assert order[i] == id && id in order;
    }
    DistinctCount(head, Counted(items, order[k]));
    PendingPosition(items, order[k]);
  }

  lemma {:induction false} DistinctCount(s: seq<string>, t: set<string>)
    requires Distinct(s) && forall x :: x in s <==> x in t
    ensures |s| == |t|
  {
    if s == [] {
      if x :| x in t { assert false; }
    } else {
      assert s == [s[0]] + s[1..];
      DistinctCount(s[1..], t - {s[0]});
    }
  }

  datatype Event =
    | EnqueueItem(id: string, item: Item)
    | Claim(conversation: string, id: string, now: int)
    | MarkItem(id: string, state: State, now: int)
    | Reset(now: int)

  predicate Enabled(items: Items, e: Event) {
    match e
    case EnqueueItem(id, item) => id !in items && item.state == Pending
    case Claim(conversation, id, _) => First(items, conversation, id)
    case _ => true
  }

  function Apply(items: Items, e: Event): Items {
    match e
    case EnqueueItem(id, item) => items[id := item]
    case Claim(_, id, now) => AfterMark(items, id, Dispatching, now)
    case MarkItem(id, state, now) => AfterMark(items, id, state, now)
    case Reset(now) => AfterReset(items, now)
  }

  ghost predicate Run(qs: seq<Items>, es: seq<Event>) {
    && |qs| == |es| + 1
    && forall i :: 0 <= i < |es| ==> Enabled(qs[i], es[i]) && qs[i + 1] == Apply(qs[i], es[i])
  }

  /** Neither adds to nor takes from the conversation's pending items, claims apart. */
  predicate QuietFor(items: Items, e: Event, conversation: string) {
    match e
    case EnqueueItem(_, item) => item.conversation != conversation
    case Claim(_, _, _) => true
    case MarkItem(id, state, _) =>
      id in items && items[id].conversation == conversation ==> items[id].state != Pending && state != Pending
    case Reset(_) =>
      forall id | id in items :: items[id].conversation == conversation ==> items[id].state != Dispatching
  }

  function ClaimsOn(es: seq<Event>, conversation: string): nat {
    if es == [] then 0 else
    var last := es[|es| - 1];
    ClaimsOn(es[..|es| - 1], conversation) + (if last.Claim? && last.conversation == conversation then 1 else 0)
  }

  predicate SameRank(a: Item, b: Item) {
    a.conversation == b.conversation && a.priority == b.priority && a.createdAt == b.createdAt
  }

  /** Whatever was queued before is still there, with what it is ordered by. */
  ghost predicate SameOrder(items: Items, items': Items) {
    forall k :: k in items ==> k in items' && SameRank(items[k], items'[k])
  }

  lemma StepKeepsOrder(items: Items, e: Event)
    requires Enabled(items, e)
    ensures SameOrder(items, Apply(items, e))
  {
  }

  lemma OrderKeepsBefore(items: Items, items': Items, a: string, b: string)
    requires SameOrder(items, items') && a in items && b in items
    ensures a in items' && b in items' && (Before(items', a, b) <==> Before(items, a, b))
  {
  }

  lemma MarkKeepsPending(items: Items, id: string, state: State, now: int, conversation: string)
    requires id in items
    ensures SameOrder(items, AfterMark(items, id, state, now))
    ensures PendingOf(AfterMark(items, id, state, now), conversation)
         == if items[id].conversation != conversation then PendingOf(items, conversation)
            else if state == Pending then PendingOf(items, conversation) + {id}
            else PendingOf(items, conversation) - {id}
  {
  }

  /** What is counted for an item, when only the pending ones have changed. */
  lemma CountedThen(items: Items, items': Items, id: string, k: string)
    requires SameOrder(items, items') && id in items
    requires k in items || k !in PendingOf(items', items[id].conversation)
    ensures k in Counted(items', id)
       <==> k in PendingOf(items', items[id].conversation) && k in items && (k == id || Before(items, k, id))
  {
    if k in items { OrderKeepsBefore(items, items', k, id); }
  }

  lemma OneDown(items: Items, first: string, id: string, now: int)
    requires id in items && items[id].state == Pending
    requires first in PendingOf(items, items[id].conversation) && first != id
    ensures Counted(AfterMark(items, first, Dispatching, now), id) == Counted(items, id) - {first}
  {
    var items' := AfterMark(items, first, Dispatching, now);
    MarkKeepsPending(items, first, Dispatching, now, items[id].conversation);
    forall k ensures k in Counted(items', id) <==> k in Counted(items, id) - {first} {
      CountedThen(items, items', id, k);
    }
  }

  /** Claiming on the item's conversation takes the item when its position is 1, and
      moves it up by one otherwise. */
  lemma ClaimMovesUp(items: Items, first: string, id: string, now: int)
    requires id in items && items[id].state == Pending && First(items, items[id].conversation, first)
    ensures var items' := AfterMark(items, first, Dispatching, now);
      && (first == id <==> |Counted(items, id)| == 1)
      && (first != id ==> |Counted(items', id)| == |Counted(items, id)| - 1)
  {
    var items' := AfterMark(items, first, Dispatching, now);
    var all := Counted(items, id);
    assert id in all;
    if first == id {
      forall k | k in all ensures k == id {
        if k != id { BeforeIsStrictTotalOrder(items, id, k, id); }
      }
      assert all == {id};
    } else {
      assert Before(items, first, id) && first in all;
      OneDown(items, first, id, now);
      assert |{first, id}| == 2 && {first, id} <= all;
      assert |all| == |all - {first}| + |{first}|;
    }
  }

  /** Nothing else moves it. */
  lemma OtherStepsKeepPosition(items: Items, e: Event, id: string)
    requires Enabled(items, e) && id in items && items[id].state == Pending
    requires QuietFor(items, e, items[id].conversation)
    requires !(e.Claim? && e.conversation == items[id].conversation)
    ensures var items' := Apply(items, e);
      && id in items' && items'[id].conversation == items[id].conversation && items'[id].state == Pending
      && Counted(items', id) == Counted(items, id)
  {
    var items' := Apply(items, e);
    match e
    case EnqueueItem(k, item) =>
      SameCounted(items, items', id);
    case Claim(_, k, _) =>
      SameCounted(items, items', id);
    case MarkItem(k, _, _) =>
      SameCounted(items, items', id);
    case Reset(_) =>
      SameCounted(items, items', id);
  }

  lemma SameCounted(items: Items, items': Items, id: string)
    requires id in items && SameOrder(items, items')
    requires PendingOf(items', items[id].conversation) == PendingOf(items, items[id].conversation)
    ensures Counted(items', id) == Counted(items, id)
  {
    forall k ensures k in Counted(items', id) <==> k in Counted(items, id) {
      CountedThen(items, items', id, k);
    }
  }

  predicate ClaimsFrom(e: Event, conversation: string) {
    e.Claim? && e.conversation == conversation
  }

  /** A pending item is claimed at position 1, or keeps or improves its position; one
      that is not pending stays so. */
  lemma QuietStep(items: Items, e: Event, id: string)
    requires Enabled(items, e) && id in items && QuietFor(items, e, items[id].conversation)
    ensures var items', moves := Apply(items, e), if ClaimsFrom(e, items[id].conversation) then 1 else 0;
      && id in items' && items'[id].conversation == items[id].conversation
      && (items[id].state != Pending ==> items'[id].state != Pending)
      && (items[id].state == Pending ==>
           && PositionOf(items, id).Some? && PositionOf(items, id).value >= 1
           && (items'[id].state == Pending <==> PositionOf(items, id).value > moves)
           && (items'[id].state == Pending ==> PositionOf(items', id) == Some(PositionOf(items, id).value - moves)))
  {
    var items' := Apply(items, e);
    if items[id].state == Pending {
      PendingPosition(items, id);
      if ClaimsFrom(e, items[id].conversation) {
        ClaimMovesUp(items, e.id, id, e.now);
      } else {
        OtherStepsKeepPosition(items, e, id);
      }
      if items'[id].state == Pending { PendingPosition(items', id); }
    }
  }

  /** A pending item whose position is p is claimed by exactly the p-th claim on its
      conversation: until then it is pending and its position counts down. Claims of
      other conversations and outcomes of dispatched items may come in between. */
  lemma {:induction false} PositionCountsClaims(qs: seq<Items>, es: seq<Event>, id: string, p: nat)
    requires Run(qs, es) && PositionOf(qs[0], id) == Some(p) && qs[0][id].state == Pending
    requires forall i :: 0 <= i < |es| ==> QuietFor(qs[i], es[i], qs[0][id].conversation)
    ensures var now, claims := qs[|es|], ClaimsOn(es, qs[0][id].conversation);
      && id in now && now[id].conversation == qs[0][id].conversation
      && (now[id].state == Pending <==> claims < p)
      && (now[id].state == Pending ==> PositionOf(now, id) == Some(p - claims))
    decreases |es|
  {
    PendingPosition(qs[0], id);
    if es != [] {
      var n := |es| - 1;
      var early := es[..n];
      assert Run(qs[..n + 1], early);
      PositionCountsClaims(qs[..n + 1], early, id, p);
      assert qs[n + 1] == Apply(qs[n], es[n]) && QuietFor(qs[n], es[n], qs[0][id].conversation);
      QuietStep(qs[n], es[n], id);
    }
  }

  /** Claiming an item and putting it back leaves every item where it was. */
  lemma PuttingBackKeepsRanks(items: Items, conversation: string, id: string, now: int, later: int, k: string)
    requires First(items, conversation, id) && k in items
    ensures PositionOf(AfterMark(AfterMark(items, id, Dispatching, now), id, Pending, later), k) == PositionOf(items, k)
  {
    var taken := AfterMark(items, id, Dispatching, now);
    var back := AfterMark(taken, id, Pending, later);
    MarkKeepsPending(items, id, Dispatching, now, items[k].conversation);
    MarkKeepsPending(taken, id, Pending, later, items[k].conversation);
    assert PendingOf(back, items[k].conversation) == PendingOf(items, items[k].conversation);
    SameCounted(items, back, k);
  }

  /** Whatever happens between two moments of a run, the order of the items there at
      the first of them does not change. */
  lemma {:induction false} RunKeepsOrder(qs: seq<Items>, es: seq<Event>, i: nat, j: nat)
    requires Run(qs, es) && i <= j <= |es|
    ensures SameOrder(qs[i], qs[j])
    decreases j
  {
    if i < j {
      RunKeepsOrder(qs, es, i, j - 1);
      assert qs[j] == Apply(qs[j - 1], es[j - 1]);
      StepKeepsOrder(qs[j - 1], es[j - 1]);
    }
  }

  /** So an item that is put back, however long after its claim, is behind exactly
      those of the old items still pending that were ahead of it before. */
  lemma PutBackAtItsRank(qs: seq<Items>, es: seq<Event>, i: nat, j: nat, id: string, k: string)
    requires Run(qs, es) && i <= j < |es| && id in qs[i] && First(qs[i], qs[i][id].conversation, id)
    requires es[j].MarkItem? && es[j].id == id && es[j].state == Pending
    requires k in qs[i] && k in PendingOf(qs[j + 1], qs[i][id].conversation)
    ensures id in PendingOf(qs[j + 1], qs[i][id].conversation)
    ensures k in Counted(qs[j + 1], id) <==> k == id || Before(qs[i], k, id)
  {
    RunKeepsOrder(qs, es, i, j);
    RunKeepsOrder(qs, es, i, j + 1);
    assert qs[j + 1] == Apply(qs[j], es[j]);
    CountedThen(qs[i], qs[j + 1], id, k);
  }

  /** While an item is being dispatched its position counts only the others ahead,
      so it reads one lower than after being put back, except at the very front. */
  lemma DispatchingPosition(items: Items, id: string, now: int)
    requires id in items && items[id].state == Dispatching
    ensures var back := AfterMark(items, id, Pending, now);
      && PositionOf(back, id) == Some(|Counted(items, id)| + 1)
      && PositionOf(items, id) == Some(if Counted(items, id) == {} then 1 else |Counted(items, id)|)
  {
    var back := AfterMark(items, id, Pending, now);
    OneUp(items, id, now);
    assert id !in Counted(items, id);
    PendingPosition(back, id);
  }

  lemma OneUp(items: Items, id: string, now: int)
    requires id in items && items[id].state == Dispatching
    ensures Counted(AfterMark(items, id, Pending, now), id) == Counted(items, id) + {id}
  {
    var back := AfterMark(items, id, Pending, now);
    MarkKeepsPending(items, id, Pending, now, items[id].conversation);
    forall k ensures k in Counted(back, id) <==> k in Counted(items, id) + {id} {
      CountedThen(items, back, id, k);
    }
  }

  // ------------------------------------------------------- claims are exclusive

  predicate Releases(e: Event, id: string) {
    (e.MarkItem? && e.id == id && e.state == Pending) || e.Reset?
  }

  lemma {:induction false} StaysTaken(qs: seq<Items>, es: seq<Event>, i: nat, j: nat, id: string)
    requires Run(qs, es) && i <= j <= |es|
    requires id in qs[i] && qs[i][id].state != Pending
    requires forall k :: i <= k < j ==> !Releases(es[k], id)
    ensures id in qs[j] && qs[j][id].state != Pending
    decreases j
  {
    if i < j {
      StaysTaken(qs, es, i, j - 1, id);
      assert qs[j] == Apply(qs[j - 1], es[j - 1]);
    }
  }

  /** However drains interleave, between two claims of the same item somebody put it
      back to pending or the queue was reset. */
  lemma NoDoubleClaim(qs: seq<Items>, es: seq<Event>, i: nat, j: nat)
    requires Run(qs, es) && i < j < |es|
    requires es[i].Claim? && es[j].Claim? && es[i].id == es[j].id
    ensures exists k :: i < k < j && Releases(es[k], es[i].id)
  {
    var id := es[i].id;
    assert qs[i + 1] == Apply(qs[i], es[i]) && id in qs[i];
    if forall k :: i < k < j ==> !Releases(es[k], id) {
      StaysTaken(qs, es, i + 1, j, id);
    }
  }

  /** After a crash the reset makes every dispatching item claimable again, at the
      rank it had, and changes no other item. */
  lemma ResetReleasesEverything(items: Items, now: int, id: string)
    requires id in items
    ensures var after := AfterReset(items, now);
      && id in after && after[id].state != Dispatching
      && (items[id].state == Dispatching ==> id in PendingOf(after, items[id].conversation))
      && (items[id].state != Dispatching ==> after[id] == items[id])
      && forall k :: k in items ==> (Before(after, k, id) <==> Before(items, k, id))
  {
  }
}
