/**
 Whole runs of the ingest queue (src/qorme/ingest/queue.py): producers put items at any moment, and
 the worker proceeds by single accesses to the two queues, in any interleaving with them. Moving a
 delayed item is two accesses, so that a producer can take the slot the item came from.
 */
module IngestRuns {
  import opened Basics
  import opened IngestQueue

  /** What the worker is doing. The cutoff is the time _flush_pqueue read when it began. */
  datatype Phase = Resting | Moving(all: bool, thenTake: bool, cutoff: int) | Taking(all: bool)

  /** A batch the worker took: sent when every item could be appended, dropped by an exception otherwise. */
  datatype Batch<T> = Batch(items: seq<Item<T>>, at: int, all: bool, sent: bool)

  /**
   accepted lists the items for which enqueue or enqueue_after returned True, entered the FIFO's
   arrivals; held is the entry taken off the delayed queue and not yet placed; lost are those whose
   put-back raised.
   */
  datatype History<T> = History(pipe: Pipe<T>, held: Option<Delayed<T>>, phase: Phase, open: seq<Item<T>>,
                                batches: seq<Batch<T>>, accepted: seq<Item<T>>, entered: seq<Item<T>>,
                                lost: seq<Item<T>>, clock: int, stopped: bool)

  datatype Action<T> =
    | Put(item: Item<T>)
    | PutAfter(item: Item<T>, delay: int, rank: int)
    | StartMoving           // line 131
    | StartFlush(all: bool) // line 136
    | Work                  // the worker's next access to the queues

  datatype Step<T> = Step(action: Action<T>, now: int)

  function Start<T>(now: int): History<T> {
    History(Pipe([], []), None, Resting, [], [], [], [], [], now, false)
  }

  /** The end of a batch: an empty one is not handed over. */
  function Close<T>(h: History<T>, items: seq<Item<T>>, all: bool, sent: bool): History<T> {
    h.(phase := Resting, open := [],
       batches := if items == [] then h.batches else h.batches + [Batch(items, h.clock, all, sent)])
  }

  /** The end of _flush_pqueue. */
  function StopMoving<T>(h: History<T>): History<T>
    requires h.phase.Moving?
  {
    h.(phase := if h.phase.thenTake then Taking(h.phase.all) else Resting)
  }

  /** Whether the held entry has to go back to the delayed queue. */
  predicate GoesBack<T>(l: Limits, h: History<T>)
    requires h.phase.Moving? && h.held.Some?
  {
    (!h.phase.all && h.held.value.due > h.phase.cutoff) || Full(|h.pipe.q|, l.queueMax)
  }

  /** A put-back that finds the delayed queue full raises, and _flush_pqueue with it. */
  function PutBack<T>(l: Limits, h: History<T>): History<T>
    requires h.phase.Moving? && h.held.Some?
  {
    var d := h.held.value;
    if Full(|h.pipe.pq|, l.pqueueMax) then h.(held := None, lost := h.lost + [d.item], phase := Resting)
    else StopMoving(h.(held := None, pipe := h.pipe.(pq := Insert(h.pipe.pq, d))))
  }

  function MoveHeld<T>(l: Limits, h: History<T>): History<T>
    requires h.phase.Moving? && h.held.Some?
  {
    var item := h.held.value.item;
    if GoesBack(l, h) then PutBack(l, h)
    else h.(held := None, pipe := h.pipe.(q := h.pipe.q + [item]), entered := h.entered + [item])
  }

  function WorkOne<T>(l: Limits, h: History<T>): History<T> {
    match h.phase
    case Resting => h
    case Moving(_, _, _) =>
      if h.held.Some? then MoveHeld(l, h)
      else if h.pipe.pq == [] then StopMoving(h)
      else h.(held := Some(h.pipe.pq[0]), pipe := h.pipe.(pq := h.pipe.pq[1..]))
    case Taking(all) =>
      if h.pipe.q == [] || (!all && |h.open| == l.batchMax) then Close(h, h.open, all, true)
      else
        var h' := h.(pipe := h.pipe.(q := h.pipe.q[1..]));
        if Typed(h.pipe.q[0]) then h'.(open := h.open + [h.pipe.q[0]])
        else Close(h', h.open + [h.pipe.q[0]], all, false)
  }

  function Act<T>(l: Limits, h: History<T>, a: Action<T>): History<T> {
    match a
    case Put(item) =>
      if Full(|h.pipe.q|, l.queueMax) then h
      else h.(pipe := h.pipe.(q := h.pipe.q + [item]), accepted := h.accepted + [item], entered := h.entered + [item])
    case PutAfter(item, delay, rank) =>
      if Full(|h.pipe.pq|, l.pqueueMax) then h
      else h.(pipe := h.pipe.(pq := Insert(h.pipe.pq, Delayed(h.clock + delay, rank, item))),
              accepted := h.accepted + [item])
    case StartMoving => if h.phase.Resting? then h.(phase := Moving(false, false, h.clock)) else h
    case StartFlush(all) =>
      if h.phase.Resting? then h.(phase := Moving(all, true, h.clock), stopped := h.stopped || all) else h
    case Work => WorkOne(l, h)
  }

  function Run<T>(l: Limits, start: int, steps: seq<Step<T>>): History<T> {
    if steps == [] then Start(start)
    else
      var s := steps[|steps| - 1];
      Act(l, Run(l, start, steps[..|steps| - 1]).(clock := s.now), s.action)
  }

  /** Everything in the batches, in order. */
  function Flatten<T>(batches: seq<Batch<T>>): seq<Item<T>> {
    if batches == [] then [] else Flatten(batches[..|batches| - 1]) + batches[|batches| - 1].items
  }

  // ---------------------------------------------------------------- a flush nobody interrupts

  /** The worker's accesses to the end of what it is doing. */
  function Finish<T>(l: Limits, h: History<T>): History<T>
    decreases if h.phase.Moving? then 2 else if h.phase.Taking? then 1 else 0,
              if h.phase.Moving? then |h.pipe.pq| else |h.pipe.q|,
              if h.held.Some? then 1 else 0
  {
    if h.phase.Resting? then h else Finish(l, WorkOne(l, h))
  }

  lemma InsertFirst<T>(pq: seq<Delayed<T>>)
    requires ByDeadline(pq) && pq != []
    ensures Insert(pq[1..], pq[0]) == pq
  {
    assert pq == [pq[0]] + pq[1..];
    assert |pq| > 1 ==> NotAfter(pq[0], pq[1]);
  }

  /** Taking an entry and placing it is one move, when nobody comes in between. */
  lemma TwoAccesses<T>(l: Limits, h: History<T>) returns (entered: seq<Item<T>>)
    requires h.phase.Moving? && h.held.None? && h.pipe.pq != [] && Bounded(l, h)
    ensures WorkOne(l, WorkOne(l, h))
            == match MoveOne(l, h.pipe, h.phase.cutoff, h.phase.all)
               case Some(p) => h.(pipe := p, entered := entered)
               case None => StopMoving(h)
    ensures MoveOne(l, h.pipe, h.phase.cutoff, h.phase.all).Some? ==>
              Bounded(l, h.(pipe := MoveOne(l, h.pipe, h.phase.cutoff, h.phase.all).value, entered := entered))
  {
    InsertFirst(h.pipe.pq);
    entered := h.entered + [h.pipe.pq[0].item];
    assert h.pipe.(pq := h.pipe.pq) == h.pipe;
  }

  lemma {:induction false} FinishMoves<T>(l: Limits, h: History<T>) returns (entered: seq<Item<T>>)
    requires h.phase.Moving? && h.held.None? && Bounded(l, h)
    ensures var p := MoveDue(l, h.pipe, h.phase.cutoff, h.phase.all);
            Finish(l, h) == Finish(l, StopMoving(h).(pipe := p, entered := entered))
    decreases |h.pipe.pq|
  {
    if h.pipe.pq == [] {
      entered := h.entered;
      assert WorkOne(l, h) == StopMoving(h);
    } else {
      entered := TwoAccesses(l, h);
      var h' := WorkOne(l, WorkOne(l, h));
      assert Finish(l, h) == Finish(l, WorkOne(l, h)) == Finish(l, h');
      if MoveOne(l, h.pipe, h.phase.cutoff, h.phase.all).Some? {
        entered := FinishMoves(l, h');
      } else {
        entered := h.entered;
        assert h' == StopMoving(h);
      }
    }
  }

  lemma {:induction false} FinishTakes<T>(l: Limits, h: History<T>)
    requires h.phase.Taking?
    ensures var t := Take(l, h.pipe.q, h.open, h.phase.all);
            && Finish(l, h).pipe == h.pipe.(q := t.rest)
            && Finish(l, h).batches == if t.items == [] then h.batches
                 else h.batches + [Batch(t.items, h.clock, h.phase.all, !t.raised)]
    decreases |h.pipe.q|
  {
    var h' := WorkOne(l, h);
    if h'.phase.Taking? { FinishTakes(l, h'); } else { assert Finish(l, h') == h'; }
  }

  /** The accesses of an uninterrupted flush add up to what Queue.Flush is proved to do. */
  lemma UninterruptedFlush<T>(l: Limits, h: History<T>, all: bool)
    requires h.phase == Resting && h.open == [] && h.held.None? && Bounded(l, h)
    ensures var moved := MoveDue(l, h.pipe, h.clock, all);
            var t := Take(l, moved.q, [], all);
            var after := Finish(l, Act(l, h, StartFlush(all)));
            && after.pipe == Pipe(t.rest, moved.pq)
            && after.batches == if t.items == [] then h.batches
                 else h.batches + [Batch(t.items, h.clock, all, !t.raised)]
  {
    var h1 := Act(l, h, StartFlush(all));
    var entered := FinishMoves(l, h1);
    var moved := MoveDue(l, h.pipe, h.clock, all);
    FinishTakes(l, h1.(pipe := moved, phase := Taking(all), entered := entered));
  }

  /** So do those of an uninterrupted move, after which nothing that is due is still delayed, if it fits. */
  lemma UninterruptedMove<T>(l: Limits, h: History<T>)
    requires h.phase == Resting && h.held.None? && Bounded(l, h)
    ensures var after := Finish(l, Act(l, h, StartMoving));
            && after.pipe == MoveDue(l, h.pipe, h.clock, false) && after.batches == h.batches
            && ((0 < l.queueMax <= |after.pipe.q|) || forall d :: d in after.pipe.pq ==> d.due > h.clock)
  {
    var h1 := Act(l, h, StartMoving);
    var entered := FinishMoves(l, h1);
    NothingDueStays(l, h.pipe, h.clock);
  }

  // ---------------------------------------------------------------- conservation and capacity

  function HeldItems<T>(h: History<T>): seq<Item<T>> { if h.held.Some? then [h.held.value.item] else [] }

  /**
   Every accepted item has entered the FIFO, is delayed or held, or was lost; and what entered the
   FIFO is in the batches, in the batch under construction or still there, in this order.
   */
  ghost predicate Conserves<T>(h: History<T>) {
    && multiset(h.accepted)
       == multiset(h.entered) + multiset(Items(h.pipe.pq)) + multiset(HeldItems(h)) + multiset(h.lost)
    && h.entered == Flatten(h.batches) + h.open + h.pipe.q
  }

  ghost predicate Bounded<T>(l: Limits, h: History<T>) {
    && (l.queueMax > 0 ==> |h.pipe.q| <= l.queueMax)
    && (l.pqueueMax > 0 ==> |h.pipe.pq| <= l.pqueueMax)
    && ByDeadline(h.pipe.pq)
    && (h.held.Some? ==> h.phase.Moving?)
  }

  lemma ItemsBag<T>(pq: seq<Delayed<T>>)
    requires pq != []
    ensures multiset(Items(pq)) == multiset{pq[0].item} + multiset(Items(pq[1..]))
  {
    assert Items(pq) == [pq[0].item] + Items(pq[1..]);
  }

  lemma {:induction false} InsertBag<T>(pq: seq<Delayed<T>>, d: Delayed<T>)
    ensures |Insert(pq, d)| == |pq| + 1
    ensures multiset(Items(Insert(pq, d))) == multiset(Items(pq)) + multiset{d.item}
  {
    ItemsBag(Insert(pq, d));
    if pq == [] || NotAfter(d, pq[0]) {
      assert Insert(pq, d)[1..] == pq;
    } else {
      InsertBag(pq[1..], d);
      ItemsBag(pq);
      assert Insert(pq, d)[1..] == Insert(pq[1..], d);
    }
  }

  lemma FlattenAppend<T>(batches: seq<Batch<T>>, b: Batch<T>)
    ensures Flatten(batches + [b]) == Flatten(batches) + b.items
  {
    assert (batches + [b])[..|batches|] == batches;
  }

  lemma CloseConserves<T>(h: History<T>, items: seq<Item<T>>, all: bool, sent: bool)
    requires Conserves(h.(open := items))
    ensures Conserves(Close(h, items, all, sent))
  {
    FlattenAppend(h.batches, Batch(items, h.clock, all, sent));
    var h' := Close(h, items, all, sent);
    var taken := Flatten(h.batches);
    assert Flatten(h'.batches) == taken + items;
    assert (taken + items) + [] + h.pipe.q == taken + items + h.pipe.q;
  }

  lemma HoldConserves<T>(h: History<T>)
    requires Conserves(h) && h.held.None? && h.pipe.pq != []
    ensures Conserves(h.(held := Some(h.pipe.pq[0]), pipe := h.pipe.(pq := h.pipe.pq[1..])))
  {
    ItemsBag(h.pipe.pq);
  }

  lemma PutBackConserves<T>(l: Limits, h: History<T>)
    requires Conserves(h) && h.phase.Moving? && h.held.Some?
    ensures Conserves(PutBack(l, h))
  {
    if Full(|h.pipe.pq|, l.pqueueMax) {
      LoseConserves(h, h.held.value.item);
    } else {
      var pq := Insert(h.pipe.pq, h.held.value);
      InsertBag(h.pipe.pq, h.held.value);
      ReturnConserves(h, pq);
      assert PutBack(l, h) == StopMoving(h.(held := None, pipe := h.pipe.(pq := pq)));
    }
  }

  lemma LoseConserves<T>(h: History<T>, item: Item<T>)
    requires Conserves(h) && HeldItems(h) == [item]
    ensures Conserves(h.(held := None, lost := h.lost + [item], phase := Resting))
  {
    var h' := h.(held := None, lost := h.lost + [item], phase := Resting);
    assert multiset(h'.lost) == multiset(h.lost) + multiset(HeldItems(h));
    assert multiset(HeldItems(h')) == multiset{};
  }

  lemma ReturnConserves<T>(h: History<T>, pq: seq<Delayed<T>>)
    requires Conserves(h) && multiset(Items(pq)) == multiset(Items(h.pipe.pq)) + multiset(HeldItems(h))
    ensures Conserves(h.(held := None, pipe := h.pipe.(pq := pq)))
  {
    assert multiset(HeldItems(h.(held := None, pipe := h.pipe.(pq := pq)))) == multiset{};
  }

  lemma EnterConserves<T>(h: History<T>, item: Item<T>)
    requires Conserves(h) && HeldItems(h) == [item]
    ensures Conserves(h.(held := None, pipe := h.pipe.(q := h.pipe.q + [item]), entered := h.entered + [item]))
  {
    assert h.entered + [item] == Flatten(h.batches) + h.open + (h.pipe.q + [item]);
  }

  lemma MoveConserves<T>(l: Limits, h: History<T>)
    requires Conserves(h) && h.phase.Moving?
    ensures Conserves(WorkOne(l, h))
  {
    if h.held.Some? {
      if GoesBack(l, h) { PutBackConserves(l, h); } else { EnterConserves(h, h.held.value.item); }
    } else if h.pipe.pq != [] {
      HoldConserves(h);
    }
  }

  lemma PopConserves<T>(h: History<T>)
    requires Conserves(h) && h.pipe.q != []
    ensures Conserves(h.(pipe := h.pipe.(q := h.pipe.q[1..]), open := h.open + [h.pipe.q[0]]))
  {
    assert h.pipe.q == [h.pipe.q[0]] + h.pipe.q[1..];
    Regroup(Flatten(h.batches), h.open, h.pipe.q[0], h.pipe.q[1..]);
  }

  lemma Regroup<T>(a: seq<T>, b: seq<T>, x: T, c: seq<T>)
    ensures a + (b + [x]) + c == a + b + ([x] + c)
  {
  }

  lemma TakeConserves<T>(l: Limits, h: History<T>)
    requires Conserves(h) && h.phase.Taking?
    ensures Conserves(WorkOne(l, h))
  {
    var all := h.phase.all;
    if h.pipe.q == [] || (!all && |h.open| == l.batchMax) {
      CloseConserves(h, h.open, all, true);
    } else {
      PopConserves(h);
      if !Typed(h.pipe.q[0]) {
        CloseConserves(h.(pipe := h.pipe.(q := h.pipe.q[1..])), h.open + [h.pipe.q[0]], all, false);
      }
    }
  }

  lemma PutConserves<T>(l: Limits, h: History<T>, item: Item<T>)
    requires Conserves(h)
    ensures Conserves(Act(l, h, Put(item)))
  {
    if Full(|h.pipe.q|, l.queueMax) {
      assert Act(l, h, Put(item)) == h;
    } else {
      AcceptConserves(h, item);
    }
  }

  lemma AcceptConserves<T>(h: History<T>, item: Item<T>)
    requires Conserves(h)
    ensures Conserves(h.(pipe := h.pipe.(q := h.pipe.q + [item]), accepted := h.accepted + [item],
                         entered := h.entered + [item]))
  {
    assert multiset(h.accepted + [item]) == multiset(h.accepted) + multiset{item};
    assert multiset(h.entered + [item]) == multiset(h.entered) + multiset{item};
    assert h.entered + [item] == Flatten(h.batches) + h.open + (h.pipe.q + [item]);
  }

  lemma PutAfterConserves<T>(l: Limits, h: History<T>, item: Item<T>, delay: int, rank: int)
    requires Conserves(h)
    ensures Conserves(Act(l, h, PutAfter(item, delay, rank)))
  {
    if Full(|h.pipe.pq|, l.pqueueMax) {
      assert Act(l, h, PutAfter(item, delay, rank)) == h;
    } else {
      var pq := Insert(h.pipe.pq, Delayed(h.clock + delay, rank, item));
      InsertBag(h.pipe.pq, Delayed(h.clock + delay, rank, item));
      BagGrows(h, pq, item);
      assert Act(l, h, PutAfter(item, delay, rank))
             == h.(pipe := h.pipe.(pq := pq), accepted := h.accepted + [item]);
    }
  }

  lemma BagGrows<T>(h: History<T>, pq: seq<Delayed<T>>, item: Item<T>)
    requires Conserves(h) && multiset(Items(pq)) == multiset(Items(h.pipe.pq)) + multiset{item}
    ensures Conserves(h.(pipe := h.pipe.(pq := pq), accepted := h.accepted + [item]))
  {
  }

  lemma ActConserves<T>(l: Limits, h: History<T>, a: Action<T>)
    requires Conserves(h)
    ensures Conserves(Act(l, h, a))
  {
    match a
    case Put(item) => PutConserves(l, h, item);
    case PutAfter(item, delay, rank) => PutAfterConserves(l, h, item, delay, rank);
    case Work =>
      if h.phase.Moving? { MoveConserves(l, h); } else if h.phase.Taking? { TakeConserves(l, h); }
    case StartMoving =>
    case StartFlush(_) =>
  }

  lemma ActBounded<T>(l: Limits, h: History<T>, a: Action<T>)
    requires Bounded(l, h)
    ensures Bounded(l, Act(l, h, a))
  {
    match a
    case Put(_) =>
    case PutAfter(item, delay, rank) =>
      InsertBag(h.pipe.pq, Delayed(h.clock + delay, rank, item));
      InsertKeepsOrder(h.pipe.pq, Delayed(h.clock + delay, rank, item));
    case Work => WorkBounded(l, h);
    case StartMoving =>
    case StartFlush(_) =>
  }

  lemma WorkBounded<T>(l: Limits, h: History<T>)
    requires Bounded(l, h)
    ensures Bounded(l, WorkOne(l, h))
  {
    if h.held.Some? {
      InsertBag(h.pipe.pq, h.held.value);
      InsertKeepsOrder(h.pipe.pq, h.held.value);
    }
  }

  /**
   At every moment of every run the accepted items are exactly those in the two queues, in the
   worker's hand, in the batch under construction, in the batches taken, and lost; what enters the
   FIFO leaves it in that order; and neither queue exceeds its capacity.
   */
  lemma {:induction false} RunConserves<T>(l: Limits, start: int, steps: seq<Step<T>>)
    ensures Conserves(Run(l, start, steps)) && Bounded(l, Run(l, start, steps))
  {
    if steps != [] {
      RunConserves(l, start, steps[..|steps| - 1]);
      var s := steps[|steps| - 1];
      var h := Run(l, start, steps[..|steps| - 1]).(clock := s.now);
      ActConserves(l, h, s.action);
      ActBounded(l, h, s.action);
    }
  }

  // ---------------------------------------------------------------- deadlines

  /** A producer has put this entry, and its deadline is the moment of that put and the delay. */
  ghost predicate PutBy<T>(steps: seq<Step<T>>, d: Delayed<T>) {
    exists i :: 0 <= i < |steps| && steps[i].action == PutAfter(d.item, d.due - steps[i].now, d.rank)
  }

  lemma StillPut<T>(steps: seq<Step<T>>, d: Delayed<T>)
    requires steps != [] && PutBy(steps[..|steps| - 1], d)
    ensures PutBy(steps, d)
  {
    var init := steps[..|steps| - 1];
    var i :| 0 <= i < |init| && init[i].action == PutAfter(d.item, d.due - init[i].now, d.rank);
    assert steps[i] == init[i];
  }

  lemma {:induction false} InsertAdds<T>(pq: seq<Delayed<T>>, d: Delayed<T>, e: Delayed<T>)
    ensures e in Insert(pq, d) <==> e in pq || e == d
  {
    if pq != [] && !NotAfter(d, pq[0]) {
      InsertAdds(pq[1..], d, e);
      assert pq == [pq[0]] + pq[1..];
    }
  }

  ghost predicate Pending<T>(h: History<T>, d: Delayed<T>) { d in h.pipe.pq || h.held == Some(d) }

  lemma ActAddsPut<T>(l: Limits, h: History<T>, a: Action<T>, d: Delayed<T>)
    requires Pending(Act(l, h, a), d) && !Pending(h, d)
    ensures a == PutAfter(d.item, d.due - h.clock, d.rank)
  {
    if a.PutAfter? {
      InsertAdds(h.pipe.pq, Delayed(h.clock + a.delay, a.rank, a.item), d);
    } else if h.held.Some? {
      InsertAdds(h.pipe.pq, h.held.value, d);
    }
  }

  /** Every entry of the delayed queue, or in the worker's hand, has the deadline with which it was put. */
  lemma {:induction false} DelayedAsPut<T>(l: Limits, start: int, steps: seq<Step<T>>, d: Delayed<T>)
    requires var h := Run(l, start, steps); d in h.pipe.pq || h.held == Some(d)
    ensures PutBy(steps, d)
  {
    var init, s := steps[..|steps| - 1], steps[|steps| - 1];
    var h := Run(l, start, init).(clock := s.now);
    if Pending(h, d) {
      DelayedAsPut(l, start, init, d);
      StillPut(steps, d);
    } else {
      ActAddsPut(l, h, s.action, d);
      assert steps[|steps| - 1].action == PutAfter(d.item, d.due - s.now, d.rank);
    }
  }

  // ---------------------------------------------------------------- when an item is lost

  /** A producer puts a delayed item while the worker holds an entry of that queue. */
  predicate Interrupts<T>(h: History<T>, a: Action<T>) { a.PutAfter? && h.held.Some? }

  ghost predicate SlotKept<T>(l: Limits, h: History<T>) {
    h.lost == [] && (h.held.Some? && l.pqueueMax > 0 ==> |h.pipe.pq| < l.pqueueMax)
  }

  lemma ActKeepsSlot<T>(l: Limits, h: History<T>, a: Action<T>)
    requires Bounded(l, h) && SlotKept(l, h) && !Interrupts(h, a)
    ensures SlotKept(l, Act(l, h, a))
  {
  }

  /** When no producer of delayed items comes between the two accesses of a move, nothing is lost. */
  lemma {:induction false} AtomicMovesLoseNothing<T>(l: Limits, start: int, steps: seq<Step<T>>)
    requires forall i :: 0 <= i < |steps| ==> !Interrupts(Run(l, start, steps[..i]), steps[i].action)
    ensures SlotKept(l, Run(l, start, steps))
  {
    if steps != [] {
      var init, s := steps[..|steps| - 1], steps[|steps| - 1];
      assert forall i :: 0 <= i < |init| ==> steps[..i] == init[..i];
      AtomicMovesLoseNothing(l, start, init);
      RunConserves(l, start, init);
      ActKeepsSlot(l, Run(l, start, init).(clock := s.now), s.action);
    }
  }

  lemma {:induction false} UnboundedLosesNothing<T>(l: Limits, start: int, steps: seq<Step<T>>)
    requires l.pqueueMax <= 0
    ensures Run(l, start, steps).lost == []
  {
    if steps != [] { UnboundedLosesNothing(l, start, steps[..|steps| - 1]); }
  }

  lemma RunStep<T>(l: Limits, start: int, steps: seq<Step<T>>, s: Step<T>)
    ensures Run(l, start, steps + [s]) == Act(l, Run(l, start, steps).(clock := s.now), s.action)
  {
    assert (steps + [s])[..|steps|] == steps;
  }

  /** n delayed items, none of them due for a while. */
  lemma {:induction false} Fill<T>(l: Limits, item: Item<T>, n: nat) returns (steps: seq<Step<T>>)
    requires n <= l.pqueueMax
    ensures var h := Run(l, 0, steps);
            && h.phase == Resting && h.held == None && h.lost == [] && h.clock == 0 && |h.pipe.pq| == n
            && forall i :: 0 <= i < n ==> h.pipe.pq[i] == Delayed(1, 0, item)
  {
    steps := [];
    if n > 0 {
      var before := Fill(l, item, n - 1);
      var s := Step(PutAfter(item, 1, 0), 0);
      RunStep(l, 0, before, s);
      InsertEqual(Run(l, 0, before).pipe.pq, Delayed(1, 0, item));
      steps := before + [s];
    }
  }

  lemma InsertEqual<T>(pq: seq<Delayed<T>>, d: Delayed<T>)
    requires forall i :: 0 <= i < |pq| ==> pq[i] == d
    ensures Insert(pq, d) == [d] + pq
  {
  }

  /** A delayed queue that is full, and a producer that takes the slot of the entry in the worker's hand. */
  lemma SomeRunLoses<T>(l: Limits, item: Item<T>) returns (steps: seq<Step<T>>)
    requires l.pqueueMax > 0
    ensures Run(l, 0, steps).lost == [item]
  {
    var full := Fill(l, item, l.pqueueMax);
    var moving := full + [Step(StartMoving, 0)];
    RunStep(l, 0, full, Step(StartMoving, 0));
    var holding := moving + [Step(Work, 0)];
    RunStep(l, 0, moving, Step(Work, 0));
    var taken := holding + [Step(PutAfter(item, 1, 0), 0)];
    RunStep(l, 0, holding, Step(PutAfter(item, 1, 0), 0));
    InsertBag(Run(l, 0, holding).pipe.pq, Delayed(1, 0, item));
    steps := taken + [Step(Work, 0)];
    RunStep(l, 0, taken, Step(Work, 0));
    assert [] + [item] == [item];
  }

  /** Every run conserves the accepted items exactly when the delayed queue is unbounded. */
  lemma LossImpossibleExactlyWhen<T>(l: Limits, item: Item<T>)
    ensures (forall steps: seq<Step<T>> :: Run(l, 0, steps).lost == []) <==> l.pqueueMax <= 0
  {
    if l.pqueueMax <= 0 {
      forall steps: seq<Step<T>> ensures Run(l, 0, steps).lost == [] { UnboundedLosesNothing(l, 0, steps); }
    } else {
      var steps := SomeRunLoses(l, item);
      assert Run(l, 0, steps).lost != [];
    }
  }

  // ---------------------------------------------------------------- batches

  /** A batch is not empty, respects batch_max_size unless everything is flushed, and is what it says. */
  ghost predicate GoodBatch<T>(l: Limits, b: Batch<T>) {
    && b.items != []
    && (!b.all && l.batchMax >= 0 ==> |b.items| <= l.batchMax)
    && (if b.sent then AllTyped(b.items)
        else AllTyped(b.items[..|b.items| - 1]) && !Typed(b.items[|b.items| - 1]))
  }

  ghost predicate GoodBatches<T>(l: Limits, h: History<T>) {
    && (forall i :: 0 <= i < |h.batches| ==> GoodBatch(l, h.batches[i]))
    && AllTyped(h.open) && (h.open != [] ==> h.phase.Taking?)
    && (h.phase.Taking? && !h.phase.all && l.batchMax >= 0 ==> |h.open| <= l.batchMax)
  }

  lemma ActKeepsGoodBatches<T>(l: Limits, h: History<T>, a: Action<T>)
    requires GoodBatches(l, h)
    ensures GoodBatches(l, Act(l, h, a))
  {
  }

  lemma {:induction false} RunKeepsGoodBatches<T>(l: Limits, start: int, steps: seq<Step<T>>)
    ensures GoodBatches(l, Run(l, start, steps))
  {
    if steps != [] {
      RunKeepsGoodBatches(l, start, steps[..|steps| - 1]);
      var s := steps[|steps| - 1];
      ActKeepsGoodBatches(l, Run(l, start, steps[..|steps| - 1]).(clock := s.now), s.action);
    }
  }

  /** One type's lists, concatenated over the payloads; a batch that was dropped never becomes one. */
  function Lists<T>(batches: seq<Batch<T>>, dtype: string): seq<T>
    requires dtype in FIELDS
  {
    if batches == [] then []
    else
      var rest, b := Lists(batches[..|batches| - 1], dtype), batches[|batches| - 1];
      if b.sent then rest + PayloadOf(b.items)[dtype] else rest
  }

  /** The items of one type in the batches that were dropped. */
  function Missed<T>(batches: seq<Batch<T>>, dtype: string): nat {
    if batches == [] then 0
    else
      var b := batches[|batches| - 1];
      Missed(batches[..|batches| - 1], dtype) + if b.sent then 0 else |Select(b.items, dtype)|
  }

  lemma {:induction false} ListsMiss<T>(batches: seq<Batch<T>>, dtype: string)
    requires dtype in FIELDS
    ensures |Lists(batches, dtype)| + Missed(batches, dtype) == |Select(Flatten(batches), dtype)|
    ensures Missed(batches, dtype) == 0 ==> Lists(batches, dtype) == Select(Flatten(batches), dtype)
  {
    if batches != [] {
      var init, b := batches[..|batches| - 1], batches[|batches| - 1];
      ListsMiss(init, dtype);
      SelectConcat(Flatten(init), b.items, dtype);
    }
  }

  lemma {:induction false} SelectsNone<T>(items: seq<Item<T>>, dtype: string)
    ensures |Select(items, dtype)| == 0 <==> forall i :: 0 <= i < |items| ==> items[i].dtype != dtype
  {
    if items != [] { SelectsNone(items[..|items| - 1], dtype); }
  }

  predicate Lacks<T>(b: Batch<T>, dtype: string) {
    forall i :: 0 <= i < |b.items| ==> b.items[i].dtype != dtype
  }

  lemma {:induction false} MissesNone<T>(batches: seq<Batch<T>>, dtype: string)
    ensures Missed(batches, dtype) == 0 <==>
            forall i :: 0 <= i < |batches| && !batches[i].sent ==> Lacks(batches[i], dtype)
  {
    if batches != [] {
      var n := |batches| - 1;
      MissesNone(batches[..n], dtype);
      SelectsNone(batches[n].items, dtype);
    }
  }

  /**
   In every run, one type's lists concatenated over the payloads are the data of that type in the
   order in which the items were dequeued, exactly when no dropped batch held an item of that type.
   */
  lemma ListsAreDequeueOrder<T>(l: Limits, start: int, steps: seq<Step<T>>, dtype: string)
    requires dtype in FIELDS
    ensures var batches := Run(l, start, steps).batches;
            Lists(batches, dtype) == Select(Flatten(batches), dtype) <==>
              forall i :: 0 <= i < |batches| && !batches[i].sent ==> Lacks(batches[i], dtype)
  {
    var batches := Run(l, start, steps).batches;
    ListsMiss(batches, dtype);
    MissesNone(batches, dtype);
  }

  // ---------------------------------------------------------------- delays

  predicate Monotone<T>(start: int, steps: seq<Step<T>>) {
    && (forall i :: 0 <= i < |steps| ==> start <= steps[i].now)
    && (forall i, j :: 0 <= i < j < |steps| ==> steps[i].now <= steps[j].now)
  }

  /** Every put gives its item time at least until the item's deadline. */
  predicate Announces<T>(steps: seq<Step<T>>, deadline: Item<T> -> int) {
    forall i :: 0 <= i < |steps| ==>
      match steps[i].action
      case Put(item) => deadline(item) <= steps[i].now
      case PutAfter(item, delay, _) => deadline(item) <= steps[i].now + delay
      case _ => true
  }

  predicate AllDue<T>(items: seq<Item<T>>, deadline: Item<T> -> int, now: int) {
    forall i :: 0 <= i < |items| ==> deadline(items[i]) <= now
  }

  ghost predicate Punctual<T>(h: History<T>, deadline: Item<T> -> int) {
    && (forall i :: 0 <= i < |h.pipe.pq| ==> deadline(h.pipe.pq[i].item) <= h.pipe.pq[i].due)
    && (h.held.Some? ==> deadline(h.held.value.item) <= h.held.value.due)
    && (!h.stopped ==>
          && (h.phase.Moving? ==> !h.phase.all && h.phase.cutoff <= h.clock)
          && AllDue(h.pipe.q, deadline, h.clock) && AllDue(h.open, deadline, h.clock)
          && forall i :: 0 <= i < |h.batches| ==> AllDue(h.batches[i].items, deadline, h.batches[i].at))
  }

  lemma {:induction false} InsertPunctual<T>(pq: seq<Delayed<T>>, d: Delayed<T>, deadline: Item<T> -> int)
    requires forall i :: 0 <= i < |pq| ==> deadline(pq[i].item) <= pq[i].due
    requires deadline(d.item) <= d.due
    ensures forall i :: 0 <= i < |Insert(pq, d)| ==> deadline(Insert(pq, d)[i].item) <= Insert(pq, d)[i].due
  {
    if pq != [] && !NotAfter(d, pq[0]) { InsertPunctual(pq[1..], d, deadline); }
  }

  lemma MoveKeepsPunctual<T>(l: Limits, h: History<T>, deadline: Item<T> -> int)
    requires Punctual(h, deadline) && h.phase.Moving?
    ensures Punctual(WorkOne(l, h), deadline)
  {
    if h.held.Some? { InsertPunctual(h.pipe.pq, h.held.value, deadline); }
  }

  lemma TakeKeepsPunctual<T>(l: Limits, h: History<T>, deadline: Item<T> -> int)
    requires Punctual(h, deadline) && h.phase.Taking?
    ensures Punctual(WorkOne(l, h), deadline)
  {
  }

  lemma WorkKeepsPunctual<T>(l: Limits, h: History<T>, deadline: Item<T> -> int)
    requires Punctual(h, deadline)
    ensures Punctual(WorkOne(l, h), deadline)
  {
    if h.phase.Moving? {
      MoveKeepsPunctual(l, h, deadline);
    } else if h.phase.Taking? {
      TakeKeepsPunctual(l, h, deadline);
    }
  }

  lemma ActKeepsPunctual<T>(l: Limits, h: History<T>, s: Step<T>, deadline: Item<T> -> int)
    requires Punctual(h, deadline) && h.clock <= s.now && Announces([s], deadline)
    ensures Punctual(Act(l, h.(clock := s.now), s.action), deadline)
  {
    assert [s][0] == s;
    match s.action
    case Work => WorkKeepsPunctual(l, h.(clock := s.now), deadline);
    case PutAfter(item, delay, rank) =>
      InsertPunctual(h.pipe.pq, Delayed(s.now + delay, rank, item), deadline);
    case _ =>
  }

  /** Some flush was to take everything. */
  predicate FlushesAll<T>(steps: seq<Step<T>>) {
    exists i :: 0 <= i < |steps| && steps[i].action.StartFlush? && steps[i].action.all
  }

  lemma {:induction false} StoppedByFlush<T>(l: Limits, start: int, steps: seq<Step<T>>)
    ensures Run(l, start, steps).stopped ==> FlushesAll(steps)
  {
    if steps != [] {
      var init, s := steps[..|steps| - 1], steps[|steps| - 1];
      StoppedByFlush(l, start, init);
      if FlushesAll(init) {
        var i :| 0 <= i < |init| && init[i].action.StartFlush? && init[i].action.all;
        assert steps[i] == init[i];
      }
      assert steps[|steps| - 1] == s;
    }
  }

  /**
   With a clock that does not go back, and until everything is to be flushed, no item enters the FIFO or a
   batch before its deadline.
   */
  lemma NothingEarly<T>(l: Limits, start: int, steps: seq<Step<T>>, deadline: Item<T> -> int)
    requires Monotone(start, steps) && Announces(steps, deadline) && !FlushesAll(steps)
    ensures var h := Run(l, start, steps);
            && AllDue(h.pipe.q, deadline, h.clock) && AllDue(h.open, deadline, h.clock)
            && (forall i :: 0 <= i < |h.batches| ==> AllDue(h.batches[i].items, deadline, h.batches[i].at))
            && h.clock == (if steps == [] then start else steps[|steps| - 1].now)
  {
    StoppedByFlush(l, start, steps);
    RunIsPunctual(l, start, steps, deadline);
  }

  lemma {:induction false} RunIsPunctual<T>(l: Limits, start: int, steps: seq<Step<T>>, deadline: Item<T> -> int)
    requires Monotone(start, steps) && Announces(steps, deadline)
    ensures var h := Run(l, start, steps);
            && Punctual(h, deadline)
            && h.clock == (if steps == [] then start else steps[|steps| - 1].now)
  {
    if steps != [] {
      var init, s := steps[..|steps| - 1], steps[|steps| - 1];
      RunIsPunctual(l, start, init, deadline);
      if init != [] { assert init[|init| - 1] == steps[|steps| - 2]; }
      ActKeepsPunctual(l, Run(l, start, init), s, deadline);
    }
  }
}
