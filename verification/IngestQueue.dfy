/**
 The ingest queue of src/qorme/ingest/queue.py: a bounded FIFO, a bounded deadline-ordered queue, and
 the worker's flush. Handing a payload to the flusher is the boundary of the model, and the clock is
 an argument.
 */
module IngestQueue {
  import opened Basics

  datatype Item<T> = Item(dtype: string, data: T)

  /** An entry of the delayed queue. rank breaks ties between equal deadlines in any fixed way. */
  datatype Delayed<T> = Delayed(due: int, rank: int, item: Item<T>)

  datatype Limits = Limits(queueMax: int, pqueueMax: int, batchMax: int)

  /** Python's queues: a maximum that is not positive means no bound. */
  predicate Full(size: nat, maximum: int) { 0 < maximum <= size }

  /** The list fields of a payload, to which alone an item can be appended. */
  const FIELDS: seq<string> := ["contexts", "orm_queries", "rows", "connections", "sql_queries", "sql_result_hashes"]

  type Payload<T> = map<string, seq<T>>

  // ---------------------------------------------------------------- the delayed queue

  predicate NotAfter<T>(a: Delayed<T>, b: Delayed<T>) {
    a.due < b.due || (a.due == b.due && a.rank <= b.rank)
  }

  ghost predicate ByDeadline<T>(pq: seq<Delayed<T>>) {
    forall i, j :: 0 <= i < j < |pq| ==> NotAfter(pq[i], pq[j])
  }

  function Insert<T>(pq: seq<Delayed<T>>, d: Delayed<T>): seq<Delayed<T>> {
    if pq == [] || NotAfter(d, pq[0]) then [d] + pq else [pq[0]] + Insert(pq[1..], d)
  }

  /** No entry before one with an earlier deadline. */
  ghost predicate EarliestFirst<T>(pq: seq<Delayed<T>>) {
    forall i, j :: 0 <= i < j < |pq| ==> pq[i].due <= pq[j].due
  }

  lemma {:induction false} InsertKeepsOrder<T>(pq: seq<Delayed<T>>, d: Delayed<T>)
    requires ByDeadline(pq)
    ensures ByDeadline(Insert(pq, d)) && EarliestFirst(Insert(pq, d))
    ensures multiset(Insert(pq, d)) == multiset(pq) + multiset{d}
  {
    if pq == [] || NotAfter(d, pq[0]) {
      FirstKeepsOrder(d, pq);
    } else {
      InsertKeepsOrder(pq[1..], d);
      assert pq == [pq[0]] + pq[1..];
      assert |pq| > 1 ==> NotAfter(pq[0], pq[1]);
      FirstKeepsOrder(pq[0], Insert(pq[1..], d));
    }
  }

  lemma FirstKeepsOrder<T>(d: Delayed<T>, pq: seq<Delayed<T>>)
    requires ByDeadline(pq) && (pq == [] || NotAfter(d, pq[0]))
    ensures ByDeadline([d] + pq)
  {
    forall i | 0 <= i < |pq| ensures NotAfter(d, pq[i]) {
      assert i > 0 ==> NotAfter(pq[0], pq[i]);
    }
  }

  lemma InDueOrder<T>(pq: seq<Delayed<T>>)
    requires ByDeadline(pq)
    ensures EarliestFirst(pq)
  {
    forall i, j | 0 <= i < j < |pq| ensures pq[i].due <= pq[j].due { assert NotAfter(pq[i], pq[j]); }
  }

  function Items<T>(pq: seq<Delayed<T>>): (s: seq<Item<T>>)
    ensures |s| == |pq|
    ensures forall i :: 0 <= i < |pq| ==> s[i] == pq[i].item
  {
    seq(|pq|, i requires 0 <= i < |pq| => pq[i].item)
  }

  // ---------------------------------------------------------------- one atomic move

  datatype Pipe<T> = Pipe(q: seq<Item<T>>, pq: seq<Delayed<T>>)

  /** One iteration of _flush_pqueue: None when it puts the entry back, or there is none. */
  function MoveOne<T>(l: Limits, p: Pipe<T>, now: int, all: bool): Option<Pipe<T>> {
    if p.pq == [] || (!all && p.pq[0].due > now) || Full(|p.q|, l.queueMax) then None
    else Some(Pipe(p.q + [p.pq[0].item], p.pq[1..]))
  }

  function MoveDue<T>(l: Limits, p: Pipe<T>, now: int, all: bool): Pipe<T>
    decreases |p.pq|
  {
    match MoveOne(l, p, now, all)
    case None => p
    case Some(p') => MoveDue(l, p', now, all)
  }

  /** Entry i of the delayed queue is due, or everything is flushed, and there is room for it. */
  ghost predicate Moves<T>(l: Limits, p: Pipe<T>, now: int, all: bool, i: nat)
    requires i < |p.pq|
  {
    (all || p.pq[i].due <= now) && !Full(|p.q| + i, l.queueMax)
  }

  /** m is the number of entries that move: as many as are due and fit. */
  ghost predicate MovesExactly<T>(l: Limits, p: Pipe<T>, now: int, all: bool, m: nat) {
    && m <= |p.pq|
    && (forall i :: 0 <= i < m ==> Moves(l, p, now, all, i))
    && (m == |p.pq| || !Moves(l, p, now, all, m))
  }

  lemma {:induction false} MoveDueExactly<T>(l: Limits, p: Pipe<T>, now: int, all: bool) returns (m: nat)
    ensures MovesExactly(l, p, now, all, m)
    ensures MoveDue(l, p, now, all) == Pipe(p.q + Items(p.pq[..m]), p.pq[m..])
    decreases |p.pq|
  {
    match MoveOne(l, p, now, all) {
      case None =>
        m := 0;
        assert p.q + Items(p.pq[..0]) == p.q;
      case Some(p') =>
        var k := MoveDueExactly(l, p', now, all);
        m := k + 1;
        MovesOneMore(l, p, p', now, all, k);
    }
  }

  lemma MovesOneMore<T>(l: Limits, p: Pipe<T>, p': Pipe<T>, now: int, all: bool, k: nat)
    requires MoveOne(l, p, now, all) == Some(p') && MovesExactly(l, p', now, all, k)
    ensures MovesExactly(l, p, now, all, k + 1)
    ensures p'.q + Items(p'.pq[..k]) == p.q + Items(p.pq[..k + 1]) && p'.pq[k..] == p.pq[k + 1..]
  {
    assert p.pq == [p.pq[0]] + p'.pq;
    forall i | 0 <= i < k + 1 ensures Moves(l, p, now, all, i) {
      if i > 0 { assert Moves(l, p', now, all, i - 1); }
    }
    assert p.pq[..k + 1] == [p.pq[0]] + p'.pq[..k];
  }

  /** What stays delayed is not due yet, unless the FIFO is full. */
  lemma NothingDueStays<T>(l: Limits, p: Pipe<T>, now: int)
    requires ByDeadline(p.pq)
    ensures var p' := MoveDue(l, p, now, false);
            && EarliestFirst(p'.pq)
            && ((0 < l.queueMax <= |p'.q|) || forall d :: d in p'.pq ==> d.due > now)
  {
    var m := MoveDueExactly(l, p, now, false);
    InDueOrder(p.pq);
    assert |Items(p.pq[..m])| == m;
  }

  // ---------------------------------------------------------------- taking a batch

  /** What the loop of _flush leaves, takes, and whether its last item made it raise. */
  datatype Taken<T> = Taken(rest: seq<Item<T>>, items: seq<Item<T>>, raised: bool)

  predicate Typed<T>(i: Item<T>) { i.dtype in FIELDS }

  function Take<T>(l: Limits, q: seq<Item<T>>, items: seq<Item<T>>, all: bool): Taken<T>
    decreases |q|
  {
    if q == [] || (!all && |items| == l.batchMax) then Taken(q, items, false)
    else if !Typed(q[0]) then Taken(q[1..], items + [q[0]], true)
    else Take(l, q[1..], items + [q[0]], all)
  }

  /** The size of the batch when nothing raises. */
  function BatchSize(l: Limits, size: nat, all: bool): nat {
    if all || l.batchMax < 0 || size < l.batchMax then size else l.batchMax
  }

  ghost predicate AllTyped<T>(s: seq<Item<T>>) {
    forall i :: 0 <= i < |s| ==> s[i].dtype in FIELDS
  }

  lemma {:induction false} TakeSplits<T>(l: Limits, q: seq<Item<T>>, items: seq<Item<T>>, all: bool)
    ensures var t := Take(l, q, items, all);
            && items <= t.items && items + q == t.items + t.rest
            && (t.raised ==> t.items != items && !Typed(t.items[|t.items| - 1]))
            && (forall i :: |items| <= i < |t.items| - (if t.raised then 1 else 0) ==> t.items[i].dtype in FIELDS)
            && (!t.raised ==> t.rest == [] || (!all && |t.items| == l.batchMax))
            && (!all && 0 <= |items| <= l.batchMax ==> |t.items| <= l.batchMax)
    decreases |q|
  {
    if q != [] && (all || |items| != l.batchMax) && Typed(q[0]) {
      TakeSplits(l, q[1..], items + [q[0]], all);
      var t := Take(l, q, items, all);
      assert items + q == (items + [q[0]]) + q[1..];
      assert t.items[|items|] == (items + [q[0]])[|items|] == q[0];
    }
  }

  lemma Splits<T>(q: seq<T>, front: seq<T>, rest: seq<T>)
    requires [] + q == front + rest
    ensures |front| <= |q| && front == q[..|front|] && rest == q[|front|..]
  {
    assert [] + q == q;
    assert (front + rest)[..|front|] == front && (front + rest)[|front|..] == rest;
  }

  /** A batch that starts empty: the front of the FIFO, cut short only by an item that cannot be appended. */
  lemma TakesBatch<T>(l: Limits, q: seq<Item<T>>, all: bool)
    ensures var t, n := Take(l, q, [], all), BatchSize(l, |q|, all);
            && |t.items| <= |q| && t.items == q[..|t.items|] && t.rest == q[|t.items|..]
            && (t.raised <==> !AllTyped(q[..n]))
            && (!t.raised ==> |t.items| == n)
            && (t.raised ==> 0 < |t.items| <= n && AllTyped(q[..|t.items| - 1]))
  {
    TakeSplits(l, q, [], all);
    var t, n := Take(l, q, [], all), BatchSize(l, |q|, all);
    Splits(q, t.items, t.rest);
    if t.raised {
      var k := |t.items| - 1;
      assert t.items[0..k] == q[..k];
      assert q[..n][k] == t.items[k] && q[..n][k].dtype !in FIELDS;
    } else {
      assert t.items[0..|t.items|] == q[..n];
      assert AllTyped(q[..n]);
    }
  }

  // ---------------------------------------------------------------- payloads

  /** The data of the items of one type, in order. */
  function Select<T>(items: seq<Item<T>>, dtype: string): seq<T> {
    if items == [] then []
    else
      var rest := Select(items[..|items| - 1], dtype);
      if items[|items| - 1].dtype == dtype then rest + [items[|items| - 1].data] else rest
  }

  function PayloadOf<T>(items: seq<Item<T>>): Payload<T> {
    map f | f in FIELDS :: Select(items, f)
  }

  /** These are the items of that type, first to last. */
  lemma {:induction false} SelectPicks<T>(items: seq<Item<T>>, dtype: string) returns (at: seq<nat>)
    ensures |Select(items, dtype)| == |at| && forall i, j :: 0 <= i < j < |at| ==> at[i] < at[j]
    ensures forall i :: 0 <= i < |at| ==>
              at[i] < |items| && items[at[i]] == Item(dtype, Select(items, dtype)[i])
    ensures forall k: nat :: k < |items| && items[k].dtype == dtype ==> k in at
  {
    at := [];
    if items != [] {
      var n := |items| - 1;
      at := SelectPicks(items[..n], dtype);
      if items[n].dtype == dtype { at := at + [n]; }
    }
  }

  lemma {:induction false} SelectConcat<T>(a: seq<Item<T>>, b: seq<Item<T>>, dtype: string)
    ensures Select(a + b, dtype) == Select(a, dtype) + Select(b, dtype)
  {
    if b == [] {
      assert a + b == a;
    } else {
      assert (a + b)[..|a + b| - 1] == a + b[..|b| - 1];
      SelectConcat(a, b[..|b| - 1], dtype);
    }
  }

  /** What becomes of a flush: no items, a payload for the flusher, or a batch dropped by an exception. */
  datatype Outcome<T> = Idle | Sent(payload: Payload<T>) | Dropped

  // ---------------------------------------------------------------- the class

  class Queue<T> {
    const limits: Limits
    var queue: seq<Item<T>>
    var pqueue: seq<Delayed<T>>

    ghost predicate Valid()
      reads this
    {
      ByDeadline(pqueue)
    }

    ghost function View(): Pipe<T>
      reads this
    {
      Pipe(queue, pqueue)
    }

    constructor (limits: Limits)
      ensures Valid() && this.limits == limits && View() == Pipe([], [])
    {
      this.limits := limits;
      queue, pqueue := [], [];
    }

    method Enqueue(item: Item<T>) returns (ok: bool)
      requires Valid()
      modifies this
      ensures Valid() && ok == (limits.queueMax <= 0 || old(|queue|) < limits.queueMax)
      ensures View() == if ok then old(View()).(q := old(queue) + [item]) else old(View())
    {
      ok := !Full(|queue|, limits.queueMax);
      if ok {
        queue := queue + [item];
      }
    }

    method EnqueueAfter(item: Item<T>, delay: int, now: int, rank: int) returns (ok: bool)
      requires Valid()
      modifies this
      ensures Valid() && EarliestFirst(pqueue)
      ensures ok == (limits.pqueueMax <= 0 || old(|pqueue|) < limits.pqueueMax)
      ensures View() == if ok then old(View()).(pq := Insert(old(pqueue), Delayed(now + delay, rank, item)))
                        else old(View())
    {
      ok := !Full(|pqueue|, limits.pqueueMax);
      InDueOrder(pqueue);
      if ok {
        InsertKeepsOrder(pqueue, Delayed(now + delay, rank, item));
        pqueue := Insert(pqueue, Delayed(now + delay, rank, item));
      }
    }

    /** The loop of _flush_pqueue; an entry that may not move is put back where it was. */
    method FlushPQueue(now: int, flushAll: bool)
      requires Valid()
      modifies this
      ensures Valid() && View() == MoveDue(limits, old(View()), now, flushAll)
      ensures flushAll || (0 < limits.queueMax <= |queue|) || forall d :: d in pqueue ==> d.due > now
    {
      if !flushAll { NothingDueStays(limits, View(), now); }
      var done := false;
      while pqueue != [] && !done
        invariant Valid()
        invariant MoveDue(limits, old(View()), now, flushAll)
                  == if done then View() else MoveDue(limits, View(), now, flushAll)
        decreases !done, |pqueue|
      {
        ghost var before := pqueue;
        var d := pqueue[0];
        pqueue := pqueue[1..];
        assert before == [d] + pqueue;
        if !flushAll && d.due > now {
          pqueue := Insert(pqueue, d);
          done := true;
        } else if Full(|queue|, limits.queueMax) {
          pqueue := Insert(pqueue, d);
          done := true;
        } else {
          queue := queue + [d.item];
        }
      }
    }

    /** _flush: move what is due, then take a batch and hand it over. */
    method Flush(now: int, flushAll: bool) returns (outcome: Outcome<T>)
      requires Valid()
      modifies this
      ensures Valid()
      ensures var moved := MoveDue(limits, old(View()), now, flushAll);
              var t := Take(limits, moved.q, [], flushAll);
              && View() == Pipe(t.rest, moved.pq)
              && outcome == if t.raised then Dropped else if t.items == [] then Idle else Sent(PayloadOf(t.items))
    {
      var n := 0;
      var payload: Payload<T> := map f | f in FIELDS :: [];
      FlushPQueue(now, flushAll);
      ghost var moved := queue;
      ghost var items: seq<Item<T>> := [];
      while queue != [] && (flushAll || n != limits.batchMax)
        invariant Valid() && pqueue == MoveDue(limits, old(View()), now, flushAll).pq
        invariant n == |items| && payload == PayloadOf(items)
        invariant Take(limits, moved, [], flushAll) == Take(limits, queue, items, flushAll)
        decreases |queue|
      {
        var item := queue[0];
        queue := queue[1..];
        if item.dtype !in FIELDS {
          return Dropped;
        }
        AppendToPayload(items, item);
        payload := payload[item.dtype := payload[item.dtype] + [item.data]];
        items := items + [item];
        n := n + 1;
      }
      return if n != 0 then Sent(payload) else Idle;
    }
  }

  lemma AppendToPayload<T>(items: seq<Item<T>>, item: Item<T>)
    requires Typed(item)
    ensures PayloadOf(items + [item])
            == PayloadOf(items)[item.dtype := PayloadOf(items)[item.dtype] + [item.data]]
  {
    assert (items + [item])[..|items|] == items;
  }

  // ---------------------------------------------------------------- the exact drain

  /** How many delayed items the FIFO has room for. */
  function Room(l: Limits, size: nat, wanted: nat): nat {
    if l.queueMax <= 0 || size + wanted <= l.queueMax then wanted
    else if size <= l.queueMax then l.queueMax - size else 0
  }

  lemma MovesWhatFits<T>(l: Limits, p: Pipe<T>, now: int, m: nat)
    requires MovesExactly(l, p, now, true, m)
    ensures m == Room(l, |p.q|, |p.pq|)
  {
    if m > 0 {
      assert Moves(l, p, now, true, m - 1);
    }
  }

  /**
   A flush of everything hands over the whole FIFO followed by the earliest-deadline delayed items
   that fit, and leaves exactly the latest ones.
   */
  lemma DrainsExactly<T>(l: Limits, p: Pipe<T>, now: int)
    requires AllTyped(p.q) && AllTyped(Items(p.pq))
    ensures var m := Room(l, |p.q|, |p.pq|);
            && MoveDue(l, p, now, true) == Pipe(p.q + Items(p.pq[..m]), p.pq[m..])
            && Take(l, p.q + Items(p.pq[..m]), [], true) == Taken([], p.q + Items(p.pq[..m]), false)
            && (ByDeadline(p.pq) ==> forall i, j :: 0 <= i < m <= j < |p.pq| ==> p.pq[i].due <= p.pq[j].due)
  {
    if ByDeadline(p.pq) { InDueOrder(p.pq); }
    var m := MoveDueExactly(l, p, now, true);
    MovesWhatFits(l, p, now, m);
    var all := p.q + Items(p.pq[..m]);
    TakesBatch(l, all, true);
    assert all[..|all|] == all;
    forall i | 0 <= i < |all| ensures all[i].dtype in FIELDS {
      if i < |p.q| { assert all[i] == p.q[i]; }
      if i >= |p.q| { assert all[i] == Items(p.pq)[i - |p.q|]; }
    }
  }

  /** So closing drains both queues exactly when everything fits into the FIFO at once. */
  lemma DrainsBothExactlyWhen<T>(l: Limits, p: Pipe<T>, now: int)
    requires AllTyped(p.q) && AllTyped(Items(p.pq)) && (l.queueMax > 0 ==> |p.q| <= l.queueMax)
    ensures var moved := MoveDue(l, p, now, true);
            && (Take(l, moved.q, [], true).rest == [] && moved.pq == []
                <==> l.queueMax <= 0 || |p.q| + |p.pq| <= l.queueMax)
            && |moved.pq| == if l.queueMax <= 0 || |p.q| + |p.pq| <= l.queueMax then 0
                             else |p.q| + |p.pq| - l.queueMax
  {
    DrainsExactly(l, p, now);
  }
}
