/**
 Fetch intervals: CursorProxy of src/qorme/db/tracking.py with the result hash of
 src/qorme/db/domains/result_hash.py and the Hasher of src/qorme/utils/hash.py.

 A row stands for its deterministic hash, an integer. xxHash itself is left uninterpreted: a digest
 is represented by the bytes that were fed to the stream.
 */
module CursorFetch {
  import opened Basics

  const WORD := 0x1_0000_0000_0000_0000

  type Row = int

  // ---------------------------------------------------------------- what is hashed

  function LittleEndian(w: nat, n: nat): (bytes: seq<nat>)
    ensures |bytes| == n
  {
    if n == 0 then [] else [w % 256] + LittleEndian(w / 256, n - 1)
  }

  function FromBytes(bytes: seq<nat>): nat {
    if bytes == [] then 0 else bytes[0] + 256 * FromBytes(bytes[1..])
  }

  function Power256(n: nat): nat { if n == 0 then 1 else 256 * Power256(n - 1) }

  lemma {:induction false} FromLittleEndian(w: nat, n: nat)
    requires w < Power256(n)
    ensures FromBytes(LittleEndian(w, n)) == w
  {
    if n > 0 {
      FromLittleEndian(w / 256, n - 1);
      var bytes := LittleEndian(w, n);
      assert bytes[1..] == LittleEndian(w / 256, n - 1);
    }
  }

  /** Each row contributes the low 64 bits of its hash, as eight bytes. */
  function Feed(row: Row): seq<nat> { LittleEndian(row % WORD, 8) }

  function Bytes(rows: seq<Row>): seq<nat> {
    if rows == [] then [] else Bytes(rows[..|rows| - 1]) + Feed(rows[|rows| - 1])
  }

  lemma {:induction false} BytesConcat(a: seq<Row>, b: seq<Row>)
    ensures Bytes(a + b) == Bytes(a) + Bytes(b)
  {
    if b == [] {
      assert a + b == a;
    } else {
      assert (a + b)[..|a + b| - 1] == a + b[..|b| - 1];
      BytesConcat(a, b[..|b| - 1]);
    }
  }

  lemma {:induction false} BytesLength(rows: seq<Row>)
    ensures |Bytes(rows)| == 8 * |rows|
  {
    if rows != [] { BytesLength(rows[..|rows| - 1]); }
  }

  lemma FeedInjective(a: Row, b: Row)
    ensures Feed(a) == Feed(b) <==> a % WORD == b % WORD
  {
    assert Power256(8) == WORD by {
      assert Power256(4) == 0x1_0000_0000;
    }
    FromLittleEndian(a % WORD, 8);
    FromLittleEndian(b % WORD, 8);
  }

  lemma FromDrop(b: seq<nat>, k: nat)
    requires k < |b|
    ensures FromBytes(b[k..]) == b[k] + 256 * FromBytes(b[k + 1..])
  {
    assert b[k..][1..] == b[k + 1..];
  }

  lemma FromEight(b: seq<nat>)
    requires |b| == 8
    ensures FromBytes(b) == b[0] + 256 * (b[1] + 256 * (b[2] + 256 * (b[3] + 256 *
                            (b[4] + 256 * (b[5] + 256 * (b[6] + 256 * b[7]))))))
  {
    assert b[0..] == b && b[8..] == [];
    forall k: nat | k < 8 ensures FromBytes(b[k..]) == b[k] + 256 * FromBytes(b[k + 1..]) { FromDrop(b, k); }
  }

  lemma {:induction false} AreBytes(w: nat, n: nat)
    ensures forall i :: 0 <= i < n ==> LittleEndian(w, n)[i] < 256
  {
    if n > 0 { AreBytes(w / 256, n - 1); }
  }

  /** The bytes of a row are the digits of its low 64 bits to the base 256, the lowest first. */
  lemma FeedIsLittleEndian(row: Row)
    ensures var b := Feed(row);
            && |b| == 8 && (forall i :: 0 <= i < 8 ==> b[i] < 256)
            && row % 0x1_0000_0000_0000_0000
               == b[0] + 256 * (b[1] + 256 * (b[2] + 256 * (b[3] + 256 *
                  (b[4] + 256 * (b[5] + 256 * (b[6] + 256 * b[7]))))))
  {
    assert Power256(8) == WORD by { assert Power256(4) == 0x1_0000_0000; }
    FromLittleEndian(row % WORD, 8);
    AreBytes(row % WORD, 8);
    FromEight(Feed(row));
  }

  /** The stream tells the sequence of row hashes: no two of them, however long, feed the same bytes. */
  lemma {:induction false} BytesTellRows(a: seq<Row>, b: seq<Row>)
    ensures Bytes(a) == Bytes(b) <==> |a| == |b| && forall i :: 0 <= i < |a| ==> a[i] % WORD == b[i] % WORD
  {
    BytesLength(a);
    BytesLength(b);
    if |a| == |b| > 0 {
      var n := |a| - 1;
      BytesLength(a[..n]);
      BytesLength(b[..n]);
      BytesTellRows(a[..n], b[..n]);
      FeedInjective(a[n], b[n]);
      assert Bytes(a)[..8 * n] == Bytes(a[..n]) && Bytes(a)[8 * n..] == Feed(a[n]);
      assert Bytes(b)[..8 * n] == Bytes(b[..n]) && Bytes(b)[8 * n..] == Feed(b[n]);
    }
  }

  // ---------------------------------------------------------------- the cursor

  /** A row factory of the caller's, or the hashing one around it. */
  datatype Factory = Own(id: nat) | Hashing(stream: seq<nat>, inner: Factory)

  datatype Query = Query(uid: nat, start: int)

  /** What can be observed, in order; Produced are rows that the driver passed through the row factory. */
  datatype Event =
    | QueryStarted(query: Query)
    | QueryDone(query: Query)
    | FetchStarted
    | Produced(rows: seq<Row>)
    | FetchDone
    | HashComputed(start: Option<int>, uid: Option<nat>, digest: seq<nat>)

  datatype State = State(uid: Option<nat>, start: Option<int>, fetching: bool, factory: Factory, saved: Factory,
                         trace: seq<Event>)

  /** How a fetch ends: by raising, with None or an empty list, or with something. */
  datatype Outcome = Raises | Nothing | Something

  /**
   Calls with what the driver does. The query of execute is None outside a query context; the outcome
   of fetchone is independent of the rows, as the caller's factory may turn a row into None.
   */
  datatype Call =
    | Execute(query: Option<Query>, raises: bool)
    | FetchOne(rows: seq<Row>, outcome: Outcome)
    | FetchMany(rows: seq<Row>, outcome: Outcome)
    | FetchAll(rows: seq<Row>, outcome: Outcome)
    | Close(raises: bool)
    | SetFactory(factory: Factory)

  /** _fetch_started and the handler, which wraps the row factory. */
  function Begin(s: State): State {
    if s.fetching then s
    else s.(saved := s.factory, factory := Hashing([], s.factory), fetching := true,
            trace := s.trace + [FetchStarted])
  }

  function DigestOf(f: Factory): seq<nat> { if f.Hashing? then f.stream else [] }

  /** _fetch_done and the handler, which puts the caller's factory back. */
  function Finish(s: State): State {
    if !s.fetching then s
    else s.(factory := s.saved, fetching := false, uid := None, start := None,
            trace := s.trace + [FetchDone, HashComputed(s.start, s.uid, DigestOf(s.factory))])
  }

  function Produce(s: State, rows: seq<Row>): State {
    s.(factory := if s.factory.Hashing? then Hashing(s.factory.stream + Bytes(rows), s.factory.inner) else s.factory,
       trace := s.trace + [Produced(rows)])
  }

  function Run(s: State, query: Query, raises: bool): State {
    s.(uid := Some(query.uid), start := Some(query.start),
       trace := s.trace + if raises then [QueryStarted(query)] else [QueryStarted(query), QueryDone(query)])
  }

  function Fetch(s: State, rows: seq<Row>, done: bool): State {
    var t := Produce(Begin(s), rows);
    if done then Finish(t) else t
  }

  function Do(s: State, c: Call): State {
    match c
    case Execute(query, raises) =>
      var t := Finish(s);
      if query.None? then t else Run(t, query.value, raises)
    case FetchOne(rows, outcome) => Fetch(s, rows, outcome.Nothing?)
    case FetchMany(rows, outcome) => Fetch(s, rows, outcome.Nothing?)
    case FetchAll(rows, outcome) => Fetch(s, rows, !outcome.Raises?)
    case Close(raises) => if raises then s else Finish(s)
    case SetFactory(factory) => s.(factory := factory)
  }

  /** The caller sets its own factories, and only between fetches. */
  ghost predicate Allowed(s: State, c: Call) {
    c.SetFactory? ==> c.factory.Own? && !s.fetching
  }

  ghost predicate Starts(s: State) {
    s.uid == None && s.start == None && !s.fetching && s.factory.Own? && s.trace == []
  }

  /** The proxy, with the events it fires. */
  class CursorProxy {
    var queryUid: Option<nat>
    var queryStart: Option<int>
    var inProgress: bool
    var rowFactory: Factory
    var savedFactory: Factory
    ghost var trace: seq<Event>

    ghost function View(): State reads this {
      State(queryUid, queryStart, inProgress, rowFactory, savedFactory, trace)
    }

    constructor (factory: Factory)
      requires factory.Own?
      ensures Starts(View()) && rowFactory == factory
    {
      queryUid, queryStart, inProgress, rowFactory, savedFactory, trace := None, None, false, factory, factory, [];
    }

    /** The rows of one call of the driver go through the row factory one after another. */
    method Driver(rows: seq<Row>)
      modifies this
      ensures View() == Produce(old(View()), rows)
    {
      for i := 0 to |rows|
        invariant View() == old(View()).(factory :=
                  if !old(rowFactory).Hashing? then old(rowFactory)
                  else Hashing(old(rowFactory).stream + Bytes(rows[..i]), old(rowFactory).inner))
      {
        assert rows[..i + 1][..i] == rows[..i];
        if rowFactory.Hashing? {
          assert old(rowFactory).stream + (Bytes(rows[..i]) + Feed(rows[i]))
              == (old(rowFactory).stream + Bytes(rows[..i])) + Feed(rows[i]);
          rowFactory := rowFactory.(stream := rowFactory.stream + Feed(rows[i]));
        }
      }
      assert rows[..|rows|] == rows;
      trace := trace + [Produced(rows)];
    }

    method BeginFetch()
      modifies this
      ensures View() == Begin(old(View()))
    {
      if inProgress {
        return;
      }
      savedFactory := rowFactory;
      rowFactory := Hashing([], rowFactory);
      trace := trace + [FetchStarted];
      inProgress := true;
    }

    method FinishFetch()
      modifies this
      ensures View() == Finish(old(View()))
    {
      if !inProgress {
        return;
      }
      var hashing := rowFactory;
      rowFactory := savedFactory;
      var digest := DigestOf(hashing);
      trace := trace + [FetchDone, HashComputed(queryStart, queryUid, digest)];
      inProgress := false;
      queryUid := None;
      queryStart := None;
    }

    method RecordQueryExecution(query: Option<Query>, raises: bool)
      modifies this
      ensures View() == Do(old(View()), Execute(query, raises))
    {
      FinishFetch();
      if query.None? {
        return;
      }
      trace := trace + [QueryStarted(query.value)];
      queryUid := Some(query.value.uid);
      queryStart := Some(query.value.start);
      if raises {
        return;
      }
      ghost var before := trace[..|trace| - 1];
      trace := trace + [QueryDone(query.value)];
      assert before + [QueryStarted(query.value)] + [QueryDone(query.value)]
          == before + [QueryStarted(query.value), QueryDone(query.value)];
    }

    method FetchSome(many: bool, rows: seq<Row>, outcome: Outcome)
      modifies this
      ensures View() == Do(old(View()), if many then FetchMany(rows, outcome) else FetchOne(rows, outcome))
    {
      BeginFetch();
      Driver(rows);
      if outcome.Raises? {
        return;
      }
      if outcome.Nothing? {
        FinishFetch();
      }
    }

    method FetchEverything(rows: seq<Row>, outcome: Outcome)
      modifies this
      ensures View() == Do(old(View()), FetchAll(rows, outcome))
    {
      BeginFetch();
      Driver(rows);
      if outcome.Raises? {
        return;
      }
      FinishFetch();
    }

    method CloseCursor(raises: bool)
      modifies this
      ensures View() == Do(old(View()), Close(raises))
    {
      if raises {
        return;
      }
      FinishFetch();
    }
  }

  // ---------------------------------------------------------------- what a trace says

  /** Fetches open after these events. */
  function Depth(t: seq<Event>): int {
    if t == [] then 0
    else
      var d := Depth(t[..|t| - 1]);
      match t[|t| - 1]
      case FetchStarted => d + 1
      case FetchDone => d - 1
      case _ => d
  }

  /** Started and done alternate, starting with started. */
  ghost predicate Alternates(t: seq<Event>) { forall n :: 0 <= n <= |t| ==> 0 <= Depth(t[..n]) <= 1 }

  /** All rows produced since the last start, whatever calls produced them. */
  function RowsSince(t: seq<Event>): seq<Row> {
    if t == [] then []
    else
      match t[|t| - 1]
      case FetchStarted => []
      case Produced(rows) => RowsSince(t[..|t| - 1]) + rows
      case _ => RowsSince(t[..|t| - 1])
  }

  /** The last query started, unless a fetch was done after it. */
  function Owner(t: seq<Event>): Option<Query> {
    if t == [] then None
    else
      match t[|t| - 1]
      case QueryStarted(query) => Some(query)
      case FetchDone => None
      case _ => Owner(t[..|t| - 1])
  }

  ghost predicate Owned(uid: Option<nat>, start: Option<int>, owner: Option<Query>) {
    if owner.None? then uid == None && start == None
    else uid == Some(owner.value.uid) && start == Some(owner.value.start)
  }

  /** A digest is that of the interval just done: of its rows, under the query that owned it. */
  ghost predicate Faithful(t: seq<Event>, i: nat)
    requires i < |t|
  {
    t[i].HashComputed? ==>
      && i > 0 && t[i - 1] == FetchDone
      && t[i].digest == Bytes(RowsSince(t[..i - 1]))
      && Owned(t[i].uid, t[i].start, Owner(t[..i - 1]))
  }

  ghost predicate Good(t: seq<Event>) { Alternates(t) && forall i :: 0 <= i < |t| ==> Faithful(t, i) }

  /** own is the factory that the caller set last. */
  ghost predicate Inv(s: State, own: Factory) {
    && Good(s.trace)
    && Depth(s.trace) == (if s.fetching then 1 else 0)
    && Owned(s.uid, s.start, Owner(s.trace))
    && own.Own?
    && s.factory == (if s.fetching then Hashing(Bytes(RowsSince(s.trace)), own) else own)
    && (s.fetching ==> s.saved == own)
  }

  function OwnAfter(own: Factory, c: Call): Factory { if c.SetFactory? then c.factory else own }

  lemma Unfold(t: seq<Event>, e: Event)
    ensures Depth(t + [e]) == Depth(t) + (if e == FetchStarted then 1 else if e == FetchDone then -1 else 0)
    ensures RowsSince(t + [e]) ==
            if e == FetchStarted then [] else if e.Produced? then RowsSince(t) + e.rows else RowsSince(t)
    ensures Owner(t + [e]) == if e.QueryStarted? then Some(e.query) else if e == FetchDone then None else Owner(t)
  {
    assert (t + [e])[..|t|] == t;
  }

  lemma GoodAppend(t: seq<Event>, e: Event)
    requires Good(t) && 0 <= Depth(t + [e]) <= 1 && Faithful(t + [e], |t|)
    ensures Good(t + [e])
  {
    var t' := t + [e];
    forall n | 0 <= n <= |t'| ensures 0 <= Depth(t'[..n]) <= 1 {
      if n <= |t| { assert t'[..n] == t[..n]; } else { assert t'[..n] == t'; }
    }
    forall i | 0 <= i < |t'| ensures Faithful(t', i) {
      if i < |t| {
        assert Faithful(t, i) && t'[i] == t[i];
        if i > 0 { assert t'[..i - 1] == t[..i - 1]; }
      }
    }
  }

  /** Events other than a digest and those of a fetch. */
  lemma PlainAppend(t: seq<Event>, e: Event)
    requires Good(t) && !e.HashComputed? && e != FetchStarted && e != FetchDone
    ensures Good(t + [e]) && Depth(t + [e]) == Depth(t)
  {
    Unfold(t, e);
    assert t[..|t|] == t;
    GoodAppend(t, e);
  }

  lemma BeginKeeps(s: State, own: Factory)
    requires Inv(s, own)
    ensures Inv(Begin(s), own) && Begin(s).fetching
  {
    if !s.fetching {
      Unfold(s.trace, FetchStarted);
      GoodAppend(s.trace, FetchStarted);
    }
  }

  lemma FinishKeeps(s: State, own: Factory)
    requires Inv(s, own)
    ensures Inv(Finish(s), own) && !Finish(s).fetching
  {
    if s.fetching {
      var t := s.trace;
      var hash := HashComputed(s.start, s.uid, DigestOf(s.factory));
      Unfold(t, FetchDone);
      GoodAppend(t, FetchDone);
      var t1 := t + [FetchDone];
      Unfold(t1, hash);
      assert (t1 + [hash])[..|t|] == t;
      GoodAppend(t1, hash);
      assert t + [FetchDone, hash] == t1 + [hash];
    }
  }

  lemma ProduceKeeps(s: State, rows: seq<Row>, own: Factory)
    requires Inv(s, own) && s.fetching
    ensures Inv(Produce(s, rows), own) && Produce(s, rows).fetching
  {
    Unfold(s.trace, Produced(rows));
    PlainAppend(s.trace, Produced(rows));
    BytesConcat(RowsSince(s.trace), rows);
  }

  lemma RunKeeps(s: State, query: Query, raises: bool, own: Factory)
    requires Inv(s, own) && !s.fetching
    ensures Inv(Run(s, query, raises), own)
  {
    Unfold(s.trace, QueryStarted(query));
    PlainAppend(s.trace, QueryStarted(query));
    if !raises {
      var t := s.trace + [QueryStarted(query)];
      Unfold(t, QueryDone(query));
      PlainAppend(t, QueryDone(query));
      assert s.trace + [QueryStarted(query), QueryDone(query)] == t + [QueryDone(query)];
    }
  }

  lemma FetchKeeps(s: State, rows: seq<Row>, done: bool, own: Factory)
    requires Inv(s, own)
    ensures Inv(Fetch(s, rows, done), own)
  {
    BeginKeeps(s, own);
    ProduceKeeps(Begin(s), rows, own);
    FinishKeeps(Produce(Begin(s), rows), own);
  }

  lemma CallKeeps(s: State, c: Call, own: Factory)
    requires Inv(s, own) && Allowed(s, c)
    ensures Inv(Do(s, c), OwnAfter(own, c))
  {
    if c.Execute? {
      FinishKeeps(s, own);
      if c.query.Some? { RunKeeps(Finish(s), c.query.value, c.raises, own); }
    } else if c.FetchOne? {
      FetchKeeps(s, c.rows, c.outcome.Nothing?, own);
    } else if c.FetchMany? {
      FetchKeeps(s, c.rows, c.outcome.Nothing?, own);
    } else if c.FetchAll? {
      FetchKeeps(s, c.rows, !c.outcome.Raises?, own);
    } else if c.Close? {
      FinishKeeps(s, own);
    }
  }

  // ---------------------------------------------------------------- any sequence of calls

  function DoAll(s: State, cs: seq<Call>): State {
    if cs == [] then s else Do(DoAll(s, cs[..|cs| - 1]), cs[|cs| - 1])
  }

  ghost predicate AllAllowed(s: State, cs: seq<Call>) {
    forall i :: 0 <= i < |cs| ==> Allowed(DoAll(s, cs[..i]), cs[i])
  }

  /** The factory the caller set last. */
  function OwnFactory(first: Factory, cs: seq<Call>): Factory {
    if cs == [] then first else OwnAfter(OwnFactory(first, cs[..|cs| - 1]), cs[|cs| - 1])
  }

  /**
   Over any calls, raising ones included: started and done alternate; the row factory is the caller's
   whenever no fetch is open; and each digest is of all the rows of its interval.
   */
  lemma {:induction false} CallsKeep(s: State, cs: seq<Call>)
    requires Starts(s) && AllAllowed(s, cs)
    ensures Inv(DoAll(s, cs), OwnFactory(s.factory, cs))
  {
    if cs == [] {
      assert forall n :: 0 <= n <= |s.trace| ==> s.trace[..n] == [];
    } else {
      var init := cs[..|cs| - 1];
      assert forall i :: 0 <= i < |init| ==> cs[..i] == init[..i];
      CallsKeep(s, init);
      CallKeeps(DoAll(s, init), cs[|cs| - 1], OwnFactory(s.factory, init));
    }
  }

  // ---------------------------------------------------------------- executions are announced

  /** The queries that the events say were started, in order. */
  function QueriesStarted(t: seq<Event>): seq<Query> {
    if t == [] then []
    else
      var rest, e := QueriesStarted(t[..|t| - 1]), t[|t| - 1];
      if e.QueryStarted? then rest + [e.query] else rest
  }

  function QueriesDone(t: seq<Event>): seq<Query> {
    if t == [] then []
    else
      var rest, e := QueriesDone(t[..|t| - 1]), t[|t| - 1];
      if e.QueryDone? then rest + [e.query] else rest
  }

  /** The queries that were executed in a context, in order; those whose execution raised among them or not. */
  function Executed(cs: seq<Call>, raising: bool): seq<Query> {
    if cs == [] then []
    else
      var rest, c := Executed(cs[..|cs| - 1], raising), cs[|cs| - 1];
      if c.Execute? && c.query.Some? && (raising || !c.raises) then rest + [c.query.value] else rest
  }

  lemma OneEventMore(t: seq<Event>, e: Event)
    ensures QueriesStarted(t + [e]) == if e.QueryStarted? then QueriesStarted(t) + [e.query] else QueriesStarted(t)
    ensures QueriesDone(t + [e]) == if e.QueryDone? then QueriesDone(t) + [e.query] else QueriesDone(t)
  {
    assert (t + [e])[..|t|] == t;
  }

  lemma TwoEventsMore(t: seq<Event>, d: Event, e: Event)
    ensures t + [d, e] == (t + [d]) + [e]
  {
  }

  /** Neither the start nor the end of an interval announces a query. */
  lemma IntervalsAnnounceNone(s: State)
    ensures QueriesStarted(Begin(s).trace) == QueriesStarted(s.trace) == QueriesStarted(Finish(s).trace)
    ensures QueriesDone(Begin(s).trace) == QueriesDone(s.trace) == QueriesDone(Finish(s).trace)
  {
    var hash := HashComputed(s.start, s.uid, DigestOf(s.factory));
    OneEventMore(s.trace, FetchStarted);
    OneEventMore(s.trace, FetchDone);
    OneEventMore(s.trace + [FetchDone], hash);
    TwoEventsMore(s.trace, FetchDone, hash);
  }

  lemma FetchAnnouncesNone(s: State, rows: seq<Row>, done: bool)
    ensures QueriesStarted(Fetch(s, rows, done).trace) == QueriesStarted(s.trace)
    ensures QueriesDone(Fetch(s, rows, done).trace) == QueriesDone(s.trace)
  {
    IntervalsAnnounceNone(s);
    OneEventMore(Begin(s).trace, Produced(rows));
    IntervalsAnnounceNone(Produce(Begin(s), rows));
  }

  lemma RunAnnounces(s: State, query: Query, raises: bool)
    ensures QueriesStarted(Run(s, query, raises).trace) == QueriesStarted(s.trace) + [query]
    ensures QueriesDone(Run(s, query, raises).trace) == QueriesDone(s.trace) + if raises then [] else [query]
  {
    OneEventMore(s.trace, QueryStarted(query));
    OneEventMore(s.trace + [QueryStarted(query)], QueryDone(query));
    TwoEventsMore(s.trace, QueryStarted(query), QueryDone(query));
  }

  /** From s to s' these queries were announced as started and as done. */
  ghost predicate Announced(s: State, s': State, started: seq<Query>, done: seq<Query>) {
    && QueriesStarted(s'.trace) == QueriesStarted(s.trace) + started
    && QueriesDone(s'.trace) == QueriesDone(s.trace) + done
  }

  lemma ExecuteAnnounces(s: State, query: Option<Query>, raises: bool)
    ensures var started := if query.Some? then [query.value] else [];
            Announced(s, Do(s, Execute(query, raises)), started, if raises then [] else started)
  {
    IntervalsAnnounceNone(s);
    if query.Some? { RunAnnounces(Finish(s), query.value, raises); }
  }

  lemma OtherAnnouncesNone(s: State, c: Call)
    requires !c.Execute?
    ensures Announced(s, Do(s, c), [], [])
  {
    match c
    case FetchOne(rows, outcome) => FetchAnnouncesNone(s, rows, outcome.Nothing?);
    case FetchMany(rows, outcome) => FetchAnnouncesNone(s, rows, outcome.Nothing?);
    case FetchAll(rows, outcome) => FetchAnnouncesNone(s, rows, !outcome.Raises?);
    case Close(_) => IntervalsAnnounceNone(s);
    case SetFactory(_) =>
  }

  /** Every execution in a context is announced as started, and as done exactly when it did not raise. */
  lemma {:induction false} ExecutionsAreAnnounced(s: State, cs: seq<Call>)
    requires s.trace == []
    ensures QueriesStarted(DoAll(s, cs).trace) == Executed(cs, true)
    ensures QueriesDone(DoAll(s, cs).trace) == Executed(cs, false)
  {
    if cs != [] {
      ExecutionsAreAnnounced(s, cs[..|cs| - 1]);
      var before, c := DoAll(s, cs[..|cs| - 1]), cs[|cs| - 1];
      if c.Execute? { ExecuteAnnounces(before, c.query, c.raises); } else { OtherAnnouncesNone(before, c); }
    }
  }

  // ---------------------------------------------------------------- the splitting does not matter

  function Concat(batches: seq<seq<Row>>): seq<Row> {
    if batches == [] then [] else Concat(batches[..|batches| - 1]) + batches[|batches| - 1]
  }

  /** One fetch per batch, by fetchone or fetchmany, each with a result. */
  ghost predicate Fetches(cs: seq<Call>, batches: seq<seq<Row>>) {
    |cs| == |batches| && forall i :: 0 <= i < |cs| ==>
      cs[i] == FetchOne(batches[i], Something) || cs[i] == FetchMany(batches[i], Something)
  }

  lemma FirstIsHashed(s: State, cs: seq<Call>, batches: seq<seq<Row>>)
    requires !s.fetching && Fetches(cs, batches) && |cs| == 1
    ensures var t := DoAll(s, cs);
            && t.fetching && t.factory == Hashing(Bytes(Concat(batches)), s.factory) && t.saved == s.factory
            && t.uid == s.uid && t.start == s.start
  {
    assert cs[..0] == [] && batches[..0] == [];
    assert Concat(batches) == batches[0];
    assert [] + Bytes(batches[0]) == Bytes(batches[0]);
  }

  lemma {:induction false} BatchesAreHashed(s: State, cs: seq<Call>, batches: seq<seq<Row>>)
    requires !s.fetching && Fetches(cs, batches) && cs != []
    ensures var t := DoAll(s, cs);
            && t.fetching && t.factory == Hashing(Bytes(Concat(batches)), s.factory) && t.saved == s.factory
            && t.uid == s.uid && t.start == s.start
  {
    var n := |cs| - 1;
    if n == 0 {
      FirstIsHashed(s, cs, batches);
    } else {
      BatchesAreHashed(s, cs[..n], batches[..n]);
      BytesConcat(Concat(batches[..n]), batches[n]);
    }
  }

  ghost function LastEvent(s: State): Event
    requires s.trace != []
  {
    s.trace[|s.trace| - 1]
  }

  /** Rows fetched piece by piece until nothing comes give the same digest as fetching them all at once. */
  lemma SplitDoesNotMatter(s: State, cs: seq<Call>, batches: seq<seq<Row>>, one: bool)
    requires !s.fetching && Fetches(cs, batches)
    ensures var pieces := Do(DoAll(s, cs), if one then FetchOne([], Nothing) else FetchMany([], Nothing));
            var whole := Do(s, FetchAll(Concat(batches), Something));
            && pieces.trace != [] && whole.trace != [] && LastEvent(pieces) == LastEvent(whole)
            && LastEvent(whole) == HashComputed(s.start, s.uid, Bytes(Concat(batches)))
  {
    var t := DoAll(s, cs);
    if cs != [] {
      BatchesAreHashed(s, cs, batches);
    }
    assert Bytes([]) == [];
    assert [] + Bytes(Concat(batches)) == Bytes(Concat(batches));
    assert Bytes(Concat(batches)) + [] == Bytes(Concat(batches));
  }

  // ---------------------------------------------------------------- whose rows they are

  /** The call ends an interval, whether it opened it or not. */
  predicate Closes(s: State, c: Call) {
    match c
    case Execute(_, _) => s.fetching
    case FetchOne(_, outcome) => outcome.Nothing?
    case FetchMany(_, outcome) => outcome.Nothing?
    case FetchAll(_, outcome) => !outcome.Raises?
    case Close(raises) => s.fetching && !raises
    case SetFactory(_) => false
  }

  /** Some call of cs ends an interval. */
  predicate SomeCloses(s: State, cs: seq<Call>) {
    cs != [] && (SomeCloses(s, cs[..|cs| - 1]) || Closes(DoAll(s, cs[..|cs| - 1]), cs[|cs| - 1]))
  }

  /** Exactly the calls that close announce a digest, and it carries the uid the cursor then holds. */
  lemma ClosingAnnounces(s: State, c: Call)
    ensures Closes(s, c) <==> exists i :: |s.trace| <= i < |Do(s, c).trace| && Do(s, c).trace[i].HashComputed?
    ensures forall i :: |s.trace| <= i < |Do(s, c).trace| && Do(s, c).trace[i].HashComputed? ==>
              Do(s, c).trace[i].uid == s.uid
  {
    if Closes(s, c) {
      if c.Execute? {
        assert Finish(s).trace[|s.trace| + 1].HashComputed?;
        assert Do(s, c).trace[|s.trace| + 1] == Finish(s).trace[|s.trace| + 1];
      } else {
        assert Do(s, c).trace[|Do(s, c).trace| - 1].HashComputed?;
      }
    }
  }

  function Held(query: Option<Query>): Option<nat> { if query.Some? then Some(query.value.uid) else None }

  lemma {:induction false} UidUntilClosed(s: State, cs: seq<Call>)
    requires forall i :: 0 <= i < |cs| ==> !cs[i].Execute?
    ensures DoAll(s, cs).uid == if SomeCloses(s, cs) then None else s.uid
  {
    if cs != [] { UidUntilClosed(s, cs[..|cs| - 1]); }
  }

  lemma {:induction false} DoAllConcat(s: State, a: seq<Call>, b: seq<Call>)
    ensures DoAll(s, a + b) == DoAll(DoAll(s, a), b)
  {
    if b == [] {
      assert a + b == a;
    } else {
      assert (a + b)[..|a + b| - 1] == a + b[..|b| - 1];
      DoAllConcat(s, a, b[..|b| - 1]);
    }
  }

  /**
   Over any calls, of which `execution` is the last execution: the uid under which the next digest is
   announced is the executed query's exactly when, for a query in a context, no interval has ended
   since; and, for one outside a context, when an interval has ended since, was open when it was
   executed, or no earlier query was still waiting for its first fetch.
   */
  lemma AttributedExactlyWhen(s: State, before: seq<Call>, execution: Call, after: seq<Call>)
    requires execution.Execute? && forall i :: 0 <= i < |after| ==> !after[i].Execute?
    ensures var earlier, now := DoAll(s, before), DoAll(s, before + [execution] + after);
            var closed := SomeCloses(Do(earlier, execution), after);
            && (now.uid == Held(execution.query) <==>
                  if execution.query.Some? then !closed else closed || earlier.fetching || earlier.uid == None)
            && (now.uid == None || now.uid == Held(execution.query)
                || (execution.query == None && !earlier.fetching && now.uid == earlier.uid))
  {
    DoAllConcat(s, before + [execution], after);
    assert (before + [execution])[..|before|] == before;
    UidUntilClosed(Do(DoAll(s, before), execution), after);
  }
}
