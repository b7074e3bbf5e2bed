/**
 Undoable patching: the Wrapper of src/qorme/utils/wrapper.py.

 Objects are classes or modules; the attributes patched are plain functions, so that reading one
 gives the very value stored in the table (__dict__) where it is found.
 */
module Patching {
  import opened Basics

  type Obj = nat

  type Key = (Obj, string)

  /** A function, or the proxy that wrapt puts around a value on behalf of a wrapper function. */
  datatype Value = Plain(id: nat) | Proxy(wrapper: nat, wrapped: Value)

  /** The own attributes of every object. */
  type Tables = map<Key, Value>

  /** Where attributes are looked up after the object itself, and which objects refuse assignments. */
  datatype Shape = Shape(bases: map<Obj, seq<Obj>>, sealed: set<Obj>)

  function FirstIn(t: Tables, objs: seq<Obj>, member: string): Option<Value> {
    if objs == [] then None
    else if (objs[0], member) in t then Some(t[(objs[0], member)])
    else FirstIn(t, objs[1..], member)
  }

  function GetAttr(t: Tables, h: Shape, k: Key): Option<Value> {
    if k in t then Some(t[k]) else if k.0 in h.bases then FirstIn(t, h.bases[k.0], k.1) else None
  }

  predicate WrappedBy(v: Option<Value>, w: nat) { v.Some? && v.value.Proxy? && v.value.wrapper == w }

  // ---------------------------------------------------------------- one wrapper's view

  /** owned: the attribute was not in the object's own table before. */
  datatype Record = Record(wrapper: nat, owned: bool)

  datatype Book = Book(tables: Tables, records: map<Key, Record>)

  datatype Wrapping = Wrapped | Duplicate | AlreadyWrapped | Failed

  datatype Unwrapping = Restored | NotWrapped | Raised

  function Wrap(s: Book, h: Shape, k: Key, w: nat): (Book, Wrapping) {
    var v := GetAttr(s.tables, h, k);
    if WrappedBy(v, w) then (s, Duplicate)
    else if k in s.records then (s, AlreadyWrapped)
    else if v.None? || k.0 in h.sealed then (s, Failed)
    else (Book(s.tables[k := Proxy(w, v.value)], s.records[k := Record(w, k !in s.tables)]), Wrapped)
  }

  /** The record goes in any case. Raised: the attribute cannot be deleted or set. */
  function Unwrap(s: Book, h: Shape, k: Key): (Book, Unwrapping) {
    if k !in s.records then (s, NotWrapped)
    else
      var Record(w, owned) := s.records[k];
      var v := GetAttr(s.tables, h, k);
      var left := s.(records := s.records - {k});
      if !WrappedBy(v, w) then (left, NotWrapped)
      else if k.0 in h.sealed || (owned && k !in s.tables) then (left, Raised)
      else (left.(tables := if owned then s.tables - {k} else s.tables[k := v.value.wrapped]), Restored)
  }

  function UnwrapAll(s: Book, h: Shape, keys: seq<Key>): Book {
    if keys == [] then s else Unwrap(UnwrapAll(s, h, keys[..|keys| - 1]), h, keys[|keys| - 1]).0
  }

  /** Object i is the first of these that has the attribute, with this value. */
  ghost predicate DefinedBy(t: Tables, objs: seq<Obj>, member: string, i: nat, v: Value) {
    && i < |objs| && (objs[i], member) in t && t[(objs[i], member)] == v
    && forall j :: 0 <= j < i ==> (objs[j], member) !in t
  }

  lemma {:induction false} FirstInExactly(t: Tables, objs: seq<Obj>, member: string, v: Value)
    ensures FirstIn(t, objs, member) == Some(v) <==> exists i :: DefinedBy(t, objs, member, i, v)
  {
    if objs != [] {
      FirstInExactly(t, objs[1..], member, v);
      if (objs[0], member) in t {
        assert t[(objs[0], member)] == v ==> DefinedBy(t, objs, member, 0, v);
      } else {
        if i: nat :| DefinedBy(t, objs[1..], member, i, v) { assert DefinedBy(t, objs, member, i + 1, v); }
        if i: nat :| DefinedBy(t, objs, member, i, v) { assert DefinedBy(t, objs[1..], member, i - 1, v); }
      }
    }
  }

  /** Reading an attribute finds the object's own, or else that of the first base that has one. */
  lemma ReadsFirstDefinition(t: Tables, h: Shape, k: Key, v: Value)
    ensures GetAttr(t, h, k) == Some(v) <==>
              if k in t then t[k] == v
              else k.0 in h.bases && exists i :: DefinedBy(t, h.bases[k.0], k.1, i, v)
  {
    if k.0 in h.bases { FirstInExactly(t, h.bases[k.0], k.1, v); }
  }

  /** Reading the attribute gives the proxy of this wrapper. */
  ghost predicate ReadsProxy(t: Tables, h: Shape, k: Key, w: nat) {
    exists inner :: GetAttr(t, h, k) == Some(Proxy(w, inner))
  }

  lemma ReadsProxyOf(t: Tables, h: Shape, k: Key, w: nat)
    ensures WrappedBy(GetAttr(t, h, k), w) <==> ReadsProxy(t, h, k, w)
  {
    var v := GetAttr(t, h, k);
    if WrappedBy(v, w) { assert v == Some(Proxy(w, v.value.wrapped)); }
  }

  /** What each outcome of a wrap means. A wrap that raises changes nothing. */
  lemma FailedWrapChangesNothing(s: Book, h: Shape, k: Key, w: nat)
    ensures Wrap(s, h, k, w).1 != Wrapped ==> Wrap(s, h, k, w).0 == s
    ensures Wrap(s, h, k, w).1 == Duplicate <==> ReadsProxy(s.tables, h, k, w)
    ensures Wrap(s, h, k, w).1 == AlreadyWrapped <==> !ReadsProxy(s.tables, h, k, w) && k in s.records
    ensures Wrap(s, h, k, w).1 == Failed <==>
            && !ReadsProxy(s.tables, h, k, w) && k !in s.records
            && (GetAttr(s.tables, h, k) == None || k.0 in h.sealed)
  {
    ReadsProxyOf(s.tables, h, k, w);
  }

  /**
   What each outcome of an unwrap means. The record is dropped in any case; the attribute changes only
   when it is restored: it is no longer the object's own, or is what the proxy was put around.
   */
  lemma UnwrapExactly(s: Book, h: Shape, k: Key)
    ensures var (s', result) := Unwrap(s, h, k);
            && s'.records == s.records - {k}
            && (result == NotWrapped <==> k !in s.records || !ReadsProxy(s.tables, h, k, s.records[k].wrapper))
            && (result == Raised ==> k.0 in h.sealed || k !in s.tables)
            && (result != Restored ==> s'.tables == s.tables)
            && (result == Restored ==>
                  && k.0 !in h.sealed
                  && (forall j :: j != k ==> SameAt(s'.tables, s.tables, j))
                  && if s.records[k].owned then k in s.tables && k !in s'.tables
                     else k in s'.tables
                          && GetAttr(s.tables, h, k) == Some(Proxy(s.records[k].wrapper, s'.tables[k])))
  {
    if k in s.records { ReadsProxyOf(s.tables, h, k, s.records[k].wrapper); }
  }

  /** After a patch that failed, unwrapping drops the record just made and touches nothing else. */
  lemma FailedIsTakenBack(s: Book, h: Shape, k: Key, r: Record)
    requires Wrap(s, h, k, r.wrapper).1 == Failed
    ensures Unwrap(Book(s.tables, s.records[k := r]), h, k) == (s, NotWrapped)
  {
    assert s.records[k := r] - {k} == s.records;
  }

  /** In any state whatsoever, unwrapping right after a wrap that succeeded takes it back. */
  lemma UnwrapUndoesWrap(s: Book, h: Shape, k: Key, w: nat)
    requires Wrap(s, h, k, w).1 == Wrapped
    ensures Unwrap(Wrap(s, h, k, w).0, h, k) == (s, Restored)
  {
    var s' := Wrap(s, h, k, w).0;
    assert s'.records - {k} == s.records;
    if k in s.tables {
      assert s'.tables[k := s.tables[k]] == s.tables;
    } else {
      assert s'.tables - {k} == s.tables;
    }
  }

  // ---------------------------------------------------------------- any sequence of calls

  /** Undoing every record gives base; proxies are never put on proxies of the same wrapper. */
  ghost predicate Undoable(s: Book, h: Shape, base: Tables) {
    && (forall k :: k in s.records ==> k in s.tables && Patched(s.tables[k], s.records[k], k, h, base))
    && (forall k :: k !in s.records ==> SameAt(s.tables, base, k))
  }

  ghost predicate Patched(v: Value, r: Record, k: Key, h: Shape, base: Tables) {
    && v.Proxy? && v.wrapper == r.wrapper && !WrappedBy(Some(v.wrapped), r.wrapper) && k.0 !in h.sealed
    && (if r.owned then k !in base else k in base && base[k] == v.wrapped)
  }

  ghost predicate SameAt(t: Tables, u: Tables, k: Key) {
    (k in t <==> k in u) && (k in t ==> t[k] == u[k])
  }

  datatype Call = WrapCall(key: Key, wrapper: nat) | UnwrapCall(key: Key)

  function Do(s: Book, h: Shape, c: Call): Book {
    match c
    case WrapCall(k, w) => Wrap(s, h, k, w).0
    case UnwrapCall(k) => Unwrap(s, h, k).0
  }

  function DoAll(s: Book, h: Shape, cs: seq<Call>): Book {
    if cs == [] then s else Do(DoAll(s, h, cs[..|cs| - 1]), h, cs[|cs| - 1])
  }

  lemma WrapKeepsUndoable(s: Book, h: Shape, k: Key, w: nat, base: Tables)
    requires Undoable(s, h, base)
    ensures Undoable(Wrap(s, h, k, w).0, h, base)
  {
    if Wrap(s, h, k, w).1 == Wrapped { assert SameAt(s.tables, base, k); }
  }

  /** Whatever is recorded can be taken back, and nothing raises. */
  lemma UnwrapKeepsUndoable(s: Book, h: Shape, k: Key, base: Tables)
    requires Undoable(s, h, base)
    ensures Undoable(Unwrap(s, h, k).0, h, base)
    ensures Unwrap(s, h, k).1 == if k in s.records then Restored else NotWrapped
    ensures Unwrap(s, h, k).0.records == s.records - {k}
  {
    if k in s.records {
      var s' := Unwrap(s, h, k).0;
      assert SameAt(s'.tables, base, k);
      forall j | j != k && j !in s'.records ensures SameAt(s'.tables, base, j) { assert SameAt(s.tables, base, j); }
    }
  }

  lemma {:induction false} CallsKeepUndoable(s: Book, h: Shape, cs: seq<Call>, base: Tables)
    requires Undoable(s, h, base)
    ensures Undoable(DoAll(s, h, cs), h, base)
  {
    if cs != [] {
      var s', c := DoAll(s, h, cs[..|cs| - 1]), cs[|cs| - 1];
      CallsKeepUndoable(s, h, cs[..|cs| - 1], base);
      if c.WrapCall? {
        WrapKeepsUndoable(s', h, c.key, c.wrapper, base);
      } else {
        UnwrapKeepsUndoable(s', h, c.key, base);
      }
    }
  }

  lemma {:induction false} UnwrapAllKeepsUndoable(s: Book, h: Shape, keys: seq<Key>, base: Tables)
    requires Undoable(s, h, base)
    ensures Undoable(UnwrapAll(s, h, keys), h, base)
    ensures forall k :: k in UnwrapAll(s, h, keys).records ==> k in s.records && k !in keys
  {
    if keys != [] {
      UnwrapAllKeepsUndoable(s, h, keys[..|keys| - 1], base);
      UnwrapKeepsUndoable(UnwrapAll(s, h, keys[..|keys| - 1]), h, keys[|keys| - 1], base);
      forall k | k in keys ensures k in keys[..|keys| - 1] || k == keys[|keys| - 1] { }
    }
  }

  lemma NothingRecorded(s: Book, h: Shape, base: Tables)
    requires Undoable(s, h, base) && s.records == map[]
    ensures s.tables == base
  {
    forall k ensures SameAt(s.tables, base, k) { assert k !in s.records; }
  }

  /** The keys visited by clear, in some order. */
  ghost predicate Covers(keys: seq<Key>, records: map<Key, Record>) { forall k :: k in records ==> k in keys }

  lemma UnwrapAllRestores(s: Book, h: Shape, keys: seq<Key>, base: Tables)
    requires Undoable(s, h, base) && Covers(keys, s.records)
    ensures UnwrapAll(s, h, keys) == Book(base, map[])
  {
    UnwrapAllKeepsUndoable(s, h, keys, base);
    assert UnwrapAll(s, h, keys).records == map[];
    NothingRecorded(UnwrapAll(s, h, keys), h, base);
  }

  lemma FreshIsUndoable(h: Shape, base: Tables)
    ensures Undoable(Book(base, map[]), h, base)
  {
  }

  /** After any calls on one wrapper, failing ones included, clear in any order restores every table. */
  lemma ClearRestores(h: Shape, base: Tables, cs: seq<Call>, keys: seq<Key>)
    requires Covers(keys, DoAll(Book(base, map[]), h, cs).records)
    ensures UnwrapAll(DoAll(Book(base, map[]), h, cs), h, keys) == Book(base, map[])
  {
    FreshIsUndoable(h, base);
    CallsKeepUndoable(Book(base, map[]), h, cs, base);
    UnwrapAllRestores(DoAll(Book(base, map[]), h, cs), h, keys, base);
  }

  // ---------------------------------------------------------------- two wrappers

  /** Unwound last in, first out, two wrappers restore the tables. */
  lemma LastInFirstOutRestores(h: Shape, base: Tables, cs1: seq<Call>, cs2: seq<Call>,
                               keys1: seq<Key>, keys2: seq<Key>)
    requires var one := DoAll(Book(base, map[]), h, cs1);
             var two := DoAll(Book(one.tables, map[]), h, cs2);
             Covers(keys1, one.records) && Covers(keys2, two.records)
    ensures var one := DoAll(Book(base, map[]), h, cs1);
            var two := DoAll(Book(one.tables, map[]), h, cs2);
            UnwrapAll(Book(UnwrapAll(two, h, keys2).tables, one.records), h, keys1) == Book(base, map[])
  {
    var one := DoAll(Book(base, map[]), h, cs1);
    ClearRestores(h, one.tables, cs2, keys2);
    assert Book(one.tables, one.records) == one;
    ClearRestores(h, base, cs1, keys1);
  }

  /** First in, first out: the tables below the second wrapper's, once the first has undone all but `left`. */
  ghost predicate Between(mid: Tables, base: Tables, one: Book, left: map<Key, Record>, over: map<Key, Record>) {
    && (forall k :: k in left ==> k in one.records && left[k] == one.records[k])
    && (forall k :: if k in one.records && k !in left && k !in over then SameAt(mid, base, k)
                    else SameAt(mid, one.tables, k))
  }

  lemma UnwrapLost(t: Tables, mid: Tables, h: Shape, base: Tables, one: Book, left: map<Key, Record>,
                   over: map<Key, Record>, k: Key)
    requires Undoable(one, h, base) && Between(mid, base, one, left, over) && Undoable(Book(t, over), h, mid)
    requires k in left && k in over
    ensures Unwrap(Book(t, left), h, k).0 == Book(t, left - {k})
    ensures Between(mid, base, one, left - {k}, over)
  {
    assert SameAt(mid, one.tables, k);
  }

  lemma UnwrapSeen(t: Tables, mid: Tables, h: Shape, base: Tables, one: Book, left: map<Key, Record>,
                   over: map<Key, Record>, k: Key)
    requires Undoable(one, h, base) && Between(mid, base, one, left, over) && Undoable(Book(t, over), h, mid)
    requires k in left && k !in over
    ensures k in t && SameAt(t, mid, k) && t[k].Proxy?
    ensures Unwrap(Book(t, left), h, k).0 ==
            Book(if left[k].owned then t - {k} else t[k := t[k].wrapped], left - {k})
    ensures if left[k].owned then k !in base else k in base && base[k] == t[k].wrapped
  {
    assert SameAt(mid, one.tables, k) && SameAt(t, mid, k);
  }

  lemma KeepsOver(t: Tables, mid: Tables, h: Shape, over: map<Key, Record>, t': Tables, mid': Tables, k: Key)
    requires Undoable(Book(t, over), h, mid) && k !in over && SameAt(t', mid', k)
    requires forall j :: j != k ==> SameAt(t', t, j) && SameAt(mid', mid, j)
    ensures Undoable(Book(t', over), h, mid')
  {
    forall j | j !in over ensures SameAt(t', mid', j) {
      if j != k { assert SameAt(t, mid, j) && SameAt(t', t, j) && SameAt(mid', mid, j); }
    }
    forall j | j in over ensures j in t' && Patched(t'[j], over[j], j, h, mid') {
      assert SameAt(t', t, j) && SameAt(mid', mid, j);
    }
  }

  lemma KeepsBetween(mid: Tables, base: Tables, one: Book, left: map<Key, Record>, over: map<Key, Record>,
                     mid': Tables, k: Key)
    requires Between(mid, base, one, left, over) && k in left && k !in over && SameAt(mid', base, k)
    requires forall j :: j != k ==> SameAt(mid', mid, j)
    ensures Between(mid', base, one, left - {k}, over)
  {
    forall j | j != k
      ensures if j in one.records && j !in left && j !in over then SameAt(mid', base, j)
              else SameAt(mid', one.tables, j)
    {
      assert SameAt(mid', mid, j);
    }
  }

  /** An unwrap by the first wrapper takes effect where the second has no record, and is lost elsewhere. */
  lemma UnwrapUnder(t: Tables, mid: Tables, h: Shape, base: Tables, one: Book, left: map<Key, Record>,
                    over: map<Key, Record>, k: Key) returns (mid': Tables)
    requires Undoable(one, h, base) && Between(mid, base, one, left, over) && Undoable(Book(t, over), h, mid)
    ensures var s' := Unwrap(Book(t, left), h, k).0;
            && s'.records == left - {k} && Undoable(Book(s'.tables, over), h, mid')
            && Between(mid', base, one, s'.records, over)
  {
    mid' := mid;
    if k !in left {
      assert left - {k} == left;
    } else if k in over {
      UnwrapLost(t, mid, h, base, one, left, over, k);
    } else {
      UnwrapSeen(t, mid, h, base, one, left, over, k);
      mid' := if left[k].owned then mid - {k} else mid[k := t[k].wrapped];
      KeepsOver(t, mid, h, over, Unwrap(Book(t, left), h, k).0.tables, mid', k);
      KeepsBetween(mid, base, one, left, over, mid', k);
    }
  }

  lemma {:induction false} UnwrapAllUnder(t: Tables, h: Shape, base: Tables, one: Book, over: map<Key, Record>,
                                          keys: seq<Key>) returns (mid: Tables)
    requires Undoable(one, h, base) && Undoable(Book(t, over), h, one.tables)
    ensures var s' := UnwrapAll(Book(t, one.records), h, keys);
            && Undoable(Book(s'.tables, over), h, mid) && Between(mid, base, one, s'.records, over)
            && forall k :: k in s'.records ==> k !in keys
  {
    if keys == [] {
      mid := one.tables;
    } else {
      var init, k := keys[..|keys| - 1], keys[|keys| - 1];
      var s' := UnwrapAll(Book(t, one.records), h, init);
      var mid0 := UnwrapAllUnder(t, h, base, one, over, init);
      mid := UnwrapUnder(s'.tables, mid0, h, base, one, s'.records, over, k);
      forall j | j in keys ensures j in init || j == k { }
    }
  }

  lemma {:induction false} NotItsOwnProxy(w: nat, v: Value)
    ensures Proxy(w, v) != v
    decreases v
  {
    if v.Proxy? && v.wrapper == w { NotItsOwnProxy(w, v.wrapped); }
  }

  lemma BaseExactlyWhenApart(mid: Tables, h: Shape, base: Tables, one: Book, over: map<Key, Record>)
    requires Undoable(one, h, base) && Between(mid, base, one, map[], over)
    ensures mid == base <==> one.records.Keys !! over.Keys
  {
    forall k | k in one.records && k in over ensures mid != base {
      assert SameAt(mid, one.tables, k);
      NotItsOwnProxy(one.tables[k].wrapper, one.tables[k].wrapped);
      assert !SameAt(mid, base, k);
    }
    if one.records.Keys !! over.Keys {
      forall k ensures SameAt(mid, base, k) {
        if k !in one.records { assert SameAt(mid, one.tables, k) && SameAt(one.tables, base, k); }
      }
      assert mid.Keys == base.Keys by {
        forall k ensures k in mid <==> k in base { assert SameAt(mid, base, k); }
      }
      forall k | k in mid ensures mid[k] == base[k] { assert SameAt(mid, base, k); }
    } else {
      var k :| k in one.records && k in over;
    }
  }

  /** Unwound first in, first out, two wrappers restore the tables exactly when they share no record. */
  lemma FirstInFirstOut(h: Shape, base: Tables, cs1: seq<Call>, cs2: seq<Call>, keys1: seq<Key>, keys2: seq<Key>)
    requires var one := DoAll(Book(base, map[]), h, cs1);
             var two := DoAll(Book(one.tables, map[]), h, cs2);
             Covers(keys1, one.records) && Covers(keys2, two.records)
    ensures var one := DoAll(Book(base, map[]), h, cs1);
            var two := DoAll(Book(one.tables, map[]), h, cs2);
            var first := UnwrapAll(Book(two.tables, one.records), h, keys1);
            var last := UnwrapAll(Book(first.tables, two.records), h, keys2);
            last.tables == base <==> one.records.Keys !! two.records.Keys
  {
    var one := DoAll(Book(base, map[]), h, cs1);
    var two := DoAll(Book(one.tables, map[]), h, cs2);
    FreshIsUndoable(h, base);
    CallsKeepUndoable(Book(base, map[]), h, cs1, base);
    FreshIsUndoable(h, one.tables);
    CallsKeepUndoable(Book(one.tables, map[]), h, cs2, one.tables);
    var mid := UnwrapAllUnder(two.tables, h, base, one, two.records, keys1);
    var s' := UnwrapAll(Book(two.tables, one.records), h, keys1);
    assert s'.records == map[];
    UnwrapAllRestores(Book(s'.tables, two.records), h, keys2, mid);
    BaseExactlyWhenApart(mid, h, base, one, two.records);
  }

  // ---------------------------------------------------------------- the class

  /** Everything that can be patched, shared by all wrappers. */
  class Objects {
    var tables: Tables
    const shape: Shape

    constructor (tables: Tables, shape: Shape)
      ensures this.tables == tables && this.shape == shape
    {
      this.tables, this.shape := tables, shape;
    }

    /**
     wrap_function_wrapper of wrapt. Afterwards reading the attribute gives a proxy around what reading
     it gave before, from the object's own table, and no other attribute of any object has changed; it
     raises, without effect, when there is no such attribute or it cannot be set.
     */
    method WrapFunction(k: Key, wrapper: nat) returns (ok: bool)
      modifies this
      ensures ok <==> GetAttr(old(tables), shape, k).Some? && k.0 !in shape.sealed
      ensures ok ==> k in tables && WrappedBy(GetAttr(tables, shape, k), wrapper)
                     && Some(GetAttr(tables, shape, k).value.wrapped) == GetAttr(old(tables), shape, k)
      ensures forall j :: !ok || j != k ==> SameAt(tables, old(tables), j)
    {
      var v := GetAttr(tables, shape, k);
      ok := v.Some? && k.0 !in shape.sealed;
      if ok {
        tables := tables[k := Proxy(wrapper, v.value)];
      }
    }
  }

  lemma SameEverywhere(t: Tables, u: Tables)
    requires forall k :: SameAt(t, u, k)
    ensures t == u
  {
    forall k ensures k in t <==> k in u { assert SameAt(t, u, k); }
    forall k | k in t ensures t[k] == u[k] { assert SameAt(t, u, k); }
  }

  lemma PatchedTables(t: Tables, u: Tables, k: Key, v: Value)
    requires k in t && t[k] == v && forall j :: j != k ==> SameAt(t, u, j)
    ensures t == u[k := v]
  {
    var u' := u[k := v];
    forall j ensures SameAt(t, u', j) { if j != k { assert SameAt(t, u, j); } }
    SameEverywhere(t, u');
  }

  type Members = map<string, Record>

  predicate HasRecord(wrapped: map<Obj, Members>, k: Key) { k.0 in wrapped && k.1 in wrapped[k.0] }

  /** The nested dictionaries hold these records, and none of them is empty. */
  ghost predicate Holds(wrapped: map<Obj, Members>, records: map<Key, Record>) {
    && (forall o :: o in wrapped ==> wrapped[o] != map[])
    && (forall k :: k in records <==> HasRecord(wrapped, k))
    && (forall k :: k in records ==> records[k] == wrapped[k.0][k.1])
  }

  lemma HoldsPut(wrapped: map<Obj, Members>, records: map<Key, Record>, o: Obj, m: string, r: Record)
    requires Holds(wrapped, records)
    ensures var members := if o in wrapped then wrapped[o] else map[];
            Holds(wrapped[o := members[m := r]], records[(o, m) := r])
  {
    var members := if o in wrapped then wrapped[o] else map[];
    var wrapped', records' := wrapped[o := members[m := r]], records[(o, m) := r];
    assert m in wrapped'[o];
    forall k ensures k in records' <==> HasRecord(wrapped', k) {
      assert k in records <==> HasRecord(wrapped, k);
    }
  }

  lemma HoldsPop(wrapped: map<Obj, Members>, records: map<Key, Record>, o: Obj, m: string)
    requires Holds(wrapped, records) && HasRecord(wrapped, (o, m))
    ensures var members := wrapped[o] - {m};
            Holds(if members == map[] then wrapped - {o} else wrapped[o := members], records - {(o, m)})
  {
    var members := wrapped[o] - {m};
    var wrapped' := if members == map[] then wrapped - {o} else wrapped[o := members];
    forall k ensures k in records - {(o, m)} <==> HasRecord(wrapped', k) {
      assert k in records <==> HasRecord(wrapped, k);
      assert k.0 == o && k.1 != m && k.1 in wrapped[o] ==> k.1 in members;
    }
  }

  class Wrapper {
    var wrapped: map<Obj, Members>
    ghost var records: map<Key, Record>

    ghost predicate Valid() reads this { Holds(wrapped, records) }

    constructor ()
      ensures Valid() && records == map[]
    {
      wrapped, records := map[], map[];
    }

    /** A failed attempt records the member first and unwraps it again. */
    method WrapMember(objects: Objects, obj: Obj, member: string, wrapper: nat) returns (result: Wrapping)
      requires Valid()
      modifies this, objects
      ensures Valid()
      ensures (Book(objects.tables, records), result)
              == Wrap(Book(old(objects.tables), old(records)), objects.shape, (obj, member), wrapper)
    {
      var owned := (obj, member) !in objects.tables;
      var toWrap := GetAttr(objects.tables, objects.shape, (obj, member));
      if WrappedBy(toWrap, wrapper) {
        return Duplicate;
      }
      var members := if obj in wrapped then wrapped[obj] else map[];
      assert member in members <==> HasRecord(wrapped, (obj, member));
      if member in members {
        return AlreadyWrapped;
      }
      Put(obj, members, member, Record(wrapper, owned));
      ghost var before := objects.tables;
      var ok := objects.WrapFunction((obj, member), wrapper);
      if ok {
        PatchedTables(objects.tables, before, (obj, member), Proxy(wrapper, toWrap.value));
        return Wrapped;
      }
      SameEverywhere(objects.tables, before);
      FailedIsTakenBack(Book(objects.tables, old(records)), objects.shape, (obj, member), Record(wrapper, owned));
      var _ := UnwrapMember(objects, obj, member);
      return Failed;
    }

    method Put(obj: Obj, members: Members, member: string, r: Record)
      requires Valid() && members == if obj in wrapped then wrapped[obj] else map[]
      modifies this
      ensures Valid() && records == old(records)[(obj, member) := r]
    {
      HoldsPut(wrapped, records, obj, member, r);
      records := records[(obj, member) := r];
      wrapped := wrapped[obj := members[member := r]];
    }

    method UnwrapMember(objects: Objects, obj: Obj, member: string) returns (result: Unwrapping)
      requires Valid()
      modifies this, objects
      ensures Valid()
      ensures (Book(objects.tables, records), result)
              == Unwrap(Book(old(objects.tables), old(records)), objects.shape, (obj, member))
    {
      if obj !in wrapped || member !in wrapped[obj] {
        return NotWrapped;
      }
      HoldsPop(wrapped, records, obj, member);
      var Record(wrapper, owned) := wrapped[obj][member];
      var members := wrapped[obj] - {member};
      wrapped := if members == map[] then wrapped - {obj} else wrapped[obj := members];
      records := records - {(obj, member)};
      var current := GetAttr(objects.tables, objects.shape, (obj, member));
      if !WrappedBy(current, wrapper) {
        return NotWrapped;
      }
      if obj in objects.shape.sealed || (owned && (obj, member) !in objects.tables) {
        return Raised;
      }
      if owned {
        objects.tables := objects.tables - {(obj, member)};
      } else {
        objects.tables := objects.tables[(obj, member) := current.value.wrapped];
      }
      return Restored;
    }

    /**
     Unwraps member by member, in the order of the dictionaries. An attribute that can no longer be
     deleted or set would end it early; UnwrapKeepsUndoable shows that this needs someone else's change.
     */
    method Clear(objects: Objects) returns (raised: bool, ghost keys: seq<Key>)
      requires Valid()
      modifies this, objects
      ensures Valid()
      ensures Book(objects.tables, records) == UnwrapAll(Book(old(objects.tables), old(records)), objects.shape, keys)
      ensures if raised then Fails(Book(old(objects.tables), old(records)), objects.shape, keys)
              else Covers(keys, old(records))
    {
      keys := [];
      var objs := wrapped.Keys;
      ghost var start := Book(objects.tables, records);
      while objs != {}
        invariant Valid() && objs <= old(wrapped).Keys
        invariant Book(objects.tables, records) == UnwrapAll(start, objects.shape, keys)
        invariant forall k :: k in start.records ==> if k.0 in objs then k in records else k in keys
      {
        var obj :| obj in objs;
        objs := objs - {obj};
        StillThere(old(wrapped), start.records, wrapped, records, obj);
        raised, keys := ClearObject(objects, obj, start, keys);
        if raised {
          return;
        }
      }
      raised := false;
    }

    /** The inner loop. */
    method ClearObject(objects: Objects, obj: Obj, ghost start: Book, ghost done: seq<Key>)
      returns (raised: bool, ghost keys: seq<Key>)
      requires Valid() && obj in wrapped && Book(objects.tables, records) == UnwrapAll(start, objects.shape, done)
      modifies this, objects
      ensures Valid() && Book(objects.tables, records) == UnwrapAll(start, objects.shape, keys) && done <= keys
      ensures if raised then Fails(start, objects.shape, keys)
              else forall k :: k in old(records) ==> if k.0 == obj then k in keys else k in records
    {
      keys := done;
      var members := wrapped[obj].Keys;
      assert forall k :: k in records && k.0 == obj ==> HasRecord(wrapped, k);
      while members != {}
        invariant Valid() && Book(objects.tables, records) == UnwrapAll(start, objects.shape, keys) && done <= keys
        invariant forall k :: k in old(records) ==> if k.0 == obj then k in keys || k.1 in members else k in records
      {
        var member :| member in members;
        members := members - {member};
        UnwrapRecords(Book(objects.tables, records), objects.shape, (obj, member));
        var result := UnwrapMember(objects, obj, member);
        assert (keys + [(obj, member)])[..|keys|] == keys;
        keys := keys + [(obj, member)];
        if result == Raised {
          return true, keys;
        }
      }
      raised := false;
    }
  }

  lemma UnwrapRecords(s: Book, h: Shape, k: Key)
    ensures Unwrap(s, h, k).0.records == s.records - {k}
  {
  }

  ghost predicate Fails(s: Book, h: Shape, keys: seq<Key>) {
    keys != [] && Unwrap(UnwrapAll(s, h, keys[..|keys| - 1]), h, keys[|keys| - 1]).1 == Raised
  }

  lemma StillThere(wrapped: map<Obj, Members>, records: map<Key, Record>, wrapped': map<Obj, Members>,
                   records': map<Key, Record>, o: Obj)
    requires Holds(wrapped, records) && Holds(wrapped', records') && o in wrapped
    requires forall k :: k in records && k.0 == o ==> k in records'
    ensures o in wrapped' && forall k :: k in records && k.0 == o ==> k.1 in wrapped'[o]
  {
    forall k | k in records && k.0 == o ensures HasRecord(wrapped', k) { }
    var m :| m in wrapped[o];
    assert HasRecord(wrapped, (o, m));
  }

  /** Without interference clear never raises, and leaves the tables as they were before the first wrap. */
  lemma ClearSucceeds(s: Book, h: Shape, base: Tables, keys: seq<Key>)
    requires Undoable(s, h, base)
    ensures !Fails(s, h, keys)
    ensures Covers(keys, s.records) ==> UnwrapAll(s, h, keys) == Book(base, map[])
  {
    if keys != [] {
      UnwrapAllKeepsUndoable(s, h, keys[..|keys| - 1], base);
      UnwrapKeepsUndoable(UnwrapAll(s, h, keys[..|keys| - 1]), h, keys[|keys| - 1], base);
    }
    if Covers(keys, s.records) { UnwrapAllRestores(s, h, keys, base); }
  }
}
