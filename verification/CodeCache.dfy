/**
 The cache of code objects in src/qorme/utils/bitset.c: an array sorted by line, searched by
 bisection, which grows by 64 entries and shifts to the right on insertion. The cached objects are
 opaque values. An allocation may fail: each insertion is told whether it would succeed.
 */
module CodeCaches {
  import opened Basics

  const CHUNK: nat := 64

  datatype Entry<T> = Entry(line: int, code: T)

  ghost predicate Sorted<T>(s: seq<Entry<T>>) {
    forall i, j :: 0 <= i < j < |s| ==> s[i].line < s[j].line
  }

  /** What the array stands for. */
  ghost function ToMap<T>(s: seq<Entry<T>>): map<int, T> {
    if s == [] then map[] else ToMap(s[..|s| - 1])[s[|s| - 1].line := s[|s| - 1].code]
  }

  lemma {:induction false} ToMapConcat<T>(s: seq<Entry<T>>, t: seq<Entry<T>>)
    ensures ToMap(s + t) == ToMap(s) + ToMap(t)
  {
    if t == [] {
      assert s + t == s;
    } else {
      assert (s + t)[..|s + t| - 1] == s + t[..|t| - 1];
      ToMapConcat(s, t[..|t| - 1]);
    }
  }

  lemma {:induction false} AbsentLine<T>(s: seq<Entry<T>>, line: int)
    requires forall i :: 0 <= i < |s| ==> s[i].line != line
    ensures line !in ToMap(s)
  {
    if s != [] { AbsentLine(s[..|s| - 1], line); }
  }

  lemma {:induction false} MapSize<T>(s: seq<Entry<T>>)
    requires Sorted(s)
    ensures |ToMap(s)| == |s|
  {
    if s != [] {
      MapSize(s[..|s| - 1]);
      AbsentLine(s[..|s| - 1], s[|s| - 1].line);
    }
  }

  /** pos is the lower bound of line in s. */
  ghost predicate LowerBound<T>(s: seq<Entry<T>>, line: int, pos: nat) {
    && pos <= |s|
    && (forall i :: 0 <= i < pos ==> s[i].line < line)
    && (forall i :: pos <= i < |s| ==> line <= s[i].line)
  }

  /** Whether the lower bound of line holds line itself, as the C code tests it. */
  predicate Holds<T>(s: seq<Entry<T>>, line: int, pos: nat) {
    pos < |s| && s[pos].line == line
  }

  function Inserted<T>(s: seq<Entry<T>>, pos: nat, e: Entry<T>): seq<Entry<T>>
    requires pos <= |s|
  {
    s[..pos] + [e] + s[pos..]
  }

  /** The map of an array taken apart around an entry whose line occurs nowhere else. */
  lemma MapAround<T>(before: seq<Entry<T>>, e: Entry<T>, after: seq<Entry<T>>)
    requires forall i :: 0 <= i < |after| ==> after[i].line != e.line
    ensures ToMap(before + [e] + after) == (ToMap(before) + ToMap(after))[e.line := e.code]
  {
    ToMapConcat(before, [e]);
    ToMapConcat(before + [e], after);
    AbsentLine(after, e.line);
  }

  lemma LowerBoundFinds<T>(s: seq<Entry<T>>, line: int, pos: nat)
    requires Sorted(s) && LowerBound(s, line, pos)
    ensures line in ToMap(s) <==> Holds(s, line, pos)
    ensures Holds(s, line, pos) ==> ToMap(s)[line] == s[pos].code
  {
    if Holds(s, line, pos) {
      Around(s, pos, s[pos]);
      AfterDiffers(s, pos, s[pos + 1..]);
      MapAround(s[..pos], s[pos], s[pos + 1..]);
    } else {
      AbsentLine(s, line);
    }
  }

  lemma Replace<T>(s: seq<Entry<T>>, pos: nat, code: T)
    requires Sorted(s) && pos < |s|
    ensures Sorted(s[pos := s[pos].(code := code)])
    ensures ToMap(s[pos := s[pos].(code := code)]) == ToMap(s)[s[pos].line := code]
  {
    var e := s[pos].(code := code);
    Around(s, pos, e);
    AfterDiffers(s, pos, s[pos + 1..]);
    MapAround(s[..pos], s[pos], s[pos + 1..]);
    MapAround(s[..pos], e, s[pos + 1..]);
    SameLinesSorted(s, pos, e);
  }

  lemma Around<T>(s: seq<Entry<T>>, pos: nat, e: Entry<T>)
    requires pos < |s|
    ensures s == s[..pos] + [s[pos]] + s[pos + 1..]
    ensures s[pos := e] == s[..pos] + [e] + s[pos + 1..]
  {
  }

  lemma AfterDiffers<T>(s: seq<Entry<T>>, pos: nat, after: seq<Entry<T>>)
    requires Sorted(s) && pos < |s| && after == s[pos + 1..]
    ensures forall i :: 0 <= i < |after| ==> after[i].line != s[pos].line
  {
  }

  lemma SameLinesSorted<T>(s: seq<Entry<T>>, pos: nat, e: Entry<T>)
    requires Sorted(s) && pos < |s| && e.line == s[pos].line
    ensures Sorted(s[pos := e])
  {
  }

  lemma InsertSorted<T>(s: seq<Entry<T>>, pos: nat, e: Entry<T>)
    requires Sorted(s) && LowerBound(s, e.line, pos) && !Holds(s, e.line, pos)
    ensures Sorted(Inserted(s, pos, e))
    ensures forall i :: pos <= i < |s| ==> e.line < s[i].line
  {
    assert pos < |s| ==> e.line < s[pos].line;
  }

  lemma InsertKeepsSorted<T>(s: seq<Entry<T>>, pos: nat, e: Entry<T>)
    requires Sorted(s) && LowerBound(s, e.line, pos) && !Holds(s, e.line, pos)
    ensures Sorted(Inserted(s, pos, e))
    ensures ToMap(Inserted(s, pos, e)) == ToMap(s)[e.line := e.code]
  {
    InsertSorted(s, pos, e);
    assert s == s[..pos] + s[pos..];
    ToMapConcat(s[..pos], s[pos..]);
    MapAround(s[..pos], e, s[pos..]);
  }

  /** The cache as a map with a capacity; capacity 0 is the array not yet allocated. */
  datatype Cache<T> = Cache(objects: map<int, T>, capacity: nat)

  function Store<T>(c: Cache<T>, line: int, code: T, allocates: bool): Cache<T> {
    if line == 0 then c
    else if line in c.objects then c.(objects := c.objects[line := code])
    else if |c.objects| < c.capacity then c.(objects := c.objects[line := code])
    else if allocates then Cache(c.objects[line := code], c.capacity + CHUNK)
    else c
  }

  function Lookup<T>(c: Cache<T>, line: int): Option<T> {
    if line != 0 && line in c.objects then Some(c.objects[line]) else None
  }

  class CodeCache<T> {
    var entries: array?<Entry<T>>
    var count: nat
    var maxCount: nat

    ghost predicate Valid()
      reads this, entries
    {
      if entries == null then count == 0 && maxCount == 0
      else
        && 1 <= count <= maxCount == entries.Length
        && Sorted(entries[..count])
    }

    ghost function View(): Cache<T>
      requires Valid()
      reads this, entries
    {
      if entries == null then Cache(map[], 0) else Cache(ToMap(entries[..count]), maxCount)
    }

    constructor ()
      ensures Valid() && View() == Cache(map[], 0)
    {
      entries, count, maxCount := null, 0, 0;
    }

    static method Bisect(entries: array<Entry<T>>, count: nat, line: int) returns (pos: nat)
      requires 1 <= count <= entries.Length && Sorted(entries[..count])
      ensures LowerBound(entries[..count], line, pos)
    {
      ghost var s := entries[..count];
      assert forall i :: 0 <= i < count ==> entries[i] == s[i];
      var start, mid, end := 0, 0, count - 1;
      if line > entries[end].line {
        return count;
      }
      while start < end
        invariant 0 <= start <= end < count && 0 <= mid < count
        invariant start == 0 || s[start - 1].line < line
        invariant line <= s[end].line
        invariant mid == end || (mid + 1 == start && s[mid].line < line) || (mid == start == 0)
      {
        mid := start + (end - start) / 2;
        if line < entries[mid].line {
          end := mid;
        } else if line > entries[mid].line {
          start := mid + 1;
        } else {
          return mid;
        }
      }
      if line <= entries[mid].line {
        return mid;
      } else {
        return mid + 1;
      }
    }

    method Find(line: int) returns (r: Option<T>)
      requires Valid()
      ensures r == Lookup(View(), line)
    {
      if line == 0 || entries == null {
        return None;
      }
      var pos := Bisect(entries, count, line);
      LowerBoundFinds(entries[..count], line, pos);
      if pos >= count || entries[pos].line != line {
        return None;
      }
      return Some(entries[pos].code);
    }

    method Insert(line: int, code: T, allocates: bool)
      requires Valid()
      modifies this, entries
      ensures Valid() && View() == Store(old(View()), line, code, allocates)
      ensures entries == old(entries) || fresh(entries)
    {
      if line == 0 {
        return;
      }
      if entries == null {
        if allocates {
          Allocate(Entry(line, code));
        }
        return;
      }
      var pos := Bisect(entries, count, line);
      ghost var s := entries[..count];
      MapSize(s);
      LowerBoundFinds(s, line, pos);
      if pos < count && entries[pos].line == line {
        Replace(s, pos, code);
        assert s[pos] == entries[pos];
        entries[pos] := entries[pos].(code := code);
        assert entries[..count] == s[pos := s[pos].(code := code)];
        return;
      }
      if count == maxCount {
        if !allocates {
          return;
        }
        Grow(Entry(line, code));
      }
      InsertKeepsSorted(s, pos, Entry(line, code));
      ShiftIn(pos, Entry(line, code));
    }

    /** The first allocation, with one entry in it. */
    method Allocate(e: Entry<T>)
      modifies this
      ensures entries != null && fresh(entries) && entries.Length == maxCount == 64
      ensures count == 1 && Sorted(entries[..count]) && ToMap(entries[..count]) == map[e.line := e.code]
    {
      entries := new Entry<T>[CHUNK](_ => e);
      maxCount, count := CHUNK, 1;
      assert entries[..count] == [] + [e] + [];
      MapAround([], e, []);
    }

    /** The reallocation: the same entries in an array with room for 64 more. */
    method Grow(filler: Entry<T>)
      requires Valid() && entries != null
      modifies this
      ensures entries != null && fresh(entries) && entries.Length == maxCount == old(maxCount) + 64
      ensures count == old(count) && entries[..count] == old(entries[..count])
    {
      var was := entries;
      var bigger := new Entry<T>[maxCount + CHUNK]
        (i requires 0 <= i reads was => if i < was.Length then was[i] else filler);
      entries, maxCount := bigger, maxCount + CHUNK;
    }

    /** The right shift that makes room at pos. */
    method ShiftIn(pos: nat, e: Entry<T>)
      requires entries != null && pos <= count < entries.Length == maxCount
      modifies this`count, entries
      ensures count == old(count) + 1 && entries[..count] == Inserted(old(entries[..count]), pos, e)
    {
      ghost var a := entries[..];
      var i := count;
      assert a == Shifted(a, count, count);
      while i > pos
        invariant pos <= i <= count == old(count) && entries[..] == Shifted(a, i, count)
      {
        ShiftStep(a, i, count);
        entries[i] := entries[i - 1];
        i := i - 1;
      }
      ShiftDone(a, pos, count, e);
      entries[pos] := e;
      count := count + 1;
      assert entries[..count] == entries[..][..count];
    }
  }

  /** The entries from i to count moved one place to the right. */
  ghost function Shifted<T>(a: seq<Entry<T>>, i: nat, count: nat): seq<Entry<T>>
    requires i <= count < |a|
  {
    a[..i + 1] + a[i..count] + a[count + 1..]
  }

  lemma ShiftStep<T>(a: seq<Entry<T>>, i: nat, count: nat)
    requires 0 < i <= count < |a|
    ensures Shifted(a, i, count)[i - 1] == a[i - 1]
    ensures Shifted(a, i, count)[i := a[i - 1]] == Shifted(a, i - 1, count)
  {
  }

  lemma ShiftDone<T>(a: seq<Entry<T>>, pos: nat, count: nat, e: Entry<T>)
    requires pos <= count < |a|
    ensures Shifted(a, pos, count)[pos := e][..count + 1] == Inserted(a[..count], pos, e)
  {
  }

  // ---------------------------------------------------------------- any sequence of insertions

  datatype Insertion<T> = Insertion(line: int, code: T, allocates: bool)

  function Run<T>(ops: seq<Insertion<T>>): (c: Cache<T>) {
    if ops == [] then Cache(map[], 0)
    else
      var op := ops[|ops| - 1];
      Store(Run(ops[..|ops| - 1]), op.line, op.code, op.allocates)
  }

  /** The object of the last insertion for line. */
  function LastInserted<T>(ops: seq<Insertion<T>>, line: int): Option<T> {
    if ops == [] then None
    else if ops[|ops| - 1].line == line then Some(ops[|ops| - 1].code)
    else LastInserted(ops[..|ops| - 1], line)
  }

  /** Insertion i finds room for a new entry: there is space left, or the array can grow. */
  predicate HasRoom<T>(ops: seq<Insertion<T>>, i: nat)
    requires i < |ops|
  {
    ops[i].allocates || |Run(ops[..i]).objects| < Run(ops[..i]).capacity
  }

  /** Some insertion for the line found room. */
  predicate EverHadRoom<T>(ops: seq<Insertion<T>>, line: int) {
    exists i: nat | i < |ops| :: ops[i].line == line && HasRoom(ops, i)
  }

  lemma SameRoom<T>(ops: seq<Insertion<T>>, n: nat, i: nat)
    requires i < n <= |ops|
    ensures HasRoom(ops[..n], i) <==> HasRoom(ops, i)
  {
    assert ops[..n][..i] == ops[..i];
  }

  lemma HadRoomBefore<T>(ops: seq<Insertion<T>>, line: int, n: nat)
    requires n <= |ops| && EverHadRoom(ops[..n], line)
    ensures EverHadRoom(ops, line)
  {
    var i: nat :| i < n && ops[..n][i].line == line && HasRoom(ops[..n], i);
    SameRoom(ops, n, i);
    assert ops[i].line == line;
  }

  lemma RoomGrows<T>(ops: seq<Insertion<T>>, line: int, n: nat)
    requires n + 1 == |ops|
    ensures EverHadRoom(ops, line) <==> EverHadRoom(ops[..n], line) || (ops[n].line == line && HasRoom(ops, n))
  {
    if EverHadRoom(ops, line) {
      var i: nat :| i < |ops| && ops[i].line == line && HasRoom(ops, i);
      if i < n {
        SameRoom(ops, n, i);
        assert ops[..n][i].line == line;
      }
    }
    if EverHadRoom(ops[..n], line) { HadRoomBefore(ops, line, n); }
  }

  /**
   Whatever allocations fail, a lookup returns the last object inserted for the line, or nothing:
   nothing exactly for line zero and while no insertion for the line has found room. A failed
   allocation cannot leave a stale object, because a line that is present is replaced in place.
   */
  lemma {:induction false} FindsLastInserted<T>(ops: seq<Insertion<T>>, line: int)
    ensures Lookup(Run(ops), line) == None || Lookup(Run(ops), line) == LastInserted(ops, line)
    ensures Lookup(Run(ops), line) == None <==> line == 0 || !EverHadRoom(ops, line)
  {
    if ops != [] {
      FindsLastInserted(ops[..|ops| - 1], line);
      RoomGrows(ops, line, |ops| - 1);
    }
  }

  /** The capacity is a whole number of chunks and is never exceeded. */
  lemma {:induction false} CapacityHolds<T>(ops: seq<Insertion<T>>)
    ensures |Run(ops).objects| <= Run(ops).capacity && Run(ops).capacity % 64 == 0
    ensures ops != [] ==> Run(ops).capacity - Run(ops[..|ops| - 1]).capacity in {0, 64}
  {
    if ops != [] {
      CapacityHolds(ops[..|ops| - 1]);
    }
  }
}
