/**
 The 64-bit BitSet of src/qorme/utils/bitset.c, and the decoding of such an integer into class
 names (src/qorme/ml/datastructures.py).

 A word is a natural number below 2^64 and the C operators are defined bit by bit, so that the
 same Bit serves the word and Python's unbounded integers. A position is reduced modulo 64 before
 the shift: C leaves larger shifts undefined, and this is what the library's own test of
 out-of-range positions expects (tests/utils/test_bitset.py).
 */
module BitSets {
  import opened Basics

  const WIDTH: nat := 64

  /** The number of 64-bit words; WordCount shows that it is 2^64. */
  const WORDS: nat := 0x1_0000_0000_0000_0000

  type Word = v: nat | v < WORDS

  /** Bit i of an integer, negative ones in two's complement: Python's `v & (1 << i)`. */
  predicate Bit(v: int, i: nat)
    decreases i
  {
    if i == 0 then v % 2 == 1 else Bit(v / 2, i - 1)
  }

  /** `a | b` */
  function Or(a: nat, b: nat): nat
    decreases a + b
  {
    if a == 0 && b == 0 then 0
    else 2 * Or(a / 2, b / 2) + (if a % 2 == 1 || b % 2 == 1 then 1 else 0)
  }

  /** `a & b` */
  function And(a: nat, b: nat): nat
    decreases a + b
  {
    if a == 0 && b == 0 then 0
    else 2 * And(a / 2, b / 2) + (if a % 2 == 1 && b % 2 == 1 then 1 else 0)
  }

  /** `~a` on a 64-bit word. */
  function Not(a: Word): Word { WORDS - 1 - a }

  function Wrap(pos: nat): nat { pos % WIDTH }

  /** `1ULL << pos` */
  function Shift(pos: nat): Word {
    ShiftFits(Wrap(pos));
    Pow2(Wrap(pos))
  }

  lemma {:induction false} Pow2Sum(a: nat, b: nat)
    ensures Pow2(a + b) == Pow2(a) * Pow2(b)
  {
    if a > 0 {
      Pow2Sum(a - 1, b);
      assert Pow2(a) * Pow2(b) == 2 * (Pow2(a - 1) * Pow2(b));
    }
  }

  lemma Square(n: nat, p: nat)
    requires Pow2(n) == p
    ensures Pow2(2 * n) == p * p
  {
    Pow2Sum(n, n);
  }

  lemma WordCount()
    ensures Pow2(WIDTH) == WORDS
  {
    Square(4, 16);
    Square(8, 256);
    Square(16, 0x1_0000);
    Square(32, 0x1_0000_0000);
  }

  lemma ShiftFits(i: nat)
    requires i < WIDTH
    ensures Pow2(i) < WORDS
  {
    WordCount();
    Pow2Monotone(i + 1, WIDTH);
  }

  lemma {:induction false} Pow2Monotone(a: nat, b: nat)
    requires a <= b
    ensures Pow2(a) <= Pow2(b)
  {
    if a < b { Pow2Monotone(a, b - 1); }
  }

  /** The set a word stands for. */
  ghost function Members(v: nat): set<nat> {
    set i: nat | i < WIDTH && Bit(v, i)
  }

  // ---------------------------------------------------------------- the operators, bit by bit

  lemma OrHalves(a: nat, b: nat)
    ensures Or(a, b) / 2 == Or(a / 2, b / 2)
    ensures Or(a, b) % 2 == 1 <==> a % 2 == 1 || b % 2 == 1
  {
  }

  lemma {:induction false} OrBit(a: nat, b: nat, i: nat)
    ensures Bit(Or(a, b), i) <==> Bit(a, i) || Bit(b, i)
    decreases i
  {
    OrHalves(a, b);
    if i > 0 { OrBit(a / 2, b / 2, i - 1); }
  }

  lemma {:induction false} AndBit(a: nat, b: nat, i: nat)
    ensures Bit(And(a, b), i) <==> Bit(a, i) && Bit(b, i)
    decreases i
  {
    if i > 0 { AndBit(a / 2, b / 2, i - 1); }
  }

  lemma {:induction false} ComplementBit(a: nat, n: nat, i: nat)
    requires a < Pow2(n) && i < n
    ensures Bit(Pow2(n) - 1 - a, i) <==> !Bit(a, i)
    decreases i
  {
    ComplementHalves(a, Pow2(n - 1));
    if i > 0 {
      ComplementBit(a / 2, n - 1, i - 1);
    }
  }

  lemma ComplementHalves(a: nat, p: nat)
    requires a < 2 * p
    ensures a / 2 < p && (2 * p - 1 - a) / 2 == p - 1 - a / 2
    ensures (2 * p - 1 - a) % 2 == 1 <==> a % 2 != 1
  {
  }

  lemma {:induction false} PowerBit(n: nat, i: nat)
    ensures Bit(Pow2(n), i) <==> i == n
    decreases i
  {
    if i > 0 {
      if n == 0 { ZeroBit(i - 1); } else { PowerBit(n - 1, i - 1); }
    }
  }

  lemma {:induction false} ZeroBit(i: nat)
    ensures !Bit(0, i)
  {
    if i > 0 { ZeroBit(i - 1); }
  }

  lemma {:induction false} OrFits(a: nat, b: nat, n: nat)
    requires a < Pow2(n) && b < Pow2(n)
    ensures Or(a, b) < Pow2(n)
  {
    if n > 0 { OrFits(a / 2, b / 2, n - 1); }
  }

  lemma {:induction false} AndFits(a: nat, b: nat)
    ensures And(a, b) <= a
    decreases a + b
  {
    if a + b > 0 { AndFits(a / 2, b / 2); }
  }

  lemma {:induction false} BitsDetermine(v: nat, w: nat, n: nat)
    requires v < Pow2(n) && w < Pow2(n)
    requires forall i :: 0 <= i < n ==> (Bit(v, i) <==> Bit(w, i))
    ensures v == w
  {
    if n > 0 {
      assert Bit(v, 0) <==> Bit(w, 0);
      forall i | 0 <= i < n - 1 ensures Bit(v / 2, i) <==> Bit(w / 2, i) {
        assert Bit(v, i + 1) <==> Bit(w, i + 1);
      }
      BitsDetermine(v / 2, w / 2, n - 1);
    }
  }

  /** Different words are different sets, so what a set of positions is says what the integer is. */
  lemma WordIsItsSet(v: Word, w: Word)
    requires Members(v) == Members(w)
    ensures v == w
  {
    WordCount();
    forall i | 0 <= i < WIDTH ensures Bit(v, i) <==> Bit(w, i) {
      assert i in Members(v) <==> i in Members(w);
    }
    BitsDetermine(v, w, WIDTH);
  }

  /** The sum of 2^i over the i of s from lo to below hi. */
  ghost function PowerSum(s: set<nat>, lo: nat, hi: nat): nat
    requires lo <= hi
    decreases hi - lo
  {
    if lo == hi then 0 else (if lo in s then Pow2(lo) else 0) + PowerSum(s, lo + 1, hi)
  }

  lemma {:induction false} PowerSumOfRest(rest: nat, s: set<nat>, lo: nat, hi: nat)
    requires lo <= hi && rest < Pow2(hi - lo)
    requires forall k :: 0 <= k < hi - lo ==> (Bit(rest, k) <==> lo + k in s)
    ensures PowerSum(s, lo, hi) == Pow2(lo) * rest
    decreases hi - lo
  {
    if lo < hi {
      forall k | 0 <= k < hi - lo - 1 ensures Bit(rest / 2, k) <==> lo + 1 + k in s {
        assert Bit(rest, k + 1) <==> lo + (k + 1) in s;
      }
      PowerSumOfRest(rest / 2, s, lo + 1, hi);
      assert Bit(rest, 0) <==> lo + 0 in s;
      SplitLowest(Pow2(lo), rest);
    }
  }

  lemma SplitLowest(p: nat, rest: nat)
    ensures p * rest == (if rest % 2 == 1 then p else 0) + 2 * p * (rest / 2)
  {
    assert rest == rest % 2 + 2 * (rest / 2);
    if rest % 2 == 1 {
      assert p * (1 + 2 * (rest / 2)) == p + 2 * p * (rest / 2);
    } else {
      assert p * (2 * (rest / 2)) == 2 * p * (rest / 2);
    }
  }

  lemma WholeIsPowerSum(v: nat, s: set<nat>, n: nat)
    requires v < Pow2(n) && forall k :: 0 <= k < n ==> (Bit(v, k) <==> k in s)
    ensures v == PowerSum(s, 0, n)
  {
    forall k | 0 <= k < n - 0 ensures Bit(v, k) <==> 0 + k in s { }
    PowerSumOfRest(v, s, 0, n);
  }

  lemma WordIsPowerSum(v: Word)
    ensures v == PowerSum(Members(v), 0, WIDTH)
  {
    WordCount();
    WholeIsPowerSum(v, Members(v), WIDTH);
  }

  // ---------------------------------------------------------------- each operation on the set

  lemma SetAdds(v: Word, pos: nat)
    ensures Or(v, Shift(pos)) < WORDS
    ensures Members(Or(v, Shift(pos))) == Members(v) + {Wrap(pos)}
  {
    WordCount();
    OrFits(v, Shift(pos), WIDTH);
    forall i | 0 <= i < WIDTH ensures Bit(Or(v, Shift(pos)), i) <==> Bit(v, i) || i == Wrap(pos) {
      OrBit(v, Shift(pos), i);
      PowerBit(Wrap(pos), i);
    }
  }

  lemma ClearRemoves(v: Word, pos: nat)
    ensures And(v, Not(Shift(pos))) < WORDS
    ensures Members(And(v, Not(Shift(pos)))) == Members(v) - {Wrap(pos)}
  {
    WordCount();
    AndFits(v, Not(Shift(pos)));
    forall i | 0 <= i < WIDTH
      ensures Bit(And(v, Not(Shift(pos))), i) <==> Bit(v, i) && i != Wrap(pos)
    {
      AndBit(v, Not(Shift(pos)), i);
      ComplementBit(Shift(pos), WIDTH, i);
      PowerBit(Wrap(pos), i);
    }
  }

  lemma TestsMember(v: Word, pos: nat)
    ensures And(v, Shift(pos)) != 0 <==> Wrap(pos) in Members(v)
  {
    AndBit(v, Shift(pos), Wrap(pos));
    PowerBit(Wrap(pos), Wrap(pos));
    ZeroBit(Wrap(pos));
    if And(v, Shift(pos)) != 0 {
      var i := SomeBit(And(v, Shift(pos)));
      AndBit(v, Shift(pos), i);
      PowerBit(Wrap(pos), i);
    }
  }

  lemma {:induction false} SomeBit(v: nat) returns (i: nat)
    requires v != 0
    ensures Bit(v, i)
  {
    if v % 2 == 1 { i := 0; } else { i := SomeBit(v / 2); i := i + 1; }
  }

  lemma IorUnites(v: Word, w: Word)
    ensures Or(v, w) < WORDS
    ensures Members(Or(v, w)) == Members(v) + Members(w)
  {
    WordCount();
    OrFits(v, w, WIDTH);
    forall i | 0 <= i < WIDTH ensures Bit(Or(v, w), i) <==> Bit(v, i) || Bit(w, i) {
      OrBit(v, w, i);
    }
  }

  // ---------------------------------------------------------------- the C builtins

  /** __builtin_ctzll */
  function TrailingZeros(v: nat): nat
    requires v != 0
  {
    if v % 2 == 1 then 0 else 1 + TrailingZeros(v / 2)
  }

  /** __builtin_popcountll */
  function PopCount(v: nat): nat {
    if v == 0 then 0 else v % 2 + PopCount(v / 2)
  }

  lemma {:induction false} LowestBit(v: nat, i: nat)
    requires v != 0
    ensures Bit(v, TrailingZeros(v))
    ensures Bit(v, i) ==> TrailingZeros(v) <= i
    decreases v
  {
    if v % 2 == 0 { LowestBit(v / 2, if i > 0 then i - 1 else 0); }
  }

  lemma {:induction false} HighBits(v: nat, n: nat, i: nat)
    requires v < Pow2(n) && Bit(v, i)
    ensures i < n
    decreases i
  {
    if n == 0 { ZeroBit(i); } else if i > 0 { HighBits(v / 2, n - 1, i - 1); }
  }

  lemma WordHighBits(v: Word, i: nat)
    requires Bit(v, i)
    ensures i < WIDTH
  {
    WordCount();
    HighBits(v, WIDTH, i);
  }

  lemma {:induction false} AndSelf(v: nat)
    ensures And(v, v) == v
  {
    if v > 0 { AndSelf(v / 2); }
  }

  /** `v &= v - 1` clears the lowest bit and no other. */
  lemma {:induction false} DropLowestBit(v: nat, i: nat)
    requires v != 0
    ensures Bit(And(v, v - 1), i) <==> Bit(v, i) && i != TrailingZeros(v)
    decreases v
  {
    if v % 2 == 1 {
      AndSelf(v / 2);
      assert (v - 1) / 2 == v / 2;
      assert And(v, v - 1) == 2 * (v / 2);
      if i > 0 { assert And(v, v - 1) / 2 == v / 2; }
    } else {
      assert (v - 1) / 2 == v / 2 - 1;
      assert And(v, v - 1) == 2 * And(v / 2, v / 2 - 1);
      if i > 0 {
        DropLowestBit(v / 2, i - 1);
        assert And(v, v - 1) / 2 == And(v / 2, v / 2 - 1);
      }
    }
  }

  /** On the set: the word loses its minimum. */
  lemma DropLowest(v: Word)
    requires v != 0
    ensures And(v, v - 1) < WORDS
    ensures Members(And(v, v - 1)) == Members(v) - {TrailingZeros(v)}
    ensures TrailingZeros(v) in Members(v) && forall i :: i in Members(v) ==> TrailingZeros(v) <= i
  {
    AndFits(v, v - 1);
    LowestBit(v, 0);
    WordHighBits(v, TrailingZeros(v));
    forall i | 0 <= i < WIDTH
      ensures Bit(And(v, v - 1), i) <==> Bit(v, i) && i != TrailingZeros(v)
      ensures Bit(v, i) ==> TrailingZeros(v) <= i
    {
      DropLowestBit(v, i);
      LowestBit(v, i);
    }
  }

  lemma {:induction false} PopCountDrop(v: nat)
    requires v != 0
    ensures PopCount(v) == 1 + PopCount(And(v, v - 1))
  {
    if v % 2 == 1 {
      AndSelf(v / 2);
      assert (v - 1) / 2 == v / 2;
      assert And(v, v - 1) == 2 * (v / 2);
    } else {
      assert (v - 1) / 2 == v / 2 - 1;
      assert And(v, v - 1) == 2 * And(v / 2, v / 2 - 1);
      PopCountDrop(v / 2);
    }
  }

  /** The population count is the size of the set. */
  lemma {:induction false} PopCountIsCardinality(v: Word)
    ensures PopCount(v) == |Members(v)|
    decreases PopCount(v)
  {
    if v == 0 {
      forall i | 0 <= i < WIDTH ensures !Bit(0, i) { ZeroBit(i); }
      assert Members(v) == {};
    } else {
      PopCountDrop(v);
      DropLowest(v);
      PopCountIsCardinality(And(v, v - 1));
    }
  }

  // ---------------------------------------------------------------- the class

  predicate Ascending(l: seq<nat>) {
    forall a, b :: 0 <= a < b < |l| ==> l[a] < l[b]
  }

  /** l is the ascending enumeration of s, without repetition. */
  ghost predicate Enumerates(l: seq<nat>, s: set<nat>) {
    Ascending(l) && (set i | i in l) == s
  }

  /** Moving the minimum of the remaining members to the end of the enumeration. */
  lemma Extends(done: seq<nat>, m: nat, rest: set<nat>, next: seq<nat>)
    requires Ascending(done) && m in rest && next == done + [m]
    requires forall k, i :: 0 <= k < |done| && i in rest ==> done[k] < i
    requires forall i :: i in rest ==> m <= i
    ensures Ascending(next)
    ensures forall k, i :: 0 <= k < |next| && i in rest - {m} ==> next[k] < i
    ensures forall i :: i in done || i in rest <==> i in next || i in rest - {m}
  {
  }

  class BitSet {
    var value: Word

    constructor ()
      ensures value == 0 && Members(value) == {}
    {
      value := 0;
      new;
      forall i | 0 <= i < WIDTH ensures !Bit(0, i) { ZeroBit(i); }
    }

    method Set(pos: nat)
      modifies this
      ensures Members(value) == old(Members(value)) + {pos % 64}
    {
      SetAdds(value, pos);
      value := Or(value, Shift(pos));
    }

    method Clear(pos: nat)
      modifies this
      ensures Members(value) == old(Members(value)) - {pos % 64}
    {
      ClearRemoves(value, pos);
      value := And(value, Not(Shift(pos)));
    }

    method Has(pos: nat) returns (r: bool)
      ensures r <==> pos % 64 in Members(value)
    {
      TestsMember(value, pos);
      r := And(value, Shift(pos)) != 0;
    }

    method Ior(other: BitSet) returns (self: BitSet)
      modifies this
      ensures self == this
      ensures Members(value) == old(Members(value)) + old(Members(other.value))
    {
      IorUnites(value, other.value);
      value := Or(value, other.value);
      self := this;
    }

    /** The sum of 2^i over the members. */
    method Int() returns (v: nat)
      ensures v < WORDS && v == PowerSum(Members(value), 0, WIDTH)
    {
      WordIsPowerSum(value);
      v := value;
    }

    method Length() returns (n: nat)
      ensures n == |Members(value)|
    {
      PopCountIsCardinality(value);
      n := PopCount(value);
    }

    /** The strictly ascending enumeration of the members. */
    method List() returns (l: seq<nat>)
      ensures Enumerates(l, Members(value))
      ensures |l| == |Members(value)|
    {
      var v: Word := value;
      var length := Length();
      l := seq(length, _ => 0);
      for i := 0 to length
        invariant |l| == length && |Members(v)| == length - i
        invariant Ascending(l[..i])
        invariant forall k, m :: 0 <= k < i && m in Members(v) ==> l[k] < m
        invariant forall m :: m in Members(value) <==> m in l[..i] || m in Members(v)
      {
        PopCountIsCardinality(v);
        DropLowest(v);
        Extends(l[..i], TrailingZeros(v), Members(v), l[i := TrailingZeros(v)][..i + 1]);
        l := l[i := TrailingZeros(v)];
        v := And(v, v - 1);
      }
      assert l[..length] == l;
    }
  }

  // ---------------------------------------------------------------- any sequence of operations

  datatype Op = Set(pos: nat) | Clear(pos: nat) | Ior(word: Word)

  function Apply(v: Word, op: Op): Word {
    match op
    case Set(pos) => SetAdds(v, pos); Or(v, Shift(pos))
    case Clear(pos) => ClearRemoves(v, pos); And(v, Not(Shift(pos)))
    case Ior(w) => IorUnites(v, w); Or(v, w)
  }

  ghost function ApplyToSet(s: set<nat>, op: Op): set<nat> {
    match op
    case Set(pos) => s + {pos % 64}
    case Clear(pos) => s - {pos % 64}
    case Ior(w) => s + Members(w)
  }

  function Run(v: Word, ops: seq<Op>): Word
    decreases ops
  {
    if ops == [] then v else Run(Apply(v, ops[0]), ops[1..])
  }

  ghost function RunOnSet(s: set<nat>, ops: seq<Op>): set<nat>
    decreases ops
  {
    if ops == [] then s else RunOnSet(ApplyToSet(s, ops[0]), ops[1..])
  }

  /** The word refines the set through every sequence of operations. */
  lemma {:induction false} RunRefinesSet(v: Word, ops: seq<Op>)
    ensures Members(Run(v, ops)) == RunOnSet(Members(v), ops)
    decreases ops
  {
    if ops != [] {
      match ops[0] {
        case Set(pos) => SetAdds(v, pos);
        case Clear(pos) => ClearRemoves(v, pos);
        case Ior(w) => IorUnites(v, w);
      }
      RunRefinesSet(Apply(v, ops[0]), ops[1..]);
    }
  }

  // ---------------------------------------------------------------- decoding a target

  /** The class names decode_target selects from index n on. */
  function DecodeFrom(classes: seq<string>, target: int, n: nat): seq<string>
    requires n <= |classes|
    decreases |classes| - n
  {
    if n == |classes| then []
    else (if Bit(target, n) then [classes[n]] else []) + DecodeFrom(classes, target, n + 1)
  }

  method DecodeTarget(classes: seq<string>, target: int) returns (names: seq<string>)
    ensures names == DecodeFrom(classes, target, 0)
  {
    names := [];
    for i := 0 to |classes|
      invariant DecodeFrom(classes, target, 0) == names + DecodeFrom(classes, target, i)
    {
      if Bit(target, i) {
        names := names + [classes[i]];
      }
    }
  }

  /** The names at the given positions; positions past the end of the classes name nothing. */
  function NamesAt(classes: seq<string>, positions: seq<nat>): seq<string> {
    if positions == [] then []
    else (if positions[0] < |classes| then [classes[positions[0]]] else [])
         + NamesAt(classes, positions[1..])
  }

  /** One name for each position, in their order. */
  lemma {:induction false} NamesAreAt(classes: seq<string>, positions: seq<nat>)
    requires forall k :: 0 <= k < |positions| ==> positions[k] < |classes|
    ensures |NamesAt(classes, positions)| == |positions|
    ensures forall k :: 0 <= k < |positions| ==> NamesAt(classes, positions)[k] == classes[positions[k]]
  {
    if positions != [] { NamesAreAt(classes, positions[1..]); }
  }

  lemma {:induction false} NamesPastEnd(classes: seq<string>, l: seq<nat>)
    requires forall k :: 0 <= k < |l| ==> l[k] >= |classes|
    ensures NamesAt(classes, l) == []
  {
    if l != [] { NamesPastEnd(classes, l[1..]); }
  }

  /** l lists the members of s from n on. */
  ghost predicate ListsFrom(l: seq<nat>, s: set<nat>, n: nat) {
    Ascending(l) && forall i :: i in l <==> i in s && i >= n
  }

  lemma HeadIsLeast(l: seq<nat>, s: set<nat>, n: nat)
    requires ListsFrom(l, s, n) && n in s
    ensures l != [] && l[0] == n && ListsFrom(l[1..], s, n + 1)
  {
    assert n in l;
    assert l[0] in l;
    assert l == [l[0]] + l[1..];
  }

  lemma SkipAbsent(l: seq<nat>, s: set<nat>, n: nat)
    requires ListsFrom(l, s, n) && n !in s
    ensures ListsFrom(l, s, n + 1)
  {
  }

  lemma NoneLeft(classes: seq<string>, l: seq<nat>, s: set<nat>)
    requires ListsFrom(l, s, |classes|)
    ensures NamesAt(classes, l) == []
  {
    forall k | 0 <= k < |l| ensures l[k] >= |classes| { assert l[k] in l; }
    NamesPastEnd(classes, l);
  }

  lemma DecodeStep(classes: seq<string>, v: Word, n: nat)
    requires n < |classes|
    ensures DecodeFrom(classes, v, n)
            == (if n in Members(v) then [classes[n]] else []) + DecodeFrom(classes, v, n + 1)
  {
    if Bit(v, n) { WordHighBits(v, n); }
  }

  lemma {:induction false} DecodeSuffix(classes: seq<string>, v: Word, s: set<nat>, n: nat, l: seq<nat>)
    requires n <= |classes| && s == Members(v) && ListsFrom(l, s, n)
    ensures DecodeFrom(classes, v, n) == NamesAt(classes, l)
    decreases |classes| - n
  {
    if n == |classes| {
      NoneLeft(classes, l, s);
    } else {
      DecodeStep(classes, v, n);
      if n in s {
        HeadIsLeast(l, s, n);
        DecodeSuffix(classes, v, s, n + 1, l[1..]);
      } else {
        SkipAbsent(l, s, n);
        DecodeSuffix(classes, v, s, n + 1, l);
      }
    }
  }

  /** Decoding the integer of a word selects the classes at the listed positions, in order. */
  lemma DecodeSelectsListed(classes: seq<string>, v: Word, l: seq<nat>)
    requires Enumerates(l, Members(v))
    ensures DecodeFrom(classes, v, 0) == NamesAt(classes, l)
  {
    assert forall i :: i in l <==> i in (set i | i in l);
    DecodeSuffix(classes, v, Members(v), 0, l);
  }

  ghost function WrapAll(positions: seq<nat>): set<nat> {
    set i | i in positions :: i % 64
  }

  lemma WrapAllSplit(positions: seq<nat>)
    requires positions != []
    ensures WrapAll(positions) == {Wrap(positions[0])} + WrapAll(positions[1..])
  {
    assert positions == [positions[0]] + positions[1..];
    forall i | i in positions ensures i % 64 in {Wrap(positions[0])} + WrapAll(positions[1..]) {
      assert i == positions[0] || i in positions[1..];
    }
    assert positions[0] in positions && forall i :: i in positions[1..] ==> i in positions;
  }

  lemma {:induction false} SetAll(s: set<nat>, positions: seq<nat>)
    ensures RunOnSet(s, seq(|positions|, k requires 0 <= k < |positions| => Set(positions[k])))
            == s + WrapAll(positions)
    decreases positions
  {
    var ops := seq(|positions|, k requires 0 <= k < |positions| => Set(positions[k]));
    if positions != [] {
      var rest := positions[1..];
      assert ops[1..] == seq(|rest|, k requires 0 <= k < |rest| => Set(rest[k]));
      SetAll(s + {Wrap(positions[0])}, rest);
      WrapAllSplit(positions);
    }
  }

  /**
   Encode then decode is the identity: setting positions in any order and decoding the resulting
   integer yields the classes at exactly those positions, each once, in ascending order.
   */
  lemma EncodeDecode(classes: seq<string>, positions: seq<nat>, l: seq<nat>)
    requires Enumerates(l, WrapAll(positions))
    ensures var ops := seq(|positions|, k requires 0 <= k < |positions| => Set(positions[k]));
            && DecodeFrom(classes, Run(0, ops), 0) == NamesAt(classes, l)
            && ((forall k :: 0 <= k < |l| ==> l[k] < |classes|) ==>
                  |NamesAt(classes, l)| == |l| && forall k :: 0 <= k < |l| ==> NamesAt(classes, l)[k] == classes[l[k]])
  {
    if forall k :: 0 <= k < |l| ==> l[k] < |classes| { NamesAreAt(classes, l); }
    var ops := seq(|positions|, k requires 0 <= k < |positions| => Set(positions[k]));
    RunRefinesSet(0, ops);
    SetAll({}, positions);
    forall i | 0 <= i < WIDTH ensures !Bit(0, i) { ZeroBit(i); }
    assert Members(0) == {};
    DecodeSelectsListed(classes, Run(0, ops), l);
  }
}
