/**
 Paths of relations as Django spells them: fields joined by a double underscore. What makes a spelled
 path readable are Django's rules for field names.
 */
module RelationPaths {

  /** The fields on the way from a model to a related one. */
  type Path = seq<string>

  /** build_rel_path of src/qorme/ml/instance.py */
  function BuildRelPath(prefix: string, path: string): string {
    if prefix == "" then path else if path == "" then prefix else prefix + "__" + path
  }

  function Spell(p: Path): string {
    if p == [] then "" else BuildRelPath(Spell(p[..|p| - 1]), p[|p| - 1])
  }

  /** Not empty, no double underscore inside, no underscore at the end. */
  predicate Name(f: string) {
    f != "" && f[|f| - 1] != '_' && forall i :: 0 <= i < |f| ==> !SeparatorAt(f, i)
  }

  predicate SeparatorAt(s: string, i: nat) { i + 1 < |s| && s[i] == '_' && s[i + 1] == '_' }

  predicate Names(p: Path) { forall i :: 0 <= i < |p| ==> Name(p[i]) }

  lemma BuildRelPathAssociates(a: string, b: string, c: string)
    requires a != "" && b != "" && c != ""
    ensures BuildRelPath(BuildRelPath(a, b), c) == BuildRelPath(a, BuildRelPath(b, c))
  {
    assert (a + "__" + b) + "__" + c == a + "__" + (b + "__" + c);
  }

  lemma {:induction false} SpellNotEmpty(p: Path)
    requires Names(p)
    ensures Spell(p) == "" <==> p == []
  {
    if p != [] { SpellNotEmpty(p[..|p| - 1]); }
  }

  lemma {:induction false} SpellFront(p: Path)
    requires Names(p) && p != []
    ensures Spell(p) == BuildRelPath(p[0], Spell(p[1..]))
  {
    var init, last := p[..|p| - 1], p[|p| - 1];
    if |p| == 1 {
      assert init == [] && p[1..] == [];
    } else {
      SpellFront(init);
      assert p[1..][..|p| - 2] == init[1..] && p[1..][|p| - 2] == last;
      SpellNotEmpty(init[1..]);
      if |p| > 2 { BuildRelPathAssociates(p[0], Spell(init[1..]), last); }
    }
  }

  /** The first double underscore of a spelled path ends its first field. */
  lemma FirstSeparator(f: string, r: string)
    requires Name(f)
    ensures var s := f + "__" + r;
            && SeparatorAt(s, |f|) && (forall i :: 0 <= i < |f| ==> !SeparatorAt(s, i))
            && s[..|f|] == f && s[|f| + 2..] == r
  {
    var s := f + "__" + r;
    forall i | 0 <= i < |f| ensures !SeparatorAt(s, i) {
      assert !SeparatorAt(f, i);
      if i + 1 < |f| { assert s[i] == f[i] && s[i + 1] == f[i + 1]; }
    }
  }

  lemma FirstFieldUnique(f: string, r: string, f': string, r': string)
    requires Name(f) && Name(f') && f + "__" + r == f' + "__" + r'
    ensures f == f' && r == r'
  {
    FirstSeparator(f, r);
    FirstSeparator(f', r');
  }

  lemma NoSeparator(f: string, f': string, r: string)
    requires Name(f) && Name(f')
    ensures f != f' + "__" + r
  {
    FirstSeparator(f', r);
  }

  /** Different paths have different spellings. */
  lemma {:induction false} SpellInjective(p: Path, q: Path)
    requires Names(p) && Names(q) && Spell(p) == Spell(q)
    ensures p == q
  {
    SpellNotEmpty(p);
    SpellNotEmpty(q);
    if p != [] && q != [] {
      SpellFront(p);
      SpellFront(q);
      SpellNotEmpty(p[1..]);
      SpellNotEmpty(q[1..]);
      FirstFields(p[0], Spell(p[1..]), q[0], Spell(q[1..]));
      SpellInjective(p[1..], q[1..]);
      assert p == [p[0]] + p[1..] && q == [q[0]] + q[1..];
    }
  }

  lemma FirstFields(f: string, r: string, f': string, r': string)
    requires Name(f) && Name(f') && BuildRelPath(f, r) == BuildRelPath(f', r')
    ensures f == f' && r == r'
  {
    if r != "" && r' != "" {
      FirstFieldUnique(f, r, f', r');
    } else if r != "" {
      NoSeparator(f', f, r);
    } else if r' != "" {
      NoSeparator(f, f', r');
    }
  }

  // ---------------------------------------------------------------- what is spelled

  /** Each field after a double underscore. */
  function Suffix(p: Path): string {
    if p == [] then "" else "__" + p[0] + Suffix(p[1..])
  }

  /** The fields with double underscores between them. */
  function JoinFields(p: Path): string {
    if p == [] then "" else p[0] + Suffix(p[1..])
  }

  lemma {:induction false} SuffixOn(p: Path, field: string)
    ensures Suffix(p + [field]) == Suffix(p) + "__" + field
  {
    if p == [] {
      assert (p + [field])[1..] == [];
    } else {
      assert (p + [field])[1..] == p[1..] + [field];
      SuffixOn(p[1..], field);
    }
  }

  lemma {:induction false} SpellIsJoined(p: Path)
    requires Names(p)
    ensures Spell(p) == JoinFields(p)
  {
    if p != [] {
      var init, last := p[..|p| - 1], p[|p| - 1];
      SpellIsJoined(init);
      SpellNotEmpty(init);
      if init != [] {
        assert p[1..] == init[1..] + [last];
        SuffixOn(init[1..], last);
      } else {
        assert p[1..] == [];
      }
    }
  }

  /** Below a prefix. */
  lemma BelowPrefix(prefix: string, p: Path)
    requires Names(p)
    ensures BuildRelPath(prefix, Spell(p)) == if prefix == "" then JoinFields(p) else prefix + Suffix(p)
  {
    SpellIsJoined(p);
    SpellNotEmpty(p);
    if p != [] { Regroup(prefix, "__", p[0], Suffix(p[1..])); }
  }

  lemma Regroup(a: string, b: string, c: string, d: string)
    ensures a + b + (c + d) == a + (b + c + d)
  {
  }

  lemma Associates(a: string, b: string, c: string, d: string)
    ensures (a + b + c) + d == a + (b + c + d)
  {
  }

  lemma SameEnd(front: string, a: string, b: string)
    requires front + a == front + b
    ensures a == b
  {
    assert (front + a)[|front|..] == a && (front + b)[|front|..] == b;
  }

  lemma JoinFieldsInjective(p: Path, q: Path)
    requires Names(p) && Names(q) && JoinFields(p) == JoinFields(q)
    ensures p == q
  {
    SpellIsJoined(p);
    SpellIsJoined(q);
    SpellInjective(p, q);
  }

  lemma SuffixIsJoined(p: Path)
    ensures Suffix(p) == if p == [] then "" else "__" + JoinFields(p)
  {
    if p != [] { Regroup("", "__", p[0], Suffix(p[1..])); }
  }

  lemma SuffixInjective(p: Path, q: Path)
    requires Names(p) && Names(q) && Suffix(p) == Suffix(q)
    ensures p == q
  {
    SuffixIsJoined(p);
    SuffixIsJoined(q);
    if p != [] && q != [] {
      SameEnd("__", JoinFields(p), JoinFields(q));
      JoinFieldsInjective(p, q);
    }
  }
}
