/**
 The walk over joined instances in integrations/qorme-django/src/qorme_django/domains/queries.py
 (get_joined_instances and on_new_instance).

 Instances are identified by their id(); they stay alive during the walk. The cached relations of an
 instance are the items of its fields_cache, in order, with distinct field names.
 */
module JoinedInstances {
  import opened Basics
  import RelationPaths

  type Id = nat

  type Graph = map<Id, seq<(string, Option<Id>)>>

  /** select_related: None or False, True, or a dict of nested dicts. */
  datatype Select = Off | All | Fields(named: map<string, Select>)

  ghost predicate WellFormed(g: Graph) {
    && (forall x, i, j :: x in g && 0 <= i < j < |g[x]| ==> g[x][i].0 != g[x][j].0)
    && (forall x, i :: x in g && 0 <= i < |g[x]| && g[x][i].1.Some? ==> g[x][i].1.value in g)
  }

  /** The truth value of select_related, and whether it names the field. */
  predicate Selects(sel: Select, field: string) {
    match sel
    case Off => false
    case All => true
    case Fields(named) => field in named
  }

  function Below(sel: Select, field: string): Select {
    if sel.Fields? then (if field in sel.named then sel.named[field] else Off) else sel
  }

  function Joined(cache: seq<(string, Option<Id>)>, tracked: bool, sel: Select): seq<(string, Id)> {
    if cache == [] || !tracked then []
    else
      var rest := Joined(cache[..|cache| - 1], tracked, sel);
      var (field, rel) := cache[|cache| - 1];
      if rel.Some? && Selects(sel, field) then rest + [(field, rel.value)] else rest
  }

  /** The generator: nothing without a query or with an empty select_related. */
  method GetJoinedInstances(g: Graph, x: Id, tracked: bool, sel: Select) returns (joined: seq<(string, Id)>)
    requires x in g
    ensures joined == Joined(g[x], tracked, sel)
  {
    joined := [];
    if !tracked || sel.Off? || sel == Fields(map[]) {
      NothingSelected(g[x], tracked, sel);
      return;
    }
    for i := 0 to |g[x]|
      invariant joined == Joined(g[x][..i], tracked, sel)
    {
      assert g[x][..i + 1][..i] == g[x][..i];
      var (field, rel) := g[x][i];
      if rel.Some? && (sel.All? || (sel.Fields? && field in sel.named)) {
        joined := joined + [(field, rel.value)];
      }
    }
    assert g[x][..|g[x]|] == g[x];
  }

  lemma {:induction false} NothingSelected(cache: seq<(string, Option<Id>)>, tracked: bool, sel: Select)
    requires !tracked || sel.Off? || sel == Fields(map[])
    ensures Joined(cache, tracked, sel) == []
  {
    if cache != [] { NothingSelected(cache[..|cache| - 1], tracked, sel); }
  }

  lemma {:induction false} JoinedIn(cache: seq<(string, Option<Id>)>, tracked: bool, sel: Select, f: string, y: Id)
    ensures (f, y) in Joined(cache, tracked, sel) <==>
              tracked && (f, Some(y)) in cache && (sel.All? || (sel.Fields? && f in sel.named))
  {
    if cache != [] && tracked {
      var init, last := cache[..|cache| - 1], cache[|cache| - 1];
      JoinedIn(init, tracked, sel, f, y);
      assert cache == init + [last];
      var rest := Joined(init, tracked, sel);
      if last.1.Some? && Selects(sel, last.0) {
        assert Joined(cache, tracked, sel) == rest + [(last.0, last.1.value)];
      } else {
        assert Joined(cache, tracked, sel) == rest;
      }
    }
  }

  // ---------------------------------------------------------------- the walk

  datatype Report = Report(instance: Id, path: string)

  datatype Trace = Trace(seen: set<Id>, reports: seq<Report>)

  function Extend(path: string, field: string): string {
    if path == "" then field else path + "__" + field
  }

  /** on_new_instance */
  function Visit(g: Graph, tracked: bool, sel: Select, x: Id, path: string, seen: set<Id>): (t: Trace)
    requires WellFormed(g) && x in g
    ensures seen + {x} <= t.seen
    decreases g.Keys - seen, if x in seen then 2 else 0, 0
  {
    JoinedKnown(g, tracked, sel, x);
    var t := VisitAll(g, tracked, sel, Joined(g[x], tracked, sel), path, seen + {x});
    Trace(t.seen, [Report(x, path)] + t.reports)
  }

  /** Its loop over the joined instances. */
  function VisitAll(g: Graph, tracked: bool, sel: Select, joined: seq<(string, Id)>, path: string, seen: set<Id>)
    : (t: Trace)
    requires WellFormed(g) && forall j :: j in joined ==> j.1 in g
    ensures seen <= t.seen
    decreases g.Keys - seen, 1, |joined|
  {
    if joined == [] then Trace(seen, [])
    else
      var (field, y) := joined[0];
      if y in seen then VisitAll(g, tracked, sel, joined[1..], path, seen)
      else
        var t := Visit(g, tracked, Below(sel, field), y, Extend(path, field), seen);
        var u := VisitAll(g, tracked, sel, joined[1..], path, t.seen);
        Trace(u.seen, t.reports + u.reports)
  }

  lemma VisitAllUnfold(g: Graph, tracked: bool, sel: Select, joined: seq<(string, Id)>, i: nat, path: string,
                       seen: set<Id>, reports: seq<Report>)
    requires WellFormed(g) && i < |joined| && forall j :: j in joined ==> j.1 in g
    ensures var (field, y) := joined[i];
            After(reports, VisitAll(g, tracked, sel, joined[i..], path, seen)) ==
              if y in seen then After(reports, VisitAll(g, tracked, sel, joined[i + 1..], path, seen))
              else
                var t := Visit(g, tracked, Below(sel, field), y, Extend(path, field), seen);
                After(reports + t.reports, VisitAll(g, tracked, sel, joined[i + 1..], path, t.seen))
  {
    assert joined[i..][0] == joined[i] && joined[i..][1..] == joined[i + 1..];
    var (field, y) := joined[i];
    if y !in seen {
      var t := Visit(g, tracked, Below(sel, field), y, Extend(path, field), seen);
      var u := VisitAll(g, tracked, sel, joined[i + 1..], path, t.seen);
      assert reports + (t.reports + u.reports) == (reports + t.reports) + u.reports;
    }
  }

  lemma JoinedKnown(g: Graph, tracked: bool, sel: Select, x: Id)
    requires WellFormed(g) && x in g
    ensures forall j :: j in Joined(g[x], tracked, sel) ==> j.1 in g
  {
    forall f, y | (f, y) in Joined(g[x], tracked, sel) ensures y in g {
      JoinedIn(g[x], tracked, sel, f, y);
    }
  }

  /** The shared set of seen instances and the events fired. */
  class Tracker {
    var seen: set<Id>
    var reports: seq<Report>

    constructor ()
      ensures seen == {} && reports == []
    {
      seen, reports := {}, [];
    }

    method OnNewInstance(g: Graph, tracked: bool, sel: Select, x: Id, path: string)
      requires WellFormed(g) && x in g
      modifies this
      ensures Trace(seen, reports) == After(old(reports), Visit(g, tracked, sel, x, path, old(seen)))
      decreases g.Keys - seen, if x in seen then 2 else 0, 0
    {
      seen := seen + {x};
      reports := reports + [Report(x, path)];
      JoinedKnown(g, tracked, sel, x);
      var joined := GetJoinedInstances(g, x, tracked, sel);
      Loop(g, tracked, sel, joined, path);
      assert old(reports) + [Report(x, path)] + VisitAll(g, tracked, sel, joined, path, old(seen) + {x}).reports
          == old(reports) + Visit(g, tracked, sel, x, path, old(seen)).reports;
    }

    /** Its loop, which recurs into the instances that were not seen. */
    method Loop(g: Graph, tracked: bool, sel: Select, joined: seq<(string, Id)>, path: string)
      requires WellFormed(g) && forall j :: j in joined ==> j.1 in g
      modifies this
      ensures Trace(seen, reports) == After(old(reports), VisitAll(g, tracked, sel, joined, path, old(seen)))
      decreases g.Keys - seen, 1, 0
    {
      ghost var whole := After(reports, VisitAll(g, tracked, sel, joined, path, seen));
      assert joined[0..] == joined;
      for i := 0 to |joined|
        invariant old(seen) <= seen
        invariant whole == After(reports, VisitAll(g, tracked, sel, joined[i..], path, seen))
      {
        var (field, y) := joined[i];
        assert joined[i] in joined;
        VisitAllUnfold(g, tracked, sel, joined, i, path, seen, reports);
        if y !in seen {
          OnNewInstance(g, tracked, Below(sel, field), y, Extend(path, field));
        }
      }
    }
  }

  /** The reports of a trace after others. */
  function After(reports: seq<Report>, t: Trace): Trace { Trace(t.seen, reports + t.reports) }

  // ---------------------------------------------------------------- every instance once

  ghost function Instances(reports: seq<Report>): set<Id> { set r | r in reports :: r.instance }

  /** The reports are about distinct instances, exactly those that were added to the seen ones. */
  ghost predicate ReportsNew(t: Trace, seen: set<Id>) {
    && t.seen == seen + Instances(t.reports)
    && seen !! Instances(t.reports)
    && forall i, j :: 0 <= i < j < |t.reports| ==> t.reports[i].instance != t.reports[j].instance
  }

  lemma NewThenNew(t: Trace, u: Trace, seen: set<Id>)
    requires ReportsNew(t, seen) && ReportsNew(u, t.seen)
    ensures ReportsNew(Trace(u.seen, t.reports + u.reports), seen)
  {
    assert Instances(t.reports + u.reports) == Instances(t.reports) + Instances(u.reports);
    forall i, j | 0 <= i < |t.reports| && 0 <= j < |u.reports|
      ensures t.reports[i].instance != u.reports[j].instance
    {
      assert t.reports[i].instance in Instances(t.reports) && u.reports[j].instance in Instances(u.reports);
    }
  }

  /** Each instance is reported once, also on cyclic graphs and for every form of select_related. */
  lemma {:induction false} VisitReportsNew(g: Graph, tracked: bool, sel: Select, x: Id, path: string, seen: set<Id>)
    requires WellFormed(g) && x in g && x !in seen
    ensures ReportsNew(Visit(g, tracked, sel, x, path, seen), seen)
    decreases g.Keys - seen, 0, 0
  {
    JoinedKnown(g, tracked, sel, x);
    VisitAllReportsNew(g, tracked, sel, Joined(g[x], tracked, sel), path, seen + {x});
    NewThenNew(Trace(seen + {x}, [Report(x, path)]),
               VisitAll(g, tracked, sel, Joined(g[x], tracked, sel), path, seen + {x}), seen);
  }

  lemma {:induction false} VisitAllReportsNew(g: Graph, tracked: bool, sel: Select, joined: seq<(string, Id)>,
                                              path: string, seen: set<Id>)
    requires WellFormed(g) && forall j :: j in joined ==> j.1 in g
    ensures ReportsNew(VisitAll(g, tracked, sel, joined, path, seen), seen)
    decreases g.Keys - seen, 1, |joined|
  {
    if joined != [] {
      var (field, y) := joined[0];
      if y in seen {
        VisitAllReportsNew(g, tracked, sel, joined[1..], path, seen);
      } else {
        var t := Visit(g, tracked, Below(sel, field), y, Extend(path, field), seen);
        VisitReportsNew(g, tracked, Below(sel, field), y, Extend(path, field), seen);
        VisitAllReportsNew(g, tracked, sel, joined[1..], path, t.seen);
        NewThenNew(t, VisitAll(g, tracked, sel, joined[1..], path, t.seen), seen);
      }
    }
  }

  // ---------------------------------------------------------------- every path spells a walk

  /** A relation f of z is cached and leads to w. */
  ghost predicate Leads(g: Graph, z: Id, f: string, w: Id) { z in g && (f, Some(w)) in g[z] }

  /** The fields lead from x to y through cached relations, never into `seen`. */
  ghost predicate LeadsAlong(g: Graph, seen: set<Id>, x: Id, fields: seq<string>, y: Id)
    decreases |fields|
  {
    if fields == [] then x == y
    else exists z :: Leads(g, x, fields[0], z) && z !in seen && LeadsAlong(g, seen, z, fields[1..], y)
  }

  /** True selects every path of fields, a dict those that lead through its nested dicts. */
  predicate SelectsPath(sel: Select, fields: seq<string>)
    decreases |fields|
  {
    match sel
    case Off => fields == []
    case All => true
    case Fields(named) => fields == [] || (fields[0] in named && SelectsPath(named[fields[0]], fields[1..]))
  }

  /** A walk from x to y along selected fields. */
  ghost predicate Walk(g: Graph, tracked: bool, sel: Select, seen: set<Id>, x: Id, fields: seq<string>, y: Id) {
    LeadsAlong(g, seen, x, fields, y) && SelectsPath(sel, fields) && (tracked || fields == [])
  }

  /** Its first step is to a joined instance. */
  lemma WalkUnfold(g: Graph, tracked: bool, sel: Select, seen: set<Id>, x: Id, fields: seq<string>, y: Id)
    returns (z: Id)
    requires Walk(g, tracked, sel, seen, x, fields, y) && fields != []
    ensures x in g && (fields[0], z) in Joined(g[x], tracked, sel) && z !in seen
    ensures Walk(g, tracked, Below(sel, fields[0]), seen, z, fields[1..], y)
  {
    z :| Leads(g, x, fields[0], z) && z !in seen && LeadsAlong(g, seen, z, fields[1..], y);
    JoinedIn(g[x], tracked, sel, fields[0], z);
  }

  lemma WalkFold(g: Graph, tracked: bool, sel: Select, seen: set<Id>, x: Id, f: string, z: Id, rest: seq<string>,
                 y: Id)
    requires x in g && (f, z) in Joined(g[x], tracked, sel) && z !in seen
    requires Walk(g, tracked, Below(sel, f), seen, z, rest, y)
    ensures Walk(g, tracked, sel, seen, x, [f] + rest, y)
  {
    JoinedIn(g[x], tracked, sel, f, z);
    var fields := [f] + rest;
    assert fields[0] == f && fields[1..] == rest;
    assert Leads(g, x, fields[0], z) && LeadsAlong(g, seen, z, fields[1..], y);
  }

  function Spell(path: string, fields: seq<string>): string
    decreases |fields|
  {
    if fields == [] then path else Spell(Extend(path, fields[0]), fields[1..])
  }

  lemma {:induction false} AvoidsLess(g: Graph, seen: set<Id>, less: set<Id>, x: Id, fields: seq<string>, y: Id)
    requires LeadsAlong(g, seen, x, fields, y) && less <= seen
    ensures LeadsAlong(g, less, x, fields, y)
    decreases |fields|
  {
    if fields != [] {
      var z :| Leads(g, x, fields[0], z) && z !in seen && LeadsAlong(g, seen, z, fields[1..], y);
      AvoidsLess(g, seen, less, z, fields[1..], y);
    }
  }

  /** What is spelled: the fields after the root's path, or joined to one another. */
  lemma {:induction false} SpellsSuffix(path: string, fields: seq<string>)
    ensures path != "" ==> Spell(path, fields) == path + RelationPaths.Suffix(fields)
    ensures path == "" && (fields == [] || fields[0] != "") ==> Spell(path, fields) == RelationPaths.JoinFields(fields)
    decreases |fields|
  {
    if fields != [] {
      SpellsSuffix(Extend(path, fields[0]), fields[1..]);
      if path != "" {
        RelationPaths.Associates(path, "__", fields[0], RelationPaths.Suffix(fields[1..]));
      }
    }
  }

  /** Report k was reached by a walk, and its path spells the walk's fields from the root's path. */
  lemma {:induction false} ReportSpells(g: Graph, tracked: bool, sel: Select, x: Id, path: string,
                                        seen: set<Id>, k: nat) returns (fields: seq<string>)
    requires WellFormed(g) && x in g && x !in seen && k < |Visit(g, tracked, sel, x, path, seen).reports|
    ensures var r := Visit(g, tracked, sel, x, path, seen).reports[k];
            Walk(g, tracked, sel, seen, x, fields, r.instance) && r.path == Spell(path, fields)
    decreases g.Keys - seen, 0, 0
  {
    if k == 0 {
      fields := [];
    } else {
      JoinedKnown(g, tracked, sel, x);
      var joined := Joined(g[x], tracked, sel);
      var r := VisitAll(g, tracked, sel, joined, path, seen + {x}).reports[k - 1];
      var j, rest := VisitAllSpells(g, tracked, sel, joined, path, seen + {x}, k - 1);
      AvoidsLess(g, seen + {x}, seen, j.1, rest, r.instance);
      WalkFold(g, tracked, sel, seen, x, j.0, j.1, rest, r.instance);
      fields := [j.0] + rest;
      assert fields[1..] == rest;
    }
  }

  lemma {:induction false} VisitAllSpells(g: Graph, tracked: bool, sel: Select, joined: seq<(string, Id)>,
      path: string, seen: set<Id>, k: nat) returns (j: (string, Id), fields: seq<string>)
    requires WellFormed(g) && forall i :: i in joined ==> i.1 in g
    requires k < |VisitAll(g, tracked, sel, joined, path, seen).reports|
    ensures j in joined && j.1 !in seen
    ensures var r := VisitAll(g, tracked, sel, joined, path, seen).reports[k];
            Walk(g, tracked, Below(sel, j.0), seen, j.1, fields, r.instance)
            && r.path == Spell(Extend(path, j.0), fields)
    decreases g.Keys - seen, 1, |joined|
  {
    var (field, y) := joined[0];
    if y in seen {
      j, fields := VisitAllSpells(g, tracked, sel, joined[1..], path, seen, k);
    } else {
      var t := Visit(g, tracked, Below(sel, field), y, Extend(path, field), seen);
      if k < |t.reports| {
        fields := ReportSpells(g, tracked, Below(sel, field), y, Extend(path, field), seen, k);
        j := joined[0];
      } else {
        var r := VisitAll(g, tracked, sel, joined[1..], path, t.seen).reports[k - |t.reports|];
        j, fields := VisitAllSpells(g, tracked, sel, joined[1..], path, t.seen, k - |t.reports|);
        AvoidsLess(g, t.seen, seen, j.1, fields, r.instance);
      }
    }
  }

  /**
   Every report was reached by a walk along selected fields, and its path consists of the root's path and
   these fields, with double underscores between them.
   */
  lemma VisitSpellsWalk(g: Graph, tracked: bool, sel: Select, x: Id, path: string, seen: set<Id>, k: nat)
    returns (fields: seq<string>)
    requires WellFormed(g) && x in g && x !in seen && k < |Visit(g, tracked, sel, x, path, seen).reports|
    ensures var r := Visit(g, tracked, sel, x, path, seen).reports[k];
            && LeadsAlong(g, seen, x, fields, r.instance) && SelectsPath(sel, fields) && (tracked || fields == [])
            && (path != "" ==> r.path == path + RelationPaths.Suffix(fields))
            && (path == "" && (fields == [] || fields[0] != "") ==> r.path == RelationPaths.JoinFields(fields))
  {
    fields := ReportSpells(g, tracked, sel, x, path, seen, k);
    SpellsSuffix(path, fields);
  }

  lemma {:induction false} OneEnd(g: Graph, seen: set<Id>, x: Id, fields: seq<string>, y: Id, z: Id)
    requires WellFormed(g) && LeadsAlong(g, seen, x, fields, y) && LeadsAlong(g, seen, x, fields, z)
    ensures y == z
    decreases |fields|
  {
    if fields != [] {
      var u :| Leads(g, x, fields[0], u) && u !in seen && LeadsAlong(g, seen, u, fields[1..], y);
      var v :| Leads(g, x, fields[0], v) && v !in seen && LeadsAlong(g, seen, v, fields[1..], z);
      OneField(g, x, fields[0], u, v);
      OneEnd(g, seen, u, fields[1..], y, z);
    }
  }

  lemma OneField(g: Graph, x: Id, f: string, u: Id, v: Id)
    requires WellFormed(g) && Leads(g, x, f, u) && Leads(g, x, f, v)
    ensures u == v
  {
    var i :| 0 <= i < |g[x]| && g[x][i] == (f, Some(u));
    var j :| 0 <= j < |g[x]| && g[x][j] == (f, Some(v));
  }

  ghost predicate NamesObeyed(g: Graph) { forall x, f, y | Leads(g, x, f, y) :: RelationPaths.Name(f) }

  lemma {:induction false} NamesAlong(g: Graph, seen: set<Id>, x: Id, fields: seq<string>, y: Id)
    requires NamesObeyed(g) && LeadsAlong(g, seen, x, fields, y)
    ensures RelationPaths.Names(fields)
    decreases |fields|
  {
    if fields != [] {
      var z :| Leads(g, x, fields[0], z) && z !in seen && LeadsAlong(g, seen, z, fields[1..], y);
      NamesAlong(g, seen, z, fields[1..], y);
      assert fields == [fields[0]] + fields[1..];
    }
  }

  /** When the field names obey Django's rules, no two reports have the same path. */
  lemma PathsAreDistinct(g: Graph, tracked: bool, sel: Select, x: Id, path: string, seen: set<Id>, i: nat, j: nat)
    requires WellFormed(g) && NamesObeyed(g) && x in g && x !in seen
    requires i < j < |Visit(g, tracked, sel, x, path, seen).reports|
    ensures var t := Visit(g, tracked, sel, x, path, seen); t.reports[i].path != t.reports[j].path
  {
    var t := Visit(g, tracked, sel, x, path, seen);
    var p := VisitSpellsWalk(g, tracked, sel, x, path, seen, i);
    var q := VisitSpellsWalk(g, tracked, sel, x, path, seen, j);
    NamesAlong(g, seen, x, p, t.reports[i].instance);
    NamesAlong(g, seen, x, q, t.reports[j].instance);
    VisitReportsNew(g, tracked, sel, x, path, seen);
    if t.reports[i].path == t.reports[j].path {
      SamePath(path, p, q);
      OneEnd(g, seen, x, p, t.reports[i].instance, t.reports[j].instance);
    }
  }

  lemma SamePath(path: string, p: seq<string>, q: seq<string>)
    requires RelationPaths.Names(p) && RelationPaths.Names(q)
    requires if path != "" then path + RelationPaths.Suffix(p) == path + RelationPaths.Suffix(q)
             else RelationPaths.JoinFields(p) == RelationPaths.JoinFields(q)
    ensures p == q
  {
    if path != "" {
      RelationPaths.SameEnd(path, RelationPaths.Suffix(p), RelationPaths.Suffix(q));
      RelationPaths.SuffixInjective(p, q);
    } else {
      RelationPaths.JoinFieldsInjective(p, q);
    }
  }

  // ---------------------------------------------------------------- every reachable instance

  /**
   Every instance has one select, its label, which all selected relations that lead to it, other than
   from or to seen instances, agree on. With True everything is labelled True; with a dict a label can
   be found when no instance is cached under two relations that select differently below it.
   */
  ghost predicate Consistent(g: Graph, tracked: bool, labels: map<Id, Select>, seen: set<Id>) {
    && g.Keys <= labels.Keys
    && forall y, j :: y in g && j in Joined(g[y], tracked, labels[y]) && j.1 !in seen && j.1 in g ==>
                        labels[j.1] == Below(labels[y], j.0)
  }

  /** Whatever is joined to a reported instance has been seen. */
  ghost predicate Closes(g: Graph, tracked: bool, labels: map<Id, Select>, t: Trace)
    requires g.Keys <= labels.Keys
  {
    forall r, j | r in t.reports && r.instance in g && j in Joined(g[r.instance], tracked, labels[r.instance]) ::
      j.1 in t.seen
  }

  lemma ConsistentBeyond(g: Graph, tracked: bool, labels: map<Id, Select>, seen: set<Id>, more: set<Id>)
    requires Consistent(g, tracked, labels, seen) && seen <= more
    ensures Consistent(g, tracked, labels, more)
  {
  }

  lemma {:induction false} VisitCloses(g: Graph, tracked: bool, labels: map<Id, Select>, x: Id, path: string,
                                       seen: set<Id>)
    requires WellFormed(g) && Consistent(g, tracked, labels, seen) && x in g && x !in seen
    ensures Closes(g, tracked, labels, Visit(g, tracked, labels[x], x, path, seen))
    decreases g.Keys - seen, 0, 0
  {
    JoinedKnown(g, tracked, labels[x], x);
    ConsistentBeyond(g, tracked, labels, seen, seen + {x});
    VisitAllCloses(g, tracked, labels, labels[x], Joined(g[x], tracked, labels[x]), path, seen + {x});
  }

  lemma {:induction false} VisitAllCloses(g: Graph, tracked: bool, labels: map<Id, Select>, sel: Select,
                                          joined: seq<(string, Id)>, path: string, seen: set<Id>)
    requires WellFormed(g) && Consistent(g, tracked, labels, seen) && forall j :: j in joined ==> j.1 in g
    requires forall j :: j in joined && j.1 !in seen ==> labels[j.1] == Below(sel, j.0)
    ensures var t := VisitAll(g, tracked, sel, joined, path, seen);
            Closes(g, tracked, labels, t) && forall j :: j in joined ==> j.1 in t.seen
    decreases g.Keys - seen, 1, |joined|
  {
    if joined != [] {
      var (field, y) := joined[0];
      assert joined[0] in joined;
      if y in seen {
        VisitAllCloses(g, tracked, labels, sel, joined[1..], path, seen);
      } else {
        var t := Visit(g, tracked, Below(sel, field), y, Extend(path, field), seen);
        VisitCloses(g, tracked, labels, y, Extend(path, field), seen);
        ConsistentBeyond(g, tracked, labels, seen, t.seen);
        VisitAllCloses(g, tracked, labels, sel, joined[1..], path, t.seen);
      }
    }
  }

  lemma {:induction false} WalkStaysInside(g: Graph, tracked: bool, labels: map<Id, Select>, t: Trace, seen: set<Id>,
                                           x: Id, fields: seq<string>, y: Id)
    requires WellFormed(g) && Consistent(g, tracked, labels, seen) && x in g
    requires ReportsNew(t, seen) && Closes(g, tracked, labels, t) && x in Instances(t.reports)
    requires Walk(g, tracked, labels[x], seen, x, fields, y)
    ensures y in Instances(t.reports)
    decreases |fields|
  {
    if fields != [] {
      var z := WalkUnfold(g, tracked, labels[x], seen, x, fields, y);
      var r :| r in t.reports && r.instance == x;
      JoinedKnown(g, tracked, labels[x], x);
      assert (fields[0], z).1 in t.seen;
      WalkStaysInside(g, tracked, labels, t, seen, z, fields[1..], y);
    }
  }

  /**
   Whatever select_related is, when its selects label the instances consistently, the walk from a root
   that was not seen reports each instance that a walk through selected relations outside the seen
   instances reaches, exactly once, and no other.
   */
  lemma ReportsExactlyWalked(g: Graph, tracked: bool, labels: map<Id, Select>, x: Id, path: string, seen: set<Id>,
                             y: Id)
    requires WellFormed(g) && Consistent(g, tracked, labels, seen) && x in g && x !in seen
    ensures var t := Visit(g, tracked, labels[x], x, path, seen);
            && ReportsNew(t, seen)
            && (y in Instances(t.reports) <==> exists fields :: Walk(g, tracked, labels[x], seen, x, fields, y))
  {
    var sel := labels[x];
    var t := Visit(g, tracked, sel, x, path, seen);
    VisitReportsNew(g, tracked, sel, x, path, seen);
    VisitCloses(g, tracked, labels, x, path, seen);
    assert t.reports[0] in t.reports;
    if y in Instances(t.reports) {
      var k :| 0 <= k < |t.reports| && t.reports[k].instance == y;
      var fields := ReportSpells(g, tracked, sel, x, path, seen, k);
      assert Walk(g, tracked, sel, seen, x, fields, y);
    }
    forall fields | Walk(g, tracked, sel, seen, x, fields, y) ensures y in Instances(t.reports) {
      WalkStaysInside(g, tracked, labels, t, seen, x, fields, y);
    }
  }

  /**
   With select_related=True, from a root that was not seen, the walk reports each instance reachable
   through non-None cached relations that avoid the instances already seen, exactly once, and no other.
   */
  lemma ReportsExactlyReachable(g: Graph, x: Id, path: string, seen: set<Id>, y: Id)
    requires WellFormed(g) && x in g && x !in seen
    ensures var t := Visit(g, true, All, x, path, seen);
            && ReportsNew(t, seen)
            && (y in Instances(t.reports) <==> exists fields :: LeadsAlong(g, seen, x, fields, y))
  {
    var labels: map<Id, Select> := map z | z in g :: All;
    ReportsExactlyWalked(g, true, labels, x, path, seen, y);
    if fields :| LeadsAlong(g, seen, x, fields, y) { assert Walk(g, true, All, seen, x, fields, y); }
    if fields :| Walk(g, true, All, seen, x, fields, y) { assert LeadsAlong(g, seen, x, fields, y); }
  }

  // ---------------------------------------------------------------- one instance under two relations

  ghost predicate Complete(g: Graph, sel: Select, x: Id, path: string)
    requires WellFormed(g) && x in g
  {
    forall z, fields | Walk(g, true, sel, {}, x, fields, z) ::
      z in Instances(Visit(g, true, sel, x, path, {}).reports)
  }

  /** An instance y joined to the root x by two relations, below which nothing leads back to the root. */
  ghost predicate Shares(g: Graph, x: Id, y: Id, a: string, b: string) {
    && WellFormed(g) && x in g && y in g && x != y && a != b
    && g[x] == [(a, Some(y)), (b, Some(y))]
    && forall z, f | Leads(g, z, f, x) :: false
  }

  /** Nothing but the root leads to y, and to every other instance one relation at most. */
  ghost predicate TreeBelow(g: Graph, x: Id, y: Id) {
    && (forall z, f | Leads(g, z, f, y) :: z == x)
    && forall z, f, z', f', w | Leads(g, z, f, w) && Leads(g, z', f', w) && w != y :: z == z' && f == f'
  }

  function BelowPath(sel: Select, fields: seq<string>): Select
    decreases |fields|
  {
    if fields == [] then sel else BelowPath(Below(sel, fields[0]), fields[1..])
  }

  /** sa is True, or sb selects nothing, or each field that sb names is named in sa, and so on below it. */
  predicate Covers(sa: Select, sb: Select)
    decreases sb
  {
    || sa.All?
    || sb.Off?
    || (sb.Fields? && forall f | f in sb.named :: Selects(sa, f) && Covers(Below(sa, f), sb.named[f]))
  }

  /** A string longer than all of a finite set. */
  lemma {:induction false} FreshName(names: set<string>) returns (longer: string)
    ensures forall n | n in names :: |n| < |longer|
  {
    if names == {} {
      longer := "";
    } else {
      var n :| n in names;
      longer := FreshName(names - {n});
      longer := longer + n + "_";
    }
  }

  lemma {:induction false} CoveredPath(sa: Select, sb: Select, fields: seq<string>)
    requires Covers(sa, sb) && SelectsPath(sb, fields)
    ensures SelectsPath(sa, fields)
    decreases |fields|
  {
    if fields != [] {
      assert Covers(Below(sa, fields[0]), Below(sb, fields[0]));
      CoveredPath(Below(sa, fields[0]), Below(sb, fields[0]), fields[1..]);
    }
  }

  lemma {:induction false} UncoveredPath(sa: Select, sb: Select) returns (fields: seq<string>)
    requires !Covers(sa, sb)
    ensures SelectsPath(sb, fields) && !SelectsPath(sa, fields)
    decreases sb
  {
    if sb.All? {
      var longer := FreshName(if sa.Fields? then sa.named.Keys else {});
      fields := [longer];
    } else {
      var f :| f in sb.named && !(Selects(sa, f) && Covers(Below(sa, f), sb.named[f]));
      if Selects(sa, f) {
        var rest := UncoveredPath(Below(sa, f), sb.named[f]);
        fields := [f] + rest;
        assert fields[1..] == rest;
      } else {
        fields := [f];
      }
    }
  }

  /** Covers says that every path of fields that sb selects is one that sa selects. */
  lemma CoversExactlyPaths(sa: Select, sb: Select)
    ensures Covers(sa, sb) <==> forall fields :: SelectsPath(sb, fields) ==> SelectsPath(sa, fields)
  {
    if Covers(sa, sb) {
      forall fields | SelectsPath(sb, fields) ensures SelectsPath(sa, fields) { CoveredPath(sa, sb, fields); }
    } else {
      var fields := UncoveredPath(sa, sb);
    }
  }

  /** The last step of a walk. */
  lemma {:induction false} LastStep(g: Graph, x: Id, fields: seq<string>, w: Id) returns (z: Id)
    requires LeadsAlong(g, {}, x, fields, w) && fields != []
    ensures LeadsAlong(g, {}, x, fields[..|fields| - 1], z) && Leads(g, z, fields[|fields| - 1], w)
    decreases |fields|
  {
    var init := fields[..|fields| - 1];
    var y :| Leads(g, x, fields[0], y) && LeadsAlong(g, {}, y, fields[1..], w);
    if |fields| == 1 {
      z := x;
    } else {
      z := LastStep(g, y, fields[1..], w);
      assert init[0] == fields[0] && init[1..] == fields[1..][..|fields| - 2];
      assert Leads(g, x, init[0], y) && LeadsAlong(g, {}, y, init[1..], z);
    }
  }

  /** A walk and one step more. */
  lemma {:induction false} StepOn(g: Graph, x: Id, fields: seq<string>, z: Id, f: string, w: Id)
    requires LeadsAlong(g, {}, x, fields, z) && Leads(g, z, f, w)
    ensures LeadsAlong(g, {}, x, fields + [f], w)
    decreases |fields|
  {
    var more := fields + [f];
    if fields == [] {
      assert more[0] == f && more[1..] == [];
      assert Leads(g, x, more[0], w) && LeadsAlong(g, {}, w, more[1..], w);
    } else {
      var y :| Leads(g, x, fields[0], y) && LeadsAlong(g, {}, y, fields[1..], z);
      StepOn(g, y, fields[1..], z, f, w);
      assert more[0] == fields[0] && more[1..] == fields[1..] + [f];
      assert Leads(g, x, more[0], y) && LeadsAlong(g, {}, y, more[1..], w);
    }
  }

  lemma {:induction false} BelowPathOn(sel: Select, fields: seq<string>, f: string)
    ensures BelowPath(sel, fields + [f]) == Below(BelowPath(sel, fields), f)
    decreases |fields|
  {
    if fields == [] {
      assert (fields + [f])[1..] == [];
    } else {
      assert (fields + [f])[1..] == fields[1..] + [f];
      BelowPathOn(Below(sel, fields[0]), fields[1..], f);
    }
  }

  lemma NeverBack(g: Graph, x: Id, y: Id, a: string, b: string, fields: seq<string>)
    requires Shares(g, x, y, a, b)
    ensures !LeadsAlong(g, {}, y, fields, x)
  {
    if LeadsAlong(g, {}, y, fields, x) && fields != [] {
      var z := LastStep(g, y, fields, x);
    }
  }

  /** In a tree one path of fields leads from y to an instance. */
  lemma {:induction false} OnePath(g: Graph, x: Id, y: Id, a: string, b: string,
                                   p: seq<string>, q: seq<string>, w: Id)
    requires Shares(g, x, y, a, b) && TreeBelow(g, x, y)
    requires LeadsAlong(g, {}, y, p, w) && LeadsAlong(g, {}, y, q, w)
    ensures p == q
    decreases |p|
  {
    if p != [] {
      var z := LastStep(g, y, p, w);
      NeverBack(g, x, y, a, b, p[..|p| - 1]);
      if q != [] {
        var z' := LastStep(g, y, q, w);
        OnePath(g, x, y, a, b, p[..|p| - 1], q[..|q| - 1], z);
        assert p == p[..|p| - 1] + [p[|p| - 1]] && q == q[..|q| - 1] + [q[|q| - 1]];
      }
    } else if q != [] {
      var z := LastStep(g, y, q, w);
      NeverBack(g, x, y, a, b, q[..|q| - 1]);
    }
  }

  ghost predicate Walked(g: Graph, sel: Select, y: Id, w: Id) { exists fields :: Walk(g, true, sel, {}, y, fields, w) }

  /** What sel selects below the path from y to w. */
  ghost function Label(g: Graph, y: Id, sel: Select, w: Id): Select {
    if Walked(g, All, y, w) then (var fields :| LeadsAlong(g, {}, y, fields, w); BelowPath(sel, fields)) else Off
  }

  lemma TreeLabels(g: Graph, x: Id, y: Id, a: string, b: string, sel: Select) returns (labels: map<Id, Select>)
    requires Shares(g, x, y, a, b) && TreeBelow(g, x, y)
    ensures Consistent(g, true, labels, {x}) && labels[y] == sel
  {
    labels := map z | z in g :: Label(g, y, sel, z);
    LabelRoot(g, x, y, a, b, sel);
    forall z, j | z in g && j in Joined(g[z], true, labels[z]) && j.1 !in {x} && j.1 in g
      ensures labels[j.1] == Below(labels[z], j.0)
    {
      JoinedIn(g[z], true, labels[z], j.0, j.1);
      LabelStep(g, x, y, a, b, sel, z, j.0, j.1);
    }
  }

  lemma LabelRoot(g: Graph, x: Id, y: Id, a: string, b: string, sel: Select)
    requires Shares(g, x, y, a, b) && TreeBelow(g, x, y)
    ensures Label(g, y, sel, y) == sel
  {
    assert Walk(g, true, All, {}, y, [], y);
    var fields :| LeadsAlong(g, {}, y, fields, y) && Label(g, y, sel, y) == BelowPath(sel, fields);
    OnePath(g, x, y, a, b, [], fields, y);
    assert fields == [] && BelowPath(sel, fields) == sel;
  }

  lemma LabelStep(g: Graph, x: Id, y: Id, a: string, b: string, sel: Select, z: Id, f: string, w: Id)
    requires Shares(g, x, y, a, b) && TreeBelow(g, x, y) && Leads(g, z, f, w) && Label(g, y, sel, z) != Off
    ensures Label(g, y, sel, w) == Below(Label(g, y, sel, z), f)
  {
    var p :| LeadsAlong(g, {}, y, p, z) && Label(g, y, sel, z) == BelowPath(sel, p);
    StepOn(g, y, p, z, f, w);
    assert Walk(g, true, All, {}, y, p + [f], w);
    var q :| LeadsAlong(g, {}, y, q, w) && Label(g, y, sel, w) == BelowPath(sel, q);
    OnePath(g, x, y, a, b, p + [f], q, w);
    BelowPathOn(sel, p, f);
  }

  lemma {:induction false} AvoidsRoot(g: Graph, x: Id, z: Id, fields: seq<string>, w: Id)
    requires LeadsAlong(g, {}, z, fields, w) && forall z, f | Leads(g, z, f, x) :: false
    ensures LeadsAlong(g, {x}, z, fields, w)
    decreases |fields|
  {
    if fields != [] {
      var u :| Leads(g, z, fields[0], u) && LeadsAlong(g, {}, u, fields[1..], w);
      assert !Leads(g, z, fields[0], x);
      AvoidsRoot(g, x, u, fields[1..], w);
    }
  }

  /** The walk enters the shared instance through the first relation only. */
  lemma SharedVisit(g: Graph, x: Id, y: Id, a: string, b: string, sa: Select, sb: Select, path: string)
    requires Shares(g, x, y, a, b)
    ensures Visit(g, true, Fields(map[a := sa, b := sb]), x, path, {}).reports
            == [Report(x, path)] + Visit(g, true, sa, y, Extend(path, a), {x}).reports
  {
    var sel := Fields(map[a := sa, b := sb]);
    JoinedTwo(a, b, y, y, sel);
    JoinedKnown(g, true, sel, x);
    var joined: seq<(string, Id)> := [(a, y), (b, y)];
    assert joined[1..] == [(b, y)] && joined[1..][1..] == [];
    assert {} + {x} == {x};
    var t := Visit(g, true, sa, y, Extend(path, a), {x});
    assert VisitAll(g, true, sel, joined[1..], path, t.seen) == VisitAll(g, true, sel, [], path, t.seen);
    assert VisitAll(g, true, sel, joined, path, {x}).reports == t.reports + [];
  }

  /** So the reported instances are the root and what the first relation selects from the shared one on. */
  lemma FirstDecides(g: Graph, x: Id, y: Id, a: string, b: string, sa: Select, sb: Select, labels: map<Id, Select>,
                     path: string, w: Id)
    requires Shares(g, x, y, a, b) && Consistent(g, true, labels, {x}) && labels[y] == sa
    ensures w in Instances(Visit(g, true, Fields(map[a := sa, b := sb]), x, path, {}).reports)
            <==> w == x || Walked(g, sa, y, w)
  {
    SharedVisit(g, x, y, a, b, sa, sb, path);
    ReportsExactlyWalked(g, true, labels, y, Extend(path, a), {x}, w);
    OneMore(Report(x, path), Visit(g, true, sa, y, Extend(path, a), {x}).reports);
    WalkedBelow(g, sa, x, y, w);
  }

  lemma OneMore(r: Report, reports: seq<Report>)
    ensures Instances([r] + reports) == {r.instance} + Instances(reports)
  {
    assert r == ([r] + reports)[0];
  }

  lemma WalkedBelow(g: Graph, sel: Select, x: Id, y: Id, w: Id)
    requires forall z, f | Leads(g, z, f, x) :: false
    ensures Walked(g, sel, y, w) <==> exists fields :: Walk(g, true, sel, {x}, y, fields, w)
  {
    if Walked(g, sel, y, w) {
      var fields :| Walk(g, true, sel, {}, y, fields, w);
      AvoidsRoot(g, x, y, fields, w);
      assert Walk(g, true, sel, {x}, y, fields, w);
    }
    if fields :| Walk(g, true, sel, {x}, y, fields, w) {
      AvoidsLess(g, {x}, {}, y, fields, w);
      assert Walk(g, true, sel, {}, y, fields, w);
    }
  }

  /** A selected walk from the root goes through one of the two relations. */
  lemma SharedWalk(g: Graph, x: Id, y: Id, a: string, b: string, sa: Select, sb: Select, w: Id)
    requires Shares(g, x, y, a, b)
    ensures Walked(g, Fields(map[a := sa, b := sb]), x, w)
            <==> w == x || Walked(g, sa, y, w) || Walked(g, sb, y, w)
  {
    var sel := Fields(map[a := sa, b := sb]);
    JoinedTwo(a, b, y, y, sel);
    assert Walk(g, true, sel, {}, x, [], x);
    if Walked(g, sel, x, w) {
      var fields :| Walk(g, true, sel, {}, x, fields, w);
      if fields != [] {
        var z := WalkUnfold(g, true, sel, {}, x, fields, w);
        assert z == y;
      }
    }
    if Walked(g, sa, y, w) { ThroughOne(g, sel, x, a, sa, y, w); }
    if Walked(g, sb, y, w) { ThroughOne(g, sel, x, b, sb, y, w); }
  }

  lemma ThroughOne(g: Graph, sel: Select, x: Id, f: string, s: Select, y: Id, w: Id)
    requires x in g && (f, y) in Joined(g[x], true, sel) && Below(sel, f) == s && Walked(g, s, y, w)
    ensures Walked(g, sel, x, w)
  {
    var rest :| Walk(g, true, s, {}, y, rest, w);
    WalkFold(g, true, sel, {}, x, f, y, rest, w);
  }

  /**
   When what the first relation selects labels the instances below the shared one, nothing selected is
   missed exactly when every instance to which the second relation leads, at any depth, is one to which
   the first leads too.
   */
  lemma SharedCompleteExactlyWhen(g: Graph, x: Id, y: Id, a: string, b: string, sa: Select, sb: Select,
                                  labels: map<Id, Select>, path: string)
    requires Shares(g, x, y, a, b) && Consistent(g, true, labels, {x}) && labels[y] == sa
    ensures Complete(g, Fields(map[a := sa, b := sb]), x, path)
            <==> forall w | Walked(g, sb, y, w) :: Walked(g, sa, y, w)
  {
    var sel := Fields(map[a := sa, b := sb]);
    var found := Instances(Visit(g, true, sel, x, path, {}).reports);
    forall w ensures w in found <==> w == x || Walked(g, sa, y, w) {
      FirstDecides(g, x, y, a, b, sa, sb, labels, path, w);
    }
    forall w ensures Walked(g, sel, x, w) <==> w == x || Walked(g, sa, y, w) || Walked(g, sb, y, w) {
      SharedWalk(g, x, y, a, b, sa, sb, w);
    }
    assert Complete(g, sel, x, path) <==> forall w | Walked(g, sel, x, w) :: w in found;
    forall w | Walked(g, sb, y, w) ensures w != x {
      var fields :| Walk(g, true, sb, {}, y, fields, w);
      NeverBack(g, x, y, a, b, fields);
    }
  }

  // ---------------------------------------------------------------- which dicts may share

  function Link(a: string, b: string, p: seq<string>, i: nat): seq<(string, Option<Id>)> {
    if i == 0 then [(a, Some(1)), (b, Some(1))] else if i <= |p| then [(p[i - 1], Some(i + 1))] else []
  }

  /** An instance 1 joined twice to 0, and below it one instance for each field of a path. */
  function Chain(a: string, b: string, p: seq<string>): (g: Graph) {
    map i: nat | i <= |p| + 1 :: Link(a, b, p, i)
  }

  lemma ChainIsTree(a: string, b: string, p: seq<string>)
    requires a != b
    ensures Shares(Chain(a, b, p), 0, 1, a, b) && TreeBelow(Chain(a, b, p), 0, 1)
  {
    var g := Chain(a, b, p);
    forall z, f, w | Leads(g, z, f, w) ensures if z == 0 then w == 1 else w == z + 1 && f == p[z - 1] {
    }
  }

  lemma {:induction false} ChainWalk(a: string, b: string, p: seq<string>, i: nat)
    requires i <= |p|
    ensures LeadsAlong(Chain(a, b, p), {}, i + 1, p[i..], |p| + 1)
    decreases |p| - i
  {
    if i < |p| {
      var g := Chain(a, b, p);
      ChainWalk(a, b, p, i + 1);
      assert p[i..][0] == p[i] && p[i..][1..] == p[i + 1..];
      assert Leads(g, i + 1, p[i..][0], i + 2) && LeadsAlong(g, {}, i + 2, p[i..][1..], |p| + 1);
    }
  }

  lemma CoveredIsComplete(g: Graph, x: Id, y: Id, a: string, b: string, sa: Select, sb: Select, path: string)
    requires Covers(sa, sb) && Shares(g, x, y, a, b) && TreeBelow(g, x, y)
    ensures Complete(g, Fields(map[a := sa, b := sb]), x, path)
  {
    var labels := TreeLabels(g, x, y, a, b, sa);
    SharedCompleteExactlyWhen(g, x, y, a, b, sa, sb, labels, path);
    forall w | Walked(g, sb, y, w) ensures Walked(g, sa, y, w) {
      var fields :| Walk(g, true, sb, {}, y, fields, w);
      CoveredPath(sa, sb, fields);
      assert Walk(g, true, sa, {}, y, fields, w);
    }
  }

  lemma UncoveredIsMissed(a: string, b: string, sa: Select, sb: Select, path: string) returns (g: Graph)
    requires a != b && !Covers(sa, sb)
    ensures Shares(g, 0, 1, a, b) && TreeBelow(g, 0, 1)
    ensures !Complete(g, Fields(map[a := sa, b := sb]), 0, path)
  {
    var p := UncoveredPath(sa, sb);
    g := Chain(a, b, p);
    ChainIsTree(a, b, p);
    var labels := TreeLabels(g, 0, 1, a, b, sa);
    SharedCompleteExactlyWhen(g, 0, 1, a, b, sa, sb, labels, path);
    var w := |p| + 1;
    assert p[0..] == p;
    ChainWalk(a, b, p, 0);
    assert Walk(g, true, sb, {}, 1, p, w) && Walked(g, sb, 1, w);
    if Walked(g, sa, 1, w) {
      var q :| Walk(g, true, sa, {}, 1, q, w);
      OnePath(g, 0, 1, a, b, p, q, w);
      assert false;
    }
  }

  /**
   Two relations of a dict may share an instance, whatever tree of instances is cached below it, exactly
   when the first covers the second: what the second names is named by the first, at every depth.
   */
  lemma SharingIsSafeExactlyWhen(a: string, b: string, sa: Select, sb: Select, path: string)
    requires a != b
    ensures (forall g: Graph, x: Id, y: Id | Shares(g, x, y, a, b) && TreeBelow(g, x, y) ::
               Complete(g, Fields(map[a := sa, b := sb]), x, path))
            <==> Covers(sa, sb)
  {
    if Covers(sa, sb) {
      forall g: Graph, x: Id, y: Id | Shares(g, x, y, a, b) && TreeBelow(g, x, y)
        ensures Complete(g, Fields(map[a := sa, b := sb]), x, path)
      {
        CoveredIsComplete(g, x, y, a, b, sa, sb, path);
      }
    } else {
      var g := UncoveredIsMissed(a, b, sa, sb, path);
    }
  }

  lemma JoinedOne(f: string, y: Id, sel: Select)
    ensures Joined([(f, Some(y))], true, sel) == if Selects(sel, f) then [(f, y)] else []
  {
    assert [(f, Some(y))][..0] == [];
  }

  lemma JoinedTwo(a: string, b: string, y: Id, z: Id, sel: Select)
    requires Selects(sel, a) && Selects(sel, b)
    ensures Joined([(a, Some(y)), (b, Some(z))], true, sel) == [(a, y), (b, z)]
  {
    var cache := [(a, Some(y)), (b, Some(z))];
    assert cache[..1] == [(a, Some(y))];
    JoinedOne(a, y, sel);
  }

  /** An instance 1 joined twice to 0, and 2 joined to it. */
  const DIAMOND: Graph := map[0 := [("a", Some(1)), ("b", Some(1))], 1 := [("c", Some(2))], 2 := []]

  const WITH_C := Fields(map["c" := Fields(map[])])

  const DICT := Fields(map["a" := Fields(map[]), "b" := WITH_C])

  lemma DiamondJoins()
    ensures WellFormed(DIAMOND)
    ensures Joined(DIAMOND[0], true, DICT) == [("a", 1), ("b", 1)]
    ensures Joined(DIAMOND[1], true, Fields(map[])) == []
    ensures Joined(DIAMOND[1], true, WITH_C) == [("c", 2)]
  {
    JoinedTwo("a", "b", 1, 1, DICT);
    JoinedOne("c", 2, Fields(map[]));
    JoinedOne("c", 2, WITH_C);
  }

  lemma FirstJoinWins(path: string, seen: set<Id>)
    requires 0 in seen && 1 !in seen && WellFormed(DIAMOND)
    ensures VisitAll(DIAMOND, true, DICT, [("a", 1), ("b", 1)], path, seen).reports == [Report(1, Extend(path, "a"))]
  {
    DiamondJoins();
    var joined: seq<(string, Id)> := [("a", 1), ("b", 1)];
    assert VisitAll(DIAMOND, true, Fields(map[]), [], Extend(path, "a"), seen + {1}) == Trace(seen + {1}, []);
    var t := Visit(DIAMOND, true, Fields(map[]), 1, Extend(path, "a"), seen);
    assert t == Trace(seen + {1}, [Report(1, Extend(path, "a"))]);
    VisitAllUnfold(DIAMOND, true, DICT, joined, 1, path, t.seen, []);
    assert joined[2..] == [];
    VisitAllUnfold(DIAMOND, true, DICT, joined, 0, path, seen, []);
    assert joined[0..] == joined;
  }

  lemma DiamondWalk()
    ensures Walk(DIAMOND, true, DICT, {}, 0, ["b", "c"], 2)
  {
    DiamondJoins();
    var fields := ["b", "c"];
    assert fields[1..] == ["c"] && fields[1..][1..] == [];
    assert ("c", 2) in Joined(DIAMOND[1], true, WITH_C) && ("b", 1) in Joined(DIAMOND[0], true, DICT);
    var rest := fields[1..];
    assert rest[0] == "c" && Walk(DIAMOND, true, Below(WITH_C, "c"), {}, 2, rest[1..], 2);
    assert Walk(DIAMOND, true, WITH_C, {}, 1, fields[1..], 2);
  }

  /**
   With a dict the walk can miss an instance: one that is joined twice is entered through the first
   relation only, with what the dict names below that one. Django builds one object per selected
   relation; the same one stands under two when a cache was filled in another way, as through a reverse
   relation or by code that assigns instances to relations.
   */
  lemma DictCanMiss(path: string)
    ensures WellFormed(DIAMOND) && Walk(DIAMOND, true, DICT, {}, 0, ["b", "c"], 2)
    ensures 2 !in Instances(Visit(DIAMOND, true, DICT, 0, path, {}).reports)
  {
    DiamondJoins();
    DiamondWalk();
    FirstJoinWins(path, {} + {0});
  }
}
