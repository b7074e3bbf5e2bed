/**
 The worklist of integrations/qorme-django/src/qorme_django/domains/ml/prefetch_relations.py.

 What the models predict for a query is a finite tree: a node without a prediction (there is no
 model, or it does not know the sample), or one whose prediction names relations, each leading to a
 related model. Field names obey Django's rules, which is what makes a path readable.
 */
module PrefetchWorklist {
  import opened Basics
  import opened RelationPaths

  datatype Node = NoPrediction | Prediction(branches: seq<Branch>)

  datatype Branch = Branch(field: string, child: Node)

  // ---------------------------------------------------------------- the tree

  predicate WellFormed(t: Node)
    decreases t
  {
    t.Prediction? ==>
      && (forall i :: 0 <= i < |t.branches| ==> Name(t.branches[i].field) && WellFormed(t.branches[i].child))
      && (forall i, j :: 0 <= i < j < |t.branches| ==> t.branches[i].field != t.branches[j].field)
  }

  /** n is the node at path x below t. */
  ghost predicate Occurs(t: Node, x: Path, n: Node)
    decreases t
  {
    if x == [] then n == t
    else t.Prediction? && exists i :: 0 <= i < |t.branches| && t.branches[i].field == x[0]
                                      && Occurs(t.branches[i].child, x[1..], n)
  }

  /** x leads to a node without, or with, a prediction. */
  ghost predicate Unpredicted(t: Node, x: Path) { exists n :: Occurs(t, x, n) && n.NoPrediction? }

  ghost predicate Predicted(t: Node, x: Path) { exists n :: Occurs(t, x, n) && n.Prediction? }

  // ---------------------------------------------------------------- the worklist, any order

  datatype Work = Work(path: Path, node: Node)

  datatype State = State(queue: seq<Work>, prefetch: set<Path>, predicted: set<Path>)

  function Children(w: Work): seq<Work>
    requires w.node.Prediction?
  {
    var bs := w.node.branches;
    seq(|bs|, i requires 0 <= i < |bs| => Work(w.path + [bs[i].field], bs[i].child))
  }

  function Paths(q: seq<Work>): set<Path> { set w | w in q :: w.path }

  /** The work left when entry k is popped. */
  function Rest(q: seq<Work>, k: nat): seq<Work>
    requires k < |q|
  {
    q[..k] + q[k + 1..]
  }

  /** One turn of the loop when it pops entry k. */
  function Pop(s: State, k: nat): State
    requires k < |s.queue|
  {
    var w, rest := s.queue[k], Rest(s.queue, k);
    if w.node.NoPrediction? then s.(queue := rest)
    else
      var cs := Children(w);
      State(rest + cs, s.prefetch - {w.path} + Paths(cs), s.predicted + {w.path})
  }

  /** Node n stands at path x, at or below this piece of work. */
  ghost predicate At(w: Work, x: Path, n: Node) { w.path <= x && Occurs(w.node, x[|w.path|..], n) }

  ghost predicate Pending(q: seq<Work>, x: Path, n: Node) { exists w :: w in q && At(w, x, n) }

  ghost predicate Waits(q: seq<Work>, x: Path) { exists w :: w in q && w.path == x }

  /** x ends up in the prefetch set, or among the predicted paths, once the pending work is done. */
  ghost predicate WillPrefetch(s: State, x: Path) {
    (x in s.prefetch && !Waits(s.queue, x)) || exists n :: Pending(s.queue, x, n) && n.NoPrediction?
  }

  ghost predicate WillPredict(s: State, x: Path) {
    x in s.predicted || exists n :: Pending(s.queue, x, n) && n.Prediction?
  }

  predicate Incomparable(x: Path, y: Path) { !(x <= y) && !(y <= x) }

  /** Pending paths and prefetched ones never lie on one another. */
  ghost predicate Inv(s: State) {
    && (forall w :: w in s.queue ==> WellFormed(w.node) && Names(w.path) && (w.path == [] || w.path in s.prefetch))
    && (forall i, j :: 0 <= i < j < |s.queue| ==> Incomparable(s.queue[i].path, s.queue[j].path))
    && (forall x, y :: x in s.prefetch && y in s.prefetch && x != y ==> Incomparable(x, y))
    && (forall w, x :: w in s.queue && x in s.prefetch && w.path != x ==> Incomparable(w.path, x))
    && (forall x :: x in s.prefetch ==> x != [] && Names(x))
    && (forall w, x :: w in s.queue && x in s.predicted ==> !(w.path <= x))
    && (forall y, x :: y in s.prefetch && x in s.predicted ==> !(y <= x))
    && (forall x :: x in s.predicted ==> Names(x))
  }

  lemma RestApart(s: State, k: nat)
    requires Inv(s) && k < |s.queue|
    ensures forall w :: w in Rest(s.queue, k) ==> w in s.queue && Incomparable(w.path, s.queue[k].path)
    ensures forall i, j :: 0 <= i < j < |Rest(s.queue, k)|
                           ==> Incomparable(Rest(s.queue, k)[i].path, Rest(s.queue, k)[j].path)
  {
  }

  lemma ChildIn(w: Work, c: Work) returns (i: nat)
    requires w.node.Prediction? && c in Children(w)
    ensures i < |w.node.branches| && c == Work(w.path + [w.node.branches[i].field], w.node.branches[i].child)
    ensures w.path <= c.path && |c.path| == |w.path| + 1
  {
    i :| 0 <= i < |Children(w)| && Children(w)[i] == c;
  }

  lemma ChildrenFine(w: Work)
    requires w.node.Prediction? && WellFormed(w.node) && Names(w.path)
    ensures forall c :: c in Children(w) ==> WellFormed(c.node) && Names(c.path) && c.path != []
    ensures forall i, j :: 0 <= i < j < |Children(w)| ==> Incomparable(Children(w)[i].path, Children(w)[j].path)
  {
    forall i, j | 0 <= i < j < |Children(w)| ensures Incomparable(Children(w)[i].path, Children(w)[j].path) {
      assert Children(w)[i].path[|w.path|] != Children(w)[j].path[|w.path|];
    }
  }

  /** What lies apart from a path lies apart from its extensions. */
  lemma ApartBelow(x: Path, y: Path, below: Path)
    requires Incomparable(x, y) && y <= below && |below| == |y| + 1
    ensures Incomparable(x, below)
  {
  }

  lemma PopKeepsQueue(s: State, k: nat)
    requires Inv(s) && k < |s.queue| && s.queue[k].node.Prediction?
    ensures var q := Pop(s, k).queue; forall i, j :: 0 <= i < j < |q| ==> Incomparable(q[i].path, q[j].path)
  {
    var w, rest := s.queue[k], Rest(s.queue, k);
    var cs := Children(w);
    RestApart(s, k);
    ChildrenFine(w);
    forall i, j | 0 <= i < |rest| && 0 <= j < |cs| ensures Incomparable(rest[i].path, cs[j].path) {
      assert rest[i] in rest;
      ApartBelow(rest[i].path, w.path, cs[j].path);
    }
  }

  lemma PrefetchedAfter(s: State, k: nat, x: Path)
    requires Inv(s) && k < |s.queue| && s.queue[k].node.Prediction? && x in Pop(s, k).prefetch
    ensures x != [] && Names(x)
    ensures (exists c :: c in Children(s.queue[k]) && c.path == x)
            || (x in s.prefetch && Incomparable(x, s.queue[k].path))
    ensures (exists c :: c in Children(s.queue[k]) && c.path == x) ==>
              s.queue[k].path <= x && |x| == |s.queue[k].path| + 1
  {
    var w := s.queue[k];
    ChildrenFine(w);
    forall c | c in Children(w) && c.path == x ensures w.path <= x && |x| == |w.path| + 1 {
      var _ := ChildIn(w, c);
    }
  }

  lemma PopKeepsPrefetch(s: State, k: nat, x: Path, y: Path)
    requires Inv(s) && k < |s.queue| && s.queue[k].node.Prediction?
    requires x in Pop(s, k).prefetch && y in Pop(s, k).prefetch && x != y
    ensures Incomparable(x, y)
  {
    var p := s.queue[k].path;
    PrefetchedAfter(s, k, x);
    PrefetchedAfter(s, k, y);
    if Incomparable(x, p) && !Incomparable(y, p) {
      ApartBelow(x, p, y);
    } else if Incomparable(y, p) && !Incomparable(x, p) {
      ApartBelow(y, p, x);
    }
  }

  lemma PopKeepsCross(s: State, k: nat, w: Work, x: Path)
    requires Inv(s) && k < |s.queue| && s.queue[k].node.Prediction?
    requires w in Pop(s, k).queue && x in Pop(s, k).prefetch && w.path != x
    ensures Incomparable(w.path, x)
  {
    var v := s.queue[k];
    RestApart(s, k);
    if w in Children(v) {
      assert w.path in Pop(s, k).prefetch;
      PopKeepsPrefetch(s, k, w.path, x);
    } else {
      PrefetchedAfter(s, k, x);
      if !Incomparable(x, v.path) { ApartBelow(w.path, v.path, x); }
    }
  }

  lemma PopKeepsPredicted(s: State, k: nat, x: Path)
    requires Inv(s) && k < |s.queue| && s.queue[k].node.Prediction? && x in Pop(s, k).predicted
    ensures Names(x)
    ensures forall w :: w in Pop(s, k).queue ==> !(w.path <= x)
    ensures forall y :: y in Pop(s, k).prefetch ==> !(y <= x)
  {
    var v := s.queue[k];
    RestApart(s, k);
    forall c | c in Children(v) ensures !(c.path <= x) {
      var _ := ChildIn(v, c);
      assert c.path <= x ==> v.path <= x;
    }
  }

  /** Whatever entry is popped. */
  lemma PopKeepsInv(s: State, k: nat)
    requires Inv(s) && k < |s.queue|
    ensures Inv(Pop(s, k))
  {
    var w := s.queue[k];
    RestApart(s, k);
    if w.node.Prediction? {
      ChildrenFine(w);
      PopKeepsQueue(s, k);
      forall v | v in Pop(s, k).queue
        ensures WellFormed(v.node) && Names(v.path) && (v.path == [] || v.path in Pop(s, k).prefetch)
      {
      }
      forall x, y | x in Pop(s, k).prefetch && y in Pop(s, k).prefetch && x != y ensures Incomparable(x, y) {
        PopKeepsPrefetch(s, k, x, y);
      }
      forall v, x | v in Pop(s, k).queue && x in Pop(s, k).prefetch && v.path != x ensures Incomparable(v.path, x) {
        PopKeepsCross(s, k, v, x);
      }
      forall x | x in Pop(s, k).prefetch ensures x != [] && Names(x) { PrefetchedAfter(s, k, x); }
      forall x | x in Pop(s, k).predicted
        ensures Names(x) && (forall v :: v in Pop(s, k).queue ==> !(v.path <= x))
        ensures forall y :: y in Pop(s, k).prefetch ==> !(y <= x)
      {
        PopKeepsPredicted(s, k, x);
      }
    }
  }

  // ---------------------------------------------------------------- nothing is forgotten

  lemma AtChildren(w: Work, x: Path, n: Node)
    requires w.node.Prediction?
    ensures At(w, x, n) <==> (x == w.path && n == w.node) || Pending(Children(w), x, n)
  {
    var bs := w.node.branches;
    if At(w, x, n) && x != w.path {
      var y := x[|w.path|..];
      var i :| 0 <= i < |bs| && bs[i].field == y[0] && Occurs(bs[i].child, y[1..], n);
      var c := Children(w)[i];
      assert c in Children(w) && x[|c.path|..] == y[1..];
      assert At(c, x, n);
    }
    if Pending(Children(w), x, n) {
      var c :| c in Children(w) && At(c, x, n);
      var i := ChildIn(w, c);
      var y := x[|w.path|..];
      assert y[0] == bs[i].field && y[1..] == x[|c.path|..];
      assert w.path <= x;
    }
  }

  lemma PopKeepsPending(s: State, k: nat, x: Path, n: Node)
    requires Inv(s) && k < |s.queue|
    ensures var w := s.queue[k];
            Pending(s.queue, x, n) <==> (x == w.path && n == w.node) || Pending(Pop(s, k).queue, x, n)
  {
    var w, rest := s.queue[k], Rest(s.queue, k);
    assert s.queue == s.queue[..k] + [w] + s.queue[k + 1..];
    if w.node.Prediction? {
      AtChildren(w, x, n);
    } else {
      assert At(w, x, n) <==> x == w.path && n == w.node;
    }
    assert Pending(s.queue, x, n) <==> At(w, x, n) || Pending(rest, x, n);
  }

  /** A turn of the loop changes neither what will be prefetched nor what will be predicted. */
  lemma PopKeepsResult(s: State, k: nat, x: Path)
    requires Inv(s) && k < |s.queue|
    ensures x != [] ==> (WillPrefetch(s, x) <==> WillPrefetch(Pop(s, k), x))
    ensures WillPredict(s, x) <==> WillPredict(Pop(s, k), x)
  {
    var w := s.queue[k];
    forall n ensures Pending(s.queue, x, n) <==> (x == w.path && n == w.node) || Pending(Pop(s, k).queue, x, n) {
      PopKeepsPending(s, k, x, n);
    }
  }

  // ---------------------------------------------------------------- termination

  function Size(t: Node): nat
    decreases t
  {
    if t.NoPrediction? then 1 else 1 + SizeAll(t.branches)
  }

  function SizeAll(bs: seq<Branch>): nat
    decreases bs
  {
    if bs == [] then 0 else SizeAll(bs[..|bs| - 1]) + Size(bs[|bs| - 1].child)
  }

  /** The nodes still to be looked at. */
  function Load(q: seq<Work>): nat {
    if q == [] then 0 else Load(q[..|q| - 1]) + Size(q[|q| - 1].node)
  }

  lemma {:induction false} LoadConcat(q: seq<Work>, r: seq<Work>)
    ensures Load(q + r) == Load(q) + Load(r)
  {
    if r == [] {
      assert q + r == q;
    } else {
      assert (q + r)[..|q + r| - 1] == q + r[..|r| - 1];
      LoadConcat(q, r[..|r| - 1]);
    }
  }

  lemma {:induction false} LoadChildren(path: Path, bs: seq<Branch>)
    ensures Load(Children(Work(path, Prediction(bs)))) == SizeAll(bs)
    decreases |bs|
  {
    var cs := Children(Work(path, Prediction(bs)));
    if bs != [] {
      var init := bs[..|bs| - 1];
      LoadChildren(path, init);
      assert cs[..|bs| - 1] == Children(Work(path, Prediction(init)));
    }
  }

  /** Each turn disposes of one node, so on a finite tree the loop ends. */
  lemma PopLoad(s: State, k: nat)
    requires k < |s.queue|
    ensures Load(s.queue) == Load(Pop(s, k).queue) + 1
  {
    var w, rest := s.queue[k], Rest(s.queue, k);
    assert s.queue == s.queue[..k] + ([w] + s.queue[k + 1..]);
    LoadConcat(s.queue[..k], [w] + s.queue[k + 1..]);
    LoadConcat([w], s.queue[k + 1..]);
    LoadConcat(s.queue[..k], s.queue[k + 1..]);
    assert Load([w]) == Size(w.node) by { assert [w][..0] == []; }
    if w.node.Prediction? {
      LoadConcat(rest, Children(w));
      LoadChildren(w.path, w.node.branches);
    }
  }

  // ---------------------------------------------------------------- any order of popping

  function Start(root: Node): State { State([Work([], root)], {}, {}) }

  /** The loop gets from s to end by popping these entries one after another. */
  ghost predicate Runs(s: State, picks: seq<nat>, end: State)
    decreases |picks|
  {
    if picks == [] then s == end else picks[0] < |s.queue| && Runs(Pop(s, picks[0]), picks[1..], end)
  }

  /** What is done and pending amounts to the recursion over the tree. */
  ghost predicate Agrees(s: State, root: Node) {
    && (forall x :: x != [] ==> (WillPrefetch(s, x) <==> Unpredicted(root, x)))
    && (forall x :: WillPredict(s, x) <==> Predicted(root, x))
  }

  lemma StartAgrees(root: Node)
    requires WellFormed(root)
    ensures Inv(Start(root)) && Agrees(Start(root), root) && Load(Start(root).queue) == Size(root)
  {
    var s := Start(root);
    assert s.queue[..0] == [];
    forall x, n ensures Pending(s.queue, x, n) <==> Occurs(root, x, n) {
      assert x[0..] == x;
      assert Pending(s.queue, x, n) <==> At(Work([], root), x, n) by { assert Work([], root) in s.queue; }
    }
  }

  /** Any entry may be popped. */
  lemma PopAgrees(s: State, k: nat, root: Node)
    requires Inv(s) && Agrees(s, root) && k < |s.queue|
    ensures Inv(Pop(s, k)) && Agrees(Pop(s, k), root) && Load(s.queue) == Load(Pop(s, k).queue) + 1
  {
    PopKeepsInv(s, k);
    PopLoad(s, k);
    forall x
      ensures x != [] ==> (WillPrefetch(s, x) <==> WillPrefetch(Pop(s, k), x))
      ensures WillPredict(s, x) <==> WillPredict(Pop(s, k), x)
    {
      PopKeepsResult(s, k, x);
    }
  }

  lemma {:induction false} RunAgrees(s: State, picks: seq<nat>, end: State, root: Node)
    requires Inv(s) && Agrees(s, root) && Runs(s, picks, end)
    ensures Inv(end) && Agrees(end, root) && Load(s.queue) == Load(end.queue) + |picks|
    decreases |picks|
  {
    if picks != [] {
      PopAgrees(s, picks[0], root);
      RunAgrees(Pop(s, picks[0]), picks[1..], end, root);
    }
  }

  /** The paths the recursion over the tree would choose. */
  ghost predicate Chosen(root: Node, prefetch: set<Path>, predicted: set<Path>) {
    && (forall x :: x in prefetch <==> x != [] && Unpredicted(root, x))
    && (forall x :: x in predicted <==> Predicted(root, x))
  }

  lemma FinishedIsChosen(s: State, root: Node)
    requires Inv(s) && Agrees(s, root) && s.queue == []
    ensures Chosen(root, s.prefetch, s.predicted)
  {
    forall x
      ensures x in s.prefetch <==> x != [] && Unpredicted(root, x)
      ensures x in s.predicted <==> Predicted(root, x)
    {
      assert WillPrefetch(s, x) <==> x in s.prefetch;
      assert WillPredict(s, x) <==> x in s.predicted;
    }
  }

  /**
   Worklist equals recursion: however entries are popped until none is left, every node is popped
   once, the prefetch set holds exactly the non-root nodes without a prediction, and no member of
   it lies on another.
   */
  lemma AnyOrder(root: Node, picks: seq<nat>, end: State)
    requires WellFormed(root) && Runs(Start(root), picks, end) && end.queue == []
    ensures Chosen(root, end.prefetch, end.predicted) && |picks| == Size(root)
    ensures forall x, y :: x in end.prefetch && y in end.prefetch && x != y ==> Incomparable(x, y)
  {
    StartAgrees(root);
    RunAgrees(Start(root), picks, end, root);
    FinishedIsChosen(end, root);
  }

  // ---------------------------------------------------------------- prefetching covers the predictions

  /** Every prediction names a field. */
  predicate NamesFields(t: Node)
    decreases t
  {
    t.Prediction? ==> t.branches != [] && forall i :: 0 <= i < |t.branches| ==> NamesFields(t.branches[i].child)
  }

  lemma {:induction false} Covered(t: Node, x: Path) returns (y: Path)
    requires NamesFields(t) && Predicted(t, x)
    ensures x < y && Unpredicted(t, y)
    decreases t, |x|
  {
    var n :| Occurs(t, x, n) && n.Prediction?;
    if x == [] {
      var b := t.branches[0];
      if b.child.NoPrediction? {
        y := [b.field];
        assert Occurs(b.child, y[1..], b.child);
        assert Occurs(t, y, b.child);
      } else {
        assert Occurs(b.child, [], b.child);
        var z := Covered(b.child, []);
        y := Below(t, 0, z);
      }
    } else {
      var i :| 0 <= i < |t.branches| && t.branches[i].field == x[0] && Occurs(t.branches[i].child, x[1..], n);
      var z := Covered(t.branches[i].child, x[1..]);
      y := Below(t, i, z);
      assert x == [x[0]] + x[1..];
    }
  }

  lemma Below(t: Node, i: nat, z: Path) returns (y: Path)
    requires t.Prediction? && i < |t.branches| && Unpredicted(t.branches[i].child, z)
    ensures y == [t.branches[i].field] + z && Unpredicted(t, y)
  {
    var n :| Occurs(t.branches[i].child, z, n) && n.NoPrediction?;
    y := [t.branches[i].field] + z;
    assert y[1..] == z;
    assert Occurs(t, y, n);
  }

  lemma {:induction false} Uncovered(t: Node) returns (x: Path)
    requires WellFormed(t) && !NamesFields(t)
    ensures Predicted(t, x) && forall y :: x < y ==> !Unpredicted(t, y)
    decreases t
  {
    if t.branches == [] {
      x := [];
      assert Occurs(t, x, t);
    } else {
      var i :| 0 <= i < |t.branches| && !NamesFields(t.branches[i].child);
      var z := Uncovered(t.branches[i].child);
      x := UncoveredAbove(t, i, z);
    }
  }

  lemma UncoveredAbove(t: Node, i: nat, z: Path) returns (x: Path)
    requires WellFormed(t) && t.Prediction? && i < |t.branches|
    requires Predicted(t.branches[i].child, z) && forall y :: z < y ==> !Unpredicted(t.branches[i].child, y)
    ensures Predicted(t, x) && forall y :: x < y ==> !Unpredicted(t, y)
  {
    var f, child := t.branches[i].field, t.branches[i].child;
    x := [f] + z;
    assert x[1..] == z;
    var n :| Occurs(child, z, n) && n.Prediction?;
    assert Occurs(t, x, n);
    forall y, m | x < y && Occurs(t, y, m) ensures m.Prediction? {
      assert x[0] == y[0] && z < y[1..];
      assert !Unpredicted(child, y[1..]);
    }
  }

  ghost predicate Covers(prefetch: set<Path>, x: Path) { exists y :: y in prefetch && x < y }

  /** Every predicted path is a proper prefix of a prefetched one exactly when no prediction is empty. */
  lemma PredictedAreCovered(root: Node, prefetch: set<Path>, predicted: set<Path>)
    requires WellFormed(root) && Chosen(root, prefetch, predicted)
    ensures (forall x :: x in predicted ==> Covers(prefetch, x)) <==> NamesFields(root)
  {
    if NamesFields(root) {
      forall x | x in predicted ensures Covers(prefetch, x) {
        var y := Covered(root, x);
      }
    } else {
      var x := Uncovered(root);
      assert x in predicted && !Covers(prefetch, x);
    }
  }

  // ---------------------------------------------------------------- the loop itself

  /** The predicting nodes, depth first, the last field of a prediction before the others. */
  function Deep(path: Path, t: Node): seq<Path>
    decreases t
  {
    if t.NoPrediction? then [] else [path] + DeepBranches(path, t.branches)
  }

  function DeepBranches(path: Path, bs: seq<Branch>): seq<Path>
    decreases bs
  {
    if bs == [] then []
    else
      var b := bs[|bs| - 1];
      Deep(path + [b.field], b.child) + DeepBranches(path, bs[..|bs| - 1])
  }

  function DeepWork(q: seq<Work>): seq<Path> {
    if q == [] then [] else Deep(q[|q| - 1].path, q[|q| - 1].node) + DeepWork(q[..|q| - 1])
  }

  lemma {:induction false} DeepConcat(q: seq<Work>, r: seq<Work>)
    ensures DeepWork(q + r) == DeepWork(r) + DeepWork(q)
  {
    if r == [] {
      assert q + r == q;
    } else {
      assert (q + r)[..|q + r| - 1] == q + r[..|r| - 1];
      DeepConcat(q, r[..|r| - 1]);
    }
  }

  lemma {:induction false} DeepChildren(path: Path, bs: seq<Branch>)
    ensures DeepWork(Children(Work(path, Prediction(bs)))) == DeepBranches(path, bs)
    decreases |bs|
  {
    var cs := Children(Work(path, Prediction(bs)));
    if bs != [] {
      var init := bs[..|bs| - 1];
      DeepChildren(path, init);
      assert cs[..|bs| - 1] == Children(Work(path, Prediction(init)));
    }
  }

  ghost predicate Lists(visited: seq<Path>, paths: set<Path>) {
    && (forall x :: x in visited <==> x in paths)
    && (forall i, j :: 0 <= i < j < |visited| ==> visited[i] != visited[j])
  }

  /** The predicted paths, in the order of their predictions, with those still to come, are the tree's. */
  ghost predicate Visiting(visited: seq<Path>, s: State, root: Node) {
    Lists(visited, s.predicted) && visited + DeepWork(s.queue) == Deep([], root)
  }

  /** The state after popping the last entry, and the path that it adds to the visited ones. */
  function PopLast(s: State): State
    requires s.queue != []
  {
    Pop(s, |s.queue| - 1)
  }

  function LastPath(s: State): seq<Path>
    requires s.queue != []
  {
    var w := s.queue[|s.queue| - 1];
    if w.node.Prediction? then [w.path] else []
  }

  lemma PopDeep(s: State)
    requires s.queue != []
    ensures DeepWork(s.queue) == LastPath(s) + DeepWork(PopLast(s).queue)
  {
    var k := |s.queue| - 1;
    var w := s.queue[k];
    assert Rest(s.queue, k) == s.queue[..k];
    if w.node.Prediction? {
      DeepConcat(s.queue[..k], Children(w));
      DeepChildren(w.path, w.node.branches);
    }
  }

  lemma NotYetPredicted(s: State, w: Work)
    requires Inv(s) && w in s.queue
    ensures w.path !in s.predicted && Names(w.path)
  {
    assert w.path <= w.path;
  }

  lemma ListsAdd(visited: seq<Path>, paths: set<Path>, x: Path)
    requires Lists(visited, paths) && x !in paths
    ensures Lists(visited + [x], paths + {x})
  {
  }

  /** Popping the last entry visits the tree depth first. */
  lemma PopVisits(visited: seq<Path>, s: State, root: Node)
    requires s.queue != [] && s.queue[|s.queue| - 1].path !in s.predicted && Visiting(visited, s, root)
    ensures Visiting(visited + LastPath(s), PopLast(s), root)
  {
    PopDeep(s);
    VisitLast(visited, s);
    Associates(visited, LastPath(s), DeepWork(PopLast(s).queue));
  }

  lemma Associates(a: seq<Path>, b: seq<Path>, c: seq<Path>)
    ensures a + (b + c) == (a + b) + c
  {
  }

  lemma VisitLast(visited: seq<Path>, s: State)
    requires s.queue != [] && s.queue[|s.queue| - 1].path !in s.predicted && Lists(visited, s.predicted)
    ensures Lists(visited + LastPath(s), PopLast(s).predicted)
  {
    var w := s.queue[|s.queue| - 1];
    if w.node.Prediction? {
      ListsAdd(visited, s.predicted, w.path);
    } else {
      assert visited + [] == visited;
    }
  }

  function Spelled(ps: set<Path>): set<string> { set p | p in ps :: Spell(p) }

  function SpellList(ps: seq<Path>, model: string): seq<string> {
    seq(|ps|, i requires 0 <= i < |ps| => BuildRelPath(model, Spell(ps[i])))
  }

  lemma SpelledDrop(ps: set<Path>, x: Path)
    requires Names(x) && forall p :: p in ps ==> Names(p)
    ensures Spelled(ps - {x}) == Spelled(ps) - {Spell(x)}
  {
    forall p | p in ps && Spell(p) == Spell(x) ensures p == x { SpellInjective(p, x); }
  }

  lemma SpellStep(p: Path, field: string)
    ensures Spell(p + [field]) == BuildRelPath(Spell(p), field)
  {
    assert (p + [field])[..|p|] == p;
  }

  ghost predicate Spells(queue: seq<(string, Node)>, q: seq<Work>) {
    |queue| == |q| && forall i :: 0 <= i < |q| ==> queue[i] == (Spell(q[i].path), q[i].node)
  }

  lemma SpelledAdd(ps: set<Path>, x: Path)
    ensures Spelled(ps + {x}) == Spelled(ps) + {Spell(x)}
  {
  }

  lemma SpelledIn(ps: set<Path>, x: Path)
    requires Names(x) && forall p :: p in ps ==> Names(p)
    ensures Spell(x) in Spelled(ps) <==> x in ps
  {
    forall p | p in ps && Spell(p) == Spell(x) ensures p == x { SpellInjective(p, x); }
  }

  /** A turn of the loop, which pops the last entry. */
  lemma LastPopped(s: State, visited: seq<Path>, root: Node)
    requires s.queue != [] && Inv(s) && Agrees(s, root) && Visiting(visited, s, root)
    ensures var s' := PopLast(s);
            && Inv(s') && Agrees(s', root) && Visiting(visited + LastPath(s), s', root)
            && Load(s'.queue) < Load(s.queue)
    ensures var x := s.queue[|s.queue| - 1].path; Spelled(s.prefetch - {x}) == Spelled(s.prefetch) - {Spell(x)}
  {
    var w := s.queue[|s.queue| - 1];
    assert w in s.queue;
    PopAgrees(s, |s.queue| - 1, root);
    NotYetPredicted(s, w);
    PopVisits(visited, s, root);
    SpelledDrop(s.prefetch, w.path);
  }

  lemma Finished(s: State, visited: seq<Path>, root: Node)
    requires Inv(s) && Agrees(s, root) && Visiting(visited, s, root) && s.queue == []
    ensures Chosen(root, s.prefetch, s.predicted) && visited == Deep([], root) && Lists(visited, s.predicted)
    ensures forall x :: Names(x) ==> (Spell(x) in Spelled(s.prefetch) <==> x in s.prefetch)
    ensures forall x, y :: x in s.prefetch && y in s.prefetch && x != y ==> Incomparable(x, y)
  {
    FinishedIsChosen(s, root);
    assert visited + DeepWork(s.queue) == visited;
    forall x | Names(x) ensures Spell(x) in Spelled(s.prefetch) <==> x in s.prefetch { SpelledIn(s.prefetch, x); }
  }

  lemma SpelledAreJoined(ps: set<Path>)
    requires forall p :: p in ps ==> Names(p)
    ensures Spelled(ps) == (set p | p in ps :: JoinFields(p))
  {
    forall p | p in ps ensures Spell(p) == JoinFields(p) { SpellIsJoined(p); }
  }

  lemma ListsJoined(ps: seq<Path>, model: string)
    requires forall p :: p in ps ==> Names(p)
    ensures forall i :: 0 <= i < |ps| ==>
              SpellList(ps, model)[i] == if model == "" then JoinFields(ps[i]) else model + Suffix(ps[i])
  {
    forall i | 0 <= i < |ps|
      ensures SpellList(ps, model)[i] == if model == "" then JoinFields(ps[i]) else model + Suffix(ps[i])
    {
      BelowPrefix(model, ps[i]);
    }
  }

  /**
   The loop, on strings. It ends with the spellings of the non-root nodes without a prediction, and
   with the relation path of each predicting node, once, depth first.
   */
  method Collect(root: Node, model: string)
    returns (prefetch: set<string>, predictions: seq<string>, ghost chosen: set<Path>, ghost predicted: set<Path>)
    requires WellFormed(root)
    ensures Chosen(root, chosen, predicted) && prefetch == Spelled(chosen)
    ensures forall x :: Names(x) ==> (Spell(x) in prefetch <==> x in chosen)
    ensures forall x, y :: x in chosen && y in chosen && x != y ==> Incomparable(x, y)
    ensures Lists(Deep([], root), predicted) && predictions == SpellList(Deep([], root), model)
    ensures prefetch == (set x | x in chosen :: JoinFields(x))
    ensures forall i :: 0 <= i < |predictions| ==>
              predictions[i] == if model == "" then JoinFields(Deep([], root)[i])
                                else model + Suffix(Deep([], root)[i])
  {
    ghost var s := Start(root);
    ghost var visited: seq<Path> := [];
    StartAgrees(root);
    assert s.queue[..0] == [];
    var queue: seq<(string, Node)> := [("", root)];
    prefetch, predictions := {}, [];
    while queue != []
      invariant Inv(s) && Agrees(s, root) && Visiting(visited, s, root)
      invariant Spells(queue, s.queue) && prefetch == Spelled(s.prefetch) && predictions == SpellList(visited, model)
      decreases Load(s.queue)
    {
      LastPopped(s, visited, root);
      queue, prefetch, predictions := Turn(queue, prefetch, predictions, model, s, visited);
      visited, s := visited + LastPath(s), PopLast(s);
    }
    Finished(s, visited, root);
    chosen, predicted := s.prefetch, s.predicted;
    SpelledAreJoined(chosen);
    ListsJoined(Deep([], root), model);
  }

  /** The body of the loop. */
  method Turn(queue: seq<(string, Node)>, prefetch: set<string>, predictions: seq<string>, model: string,
              ghost s: State, ghost visited: seq<Path>)
    returns (queue': seq<(string, Node)>, prefetch': set<string>, predictions': seq<string>)
    requires queue != [] && Spells(queue, s.queue) && prefetch == Spelled(s.prefetch)
    requires predictions == SpellList(visited, model)
    requires var x := s.queue[|s.queue| - 1].path; Spelled(s.prefetch - {x}) == Spelled(s.prefetch) - {Spell(x)}
    ensures Spells(queue', PopLast(s).queue) && prefetch' == Spelled(PopLast(s).prefetch)
    ensures predictions' == SpellList(visited + LastPath(s), model)
  {
    ghost var w := s.queue[|s.queue| - 1];
    var (path, node) := queue[|queue| - 1];
    queue', prefetch', predictions' := queue[..|queue| - 1], prefetch, predictions;
    assert Rest(s.queue, |s.queue| - 1) == s.queue[..|queue'|];
    if node.Prediction? {
      prefetch' := prefetch' - {path};
      queue', prefetch' :=
        AddFields(node.branches, path, queue', prefetch', w, s.queue[..|queue'|], s.prefetch - {w.path});
      predictions' := predictions' + [BuildRelPath(model, path)];
    } else {
      assert visited + LastPath(s) == visited;
    }
  }

  lemma SpellsPush(queue: seq<(string, Node)>, q: seq<Work>, c: Work)
    requires Spells(queue, q)
    ensures Spells(queue + [(Spell(c.path), c.node)], q + [c])
  {
  }

  lemma PathsPush(cs: seq<Work>, c: Work)
    ensures Paths(cs + [c]) == Paths(cs) + {c.path}
  {
  }

  /** The first i fields have been added. */
  ghost predicate Added(w: Work, q: seq<Work>, chosen: set<Path>, i: nat, queue: seq<(string, Node)>,
                        prefetch: set<string>)
    requires w.node.Prediction? && i <= |w.node.branches|
  {
    Spells(queue, q + Children(w)[..i]) && prefetch == Spelled(chosen + Paths(Children(w)[..i]))
  }

  lemma NoneAdded(w: Work, q: seq<Work>, chosen: set<Path>)
    requires w.node.Prediction?
    ensures q + Children(w)[..0] == q && chosen + Paths(Children(w)[..0]) == chosen
  {
  }

  lemma OneMoreAdded(w: Work, q: seq<Work>, chosen: set<Path>, i: nat, queue: seq<(string, Node)>,
                     prefetch: set<string>)
    requires w.node.Prediction? && i < |w.node.branches| && Added(w, q, chosen, i, queue, prefetch)
    ensures var relPath := BuildRelPath(Spell(w.path), w.node.branches[i].field);
            Added(w, q, chosen, i + 1, queue + [(relPath, w.node.branches[i].child)], prefetch + {relPath})
  {
    var cs, c := Children(w)[..i], Children(w)[i];
    SpellStep(w.path, w.node.branches[i].field);
    SpellsPush(queue, q + cs, c);
    SpelledAdd(chosen + Paths(cs), c.path);
    PathsPush(cs, c);
    assert Children(w)[..i + 1] == cs + [c] && q + (cs + [c]) == (q + cs) + [c];
    assert chosen + Paths(cs + [c]) == chosen + Paths(cs) + {c.path};
  }

  /** The loop over the predicted fields. */
  method AddFields(branches: seq<Branch>, path: string, queue: seq<(string, Node)>, prefetch: set<string>,
                   ghost w: Work, ghost q: seq<Work>, ghost chosen: set<Path>)
    returns (queue': seq<(string, Node)>, prefetch': set<string>)
    requires w.node == Prediction(branches) && path == Spell(w.path)
    requires Spells(queue, q) && prefetch == Spelled(chosen)
    ensures Spells(queue', q + Children(w)) && prefetch' == Spelled(chosen + Paths(Children(w)))
  {
    queue', prefetch' := queue, prefetch;
    NoneAdded(w, q, chosen);
    for i := 0 to |branches|
      invariant Added(w, q, chosen, i, queue', prefetch')
    {
      OneMoreAdded(w, q, chosen, i, queue', prefetch');
      var relPath := BuildRelPath(path, branches[i].field);
      prefetch' := prefetch' + {relPath};
      queue' := queue' + [(relPath, branches[i].child)];
    }
    assert Children(w)[..|branches|] == Children(w);
  }

  // ---------------------------------------------------------------- optimize

  /** A lookup of the caller: a path, or a Prefetch object. */
  datatype Lookup = Named(path: string) | Custom(id: nat)

  /** _prefetch_related_lookups: a list or tuple, as Django leaves it, or something else, such as optimize's set. */
  datatype Lookups = Listed(items: seq<Lookup>) | Other(members: set<Lookup>)

  lemma NamedAre(prefetch: set<string>, chosen: set<Path>)
    requires prefetch == (set x | x in chosen :: JoinFields(x))
    ensures (set p | p in prefetch :: Named(p)) == (set x | x in chosen :: Named(JoinFields(x)))
  {
  }

  /** The query set and the data of a tracked query. */
  class Query {
    var lookups: Lookups
    var predictions: Option<seq<string>>
    const model: string

    constructor (model: string, items: seq<Lookup>)
      ensures lookups == Listed(items) && predictions == None && this.model == model
    {
      this.lookups, this.predictions, this.model := Listed(items), None, model;
    }

    /**
     Rows of models only, and only with a query set. A query without a path to prefetch is left alone;
     otherwise the chosen paths are joined to the caller's own lookups when those are a list or tuple.
     */
    method Optimize(rowsAreModels: bool, hasQuerySet: bool, root: Node) returns (ghost chosen: set<Path>)
      requires WellFormed(root)
      modifies this
      ensures rowsAreModels && hasQuerySet ==> forall x :: x in chosen <==> x != [] && Unpredicted(root, x)
      ensures if rowsAreModels && hasQuerySet && chosen != {} then
                && lookups == Other((set x | x in chosen :: Named(JoinFields(x)))
                                    + (if old(lookups).Listed? then set l | l in old(lookups).items else {}))
                && predictions == Some(SpellList(Deep([], root), model))
              else lookups == old(lookups) && predictions == old(predictions)
    {
      chosen := {};
      if !rowsAreModels || !hasQuerySet {
        return;
      }
      var prefetch, paths;
      ghost var predicted;
      prefetch, paths, chosen, predicted := Collect(root, model);
      if prefetch == {} {
        assert forall x :: x in chosen ==> Spell(x) in prefetch;
        return;
      }
      var named := set p | p in prefetch :: Named(p);
      NamedAre(prefetch, chosen);
      if lookups.Listed? {
        lookups := Other(named + set l | l in lookups.items);
      } else {
        lookups := Other(named);
      }
      predictions := Some(paths);
    }
  }
}
