/**
 The state machine of MLStore in src/qorme/ml/store.py: the lock-free claim of _mark_connecting, and
 the marks set by close() and by the SSE callbacks.

 The state is a reference to one of four dict objects. A call of _mark_connecting is three separate
 steps, which any other step may separate: the emptiness test, the second read of the state, and the
 setdefault on the object that was read.
 */
module MlClaim {
  import opened Basics
  import opened SseClient

  // ---------------------------------------------------------------- the claim

  /** The dict objects: the store's own first one and the three shared by all stores. */
  datatype Holder = Initial | ConnectedState | DisconnectedState | DeadState

  /** Where a call stands; swapped says that the state was swapped since its emptiness test. */
  datatype Pc = Tested(swapped: bool) | Loaded(holder: Holder, swapped: bool) | Won(holder: Holder) | Returned

  /**
   owners: the call whose object is stored under "connecting" in each holder; starts: the calls that
   started an SSE task, with the holder they claimed; spanned: some claim was made across a swap.
   */
  datatype World = World(current: Holder, owners: map<Holder, nat>, calls: map<nat, Pc>,
                         starts: seq<(nat, Holder)>, spanned: bool)

  const INIT := World(Initial, map[], map[], [], false)

  datatype Action = Test(call: nat) | Load(call: nat) | SetDefault(call: nat) | Start(call: nat)
                  | Swap(to: Holder)

  /** The truth value of the dict: all but an unclaimed initial one hold a key. */
  predicate Nonempty(w: World) {
    w.current != Initial || Initial in w.owners
  }

  function NoteSwap(pc: Pc): Pc {
    match pc
    case Tested(_) => Tested(true)
    case Loaded(h, _) => Loaded(h, true)
    case _ => pc
  }

  /** An action that is not enabled changes nothing. */
  function Next(w: World, a: Action): World {
    match a
    case Test(c) =>
      if c in w.calls then w else w.(calls := w.calls[c := if Nonempty(w) then Returned else Tested(false)])
    case Load(c) =>
      if c in w.calls && w.calls[c].Tested? then
        w.(calls := w.calls[c := Loaded(w.current, w.calls[c].swapped)])
      else w
    case SetDefault(c) =>
      if c in w.calls && w.calls[c].Loaded? then
        var pc := w.calls[c];
        if pc.holder in w.owners then w.(calls := w.calls[c := Returned])
        else w.(calls := w.calls[c := Won(pc.holder)], owners := w.owners[pc.holder := c],
                spanned := w.spanned || pc.swapped)
      else w
    case Start(c) =>
      if c in w.calls && w.calls[c].Won? then
        w.(calls := w.calls[c := Returned], starts := w.starts + [(c, w.calls[c].holder)])
      else w
    case Swap(h) =>
      if h == Initial || h == w.current then w
      else w.(current := h, calls := map c | c in w.calls :: NoteSwap(w.calls[c]))
  }

  function Run(actions: seq<Action>): World {
    if actions == [] then INIT else Next(Run(actions[..|actions| - 1]), actions[|actions| - 1])
  }

  ghost predicate Inv(w: World) {
    && (forall c :: c in w.calls && w.calls[c].Won? ==>
          w.calls[c].holder in w.owners && w.owners[w.calls[c].holder] == c)
    && (forall i :: 0 <= i < |w.starts| ==>
          var (c, h) := w.starts[i];
          h in w.owners && w.owners[h] == c && c in w.calls && w.calls[c].Returned?)
    && (forall i, j :: 0 <= i < j < |w.starts| ==> w.starts[i].1 != w.starts[j].1)
    && (forall c :: c in w.calls && w.calls[c] == Tested(false) ==> w.current == Initial)
    && (forall c :: c in w.calls && w.calls[c].Loaded? && !w.calls[c].swapped ==> w.calls[c].holder == Initial)
    && (!w.spanned ==> forall h :: h in w.owners ==> h == Initial)
  }

  lemma ClaimKeepsInv(w: World, c: nat)
    requires Inv(w)
    ensures Inv(Next(w, SetDefault(c)))
  {
  }

  lemma StartKeepsInv(w: World, c: nat)
    requires Inv(w)
    ensures Inv(Next(w, Start(c)))
  {
    if Next(w, Start(c)) != w {
      forall i | 0 <= i < |w.starts| ensures w.starts[i].1 != w.calls[c].holder {
        assert w.owners[w.starts[i].1] == w.starts[i].0;
      }
    }
  }

  lemma SwapKeepsInv(w: World, h: Holder)
    requires Inv(w)
    ensures Inv(Next(w, Swap(h)))
  {
  }

  lemma InvStep(w: World, a: Action)
    requires Inv(w)
    ensures Inv(Next(w, a))
  {
    match a
    case SetDefault(c) => ClaimKeepsInv(w, c);
    case Start(c) => StartKeepsInv(w, c);
    case Swap(h) => SwapKeepsInv(w, h);
    case Test(_) =>
    case Load(_) =>
  }

  lemma {:induction false} InvRun(actions: seq<Action>)
    ensures Inv(Run(actions))
  {
    if actions != [] {
      InvRun(actions[..|actions| - 1]);
      InvStep(Run(actions[..|actions| - 1]), actions[|actions| - 1]);
    }
  }

  /** In every interleaving each holder yields at most one winner, and so at most one started task. */
  lemma OneWinnerPerHolder(actions: seq<Action>, i: nat, j: nat)
    requires i < j < |Run(actions).starts|
    ensures Run(actions).starts[i].1 != Run(actions).starts[j].1
  {
    InvRun(actions);
  }

  lemma StaysNonempty(w: World, a: Action)
    ensures Nonempty(w) ==> Nonempty(Next(w, a))
  {
  }

  /** In every run the state, once non-empty, is non-empty for good: every later test fails. */
  lemma {:induction false} NeverEmptyAgain(actions: seq<Action>, i: nat, c: nat)
    requires i <= |actions| && (Run(actions[..i]).current != Initial || Initial in Run(actions[..i]).owners)
    ensures Run(actions).current != Initial || Initial in Run(actions).owners
    ensures c !in Run(actions).calls ==> Next(Run(actions), Test(c)).calls[c] == Returned
  {
    if i < |actions| {
      var init := actions[..|actions| - 1];
      assert init[..i] == actions[..i];
      NeverEmptyAgain(init, i, c);
      StaysNonempty(Run(init), actions[|actions| - 1]);
    } else {
      assert actions[..i] == actions;
    }
  }

  /** A call tests for emptiness, and later the state is swapped. */
  ghost predicate TestThenSwap(actions: seq<Action>, c: nat) {
    exists i, j :: 0 <= i < j < |actions| && actions[i] == Test(c) && actions[j].Swap?
  }

  /** And after that the call makes its claim. */
  ghost predicate Spans(actions: seq<Action>, c: nat) {
    exists k :: 0 <= k < |actions| && actions[k] == SetDefault(c) && TestThenSwap(actions[..k], c)
  }

  /** The marks that a call carries tell what the run has done. */
  ghost predicate CallTells(pc: Pc, actions: seq<Action>, c: nat) {
    && (pc.Tested? || pc.Loaded? ==> Test(c) in actions)
    && ((pc.Tested? && pc.swapped) || (pc.Loaded? && pc.swapped) ==> TestThenSwap(actions, c))
  }

  ghost predicate SomeSpans(actions: seq<Action>) { exists c :: Spans(actions, c) }

  ghost predicate MarksTell(w: World, actions: seq<Action>) {
    && (forall c :: c in w.calls ==> CallTells(w.calls[c], actions, c))
    && (w.spanned ==> SomeSpans(actions))
  }

  lemma TestThenSwapLater(actions: seq<Action>, a: Action, c: nat)
    requires TestThenSwap(actions, c) || (Test(c) in actions && a.Swap?)
    ensures TestThenSwap(actions + [a], c)
  {
    var longer := actions + [a];
    if TestThenSwap(actions, c) {
      var i, j :| 0 <= i < j < |actions| && actions[i] == Test(c) && actions[j].Swap?;
      assert longer[i] == Test(c) && longer[j].Swap?;
    } else {
      var i :| 0 <= i < |actions| && actions[i] == Test(c);
      assert longer[i] == Test(c) && longer[|actions|].Swap?;
    }
  }

  lemma SpansLater(actions: seq<Action>, a: Action, c: nat)
    requires Spans(actions, c) || (a == SetDefault(c) && TestThenSwap(actions, c))
    ensures Spans(actions + [a], c)
  {
    var longer := actions + [a];
    if Spans(actions, c) {
      var k :| 0 <= k < |actions| && actions[k] == SetDefault(c) && TestThenSwap(actions[..k], c);
      assert longer[k] == SetDefault(c) && longer[..k] == actions[..k];
    } else {
      assert longer[|actions|] == a && longer[..|actions|] == actions;
    }
  }

  lemma CallTellsLater(pc: Pc, actions: seq<Action>, a: Action, c: nat)
    requires CallTells(pc, actions, c)
    ensures CallTells(pc, actions + [a], c)
    ensures a.Swap? ==> CallTells(NoteSwap(pc), actions + [a], c)
  {
    if TestThenSwap(actions, c) || (Test(c) in actions && a.Swap?) { TestThenSwapLater(actions, a, c); }
  }

  lemma CallsTellStep(w: World, actions: seq<Action>, a: Action, c: nat)
    requires MarksTell(w, actions) && c in Next(w, a).calls
    ensures CallTells(Next(w, a).calls[c], actions + [a], c)
  {
    if c in w.calls {
      CallTellsLater(w.calls[c], actions, a, c);
    } else {
      assert (actions + [a])[|actions|] == Test(c);
    }
  }

  lemma SpanTellStep(w: World, actions: seq<Action>, a: Action)
    requires MarksTell(w, actions) && Next(w, a).spanned
    ensures SomeSpans(actions + [a])
  {
    if w.spanned {
      var c :| Spans(actions, c);
      SpansLater(actions, a, c);
    } else {
      assert CallTells(w.calls[a.call], actions, a.call);
      SpansLater(actions, a, a.call);
    }
  }

  lemma {:induction false} RunMarksTell(actions: seq<Action>)
    ensures MarksTell(Run(actions), actions)
  {
    if actions != [] {
      var init, a := actions[..|actions| - 1], actions[|actions| - 1];
      assert actions == init + [a];
      RunMarksTell(init);
      forall c | c in Run(actions).calls ensures CallTells(Run(actions).calls[c], actions, c) {
        CallsTellStep(Run(init), init, a, c);
      }
      if Run(actions).spanned { SpanTellStep(Run(init), init, a); }
    }
  }

  /** When the state is never swapped between a call's emptiness test and its claim, at most one task starts. */
  lemma AtMostOneStart(actions: seq<Action>)
    requires !SomeSpans(actions)
    ensures |Run(actions).starts| <= 1
  {
    RunMarksTell(actions);
    InvRun(actions);
    var w := Run(actions);
    forall i | 0 <= i < |w.starts| ensures w.starts[i].1 == Initial {}
    if |w.starts| > 1 { OneWinnerPerHolder(actions, 0, 1); }
  }

  ghost function Holders(starts: seq<(nat, Holder)>): set<Holder> { set i | 0 <= i < |starts| :: starts[i].1 }

  lemma HoldersOneMore(init: seq<(nat, Holder)>, last: (nat, Holder))
    ensures Holders(init + [last]) == Holders(init) + {last.1}
  {
    forall i | 0 <= i < |init| ensures init[i].1 in Holders(init + [last]) {
      assert (init + [last])[i] == init[i];
    }
    assert (init + [last])[|init|] == last;
  }

  lemma {:induction false} DistinctHolders(starts: seq<(nat, Holder)>)
    requires forall i, j :: 0 <= i < j < |starts| ==> starts[i].1 != starts[j].1
    ensures |Holders(starts)| == |starts|
  {
    if starts != [] {
      var init, last := starts[..|starts| - 1], starts[|starts| - 1];
      DistinctHolders(init);
      assert starts == init + [last];
      HoldersOneMore(init, last);
      assert last.1 !in Holders(init);
    }
  }

  /** In every run at most four tasks start, one for each dict object. */
  lemma AtMostFourStarts(actions: seq<Action>)
    ensures |Run(actions).starts| <= 4
  {
    InvRun(actions);
    var holders := Holders(Run(actions).starts);
    DistinctHolders(Run(actions).starts);
    var every := {Initial, ConnectedState, DisconnectedState, DeadState};
    forall h ensures h in every { assert h.Initial? || h.ConnectedState? || h.DisconnectedState? || h.DeadState?; }
    assert |every - holders| + |holders| == |every| by { assert (every - holders) + holders == every; }
  }

  lemma Then(actions: seq<Action>, a: Action) returns (longer: seq<Action>)
    ensures longer == actions + [a] && Run(longer) == Next(Run(actions), a)
  {
    longer := actions + [a];
    assert longer[..|longer| - 1] == actions;
  }

  /** A call that found the initial state empty claims a holder that the state was swapped to. */
  lemma LateClaim(actions: seq<Action>, c: nat, h: Holder) returns (longer: seq<Action>)
    requires h != Initial && h != Run(actions).current && h !in Run(actions).owners
    requires c in Run(actions).calls && Run(actions).calls[c].Tested?
    ensures var w, v := Run(actions), Run(longer);
            && v.starts == w.starts + [(c, h)] && v.current == h && v.owners == w.owners[h := c]
            && forall d | d != c && d in w.calls && w.calls[d].Tested? :: d in v.calls && v.calls[d].Tested?
  {
    longer := Then(actions, Swap(h));
    longer := Then(longer, Load(c));
    longer := Then(longer, SetDefault(c));
    longer := Then(longer, Start(c));
  }

  /** A call claims the initial state. */
  lemma FirstClaim(actions: seq<Action>, c: nat) returns (longer: seq<Action>)
    requires c in Run(actions).calls && Run(actions).calls[c].Tested?
    requires Run(actions).current == Initial && Run(actions).owners == map[] && Run(actions).starts == []
    ensures var w, v := Run(actions), Run(longer);
            && v.starts == [(c, Initial)] && v.current == Initial && v.owners == map[Initial := c]
            && forall d | d != c && d in w.calls && w.calls[d].Tested? :: d in v.calls && v.calls[d].Tested?
  {
    longer := Then(actions, Load(c));
    longer := Then(longer, SetDefault(c));
    longer := Then(longer, Start(c));
  }

  lemma {:induction false} AllTest(calls: nat) returns (actions: seq<Action>)
    ensures var w := Run(actions);
            && w.current == Initial && w.owners == map[] && w.starts == []
            && (forall c: nat | c < calls :: c in w.calls && w.calls[c].Tested?)
            && (forall c: nat | c in w.calls :: c < calls)
  {
    actions := [];
    if calls > 0 {
      actions := AllTest(calls - 1);
      actions := Then(actions, Test(calls - 1));
    }
  }

  /** Otherwise two can: the store is closed between one call's test and its claim. */
  lemma TwoStarts()
    ensures exists actions :: Run(actions).starts == [(0, Initial), (1, DeadState)]
  {
    var run := AllTest(2);
    run := FirstClaim(run, 0);
    run := LateClaim(run, 1, DeadState);
  }

  /** And all four can, as the state goes from one object to the next. */
  lemma FourStarts()
    ensures exists actions :: |Run(actions).starts| == 4
  {
    var run := AllTest(4);
    run := FirstClaim(run, 0);
    run := LateClaim(run, 1, ConnectedState);
    run := LateClaim(run, 2, DisconnectedState);
    run := LateClaim(run, 3, DeadState);
  }

  // ---------------------------------------------------------------- the link state

  /** A mark on the state: by a callback of the SSE task, or by close() from any thread. */
  datatype Mark = ByCallback(callback: Callback) | ByClose

  function MarkLink(link: Link, m: Mark): Link {
    match m
    case ByClose => Dead
    case ByCallback(OnConnect) => Connected
    case ByCallback(OnDisconnect) => Disconnected
    case ByCallback(OnExit) => Dead
    case ByCallback(OnEvent(_)) => link
  }

  function LinkAfter(link: Link, marks: seq<Mark>): Link {
    if marks == [] then link else MarkLink(LinkAfter(link, marks[..|marks| - 1]), marks[|marks| - 1])
  }

  /** Nothing but events after mark i. */
  predicate LastMark(marks: seq<Mark>, i: nat) {
    && i < |marks| && !(marks[i].ByCallback? && marks[i].callback.OnEvent?)
    && forall j :: i < j < |marks| ==> marks[j].ByCallback? && marks[j].callback.OnEvent?
  }

  /** The last connect, disconnect, exit or close decides. */
  lemma {:induction false} LastMarkDecides(link: Link, marks: seq<Mark>, i: nat)
    requires LastMark(marks, i)
    ensures LinkAfter(link, marks) == Connected <==> marks[i] == ByCallback(OnConnect)
    ensures LinkAfter(link, marks) == Disconnected <==> marks[i] == ByCallback(OnDisconnect)
    ensures LinkAfter(link, marks) == Dead <==> marks[i] == ByClose || marks[i] == ByCallback(OnExit)
  {
    var n := |marks| - 1;
    if i < n { LastMarkDecides(link, marks[..n], i); }
  }

  /** The callbacks among the marks, in order. */
  function Callbacks(marks: seq<Mark>): seq<Callback> {
    if marks == [] then []
    else
      var rest := Callbacks(marks[..|marks| - 1]);
      match marks[|marks| - 1]
      case ByClose => rest
      case ByCallback(c) => rest + [c]
  }

  predicate Revives(m: Mark) {
    m.ByCallback? && (m.callback.OnConnect? || m.callback.OnDisconnect?)
  }

  /**
   Dead is not absorbing: after a close the store stays dead exactly as long as no connect or
   disconnect callback of a task that is still winding down runs.
   */
  lemma {:induction false} DeadUntilRevived(marks: seq<Mark>)
    ensures (forall n :: 0 <= n <= |marks| ==> LinkAfter(Dead, marks[..n]) == Dead)
            <==> (forall i :: 0 <= i < |marks| ==> !Revives(marks[i]))
  {
    if marks == [] {
      assert forall n :: 0 <= n <= |marks| ==> marks[..n] == [];
    } else {
      var init := marks[..|marks| - 1];
      DeadUntilRevived(init);
      assert forall n :: 0 <= n <= |init| ==> init[..n] == marks[..n];
      assert marks[..|marks|] == marks && init[..|init|] == init;
      assert LinkAfter(Dead, marks) == MarkLink(LinkAfter(Dead, init), marks[|init|]);
    }
  }

  /** However close() interleaves with them, once the callbacks of a run are over the store is dead. */
  lemma {:induction false} FinishedRunIsDead(link: Link, marks: seq<Mark>)
    requires PhaseAfter(Idle, Callbacks(marks)) == Over
    ensures LinkAfter(link, marks) == Dead
  {
    var n := |marks| - 1;
    match marks[n]
    case ByClose =>
    case ByCallback(c) =>
      var before := Callbacks(marks[..n]);
      assert Callbacks(marks)[..|before|] == before;
      assert c == OnExit;
  }
}
