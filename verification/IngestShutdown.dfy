/**
 What a close of the ingest queue (src/qorme/ingest/queue.py) leaves behind, by the moment at which it
 sets the stop event, and what becomes of one that times out. The threads and their steps are those of
 IngestThreads.
 */
module IngestShutdown {
  import opened Basics
  import opened IngestThreads
  import IngestQueue

  // ---------------------------------------------------------------- what a close leaves behind

  /** The last flush took everything that was accepted before the stop. */
  predicate Finished(pc: Pc) { pc == Test(true) || pc == TestAgain(true) || pc == Exit(true) }

  /** The worker acts on a stop it has read: no new stop event can appear under it. */
  predicate SawStop(pc: Pc) { pc == FlushMove(true) || (pc.FlushTake? && pc.flag) || Finished(pc) }

  /** The worker takes everything and met no full FIFO. */
  predicate FlushesAll(pc: Pc) { pc.FlushTake? && pc.flag && !pc.overflow }

  predicate Moving(pc: Pc) { pc.Pre? || pc.FlushMove? }

  predicate Fits(s: State, pc: Pc) {
    && (SawStop(pc) ==> s.stop != Some(false))
    && (FlushesAll(pc) ==> s.staleDelayed == 0)
    && (Finished(pc) ==> s.staleDelayed == 0 && s.staleQueued == 0)
  }

  predicate Bounded(s: State) { s.staleQueued <= s.queued && s.staleDelayed <= s.delayed }

  ghost predicate Drains(s: State) {
    && Bounded(s)
    && (forall w :: w in s.threads ==> Fits(s, s.threads[w]))
    && (s.held.Some? ==> exists w :: w in s.threads && Moving(s.threads[w]))
  }

  lemma MoveKeepsBounds(g: Config, s: State, all: bool, c: Choice)
    requires Bounded(s)
    ensures var m := MoveStep(g, s, all, c); m.Stays? || Bounded(m.s)
    ensures var m := MoveStep(g, s, all, c);
            && (m.Ends? ==> m.s.held.None? && (all && !m.overflow ==> m.s.staleDelayed == 0))
            && (m.Raises? ==> m.s.held.None?)
  {
  }

  predicate HandFits(s: State, pc: Pc) { s.held.Some? ==> Moving(pc) }

  lemma MovingTurnFits(g: Config, s: State, w: Tid, pc: Pc, c: Choice)
    requires Moving(pc) && Bounded(s) && Fits(s, pc)
    ensures var t := Turn(g, s, w, pc, c); Bounded(t.s) && Fits(t.s, t.pc) && HandFits(t.s, t.pc)
  {
    var all := pc.FlushMove? && pc.flag;
    MoveTouchesQueues(g, s, all, c);
    MoveKeepsBounds(g, s, all, c);
  }

  lemma TakingTurnFits(g: Config, s: State, w: Tid, pc: Pc, c: Choice)
    requires pc.FlushTake? && Bounded(s) && Fits(s, pc) && s.held.None?
    ensures var t := Turn(g, s, w, pc, c); Bounded(t.s) && Fits(t.s, t.pc) && HandFits(t.s, t.pc)
  {
  }

  lemma OtherTurnFits(g: Config, s: State, w: Tid, pc: Pc, c: Choice)
    requires InLoop(pc) && !Moving(pc) && !pc.FlushTake? && Bounded(s) && Fits(s, pc) && s.held.None?
    ensures var t := Turn(g, s, w, pc, c); Bounded(t.s) && Fits(t.s, t.pc) && HandFits(t.s, t.pc)
  {
  }

  lemma TurnFits(g: Config, s: State, w: Tid, pc: Pc, c: Choice)
    requires InLoop(pc) && Bounded(s) && Fits(s, pc) && HandFits(s, pc)
    ensures var t := Turn(g, s, w, pc, c); Bounded(t.s) && Fits(t.s, t.pc) && HandFits(t.s, t.pc)
  {
    if Moving(pc) {
      MovingTurnFits(g, s, w, pc, c);
    } else if pc.FlushTake? {
      TakingTurnFits(g, s, w, pc, c);
    } else {
      OtherTurnFits(g, s, w, pc, c);
    }
  }

  /** Threads other than workers fit always. */
  lemma OthersFit(s: State, pc: Pc)
    requires !SawStop(pc)
    ensures Fits(s, pc)
  {
  }

  lemma OnlyHolder(s: State, w: Tid)
    requires SingleWorker(s) && Drains(s) && w in s.threads && Worker(s.threads[w])
    ensures s.held.Some? ==> Moving(s.threads[w])
  {
  }

  lemma LoopKeepsDrains(s: State, s': State, w: Tid)
    requires SingleWorker(s) && w in s.threads && Worker(s.threads[w]) && OnlyLoops(s, s', w)
    requires Bounded(s') && Fits(s', s'.threads[w]) && (s'.held.Some? ==> Moving(s'.threads[w]))
    ensures Drains(s')
  {
    forall u | u in s'.threads && u != w ensures Fits(s', s'.threads[u]) {
      assert !Worker(s.threads[u]);
      OthersFit(s', s'.threads[u]);
    }
  }

  /** The worker is born, or gone. */
  lemma EdgeKeepsDrains(g: Config, s: State, w: Tid, c: Choice)
    requires SingleWorker(s) && Bounded(s) && s.held.None? && w in s.threads
    requires s.threads[w].Born? || s.threads[w].Exit?
    ensures Drains(StepWorker(g, s, w, s.threads[w], c))
  {
    var s' := StepWorker(g, s, w, s.threads[w], c);
    forall u | u in s'.threads ensures Fits(s', s'.threads[u]) {
      assert u != w ==> !Worker(s.threads[u]);
      OthersFit(s', s'.threads[u]);
    }
  }

  lemma WorkerKeepsDrains(g: Config, s: State, w: Tid, c: Choice)
    requires SingleWorker(s) && Drains(s) && w in s.threads && Worker(s.threads[w])
    ensures Drains(StepWorker(g, s, w, s.threads[w], c))
  {
    var pc := s.threads[w];
    OnlyHolder(s, w);
    if InLoop(pc) {
      TurnFits(g, s, w, pc, c);
      InLoopStep(g, s, w, c);
      LoopStep(g, s, w, c);
      LoopKeepsDrains(s, StepWorker(g, s, w, pc, c), w);
    } else {
      EdgeKeepsDrains(g, s, w, c);
    }
  }

  /** A step that changes neither the pc of a worker, beyond waking it, nor what was accepted before the stop. */
  ghost predicate LeavesFlush(s: State, s': State) {
    && Bounded(s') && s'.staleQueued == s.staleQueued && s'.staleDelayed == s.staleDelayed && s'.held == s.held
    && LeavesMoves(s, s')
    && (s'.stop == Some(false) ==> s.stop == Some(false) || forall w :: w in s'.threads ==> !SawStop(s'.threads[w]))
  }

  ghost predicate LeavesMoves(s: State, s': State) {
    && (forall w :: w in s'.threads && SawStop(s'.threads[w]) ==> w in s.threads && s.threads[w] == s'.threads[w])
    && (forall w :: w in s.threads && Moving(s.threads[w]) ==> w in s'.threads && s.threads[w] == s'.threads[w])
  }

  lemma FlushKeepsDrains(s: State, s': State)
    requires Drains(s) && LeavesFlush(s, s')
    ensures Drains(s')
  {
    forall w | w in s'.threads ensures Fits(s', s'.threads[w]) {
      if SawStop(s'.threads[w]) { assert Fits(s, s.threads[w]); } else { OthersFit(s', s'.threads[w]); }
    }
    if s.held.Some? {
      var w :| w in s.threads && Moving(s.threads[w]);
      assert Moving(s'.threads[w]);
    }
  }

  /** A step of a client that is not a worker: others stay where they are. */
  lemma ClientLeavesMoves(s: State, s': State, t: Tid)
    requires t in s.threads && !Worker(s.threads[t]) && (t in s'.threads ==> !Worker(s'.threads[t]))
    requires forall u :: u != t ==> (u in s'.threads <==> u in s.threads)
    requires forall u :: u in s.threads && u != t ==> s'.threads[u] == s.threads[u]
    ensures LeavesMoves(s, s')
  {
  }

  lemma WakeLeavesMoves(s: State, s': State, t: Tid, c: Choice)
    requires Wake(s, c) == Some(s')
    ensures LeavesMoves(s, s') && s' == s.(threads := s'.threads)
    ensures t in s.threads && !Worker(s.threads[t]) ==> t in s'.threads && s'.threads[t] == s.threads[t]
  {
  }

  lemma LeavesBoth(s: State, s': State, s'': State)
    requires LeavesMoves(s, s') && LeavesMoves(s', s'')
    ensures LeavesMoves(s, s'')
  {
  }

  lemma NotifyKeepsDrains(g: Config, s: State, t: Tid, c: Choice)
    requires Drains(s) && t in s.threads && (s.threads[t].Notify? || s.threads[t].CloseNotify?)
    ensures Drains(StepClient(g, s, t, s.threads[t], c))
  {
    var s' := StepClient(g, s, t, s.threads[t], c);
    if s' != s {
      var woken := Wake(s, c).value;
      WakeLeavesMoves(s, woken, t, c);
      ClientLeavesMoves(woken, s', t);
      LeavesBoth(s, woken, s');
      FlushKeepsDrains(s, s');
    }
  }

  lemma StartKeepsDrains(g: Config, s: State, t: Tid, c: Choice)
    requires SingleWorker(s) && Drains(s) && t in s.threads && s.threads[t].Recheck?
    ensures Drains(StepProducer(g, s, t, s.threads[t], c))
  {
    var s' := StepProducer(g, s, t, s.threads[t], c);
    assert s.lock == Some(t);
    if s.running {
      ClientLeavesMoves(s, s', t);
      FlushKeepsDrains(s, s');
    } else {
      assert forall w :: w in s.threads ==> !Worker(s.threads[w]);
      StartsNobodyElse(g, s, t, c);
      NobodySaw(s');
    }
  }

  lemma NobodySaw(s: State)
    requires Bounded(s) && s.held.None? && forall w :: w in s.threads ==> !SawStop(s.threads[w])
    ensures Drains(s)
  {
    forall w | w in s.threads ensures Fits(s, s.threads[w]) { OthersFit(s, s.threads[w]); }
  }

  lemma StartsNobodyElse(g: Config, s: State, t: Tid, c: Choice)
    requires t in s.threads && s.threads[t].Recheck? && forall w :: w in s.threads ==> !Worker(s.threads[w])
    ensures var s' := StepProducer(g, s, t, s.threads[t], c);
            && s'.queued == s.queued && s'.staleQueued == s.staleQueued && s'.held == s.held
            && s'.delayed == s.delayed && s'.staleDelayed == s.staleDelayed
            && forall w :: w in s'.threads ==> !SawStop(s'.threads[w])
  {
  }

  lemma ProducerKeepsDrains(g: Config, s: State, t: Tid, c: Choice)
    requires Drains(s) && t in s.threads && !Worker(s.threads[t]) && !Closing(s.threads[t])
    requires !s.threads[t].Recheck? && !s.threads[t].Notify?
    ensures Drains(StepProducer(g, s, t, s.threads[t], c))
  {
    var s' := StepProducer(g, s, t, s.threads[t], c);
    ProducerMoves(g, s, t, c);
    ClientLeavesMoves(s, s', t);
    FlushKeepsDrains(s, s');
  }

  lemma ProducerMoves(g: Config, s: State, t: Tid, c: Choice)
    requires t in s.threads && !Worker(s.threads[t]) && !Closing(s.threads[t])
    requires !s.threads[t].Recheck? && !s.threads[t].Notify?
    ensures var s' := StepProducer(g, s, t, s.threads[t], c);
            && s' == s.(threads := s'.threads, lock := s'.lock)
            && (t in s'.threads ==> !Worker(s'.threads[t]))
            && (forall u :: u != t ==> (u in s'.threads <==> u in s.threads))
            && (forall u :: u in s.threads && u != t ==> s'.threads[u] == s.threads[u])
  {
  }

  lemma CloserKeepsDrains(s: State, t: Tid, c: Choice)
    requires Drains(s) && t in s.threads && Closing(s.threads[t]) && !s.threads[t].CloseNotify?
    ensures Drains(StepCloser(s, t, s.threads[t], c))
  {
    var s' := StepCloser(s, t, s.threads[t], c);
    ClientLeavesMoves(s, s', t);
    if s.threads[t].CloseRecheck? && s.running && s.stop == Some(false) {
      forall w | w in s'.threads ensures Fits(s', s'.threads[w]) {
        assert w in s.threads && (w != t ==> Fits(s, s.threads[w]));
        OthersFit(s', s'.threads[w]);
      }
      if s.held.Some? {
        var w :| w in s.threads && Moving(s.threads[w]);
        assert Moving(s'.threads[w]);
      }
    } else {
      FlushKeepsDrains(s, s');
    }
  }

  lemma CallKeepsDrains(g: Config, s: State, a: Action)
    requires Drains(s) && !a.Go?
    ensures Drains(Next(g, s, a))
  {
    var s' := Next(g, s, a);
    assert LeavesMoves(s, s');
    FlushKeepsDrains(s, s');
  }

  lemma NextKeepsDrains(g: Config, s: State, a: Action)
    requires SingleWorker(s) && Drains(s)
    ensures Drains(Next(g, s, a))
  {
    if !a.Go? {
      CallKeepsDrains(g, s, a);
    } else if a.t in s.threads {
      var pc := s.threads[a.t];
      if Worker(pc) {
        WorkerKeepsDrains(g, s, a.t, a.choice);
      } else if pc.Notify? || pc.CloseNotify? {
        NotifyKeepsDrains(g, s, a.t, a.choice);
      } else if Closing(pc) {
        CloserKeepsDrains(s, a.t, a.choice);
      } else if pc.Recheck? {
        StartKeepsDrains(g, s, a.t, a.choice);
      } else {
        ProducerKeepsDrains(g, s, a.t, a.choice);
      }
    }
  }

  lemma {:induction false} RunDrains(g: Config, actions: seq<Action>)
    ensures Drains(Run(g, actions))
  {
    if actions != [] {
      RunHasSingleWorker(g, actions[..|actions| - 1]);
      RunDrains(g, actions[..|actions| - 1]);
      NextKeepsDrains(g, Run(g, actions[..|actions| - 1]), actions[|actions| - 1]);
    }
  }

  // ---------------------------------------------------------------- a stop met in time

  /** The worker has yet to read the stop event for its flush. */
  predicate BeforeRead(pc: Pc) {
    pc.Pre? || pc.Enter? || pc.Eval? || pc.EvalAgain? || pc.Blocked? || pc.ReadFlag? || pc.ReadAgain?
  }

  /** From there to the end of a flush of everything, and out. */
  predicate OnCourse(pc: Pc) {
    BeforeRead(pc) || pc == FlushMove(true) || FlushesAll(pc) || Finished(pc)
  }

  /**
   An exception in the worker (in the taking of its batch, or in a put-back that finds no room), or a
   full FIFO met by the flush of everything.
   */
  predicate WorkerDisturbed(g: Config, s: State, pc: Pc, c: Choice) {
    || c.Fail?
    || (pc.Pre? && s.held.Some? && c.Back? && IngestQueue.Full(s.delayed, g.pqueueMax))
    || (pc == FlushMove(true) && s.held.Some? && IngestQueue.Full(s.queued, g.queueMax))
  }

  /** Such a thing, or a join that times out. */
  predicate Disturbs(g: Config, s: State, a: Action, w: Tid) {
    && a.Go? && a.t in s.threads
    && if a.t == w then WorkerDisturbed(g, s, s.threads[w], a.choice) else s.threads[a.t].Join? && a.choice.TimeOut?
  }

  lemma TurnStaysOnCourse(g: Config, s: State, w: Tid, pc: Pc, c: Choice)
    requires InLoop(pc) && OnCourse(pc) && s.stop == Some(true) && !WorkerDisturbed(g, s, pc, c)
    ensures OnCourse(Turn(g, s, w, pc, c).pc)
  {
  }

  lemma WorkerStaysOnCourse(g: Config, s: State, w: Tid, c: Choice)
    requires w in s.threads && OnCourse(s.threads[w]) && s.stop == Some(true) && !Disturbs(g, s, Go(w, c), w)
    ensures var s' := StepWorker(g, s, w, s.threads[w], c);
            s'.stop == Some(true) && if s.threads[w].Exit? then w !in s'.threads
                                     else w in s'.threads && OnCourse(s'.threads[w])
  {
    if InLoop(s.threads[w]) {
      TurnStaysOnCourse(g, s, w, s.threads[w], c);
      LoopStep(g, s, w, c);
    }
  }

  lemma ClientsKeepCourse(g: Config, s: State, t: Tid, c: Choice, w: Tid)
    requires SingleWorker(s) && t in s.threads && !Worker(s.threads[t]) && !Disturbs(g, s, Go(t, c), w)
    requires w in s.threads && OnCourse(s.threads[w]) && s.stop == Some(true)
    ensures var s' := StepClient(g, s, t, s.threads[t], c);
            s'.stop == Some(true) && w in s'.threads && OnCourse(s'.threads[w])
  {
    assert s.running;
  }

  lemma NextStaysOnCourse(g: Config, s: State, a: Action, w: Tid)
    requires SingleWorker(s) && w in s.threads && OnCourse(s.threads[w]) && s.stop == Some(true)
    requires !Disturbs(g, s, a, w)
    ensures var s' := Next(g, s, a);
            && (w in s'.threads ==> OnCourse(s'.threads[w]) && s'.stop == Some(true))
            && (w !in s'.threads ==> s.threads[w] == Exit(true)
                                     && s'.staleQueued == s.staleQueued && s'.staleDelayed == s.staleDelayed
                                     && s'.held == s.held)
  {
    if a.Go? && a.t in s.threads {
      if Worker(s.threads[a.t]) {
        assert a.t == w;
        WorkerStaysOnCourse(g, s, w, a.choice);
      } else {
        ClientsKeepCourse(g, s, a.t, a.choice, w);
      }
    }
  }

  /**
   When the stop event is set before the worker reads it for its flush, then, however the run goes on,
   short of an exception, a join that times out or a full FIFO, the worker stays on course and leaves
   only when nothing is left of what was accepted before the event was set.
   */
  lemma {:induction false} StopMetInTimeDrains(g: Config, s: State, w: Tid, rest: seq<Action>)
    requires SingleWorker(s) && Drains(s) && w in s.threads && OnCourse(s.threads[w]) && s.stop == Some(true)
    requires forall i :: 0 <= i < |rest| ==>
               w in RunFrom(g, s, rest[..i]).threads && !Disturbs(g, RunFrom(g, s, rest[..i]), rest[i], w)
    ensures var e := RunFrom(g, s, rest);
            && SingleWorker(e) && Drains(e)
            && (w in e.threads ==> OnCourse(e.threads[w]) && e.stop == Some(true))
            && (w !in e.threads ==> e.staleQueued == 0 && e.staleDelayed == 0 && e.held.None?)
  {
    if rest != [] {
      var init, a := rest[..|rest| - 1], rest[|rest| - 1];
      assert forall i :: 0 <= i < |init| ==> rest[..i] == init[..i];
      StopMetInTimeDrains(g, s, w, init);
      var before := RunFrom(g, s, init);
      NextKeepsSingleWorker(g, before, a);
      NextKeepsDrains(g, before, a);
      NextStaysOnCourse(g, before, a, w);
      OnlyHolder(before, w);
    }
  }

  /** In every run: a stop that is set while the worker has yet to read it. */
  lemma CloseInTimeDrains(g: Config, actions: seq<Action>, w: Tid, rest: seq<Action>)
    requires var s := Run(g, actions); w in s.threads && BeforeRead(s.threads[w]) && s.stop == Some(true)
    requires forall i :: 0 <= i < |rest| ==>
               w in Run(g, actions + rest[..i]).threads && !Disturbs(g, Run(g, actions + rest[..i]), rest[i], w)
    ensures var e := Run(g, actions + rest);
            w in e.threads || (e.staleQueued == 0 && e.staleDelayed == 0 && e.held.None?)
  {
    RunHasSingleWorker(g, actions);
    RunDrains(g, actions);
    forall i | 0 <= i <= |rest| ensures Run(g, actions + rest[..i]) == RunFrom(g, Run(g, actions), rest[..i]) {
      RunOn(g, actions, rest[..i]);
    }
    assert rest[..|rest|] == rest;
    StopMetInTimeDrains(g, Run(g, actions), w, rest);
  }

  // ---------------------------------------------------------------- the worker goes on

  /** Getting, placing or putting back, the move is never held up. */
  lemma MoveGoesOn(g: Config, s: State, all: bool) returns (c: Choice)
    requires Bounded(s)
    ensures !c.Fail? && !c.TimeOut? && !MoveStep(g, s, all, c).Stays?
  {
    if s.held.Some? {
      c := if IngestQueue.Full(s.queued, g.queueMax) then Back else Into;
    } else {
      c := if s.delayed == 0 then Plain else Get(s.staleDelayed > 0);
    }
  }

  /**
   The worker is held up by nothing but a condition that another thread has, and a sleep from which it
   has not been notified: in every other place a step takes it on, without a timeout.
   */
  lemma WorkerGoesOn(g: Config, s: State, w: Tid, pc: Pc) returns (c: Choice)
    requires InLoop(pc) && Bounded(s) && pc != Blocked(false) && (pc.Enter? ==> s.condition.None?)
    ensures !c.Fail? && !c.TimeOut? && Turn(g, s, w, pc, c) != Turned(s, pc)
  {
    c := Plain;
    if pc.Pre? {
      c := MoveGoesOn(g, s, false);
    } else if pc.FlushMove? {
      c := MoveGoesOn(g, s, pc.flag);
    } else if pc.FlushTake? && s.queued > 0 && (pc.flag || pc.taken != g.batchMax) {
      c := Take(s.staleQueued > 0);
    }
  }

  /** A worker that was notified of enough items is two steps of its own from leaving the wait for its flush. */
  lemma NotifiedFlushes(g: Config, s: State, w: Tid)
    requires w in s.threads && s.threads[w] == Blocked(true) && s.condition.None? && s.queued >= g.batchMin
    ensures var e := RunFrom(g, s, [Go(w, Plain)] + ([Go(w, Plain)] + [Go(w, Plain)]));
            w in e.threads && e.threads[w] == ReadFlag && e.queued == s.queued
  {
    Reenters(g, s, w);
    var s1 := At(s, w, Enter);
    Reevaluates(g, s1, w);
    var s2 := At(s1, w, Eval).(condition := Some(w));
    FlushesAfter(g, s2, w);
    RunFromCons(g, s, Go(w, Plain), [Go(w, Plain)] + [Go(w, Plain)]);
    TwoSteps(g, s1, Go(w, Plain), Go(w, Plain));
  }

  lemma Reenters(g: Config, s: State, w: Tid)
    requires w in s.threads && s.threads[w] == Blocked(true)
    ensures Next(g, s, Go(w, Plain)) == At(s, w, Enter)
  {
    InLoopStep(g, s, w, Plain);
  }

  lemma Reevaluates(g: Config, s: State, w: Tid)
    requires w in s.threads && s.threads[w] == Enter && s.condition.None?
    ensures Next(g, s, Go(w, Plain)) == At(s, w, Eval).(condition := Some(w))
  {
    InLoopStep(g, s, w, Plain);
  }

  lemma FlushesAfter(g: Config, s: State, w: Tid)
    requires w in s.threads && s.threads[w] == Eval && s.queued >= g.batchMin
    ensures Next(g, s, Go(w, Plain)) == At(s, w, ReadFlag).(condition := None)
  {
    InLoopStep(g, s, w, Plain);
  }

  // ---------------------------------------------------------------- a stop set too late

  predicate WithinCapacity(g: Config, s: State) { g.pqueueMax > 0 ==> s.delayed <= g.pqueueMax }

  lemma TurnWithinCapacity(g: Config, s: State, w: Tid, pc: Pc, c: Choice)
    requires WithinCapacity(g, s)
    ensures WithinCapacity(g, Turn(g, s, w, pc, c).s)
  {
  }

  lemma {:induction false} RunWithinCapacity(g: Config, actions: seq<Action>)
    ensures WithinCapacity(g, Run(g, actions))
  {
    if actions != [] {
      var s, a := Run(g, actions[..|actions| - 1]), actions[|actions| - 1];
      RunWithinCapacity(g, actions[..|actions| - 1]);
      if a.Go? && a.t in s.threads { TurnWithinCapacity(g, s, a.t, s.threads[a.t], a.choice); }
    }
  }

  predicate TooLate(pc: Pc) {
    pc == Test(false) || pc == TestAgain(false) || pc == FlushMove(false) || (pc.FlushTake? && !pc.flag)
    || pc == Exit(false)
  }

  /** What a batch of which `taken` items are taken still takes. */
  function BatchLeft(g: Config, s: State, taken: nat): nat {
    if g.batchMax < taken || g.batchMax - taken > s.queued then s.queued else g.batchMax - taken
  }

  /** The worker gone, m items taken, those accepted before the stop first. */
  function Left(s: State, w: Tid, m: nat): State
    requires m <= s.queued
  {
    s.(running := false, threads := s.threads - {w}, queued := s.queued - m,
       staleQueued := if m < s.staleQueued then s.staleQueued - m else 0)
  }

  /** The worker's own steps, with no batch failing and no wait timing out. */
  predicate Calm(rest: seq<Action>, w: Tid) {
    forall i :: 0 <= i < |rest| ==> rest[i].Go? && rest[i].t == w && !rest[i].choice.Fail? && !rest[i].choice.TimeOut?
  }

  lemma CalmCons(a: Action, rest: seq<Action>, w: Tid)
    requires a.Go? && a.t == w && !a.choice.Fail? && !a.choice.TimeOut? && Calm(rest, w)
    ensures Calm([a] + rest, w)
  {
  }

  /** One step of the worker before others. */
  lemma StepFirst(g: Config, s: State, w: Tid, c: Choice, rest: seq<Action>)
    requires w in s.threads && InLoop(s.threads[w]) && !c.Fail? && !c.TimeOut? && Calm(rest, w)
    ensures Calm([Go(w, c)] + rest, w)
    ensures var t := Turn(g, s, w, s.threads[w], c);
            RunFrom(g, s, [Go(w, c)] + rest) == RunFrom(g, At(t.s, w, t.pc), rest)
  {
    CalmCons(Go(w, c), rest, w);
    RunFromCons(g, s, Go(w, c), rest);
    InLoopStep(g, s, w, c);
  }

  lemma SameLeft(s: State, w: Tid, pc: Pc, m: nat)
    requires m <= s.queued
    ensures Left(At(s, w, pc), w, m) == Left(s, w, m)
  {
    assert At(s, w, pc).threads - {w} == s.threads - {w};
  }

  lemma ExitLeaves(g: Config, s: State, w: Tid) returns (rest: seq<Action>)
    requires w in s.threads && s.threads[w].Exit? && Bounded(s)
    ensures Calm(rest, w) && RunFrom(g, s, rest) == Left(s, w, 0)
  {
    rest := [Go(w, Plain)];
    RunFromCons(g, s, Go(w, Plain), []);
    assert [Go(w, Plain)] + [] == rest;
  }

  lemma TestLeaves(g: Config, s: State, w: Tid) returns (rest: seq<Action>)
    requires w in s.threads && (s.threads[w] == Test(false) || s.threads[w] == TestAgain(false))
    requires s.stop == Some(true) && Bounded(s)
    ensures Calm(rest, w) && RunFrom(g, s, rest) == Left(s, w, 0)
    decreases s.threads[w].Test?
  {
    var more;
    if s.threads[w].Test? {
      more := TestLeaves(g, At(s, w, TestAgain(false)), w);
      SameLeft(s, w, TestAgain(false), 0);
    } else {
      more := ExitLeaves(g, At(s, w, Exit(false)), w);
      SameLeft(s, w, Exit(false), 0);
    }
    StepFirst(g, s, w, Plain, more);
    rest := [Go(w, Plain)] + more;
  }

  lemma {:induction false} TakeLeaves(g: Config, s: State, w: Tid) returns (rest: seq<Action>)
    requires w in s.threads && s.threads[w].FlushTake? && !s.threads[w].flag && s.stop == Some(true) && Bounded(s)
    ensures Calm(rest, w) && RunFrom(g, s, rest) == Left(s, w, BatchLeft(g, s, s.threads[w].taken))
    decreases s.queued
  {
    if s.queued == 0 || s.threads[w].taken == g.batchMax {
      rest := FullLeaves(g, s, w);
    } else {
      var stale := s.staleQueued > 0;
      var more := TakeLeaves(g, Took(s, w, stale), w);
      TakesOne(g, s, w, stale, more);
      OneTakenLeft(g, s, w, stale);
      rest := [Go(w, Take(stale))] + more;
    }
  }

  lemma FullLeaves(g: Config, s: State, w: Tid) returns (rest: seq<Action>)
    requires w in s.threads && s.threads[w].FlushTake? && !s.threads[w].flag && s.stop == Some(true) && Bounded(s)
    requires s.queued == 0 || s.threads[w].taken == g.batchMax
    ensures Calm(rest, w) && RunFrom(g, s, rest) == Left(s, w, BatchLeft(g, s, s.threads[w].taken))
  {
    var more := TestLeaves(g, At(s, w, Test(false)), w);
    SameLeft(s, w, Test(false), 0);
    FullIsNext(g, s, w);
    CalmCons(Go(w, Plain), more, w);
    RunFromCons(g, s, Go(w, Plain), more);
    rest := [Go(w, Plain)] + more;
  }

  lemma FullIsNext(g: Config, s: State, w: Tid)
    requires w in s.threads && s.threads[w].FlushTake? && !s.threads[w].flag
    requires s.queued == 0 || s.threads[w].taken == g.batchMax
    ensures Next(g, s, Go(w, Plain)) == At(s, w, Test(false)) && BatchLeft(g, s, s.threads[w].taken) == 0
  {
    InLoopStep(g, s, w, Plain);
  }

  /** One item more is in the batch. */
  function Took(s: State, w: Tid, stale: bool): State
    requires w in s.threads && s.threads[w].FlushTake? && CanTake(s, stale)
  {
    At(TakeItem(s, stale), w, s.threads[w].(taken := s.threads[w].taken + 1))
  }

  lemma TakesOne(g: Config, s: State, w: Tid, stale: bool, more: seq<Action>)
    requires w in s.threads && s.threads[w].FlushTake? && !s.threads[w].flag && s.threads[w].taken != g.batchMax
    requires CanTake(s, stale) && Calm(more, w)
    ensures Calm([Go(w, Take(stale))] + more, w)
    ensures RunFrom(g, s, [Go(w, Take(stale))] + more) == RunFrom(g, Took(s, w, stale), more)
  {
    TakeIsNext(g, s, w, stale);
    CalmCons(Go(w, Take(stale)), more, w);
    RunFromCons(g, s, Go(w, Take(stale)), more);
  }

  lemma TakeIsNext(g: Config, s: State, w: Tid, stale: bool)
    requires w in s.threads && s.threads[w].FlushTake? && !s.threads[w].flag && s.threads[w].taken != g.batchMax
    requires CanTake(s, stale)
    ensures Next(g, s, Go(w, Take(stale))) == Took(s, w, stale)
  {
    InLoopStep(g, s, w, Take(stale));
  }

  lemma OneTakenLeft(g: Config, s: State, w: Tid, stale: bool)
    requires w in s.threads && s.threads[w].FlushTake? && s.threads[w].taken != g.batchMax
    requires Bounded(s) && stale == (s.staleQueued > 0) && CanTake(s, stale)
    ensures var s', taken := Took(s, w, stale), s.threads[w].taken;
            Left(s', w, BatchLeft(g, s', taken + 1)) == Left(s, w, BatchLeft(g, s, taken))
  {
    assert Took(s, w, stale).threads - {w} == s.threads - {w};
  }

  /** Where the entry in the worker's hand goes when it is not due or the other queue is full, if anywhere. */
  function Placed(g: Config, s: State): State {
    if s.held.None? then s
    else if !IngestQueue.Full(s.delayed, g.pqueueMax) then PutBack(s)
    else if !IngestQueue.Full(s.queued, g.queueMax) then PutInto(s)
    else s.(held := None)
  }

  predicate NoRoom(g: Config, s: State) {
    s.held.Some? && IngestQueue.Full(s.delayed, g.pqueueMax) && IngestQueue.Full(s.queued, g.queueMax)
  }

  /** With nothing due, an empty-handed worker takes one entry at most, and puts it back. */
  lemma EmptyHandedLeaves(g: Config, s: State, w: Tid) returns (rest: seq<Action>)
    requires w in s.threads && s.threads[w] == FlushMove(false) && s.held.None? && s.stop == Some(true) && Bounded(s)
    requires WithinCapacity(g, s)
    ensures Calm(rest, w) && RunFrom(g, s, rest) == Left(s, w, BatchLeft(g, s, 0))
  {
    var next := FlushTake(false, false, 0);
    var more := TakeLeaves(g, At(s, w, next), w);
    SameLeft(s, w, next, BatchLeft(g, s, 0));
    if s.delayed == 0 {
      StepFirst(g, s, w, Plain, more);
      rest := [Go(w, Plain)] + more;
    } else {
      rest := LooksAtOne(g, s, w, more);
    }
  }

  lemma LooksAtOne(g: Config, s: State, w: Tid, more: seq<Action>) returns (rest: seq<Action>)
    requires w in s.threads && s.threads[w] == FlushMove(false) && s.held.None? && s.delayed > 0 && Bounded(s)
    requires WithinCapacity(g, s) && Calm(more, w)
    ensures Calm(rest, w) && RunFrom(g, s, rest) == RunFrom(g, At(s, w, FlushTake(false, false, 0)), more)
  {
    var stale := s.staleDelayed > 0;
    var s1 := At(GetEntry(s, stale), w, FlushMove(false));
    assert s1.threads == s.threads;
    StepFirst(g, s1, w, Back, more);
    assert PutBack(GetEntry(s, stale)) == s;
    StepFirst(g, s, w, Get(stale), [Go(w, Back)] + more);
    rest := [Go(w, Get(stale))] + ([Go(w, Back)] + more);
  }

  lemma HandLeaves(g: Config, s: State, w: Tid) returns (rest: seq<Action>)
    requires w in s.threads && s.threads[w] == FlushMove(false) && s.held.Some? && s.stop == Some(true) && Bounded(s)
    requires WithinCapacity(g, s)
    ensures Calm(rest, w)
    ensures RunFrom(g, s, rest) == Left(Placed(g, s), w, if NoRoom(g, s) then 0 else BatchLeft(g, Placed(g, s), 0))
  {
    var s', more := Placed(g, s), [];
    if !IngestQueue.Full(s.delayed, g.pqueueMax) {
      var next := FlushTake(false, false, 0);
      more := TakeLeaves(g, At(s', w, next), w);
      SameLeft(s', w, next, BatchLeft(g, s', 0));
      StepFirst(g, s, w, Back, more);
      rest := [Go(w, Back)] + more;
    } else if !IngestQueue.Full(s.queued, g.queueMax) {
      more := EmptyHandedLeaves(g, At(s', w, FlushMove(false)), w);
      SameLeft(s', w, FlushMove(false), BatchLeft(g, s', 0));
      StepFirst(g, s, w, Into, more);
      rest := [Go(w, Into)] + more;
    } else {
      more := TestLeaves(g, At(s', w, Test(false)), w);
      SameLeft(s', w, Test(false), 0);
      StepFirst(g, s, w, Back, more);
      rest := [Go(w, Back)] + more;
    }
  }

  /** What the batch still takes from each of the later places. */
  function StillTakes(g: Config, s: State, pc: Pc): nat {
    if pc.FlushTake? then BatchLeft(g, s, pc.taken)
    else if pc.FlushMove? && !NoRoom(g, s) then BatchLeft(g, Placed(g, s), 0)
    else 0
  }

  /**
   When the stop event is set any later, and no delayed item is due, the worker can leave after no more
   than the batch it is taking: what was accepted before and does not fit that batch stays, and so does
   everything delayed. Only an entry in its hand for which neither queue has room is lost.
   */
  lemma StopSetLateLeaves(g: Config, actions: seq<Action>, w: Tid) returns (rest: seq<Action>)
    requires var s := Run(g, actions); w in s.threads && TooLate(s.threads[w]) && s.stop == Some(true)
    ensures var s := Run(g, actions);
            Calm(rest, w) && RunFrom(g, s, rest) == Left(Placed(g, s), w, StillTakes(g, s, s.threads[w]))
  {
    var s := Run(g, actions);
    RunHasSingleWorker(g, actions);
    RunDrains(g, actions);
    RunWithinCapacity(g, actions);
    OnlyHolder(s, w);
    var pc := s.threads[w];
    if pc.Exit? {
      rest := ExitLeaves(g, s, w);
    } else if pc.FlushTake? {
      rest := TakeLeaves(g, s, w);
    } else if pc.FlushMove? {
      if s.held.Some? { rest := HandLeaves(g, s, w); } else { rest := EmptyHandedLeaves(g, s, w); }
    } else {
      rest := TestLeaves(g, s, w);
    }
  }

  lemma OnlyCloserSetsStop(g: Config, s: State, t: Tid, c: Choice)
    requires s.stop == Some(false) && Next(g, s, Go(t, c)).stop == Some(true)
    ensures t in s.threads && s.threads[t].CloseRecheck?
  {
  }

  /** There is no third case: these are all the places a worker can be when the stop event gets set. */
  lemma StopMeetsWorker(g: Config, actions: seq<Action>, t: Tid, c: Choice, w: Tid)
    requires var s := Run(g, actions);
             s.stop == Some(false) && Next(g, s, Go(t, c)).stop == Some(true) && w in s.threads && Worker(s.threads[w])
    ensures var pc := Run(g, actions).threads[w];
            BeforeRead(pc) != TooLate(pc)
  {
    var s := Run(g, actions);
    RunHasSingleWorker(g, actions);
    RunDrains(g, actions);
    OnlyCloserSetsStop(g, s, t, c);
    NewlySetStop(s, t, w);
  }

  lemma NewlySetStop(s: State, t: Tid, w: Tid)
    requires SingleWorker(s) && Drains(s) && s.stop == Some(false) && w in s.threads && Worker(s.threads[w])
    requires t in s.threads && s.threads[t].CloseRecheck?
    ensures BeforeRead(s.threads[w]) != TooLate(s.threads[w])
  {
    assert s.lock == Some(t);
    assert !s.threads[w].Born? && Fits(s, s.threads[w]);
  }

  /** Client c is in close, has the lock, and has set the stop event. */
  function StopSet(s: State, c: Tid): State {
    At(s, c, CloseNotify).(lock := Some(c), stop := Some(true), staleQueued := s.queued, staleDelayed := s.delayed,
                           held := Staled(s.held))
  }

  lemma LocksToClose(g: Config, s: State, c: Tid)
    requires c !in s.threads && s.running && s.lock.None?
    ensures RunFrom(g, s, [CallClose(c)] + [Go(c, Plain)]) == At(s, c, CloseRecheck).(lock := Some(c))
  {
    var s1 := At(s, c, CloseLocking);
    assert Next(g, s, CallClose(c)) == s1;
    assert s1.threads[c := CloseRecheck] == s.threads[c := CloseRecheck];
    TwoSteps(g, s, CallClose(c), Go(c, Plain));
  }

  lemma SetsStop(g: Config, s: State, c: Tid) returns (rest: seq<Action>)
    requires c !in s.threads && s.running && s.lock.None? && s.stop == Some(false)
    ensures RunFrom(g, s, rest) == StopSet(s, c)
  {
    LocksToClose(g, s, c);
    var s2 := At(s, c, CloseRecheck).(lock := Some(c));
    assert s2.threads[c := CloseNotify] == s.threads[c := CloseNotify];
    assert Next(g, s2, Go(c, Plain)) == StopSet(s, c);
    RunFromStep(g, s, [CallClose(c)] + [Go(c, Plain)], Go(c, Plain));
    rest := [CallClose(c)] + [Go(c, Plain)] + [Go(c, Plain)];
  }

  /**
   Whenever a worker is between its read of the stop event for its flush and its test for the loop, a
   close can leave all accepted items behind: it sets the event, and the worker leaves.
   */
  lemma CloseBeforeTestSkipsDrain(g: Config, s: State, c: Tid, w: Tid) returns (rest: seq<Action>)
    requires c !in s.threads && w in s.threads && s.threads[w] == Test(false)
    requires s.running && s.lock.None? && s.stop == Some(false)
    ensures var e := RunFrom(g, s, rest);
            && e.threads == StopSet(s, c).threads - {w} && !e.running
            && e.queued == e.staleQueued == s.queued && e.delayed == e.staleDelayed == s.delayed
  {
    var close := SetsStop(g, s, c);
    var leave := TestLeaves(g, StopSet(s, c), w);
    RunFromOn(g, s, close, leave);
    rest := close + leave;
  }

  lemma StartsLoop(g: Config) returns (actions: seq<Action>)
    ensures Run(g, actions)
            == State(1, 0, 0, 0, None, true, None, None, Some(false), map[0 := Check, 1 := Test(false)])
  {
    var s3 := StartsWorker(g);
    Then(g, s3, Go(1, Plain));
    var s4 := s3 + [Go(1, Plain)];
    assert Run(g, s4).threads == map[0 := Started(true), 1 := Test(false)];
    Then(g, s4, Go(0, Plain));
    actions := s4 + [Go(0, Plain)];
    assert Run(g, actions).threads == map[0 := Check, 1 := Test(false)];
  }

  /** Such a state is reached by the first enqueue: its item is accepted and no flush has run yet. */
  lemma FirstEnqueue(g: Config)
    ensures exists actions ::
              Run(g, actions) == State(1, 0, 0, 0, None, true, None, None, Some(false), map[1 := Test(false)])
  {
    var s5 := StartsLoop(g);
    Then(g, s5, Go(0, Plain));
    var s6 := s5 + [Go(0, Plain)];
    if g.batchMin > 1 {
      assert Run(g, s6).threads == map[1 := Test(false)];
    } else {
      assert Run(g, s6).threads == map[0 := Notify, 1 := Test(false)];
      NotifiesNobody(g, Run(g, s6));
      Then(g, s6, Go(0, Plain));
      assert Run(g, s6 + [Go(0, Plain)]).threads == map[1 := Test(false)];
    }
  }

  lemma NotifiesNobody(g: Config, s: State)
    requires s.threads == map[0 := Notify, 1 := Test(false)] && s.condition.None?
    ensures Next(g, s, Go(0, Plain)) == s.(threads := map[1 := Test(false)])
  {
    assert Wake(s, Plain) == Some(s);
    assert s.threads - {0} == map[1 := Test(false)];
  }

  /** The first enqueue up to the start of the worker's thread. */
  lemma StartsWorker(g: Config) returns (actions: seq<Action>)
    ensures Run(g, actions)
            == State(1, 0, 0, 0, None, false, Some(0), None, Some(false), map[0 := Started(true), 1 := Born])
  {
    Then(g, [], CallEnqueue(0));
    var s1 := [] + [CallEnqueue(0)];
    assert Run(g, s1) == INIT.(queued := 1, threads := map[0 := Ensure(true)]);
    Then(g, s1, Go(0, Plain));
    var s2 := s1 + [Go(0, Plain)];
    assert Run(g, s2).threads == map[0 := Locking(true)];
    Then(g, s2, Go(0, Plain));
    var s3 := s2 + [Go(0, Plain)];
    assert Run(g, s3).threads == map[0 := Recheck(true)];
    Then(g, s3, Go(0, Give(1)));
    actions := s3 + [Go(0, Give(1))];
    assert Run(g, actions).threads == map[0 := Started(true), 1 := Born];
  }

  // ---------------------------------------------------------------- a close that times out

  /** A worker is running without a stop event, and has neither found one before nor is it on its way out. */
  ghost predicate Unstoppable(s: State) {
    s.running && s.stop.None?
    && forall w :: w in s.threads ==> !s.threads[w].Exit? && !s.threads[w].TestAgain? && !s.threads[w].EvalAgain?
  }

  /** A put-back that raises out of the loop; those of a flush are caught. */
  predicate Escapes(g: Config, s: State, a: Action) {
    && a.Go? && a.t in s.threads && s.threads[a.t].Pre? && s.held.Some? && a.choice.Back?
    && IngestQueue.Full(s.delayed, g.pqueueMax)
  }

  lemma NextKeepsUnstoppable(g: Config, s: State, a: Action)
    requires Unstoppable(s) && !Escapes(g, s, a)
    ensures Unstoppable(Next(g, s, a))
  {
    if a.Go? && a.t in s.threads {
      if InLoop(s.threads[a.t]) {
        TurnStaysUnstoppable(g, s, a.t, s.threads[a.t], a.choice);
        LoopStep(g, s, a.t, a.choice);
      } else {
        OthersStayUnstoppable(g, s, a.t, a.choice);
      }
    }
  }

  lemma TurnStaysUnstoppable(g: Config, s: State, w: Tid, pc: Pc, c: Choice)
    requires InLoop(pc) && s.stop.None? && !pc.TestAgain? && !pc.EvalAgain?
    requires !(pc.Pre? && s.held.Some? && c.Back? && IngestQueue.Full(s.delayed, g.pqueueMax))
    ensures var t := Turn(g, s, w, pc, c); !t.pc.Exit? && !t.pc.TestAgain? && !t.pc.EvalAgain?
  {
  }

  lemma OthersStayUnstoppable(g: Config, s: State, t: Tid, c: Choice)
    requires Unstoppable(s) && t in s.threads && !InLoop(s.threads[t])
    ensures Unstoppable(Next(g, s, Go(t, c)))
  {
  }

  /**
   A close whose join times out drops the stop event. When the worker is not between the two reads of a
   test then, nor on its way out, no later close, nor anything else but a put-back that raises in its
   first move, stops it any more; with an unbounded delayed queue, nothing at all does.
   */
  lemma {:induction false} TimedOutCloseForgets(g: Config, s: State, t: Tid, actions: seq<Action>)
    requires t in s.threads && s.threads[t] == Join && s.running
    requires forall w :: w in s.threads ==>
               !s.threads[w].Exit? && !s.threads[w].TestAgain? && !s.threads[w].EvalAgain?
    requires g.pqueueMax > 0 ==> forall i :: 0 <= i < |actions| ==>
               !Escapes(g, RunFrom(g, Next(g, s, Go(t, TimeOut)), actions[..i]), actions[i])
    ensures Unstoppable(RunFrom(g, Next(g, s, Go(t, TimeOut)), actions))
  {
    if actions != [] {
      var init := actions[..|actions| - 1];
      assert forall i :: 0 <= i < |init| ==> actions[..i] == init[..i];
      TimedOutCloseForgets(g, s, t, init);
      NextKeepsUnstoppable(g, RunFrom(g, Next(g, s, Go(t, TimeOut)), init), actions[|actions| - 1]);
    }
  }
}
