/**
 The start of the ingest queue's worker (src/qorme/ingest/queue.py): the client that starts it waits for
 the running flag with the lock held, and can wait in vain. The threads and their steps are those of
 IngestThreads.
 */
module IngestStart {
  import opened Basics
  import opened IngestThreads
  import opened IngestShutdown
  import IngestQueue

  /** A thread that cannot be started: the item stays, nobody waits, and the lock and the event are free again. */
  lemma FailedStart(g: Config, s: State, t: Tid)
    requires t in s.threads && s.threads[t].Recheck? && !s.running
    ensures var s' := Next(g, s, Go(t, Fail));
            && s'.lock == None && s'.stop == None && s'.queued == s.queued && s'.delayed == s.delayed
            && forall u :: u in s'.threads && (Worker(s'.threads[u]) || HoldsLock(s'.threads[u])) ==>
                             u != t && u in s.threads && s.threads[u] == s'.threads[u]
  {
  }

  /** The worker is gone before the client that started it has seen the running flag. */
  ghost predicate Stuck(s: State, t: Tid) {
    && t in s.threads && Starting(s.threads[t]) && !s.running
    && forall w :: w in s.threads ==> !Worker(s.threads[w])
  }

  lemma StuckClients(g: Config, s: State, t: Tid, u: Tid, c: Choice)
    requires SingleWorker(s) && Stuck(s, t) && u in s.threads
    ensures var s' := StepClient(g, s, u, s.threads[u], c);
            && Stuck(s', t) && s'.lock == Some(t) && s'.queued == s.queued && s'.delayed == s.delayed
  {
    assert s.lock == Some(t);
    if Closing(s.threads[u]) { StuckClosers(s, t, u, c); } else { StuckProducers(g, s, t, u, c); }
  }

  lemma StuckClosers(s: State, t: Tid, u: Tid, c: Choice)
    requires Stuck(s, t) && s.lock == Some(t) && u in s.threads && Closing(s.threads[u])
    requires HoldsLock(s.threads[u]) ==> u == t
    ensures StepCloser(s, u, s.threads[u], c) == s
  {
  }

  lemma StuckProducers(g: Config, s: State, t: Tid, u: Tid, c: Choice)
    requires Stuck(s, t) && s.lock == Some(t) && u in s.threads && !Closing(s.threads[u])
    requires HoldsLock(s.threads[u]) ==> u == t
    ensures var s' := StepProducer(g, s, u, s.threads[u], c);
            && Stuck(s', t) && s'.lock == Some(t) && s'.queued == s.queued && s'.delayed == s.delayed
  {
  }

  lemma NextKeepsStuck(g: Config, s: State, t: Tid, a: Action)
    requires SingleWorker(s) && Stuck(s, t)
    ensures Stuck(Next(g, s, a), t) && Next(g, s, a).lock == Some(t)
    ensures Next(g, s, a).queued >= s.queued && Next(g, s, a).delayed >= s.delayed
  {
    if a.Go? && a.t in s.threads { StuckClients(g, s, t, a.t, a.choice); }
  }

  /** Then it waits for ever with the lock held: no worker starts any more, and nothing leaves the queues. */
  lemma {:induction false} StuckForGood(g: Config, s: State, t: Tid, actions: seq<Action>)
    requires SingleWorker(s) && Stuck(s, t)
    ensures var e := RunFrom(g, s, actions);
            SingleWorker(e) && Stuck(e, t) && e.queued >= s.queued && e.delayed >= s.delayed
  {
    if actions != [] {
      var init, a := actions[..|actions| - 1], actions[|actions| - 1];
      StuckForGood(g, s, t, init);
      NextKeepsStuck(g, RunFrom(g, s, init), t, a);
      NextKeepsSingleWorker(g, RunFrom(g, s, init), a);
    }
  }

  ghost predicate Alive(s: State) { exists w :: w in s.threads && Worker(s.threads[w]) && !s.threads[w].Exit? }

  ghost predicate Newborn(s: State) { exists w :: w in s.threads && s.threads[w].Born? }

  /** A client that has not seen the flag has a worker that is not on its way out, and an unset stop event. */
  ghost predicate StartersFine(s: State) {
    forall t :: t in s.threads && Starting(s.threads[t]) ==>
      s.stop == Some(false) && Alive(s) && (s.threads[t].Awaiting? ==> Newborn(s))
  }

  /** A step that ends or starts no worker, and in which no other client moves. */
  ghost predicate KeepsWorkers(s: State, s': State, t: Tid) {
    && (Alive(s) ==> Alive(s')) && (Newborn(s) ==> Newborn(s'))
    && forall u :: u in s'.threads && u != t && Starting(s'.threads[u]) ==>
                     u in s.threads && s.threads[u] == s'.threads[u]
  }

  lemma FrameKeepsStarters(s: State, s': State, t: Tid)
    requires SingleWorker(s) && StartersFine(s) && KeepsWorkers(s, s', t) && t in s.threads
    requires s'.stop == s.stop || s.lock == Some(t)
    requires t in s'.threads && Starting(s'.threads[t]) ==>
               Starting(s.threads[t]) && s'.stop == s.stop && (s'.threads[t].Awaiting? ==> Newborn(s'))
    ensures StartersFine(s')
  {
  }

  lemma OneMoves(s: State, s': State, t: Tid)
    requires t in s.threads && !Worker(s.threads[t])
    requires forall u :: u != t ==> (u in s'.threads <==> u in s.threads)
    requires forall u :: u in s.threads && u != t ==> s'.threads[u] == s.threads[u]
    ensures KeepsWorkers(s, s', t)
  {
    if Alive(s) {
      var w :| w in s.threads && Worker(s.threads[w]) && !s.threads[w].Exit?;
      assert s'.threads[w] == s.threads[w];
    }
    if Newborn(s) {
      var w :| w in s.threads && s.threads[w].Born?;
      assert s'.threads[w] == s.threads[w];
    }
  }

  lemma WakeKeepsWorkers(s: State, s': State, t: Tid, c: Choice)
    requires t in s.threads && !Worker(s.threads[t]) && Wake(s, c) == Some(s')
    ensures KeepsWorkers(s, s', t)
  {
    if Alive(s) {
      var w :| w in s.threads && Worker(s.threads[w]) && !s.threads[w].Exit?;
      assert w in s'.threads && Worker(s'.threads[w]) && !s'.threads[w].Exit?;
    }
    if Newborn(s) {
      var w :| w in s.threads && s.threads[w].Born?;
      assert s'.threads[w] == s.threads[w];
    }
  }

  lemma NotifyKeepsStarters(g: Config, s: State, t: Tid, c: Choice)
    requires SingleWorker(s) && StartersFine(s) && t in s.threads
    requires s.threads[t].Notify? || s.threads[t].CloseNotify?
    ensures StartersFine(StepClient(g, s, t, s.threads[t], c))
  {
    var s' := StepClient(g, s, t, s.threads[t], c);
    if s' != s {
      var woken := Wake(s, c).value;
      assert s.threads[t] == woken.threads[t];
      WakeKeepsWorkers(s, woken, t, c);
      OneMoves(woken, s', t);
      KeepsBoth(s, woken, s', t);
      FrameKeepsStarters(s, s', t);
    }
  }

  lemma KeepsBoth(s: State, s': State, s'': State, t: Tid)
    requires KeepsWorkers(s, s', t) && KeepsWorkers(s', s'', t)
    ensures KeepsWorkers(s, s'', t)
  {
  }

  lemma StartKeepsStarters(g: Config, s: State, t: Tid, c: Choice)
    requires SingleWorker(s) && StartersFine(s) && t in s.threads && s.threads[t].Recheck?
    ensures StartersFine(StepProducer(g, s, t, s.threads[t], c))
  {
    assert s.lock == Some(t);
    assert forall u :: u in s.threads ==> !Starting(s.threads[u]);
    if !s.running && c.Give? && c.to !in s.threads {
      var s' := StepProducer(g, s, t, s.threads[t], c);
      assert s'.threads[c.to] == Born && s'.threads[t].Started?;
    }
  }

  lemma CloserKeepsStarters(s: State, t: Tid, c: Choice)
    requires SingleWorker(s) && StartersFine(s) && t in s.threads && Closing(s.threads[t])
    requires !s.threads[t].CloseNotify?
    ensures StartersFine(StepCloser(s, t, s.threads[t], c))
  {
    var s' := StepCloser(s, t, s.threads[t], c);
    OneMoves(s, s', t);
    FrameKeepsStarters(s, s', t);
  }

  lemma StartedKeepsStarters(g: Config, s: State, t: Tid, c: Choice)
    requires SingleWorker(s) && StartersFine(s) && t in s.threads && s.threads[t].Started?
    ensures StartersFine(StepProducer(g, s, t, s.threads[t], c))
  {
    var s' := StepProducer(g, s, t, s.threads[t], c);
    OneMoves(s, s', t);
    if !s.running {
      var w :| w in s.threads && Worker(s.threads[w]) && !s.threads[w].Exit?;
      assert s.threads[w].Born? && Newborn(s);
    }
    FrameKeepsStarters(s, s', t);
  }

  lemma ProducerKeepsStarters(g: Config, s: State, t: Tid, c: Choice)
    requires SingleWorker(s) && StartersFine(s) && t in s.threads && !Worker(s.threads[t]) && !Closing(s.threads[t])
    requires !s.threads[t].Recheck? && !s.threads[t].Notify? && !s.threads[t].Started?
    ensures StartersFine(StepProducer(g, s, t, s.threads[t], c))
  {
    var s' := StepProducer(g, s, t, s.threads[t], c);
    OneMoves(s, s', t);
    assert t in s'.threads && Starting(s'.threads[t]) ==> s' == s;
    FrameKeepsStarters(s, s', t);
  }

  lemma ClientKeepsStarters(g: Config, s: State, t: Tid, c: Choice)
    requires SingleWorker(s) && StartersFine(s) && t in s.threads && !Worker(s.threads[t])
    ensures StartersFine(StepClient(g, s, t, s.threads[t], c))
  {
    var pc := s.threads[t];
    if pc.Recheck? {
      StartKeepsStarters(g, s, t, c);
    } else if pc.Notify? || pc.CloseNotify? {
      NotifyKeepsStarters(g, s, t, c);
    } else if Closing(pc) {
      CloserKeepsStarters(s, t, c);
    } else if pc.Started? {
      StartedKeepsStarters(g, s, t, c);
    } else {
      ProducerKeepsStarters(g, s, t, c);
    }
  }

  lemma BornKeepsStarters(g: Config, s: State, w: Tid, c: Choice)
    requires SingleWorker(s) && StartersFine(s) && w in s.threads && s.threads[w].Born?
    ensures StartersFine(StepWorker(g, s, w, s.threads[w], c))
  {
    var s' := StepWorker(g, s, w, s.threads[w], c);
    assert s'.threads[w] == Test(false) && Alive(s');
    assert forall t :: t in s'.threads && Starting(s'.threads[t]) ==> t in s.threads && s'.threads[t].Started?;
  }

  lemma ExitKeepsStarters(g: Config, s: State, w: Tid, c: Choice)
    requires SingleWorker(s) && StartersFine(s) && w in s.threads && s.threads[w].Exit?
    ensures StartersFine(StepWorker(g, s, w, s.threads[w], c))
  {
    assert !Alive(s);
  }

  lemma LoopKeepsStarters(g: Config, s: State, w: Tid, c: Choice)
    requires SingleWorker(s) && StartersFine(s) && w in s.threads && InLoop(s.threads[w])
    requires !Escapes(g, s, Go(w, c))
    ensures StartersFine(StepWorker(g, s, w, s.threads[w], c))
  {
    var s' := StepWorker(g, s, w, s.threads[w], c);
    LoopStep(g, s, w, c);
    assert !Newborn(s);
    if s.stop == Some(false) {
      TurnStays(g, s, w, s.threads[w], c);
      assert Alive(s');
    }
  }

  /** With an unset stop event, only a put-back that raises takes the worker out of its loop. */
  lemma TurnStays(g: Config, s: State, w: Tid, pc: Pc, c: Choice)
    requires InLoop(pc) && s.stop == Some(false)
    requires !(pc.Pre? && s.held.Some? && c.Back? && IngestQueue.Full(s.delayed, g.pqueueMax))
    ensures InLoop(Turn(g, s, w, pc, c).pc)
  {
  }

  lemma WorkerKeepsStarters(g: Config, s: State, w: Tid, c: Choice)
    requires SingleWorker(s) && StartersFine(s) && w in s.threads && Worker(s.threads[w])
    requires !Escapes(g, s, Go(w, c))
    ensures StartersFine(StepWorker(g, s, w, s.threads[w], c))
  {
    if s.threads[w].Born? {
      BornKeepsStarters(g, s, w, c);
    } else if s.threads[w].Exit? {
      ExitKeepsStarters(g, s, w, c);
    } else {
      LoopKeepsStarters(g, s, w, c);
    }
  }

  lemma CallKeepsStarters(g: Config, s: State, a: Action)
    requires StartersFine(s) && (!a.Go? || a.t !in s.threads)
    ensures StartersFine(Next(g, s, a))
  {
    var s' := Next(g, s, a);
    assert forall u :: u in s.threads ==> u in s'.threads && s'.threads[u] == s.threads[u];
    if Alive(s) {
      var w :| w in s.threads && Worker(s.threads[w]) && !s.threads[w].Exit?;
      assert s'.threads[w] == s.threads[w];
    }
    if Newborn(s) {
      var w :| w in s.threads && s.threads[w].Born?;
      assert s'.threads[w] == s.threads[w];
    }
  }

  lemma NextKeepsStarters(g: Config, s: State, a: Action)
    requires SingleWorker(s) && StartersFine(s) && !Escapes(g, s, a)
    ensures StartersFine(Next(g, s, a))
  {
    if a.Go? && a.t in s.threads {
      if Worker(s.threads[a.t]) {
        WorkerKeepsStarters(g, s, a.t, a.choice);
      } else {
        ClientKeepsStarters(g, s, a.t, a.choice);
      }
    } else {
      CallKeepsStarters(g, s, a);
    }
  }

  lemma {:induction false} StartersStayFine(g: Config, actions: seq<Action>)
    requires forall i :: 0 <= i < |actions| ==> !Escapes(g, Run(g, actions[..i]), actions[i])
    ensures StartersFine(Run(g, actions))
  {
    if actions != [] {
      var init := actions[..|actions| - 1];
      assert forall i :: 0 <= i < |init| ==> actions[..i] == init[..i];
      StartersStayFine(g, init);
      RunHasSingleWorker(g, init);
      NextKeepsStarters(g, Run(g, init), actions[|actions| - 1]);
    }
  }

  /** No client is stuck in a run in which no put-back raises out of the worker's loop. */
  lemma NobodyStuckUnlessEscape(g: Config, actions: seq<Action>, t: Tid)
    requires forall i :: 0 <= i < |actions| ==> !Escapes(g, Run(g, actions[..i]), actions[i])
    ensures !Stuck(Run(g, actions), t)
  {
    StartersStayFine(g, actions);
  }

  // ---------------------------------------------------------------- a run in which one is

  /** Clients 0 to n - 1 have put a delayed item each, and none of them has gone on to start the worker. */
  function Waiting(n: nat): (threads: map<Tid, Pc>)
    ensures forall t: Tid :: t in threads <==> t < n
    ensures forall t :: t in threads ==> threads[t] == Ensure(false)
  {
    if n == 0 then map[] else Waiting(n - 1)[n - 1 := Ensure(false)]
  }

  lemma {:induction false} FillsUp(g: Config, n: nat) returns (actions: seq<Action>)
    requires n <= g.pqueueMax
    ensures Run(g, actions) == INIT.(delayed := n, threads := Waiting(n))
  {
    if n == 0 {
      actions := [];
    } else {
      var before := FillsUp(g, n - 1);
      Then(g, before, CallEnqueueAfter(n - 1));
      actions := before + [CallEnqueueAfter(n - 1)];
    }
  }

  /** Client 0 acquires the lock. */
  lemma Locks(g: Config, s: State)
    requires 0 in s.threads && s.threads[0] == Ensure(false) && !s.running && s.lock.None?
    ensures RunFrom(g, s, [Go(0, Plain)] + [Go(0, Plain)]) == At(s, 0, Recheck(false)).(lock := Some(0))
  {
    var s1 := At(s, 0, Locking(false));
    assert Next(g, s, Go(0, Plain)) == s1;
    assert s1.threads[0 := Recheck(false)] == s.threads[0 := Recheck(false)];
    TwoSteps(g, s, Go(0, Plain), Go(0, Plain));
  }

  /** It starts worker w. */
  lemma Starts(g: Config, s: State, w: Tid)
    requires 0 in s.threads && s.threads[0] == Recheck(false) && w !in s.threads && !s.running
    ensures RunFrom(g, s, [Go(0, Give(w))])
            == s.(stop := Some(false), threads := s.threads[w := Born][0 := Started(false)])
  {
    OneStep(g, s, Go(0, Give(w)));
  }

  /** The worker sets the flag and finds the stop event unset. */
  lemma IsBorn(g: Config, s: State, w: Tid)
    requires w in s.threads && s.threads[w] == Born && forall t :: t in s.threads ==> !s.threads[t].Awaiting?
    ensures Next(g, s, Go(w, Plain)) == At(s, w, Test(false)).(running := true)
  {
    assert (map t | t in s.threads :: Signal(s.threads[t])) == s.threads;
  }

  lemma Tests(g: Config, s: State, w: Tid)
    requires w in s.threads && s.threads[w] == Test(false) && s.stop == Some(false)
    ensures RunFrom(g, s, [Go(w, Plain)] + [Go(w, Plain)]) == At(s, w, Pre)
  {
    var s1 := At(s, w, TestAgain(false));
    InLoopStep(g, s, w, Plain);
    InLoopStep(g, s1, w, Plain);
    assert s1.threads[w := Pre] == s.threads[w := Pre];
    TwoSteps(g, s, Go(w, Plain), Go(w, Plain));
  }

  /** It takes an entry off the delayed queue. */
  lemma TakesEntry(g: Config, s: State, w: Tid)
    requires w in s.threads && s.threads[w] == Pre && s.held.None? && s.delayed > 0 && s.staleDelayed == 0
    ensures Next(g, s, Go(w, Get(false))) == s.(delayed := s.delayed - 1, held := Some(false))
  {
    InLoopStep(g, s, w, Get(false));
    assert s.threads[w := Pre] == s.threads;
  }

  lemma GetsEntry(g: Config, s: State, w: Tid) returns (rest: seq<Action>)
    requires w in s.threads && s.threads[w] == Born && forall t :: t in s.threads ==> !s.threads[t].Awaiting?
    requires s.stop == Some(false) && s.held.None? && s.delayed > 0 && s.staleDelayed == 0
    ensures RunFrom(g, s, rest) == At(s, w, Pre).(running := true, delayed := s.delayed - 1, held := Some(false))
  {
    var s1 := At(s, w, Test(false)).(running := true);
    var s2 := At(s, w, Pre).(running := true);
    IsBorn(g, s, w);
    Tests(g, s1, w);
    assert s1.threads[w := Pre] == s2.threads;
    TakesEntry(g, s2, w);
    RunFromStep(g, s1, [Go(w, Plain)] + [Go(w, Plain)], Go(w, Get(false)));
    var more := [Go(w, Plain)] + [Go(w, Plain)] + [Go(w, Get(false))];
    RunFromCons(g, s, Go(w, Plain), more);
    rest := [Go(w, Plain)] + more;
  }

  /** Its put-back raises when a client has taken the slot, and it is gone. */
  lemma Raises(g: Config, s: State, w: Tid)
    requires w in s.threads && s.threads[w] == Pre && s.held.Some? && IngestQueue.Full(s.delayed, g.pqueueMax)
    ensures RunFrom(g, s, [Go(w, Back)] + [Go(w, Plain)])
            == s.(running := false, held := None, threads := s.threads - {w})
  {
    var s1 := At(s, w, Exit(false)).(held := None);
    PutBackRaises(g, s, w);
    assert s1.threads - {w} == s.threads - {w};
    TwoSteps(g, s, Go(w, Back), Go(w, Plain));
  }

  lemma PutBackRaises(g: Config, s: State, w: Tid)
    requires w in s.threads && s.threads[w] == Pre && s.held.Some? && IngestQueue.Full(s.delayed, g.pqueueMax)
    ensures Next(g, s, Go(w, Back)) == At(s, w, Exit(false)).(held := None)
  {
    InLoopStep(g, s, w, Back);
  }

  lemma LosesSlot(g: Config, s: State, w: Tid, u: Tid) returns (rest: seq<Action>)
    requires w in s.threads && s.threads[w] == Pre && s.held.Some? && u !in s.threads
    requires g.pqueueMax > 0 && s.delayed == g.pqueueMax - 1
    ensures RunFrom(g, s, rest)
            == s.(running := false, delayed := g.pqueueMax, held := None,
                  threads := s.threads[u := Ensure(false)] - {w})
  {
    var s1 := At(s, u, Ensure(false)).(delayed := g.pqueueMax);
    Raises(g, s1, w);
    RunFromCons(g, s, CallEnqueueAfter(u), [Go(w, Back)] + [Go(w, Plain)]);
    rest := [CallEnqueueAfter(u)] + ([Go(w, Back)] + [Go(w, Plain)]);
  }

  /**
   The delayed queue is full when client 0 starts the worker; another client takes the slot of the entry
   that the worker has in its hand, and putting it back raises.
   */
  lemma ClientGetsStuck(g: Config) returns (actions: seq<Action>, t: Tid)
    requires g.pqueueMax > 0
    ensures Stuck(Run(g, actions), t)
  {
    t := 0;
    var n: nat := g.pqueueMax;
    var w, u := n, n + 1;
    var filled := FillsUp(g, n);
    var locked := filled + ([Go(0, Plain)] + [Go(0, Plain)]);
    Locks(g, Run(g, filled));
    RunOn(g, filled, [Go(0, Plain)] + [Go(0, Plain)]);
    var started := locked + [Go(0, Give(w))];
    Starts(g, Run(g, locked), w);
    RunOn(g, locked, [Go(0, Give(w))]);
    var get := GetsEntry(g, Run(g, started), w);
    RunOn(g, started, get);
    var lose := LosesSlot(g, Run(g, started + get), w, u);
    RunOn(g, started + get, lose);
    actions := started + get + lose;
  }

  ghost predicate Sticks(g: Config, actions: seq<Action>, t: Tid) { Stuck(Run(g, actions), t) }

  /** A client can be stuck exactly when the delayed queue is bounded. */
  lemma StuckPossibleExactlyWhen(g: Config)
    ensures (exists actions, t :: Sticks(g, actions, t)) <==> g.pqueueMax > 0
  {
    if g.pqueueMax > 0 {
      var actions, t := ClientGetsStuck(g);
      assert Sticks(g, actions, t);
    } else {
      forall actions: seq<Action>, t: Tid ensures !Sticks(g, actions, t) {
        NobodyStuckUnlessEscape(g, actions, t);
      }
    }
  }
}
