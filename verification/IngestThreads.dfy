/**
 The threads of the ingest queue (src/qorme/ingest/queue.py) as a step relation: any number of
 clients call enqueue, enqueue_after and close, and workers are started on demand. Each step is one
 access to the shared state; the state keeps the sizes of the two queues instead of their contents.

 The model allows more than the code does in three respects: the taking of a batch may raise at any
 moment, waits may time out at any moment, and any delayed item may be due or not.
 */
module IngestThreads {
  import opened Basics
  import IngestQueue

  type Tid = nat

  datatype Config = Config(queueMax: int, pqueueMax: int, batchMin: int, batchMax: int)

  /**
   Program counters. notify says that the call goes on to _maybe_flush; flag is what the worker read
   of the stop event before its flush; overflow, that the flush of everything met a full FIFO; taken,
   the size of the batch so far; drained, that the last flush completed with the flag set and without
   overflow. Again: the first of the two reads of the stop event in _should_stop has found one. A
   starter has started the worker and not yet waited for the running flag, or waits for it.
   */
  datatype Pc =
    // a client in _ensure_running (82-97), _maybe_flush (74) and _notify (67)
    | Ensure(notify: bool) | Locking(notify: bool) | Recheck(notify: bool)
    | Started(notify: bool) | Awaiting(notify: bool, signaled: bool) | Check | Notify
    // a client in close (106-119)
    | CloseLocking | CloseRecheck | CloseNotify | Join
    // the worker in _loop (127-140)
    | Born | Test(drained: bool) | TestAgain(drained: bool) | Pre
    | Enter | Eval | EvalAgain | Blocked(notified: bool) | ReadFlag | ReadAgain
    | FlushMove(flag: bool) | FlushTake(flag: bool, overflow: bool, taken: nat) | Exit(drained: bool)

  predicate Worker(pc: Pc) {
    pc.Born? || pc.Test? || pc.TestAgain? || pc.Pre? || pc.Enter? || pc.Eval? || pc.EvalAgain? || pc.Blocked?
    || pc.ReadFlag? || pc.ReadAgain? || pc.FlushMove? || pc.FlushTake? || pc.Exit?
  }

  predicate Closing(pc: Pc) { pc.CloseLocking? || pc.CloseRecheck? || pc.CloseNotify? || pc.Join? }

  /**
   queued and delayed are the sizes of the queues, of which staleQueued and staleDelayed were
   accepted before the stop event was set; held is the entry the worker has taken off the delayed queue
   and not yet placed, and whether it is such a stale one; stop is None when there is no stop event.
   */
  datatype State = State(queued: nat, delayed: nat, staleQueued: nat, staleDelayed: nat, held: Option<bool>,
                         running: bool, lock: Option<Tid>, condition: Option<Tid>, stop: Option<bool>,
                         threads: map<Tid, Pc>)

  const INIT := State(0, 0, 0, 0, None, false, None, None, None, map[])

  /** How a step resolves what the code leaves to the environment. */
  datatype Choice =
    | Plain
    | Get(stale: bool)      // the next entry of the delayed queue is a stale or a fresh one
    | Into                  // the held entry goes to the FIFO
    | Back                  // the held entry is put back
    | Take(stale: bool)     // the next item of the FIFO is a stale or a fresh one
    | Give(to: Tid)         // the thread started, or woken
    | Fail                  // an exception in the taking of a batch, or a thread that cannot be started
    | TimeOut

  datatype Action = CallEnqueue(t: Tid) | CallEnqueueAfter(t: Tid) | CallClose(t: Tid) | Go(t: Tid, choice: Choice)

  predicate ShouldFlush(g: Config, s: State) { s.queued >= g.batchMin }

  predicate ShouldStop(s: State) { s.stop == Some(true) }

  function At(s: State, t: Tid, pc: Pc): State { s.(threads := s.threads[t := pc]) }

  function Return(s: State, t: Tid): State { s.(threads := s.threads - {t}) }

  function Ensured(s: State, t: Tid, notify: bool): State {
    if notify then At(s, t, Check) else Return(s, t)
  }

  /** One waiter is woken, if there is any. */
  function Wake(s: State, c: Choice): Option<State> {
    if c.Give? && c.to in s.threads && s.threads[c.to] == Blocked(false) then Some(At(s, c.to, Blocked(true)))
    else if forall t :: t in s.threads ==> s.threads[t] != Blocked(false) then Some(s)
    else None
  }

  function StepClient(g: Config, s: State, t: Tid, pc: Pc, c: Choice): State {
    if Closing(pc) then StepCloser(s, t, pc, c) else StepProducer(g, s, t, pc, c)
  }

  function StepProducer(g: Config, s: State, t: Tid, pc: Pc, c: Choice): State {
    match pc
    case Ensure(n) => if s.running then Ensured(s, t, n) else At(s, t, Locking(n))
    case Locking(n) => if s.lock.None? then At(s, t, Recheck(n)).(lock := Some(t)) else s
    case Recheck(n) =>
      if s.running then Ensured(s, t, n).(lock := None)
      else if c.Fail? then Ensured(s, t, n).(lock := None, stop := None)
      else if c.Give? && c.to !in s.threads then
        At(At(s, c.to, Born), t, Started(n)).(stop := Some(false))
      else s
    case Started(n) => if s.running then Ensured(s, t, n).(lock := None) else At(s, t, Awaiting(n, false))
    case Awaiting(n, signaled) => if signaled then Ensured(s, t, n).(lock := None) else s
    case Check => if ShouldFlush(g, s) then At(s, t, Notify) else Return(s, t)
    case Notify =>
      if s.condition.Some? || Wake(s, c).None? then s else Return(Wake(s, c).value, t)
    case _ => s
  }

  function Staled(held: Option<bool>): Option<bool> { if held.Some? then Some(true) else None }

  function StepCloser(s: State, t: Tid, pc: Pc, c: Choice): State {
    match pc
    case CloseLocking => if s.lock.None? then At(s, t, CloseRecheck).(lock := Some(t)) else s
    case CloseRecheck =>
      if !s.running then Return(s, t).(lock := None)
      else if s.stop == Some(false) then
        At(s, t, CloseNotify).(stop := Some(true), staleQueued := s.queued, staleDelayed := s.delayed,
                               held := Staled(s.held))
      else At(s, t, CloseNotify)
    case CloseNotify =>
      if s.condition.Some? || Wake(s, c).None? then s else At(Wake(s, c).value, t, Join)
    case Join =>
      if c.TimeOut? || forall w :: w in s.threads ==> !Worker(s.threads[w]) then
        Return(s, t).(lock := None, stop := None)
      else s
    case _ => s
  }

  predicate CanGet(s: State, stale: bool) {
    s.delayed > 0 && if stale then s.staleDelayed > 0 else s.delayed > s.staleDelayed
  }

  function GetEntry(s: State, stale: bool): State
    requires CanGet(s, stale)
  {
    s.(delayed := s.delayed - 1, staleDelayed := if stale then s.staleDelayed - 1 else s.staleDelayed,
       held := Some(stale))
  }

  function PutInto(s: State): State
    requires s.held.Some?
  {
    s.(queued := s.queued + 1, staleQueued := if s.held.value then s.staleQueued + 1 else s.staleQueued, held := None)
  }

  function PutBack(s: State): State
    requires s.held.Some?
  {
    s.(delayed := s.delayed + 1, staleDelayed := if s.held.value then s.staleDelayed + 1 else s.staleDelayed,
       held := None)
  }

  /** The loop of _flush_pqueue goes on, ends, raises, or is not moved by this choice. */
  datatype Moved = Goes(s: State) | Ends(s: State, overflow: bool) | Raises(s: State) | Stays

  /** One access of that loop; all says that everything is flushed. A put-back that meets a full queue raises. */
  function MoveStep(g: Config, s: State, all: bool, c: Choice): Moved {
    if s.held.None? then
      if s.delayed == 0 then (if c.Plain? then Ends(s, false) else Stays)
      else if c.Get? && CanGet(s, c.stale) then Goes(GetEntry(s, c.stale))
      else Stays
    else if c.Into? && !IngestQueue.Full(s.queued, g.queueMax) then Goes(PutInto(s))
    else if c.Back? && (!all || IngestQueue.Full(s.queued, g.queueMax)) then
      if IngestQueue.Full(s.delayed, g.pqueueMax) then Raises(s.(held := None)) else Ends(PutBack(s), all)
    else Stays
  }

  predicate CanTake(s: State, stale: bool) {
    s.queued > 0 && if stale then s.staleQueued > 0 else s.queued > s.staleQueued
  }

  function TakeItem(s: State, stale: bool): State
    requires CanTake(s, stale)
  {
    s.(queued := s.queued - 1, staleQueued := if stale then s.staleQueued - 1 else s.staleQueued)
  }

  function Signal(pc: Pc): Pc { if pc.Awaiting? then pc.(signaled := true) else pc }

  /** The queues and the condition after an access of the worker, and where it stands then. */
  datatype Turned = Turned(s: State, pc: Pc)

  /** The predicate was false: the wait is over, or the worker waits, releasing the condition's lock. */
  function Sleep(s: State, c: Choice): Turned {
    Turned(s.(condition := None), if c.TimeOut? then ReadFlag else Blocked(false))
  }

  /** One access of the worker in its loop. */
  function Turn(g: Config, s: State, w: Tid, pc: Pc, c: Choice): Turned {
    match pc
    case Test(drained) => Turned(s, if s.stop.None? then Pre else TestAgain(drained))
    case TestAgain(drained) =>
      Turned(s, if s.stop.None? then Exit(false) else if s.stop.value then Exit(drained) else Pre)
    case Pre =>
      (match MoveStep(g, s, false, c)
       case Goes(s') => Turned(s', pc)
       case Ends(s', _) => Turned(s', Enter)
       case Raises(s') => Turned(s', Exit(false))
       case Stays => Turned(s, pc))
    case Enter => if s.condition.None? then Turned(s.(condition := Some(w)), Eval) else Turned(s, pc)
    case Eval =>
      if ShouldFlush(g, s) then Turned(s.(condition := None), ReadFlag)
      else if s.stop.None? then Sleep(s, c) else Turned(s, EvalAgain)
    case EvalAgain =>
      if s.stop.None? then Turned(s.(condition := None), Exit(false))
      else if s.stop.value then Turned(s.(condition := None), ReadFlag) else Sleep(s, c)
    case Blocked(notified) => Turned(s, if notified || c.TimeOut? then Enter else pc)
    case ReadFlag => Turned(s, if s.stop.None? then FlushMove(false) else ReadAgain)
    case ReadAgain => Turned(s, if s.stop.None? then Test(false) else FlushMove(s.stop.value))
    case FlushMove(flag) =>
      (match MoveStep(g, s, flag, c)
       case Goes(s') => Turned(s', pc)
       case Ends(s', overflow) => Turned(s', FlushTake(flag, overflow, 0))
       case Raises(s') => Turned(s', Test(false))
       case Stays => Turned(s, pc))
    case FlushTake(flag, overflow, taken) =>
      if c.Fail? then Turned(s, Test(false))
      else if s.queued == 0 || (!flag && taken == g.batchMax) then
        Turned(s, if c.Take? then pc else Test(flag && !overflow))
      else if c.Take? && CanTake(s, c.stale) then
        Turned(TakeItem(s, c.stale), FlushTake(flag, overflow, taken + 1))
      else Turned(s, pc)
    case _ => Turned(s, pc)
  }

  function StepWorker(g: Config, s: State, w: Tid, pc: Pc, c: Choice): State {
    match pc
    case Born =>
      At(s.(threads := map t | t in s.threads :: Signal(s.threads[t])), w, Test(false)).(running := true)
    case Exit(_) => Return(s, w).(running := false)
    case _ => At(Turn(g, s, w, pc, c).s, w, Turn(g, s, w, pc, c).pc)
  }

  /** An action that is not enabled changes nothing. */
  function Next(g: Config, s: State, a: Action): State {
    match a
    case CallEnqueue(t) =>
      if t in s.threads || IngestQueue.Full(s.queued, g.queueMax) then s
      else At(s, t, Ensure(true)).(queued := s.queued + 1)
    case CallEnqueueAfter(t) =>
      if t in s.threads || IngestQueue.Full(s.delayed, g.pqueueMax) then s
      else At(s, t, Ensure(false)).(delayed := s.delayed + 1)
    case CallClose(t) => if t in s.threads || !s.running then s else At(s, t, CloseLocking)
    case Go(t, c) =>
      if t !in s.threads then s
      else if Worker(s.threads[t]) then StepWorker(g, s, t, s.threads[t], c)
      else StepClient(g, s, t, s.threads[t], c)
  }

  function Run(g: Config, actions: seq<Action>): State {
    if actions == [] then INIT else Next(g, Run(g, actions[..|actions| - 1]), actions[|actions| - 1])
  }

  // ---------------------------------------------------------------- a single worker

  predicate HoldsLock(pc: Pc) {
    pc.Recheck? || pc.Started? || pc.Awaiting? || pc.CloseRecheck? || pc.CloseNotify? || pc.Join?
  }

  /** The running flag has not been set since this client started the worker, as far as it knows. */
  predicate Starting(pc: Pc) { pc.Started? || (pc.Awaiting? && !pc.signaled) }

  ghost predicate SingleWorker(s: State) {
    && (forall t :: t in s.threads && HoldsLock(s.threads[t]) ==> s.lock == Some(t))
    && (forall w :: w in s.threads && Worker(s.threads[w]) && !s.threads[w].Born? ==> s.running)
    && (forall w :: w in s.threads && s.threads[w].Born? ==>
          !s.running && s.lock.Some? && s.lock.value in s.threads && Starting(s.threads[s.lock.value]))
    && (forall v, w :: v in s.threads && w in s.threads && Worker(s.threads[v]) && Worker(s.threads[w]) ==> v == w)
  }

  /** A thread is started only under the lock, with the flag clear: then no worker is alive. */
  lemma BirthKeepsSingleWorker(s: State, t: Tid, notify: bool, w: Tid)
    requires SingleWorker(s) && t in s.threads && s.threads[t].Recheck? && !s.running && w !in s.threads
    ensures SingleWorker(At(At(s, w, Born), t, Started(notify)).(stop := Some(false)))
  {
    assert s.lock == Some(t);
    assert forall u :: u in s.threads ==> !Worker(s.threads[u]);
  }

  lemma StartKeepsSingleWorker(g: Config, s: State, t: Tid, c: Choice)
    requires SingleWorker(s) && t in s.threads && s.threads[t].Recheck?
    ensures SingleWorker(StepClient(g, s, t, s.threads[t], c))
  {
    var s' := StepClient(g, s, t, s.threads[t], c);
    if !s.running && c.Give? && c.to !in s.threads {
      BirthKeepsSingleWorker(s, t, s.threads[t].notify, c.to);
    } else if s' != s {
      RecheckStep(g, s, t, c);
      MoveKeepsSingleWorker(s, s', t);
    }
  }

  lemma RecheckStep(g: Config, s: State, t: Tid, c: Choice)
    requires t in s.threads && s.threads[t].Recheck? && s.lock == Some(t)
    requires s.running || !c.Give? || c.to in s.threads
    ensures var s' := StepClient(g, s, t, s.threads[t], c); s' == s || OnlyMoves(s, s', t)
  {
  }

  lemma WakeKeepsSingleWorker(s: State, c: Choice)
    requires SingleWorker(s) && Wake(s, c).Some?
    ensures SingleWorker(Wake(s, c).value)
    ensures forall t :: t in s.threads && !Worker(s.threads[t]) ==>
              t in Wake(s, c).value.threads && Wake(s, c).value.threads[t] == s.threads[t]
  {
  }

  /** A step in which client t alone moves on, at most acquiring or releasing the lock. */
  ghost predicate OnlyMoves(s: State, s': State, t: Tid) {
    && s'.running == s.running
    && (forall u :: u != t ==> (u in s'.threads <==> u in s.threads))
    && (forall u :: u in s.threads && u != t ==> s'.threads[u] == s.threads[u])
    && (t in s'.threads ==> !Worker(s'.threads[t]) && (HoldsLock(s'.threads[t]) ==> s'.lock == Some(t)))
    && (s'.lock == s.lock || (s.lock.None? && s'.lock == Some(t)) || (s.lock == Some(t) && s'.lock.None?))
  }

  lemma MoveKeepsSingleWorker(s: State, s': State, t: Tid)
    requires SingleWorker(s) && OnlyMoves(s, s', t)
    requires t in s.threads && !Worker(s.threads[t])
    requires s.running || !Starting(s.threads[t]) || (t in s'.threads && Starting(s'.threads[t]) && s'.lock == s.lock)
    ensures SingleWorker(s')
  {
  }

  lemma NotifyKeepsSingleWorker(g: Config, s: State, t: Tid, c: Choice)
    requires SingleWorker(s) && t in s.threads && (s.threads[t].Notify? || s.threads[t].CloseNotify?)
    ensures SingleWorker(StepClient(g, s, t, s.threads[t], c))
  {
    var s' := StepClient(g, s, t, s.threads[t], c);
    if s' != s {
      var woken := Wake(s, c).value;
      WakeKeepsSingleWorker(s, c);
      NotifyStep(g, s, t, c);
      MoveKeepsSingleWorker(woken, s', t);
    }
  }

  lemma NotifyStep(g: Config, s: State, t: Tid, c: Choice)
    requires t in s.threads && (s.threads[t].Notify? || (s.threads[t].CloseNotify? && s.lock == Some(t)))
    ensures var s' := StepClient(g, s, t, s.threads[t], c);
            s' == s || (Wake(s, c).Some? && OnlyMoves(Wake(s, c).value, s', t))
  {
  }

  lemma ProducerStep(g: Config, s: State, t: Tid, c: Choice)
    requires t in s.threads && (HoldsLock(s.threads[t]) ==> s.lock == Some(t))
    requires !Worker(s.threads[t]) && !Closing(s.threads[t]) && !s.threads[t].Recheck? && !s.threads[t].Notify?
    ensures var s' := StepProducer(g, s, t, s.threads[t], c);
            s' == s || (OnlyMoves(s, s', t)
                        && (s.running || !Starting(s.threads[t])
                            || (t in s'.threads && Starting(s'.threads[t]) && s'.lock == s.lock)))
  {
  }

  lemma CloserStep(s: State, t: Tid, c: Choice)
    requires t in s.threads && (HoldsLock(s.threads[t]) ==> s.lock == Some(t))
    requires Closing(s.threads[t]) && !s.threads[t].CloseNotify?
    ensures var s' := StepCloser(s, t, s.threads[t], c); s' == s || OnlyMoves(s, s', t)
  {
  }

  lemma ClientKeepsSingleWorker(g: Config, s: State, t: Tid, c: Choice)
    requires SingleWorker(s) && t in s.threads && !Worker(s.threads[t])
    ensures SingleWorker(StepClient(g, s, t, s.threads[t], c))
  {
    var pc := s.threads[t];
    if pc.Recheck? {
      StartKeepsSingleWorker(g, s, t, c);
    } else if pc.Notify? || pc.CloseNotify? {
      NotifyKeepsSingleWorker(g, s, t, c);
    } else {
      var s' := StepClient(g, s, t, pc, c);
      if Closing(pc) { CloserStep(s, t, c); } else { ProducerStep(g, s, t, c); }
      if s' != s { MoveKeepsSingleWorker(s, s', t); }
    }
  }

  /** A step in which worker w alone moves on, staying in its loop. */
  ghost predicate OnlyLoops(s: State, s': State, w: Tid) {
    && s'.running == s.running && s'.lock == s.lock && s'.stop == s.stop
    && s'.threads.Keys == s.threads.Keys
    && (forall u :: u in s.threads && u != w ==> s'.threads[u] == s.threads[u])
    && w in s'.threads && Worker(s'.threads[w]) && !s'.threads[w].Born?
  }

  lemma LoopKeepsSingleWorker(s: State, s': State, w: Tid)
    requires SingleWorker(s) && w in s.threads && Worker(s.threads[w]) && !s.threads[w].Born?
    requires OnlyLoops(s, s', w)
    ensures SingleWorker(s')
  {
  }

  /** The loop of _flush_pqueue touches the queues only. */
  lemma MoveTouchesQueues(g: Config, s: State, all: bool, c: Choice)
    ensures var m := MoveStep(g, s, all, c);
            m.Stays? || (m.s.running == s.running && m.s.lock == s.lock && m.s.stop == s.stop
                         && m.s.condition == s.condition && m.s.threads == s.threads)
  {
  }

  predicate InLoop(pc: Pc) { Worker(pc) && !pc.Born? && !pc.Exit? }

  lemma TurnFrame(g: Config, s: State, w: Tid, pc: Pc, c: Choice)
    requires InLoop(pc)
    ensures var t := Turn(g, s, w, pc, c);
            && t.s.running == s.running && t.s.lock == s.lock && t.s.stop == s.stop && t.s.threads == s.threads
            && Worker(t.pc) && !t.pc.Born?
  {
    MoveTouchesQueues(g, s, false, c);
    if pc.FlushMove? { MoveTouchesQueues(g, s, pc.flag, c); }
  }

  /** A step of the worker between setting and clearing the flag. */
  lemma LoopStep(g: Config, s: State, w: Tid, c: Choice)
    requires w in s.threads && InLoop(s.threads[w])
    ensures var s' := StepWorker(g, s, w, s.threads[w], c);
            OnlyLoops(s, s', w) && s'.threads[w] == Turn(g, s, w, s.threads[w], c).pc
  {
    TurnFrame(g, s, w, s.threads[w], c);
    InLoopStep(g, s, w, c);
  }

  lemma InLoopStep(g: Config, s: State, w: Tid, c: Choice)
    requires w in s.threads && InLoop(s.threads[w])
    ensures StepWorker(g, s, w, s.threads[w], c)
            == At(Turn(g, s, w, s.threads[w], c).s, w, Turn(g, s, w, s.threads[w], c).pc)
  {
  }

  /** The client that waits for the flag is told. */
  lemma BornStep(g: Config, s: State, w: Tid, c: Choice)
    requires w in s.threads && s.threads[w].Born?
    ensures var s' := StepWorker(g, s, w, s.threads[w], c);
            && s'.running && s'.lock == s.lock && s'.threads.Keys == s.threads.Keys && s'.threads[w] == Test(false)
            && forall u :: u in s.threads && u != w ==> s'.threads[u] == Signal(s.threads[u])
  {
  }

  lemma BornKeepsSingleWorker(g: Config, s: State, w: Tid, c: Choice)
    requires SingleWorker(s) && w in s.threads && s.threads[w].Born?
    ensures SingleWorker(StepWorker(g, s, w, s.threads[w], c))
  {
    BornStep(g, s, w, c);
  }

  lemma ExitKeepsSingleWorker(g: Config, s: State, w: Tid, c: Choice)
    requires SingleWorker(s) && w in s.threads && s.threads[w].Exit?
    ensures SingleWorker(StepWorker(g, s, w, s.threads[w], c))
  {
  }

  lemma WorkerKeepsSingleWorker(g: Config, s: State, w: Tid, c: Choice)
    requires SingleWorker(s) && w in s.threads && Worker(s.threads[w])
    ensures SingleWorker(StepWorker(g, s, w, s.threads[w], c))
  {
    var pc := s.threads[w];
    if pc.Born? {
      BornKeepsSingleWorker(g, s, w, c);
    } else if pc.Exit? {
      ExitKeepsSingleWorker(g, s, w, c);
    } else {
      LoopStep(g, s, w, c);
      LoopKeepsSingleWorker(s, StepWorker(g, s, w, pc, c), w);
    }
  }

  lemma CallKeepsSingleWorker(g: Config, s: State, a: Action)
    requires SingleWorker(s) && !a.Go?
    ensures SingleWorker(Next(g, s, a))
  {
    var s' := Next(g, s, a);
    if s' != s { ArrivalKeepsSingleWorker(s, s', a.t, s'.threads[a.t]); }
  }

  lemma ArrivalKeepsSingleWorker(s: State, s': State, t: Tid, pc: Pc)
    requires SingleWorker(s) && t !in s.threads && !Worker(pc) && !HoldsLock(pc)
    requires s'.threads == s.threads[t := pc] && s'.running == s.running && s'.lock == s.lock
    ensures SingleWorker(s')
  {
  }

  lemma NextKeepsSingleWorker(g: Config, s: State, a: Action)
    requires SingleWorker(s)
    ensures SingleWorker(Next(g, s, a))
  {
    if !a.Go? {
      CallKeepsSingleWorker(g, s, a);
    } else if a.t in s.threads {
      if Worker(s.threads[a.t]) {
        WorkerKeepsSingleWorker(g, s, a.t, a.choice);
      } else {
        ClientKeepsSingleWorker(g, s, a.t, a.choice);
      }
    }
  }

  /**
   In every interleaving of enqueue, enqueue_after and close, with or without a timed-out join, at
   most one thread is between its start and the clearing of the running flag.
   */
  lemma {:induction false} RunHasSingleWorker(g: Config, actions: seq<Action>)
    ensures SingleWorker(Run(g, actions))
  {
    if actions != [] {
      RunHasSingleWorker(g, actions[..|actions| - 1]);
      NextKeepsSingleWorker(g, Run(g, actions[..|actions| - 1]), actions[|actions| - 1]);
    }
  }

  // ---------------------------------------------------------------- no lost wakeup

  /** A client between its put and its notify. */
  predicate OnItsWay(pc: Pc) {
    pc == Ensure(true) || pc == Locking(true) || pc == Recheck(true) || pc == Started(true)
    || (pc.Awaiting? && pc.notify)
    || pc.Check? || pc.Notify?
  }

  ghost predicate Asleep(s: State) { exists w :: w in s.threads && s.threads[w] == Blocked(false) }

  /** It has found too few items in the queue, and is about to sleep. */
  ghost predicate Dozing(s: State) { exists w :: w in s.threads && s.threads[w].EvalAgain? }

  ghost predicate ProducerComing(s: State) { exists t :: t in s.threads && OnItsWay(s.threads[t]) }

  ghost predicate CloserComing(s: State) { exists t :: t in s.threads && s.threads[t].CloseNotify? }

  /**
   A worker that sleeps although it should flush is about to be notified by the client that put the
   item, and one that sleeps although it should stop by the client that closes.
   */
  ghost predicate NoLostWakeup(g: Config, s: State) {
    && (Asleep(s) && s.queued >= g.batchMin ==> ProducerComing(s))
    && (Asleep(s) && s.stop == Some(true) ==> CloserComing(s))
    && (Dozing(s) && s.queued >= g.batchMin ==> ProducerComing(s))
    && (forall w :: w in s.threads && (s.threads[w].Eval? || s.threads[w].EvalAgain?) ==> s.condition == Some(w))
  }

  /** A notify reaches the only worker there is. */
  lemma WakeWakes(s: State, c: Choice)
    requires SingleWorker(s) && Wake(s, c).Some?
    ensures !Asleep(Wake(s, c).value)
    ensures Wake(s, c).value.queued == s.queued && Wake(s, c).value.stop == s.stop
  {
  }

  lemma NotifyKeepsWakeups(g: Config, s: State, t: Tid, c: Choice)
    requires SingleWorker(s) && NoLostWakeup(g, s) && t in s.threads
    requires s.threads[t].Notify? || s.threads[t].CloseNotify?
    ensures NoLostWakeup(g, StepClient(g, s, t, s.threads[t], c))
  {
    if StepClient(g, s, t, s.threads[t], c) != s { WakeWakes(s, c); }
  }

  /** The worker is neither asleep nor about to sleep, nor anywhere else under the condition's lock. */
  predicate Awake(pc: Pc) { pc != Blocked(false) && !pc.Eval? && !pc.EvalAgain? }

  /** Any other step of a client puts nobody to sleep, and moves a client on without losing its errand. */
  ghost predicate KeepsErrands(g: Config, s: State, s': State, t: Tid) {
    && s'.queued == s.queued && s'.condition == s.condition
    && (forall u :: u in s.threads && u != t ==> u in s'.threads && s'.threads[u] == s.threads[u])
    && (forall u :: u in s'.threads && !Awake(s'.threads[u]) ==> u in s.threads && u != t)
    && (t in s.threads && OnItsWay(s.threads[t]) && ShouldFlush(g, s) ==> t in s'.threads && OnItsWay(s'.threads[t]))
    && (t in s.threads ==> !s.threads[t].CloseNotify?)
    && (ShouldStop(s') ==> ShouldStop(s) || (t in s'.threads && s'.threads[t].CloseNotify?))
  }

  lemma ErrandsKeepWakeups(g: Config, s: State, s': State, t: Tid)
    requires NoLostWakeup(g, s) && KeepsErrands(g, s, s', t)
    ensures NoLostWakeup(g, s')
  {
  }

  lemma ProducerKeepsErrands(g: Config, s: State, t: Tid, c: Choice)
    requires t in s.threads && !Worker(s.threads[t]) && !Closing(s.threads[t]) && !s.threads[t].Notify?
    ensures KeepsErrands(g, s, StepProducer(g, s, t, s.threads[t], c), t)
  {
  }

  lemma CloserKeepsErrands(g: Config, s: State, t: Tid, c: Choice)
    requires t in s.threads && Closing(s.threads[t]) && !s.threads[t].CloseNotify?
    ensures KeepsErrands(g, s, StepCloser(s, t, s.threads[t], c), t)
  {
  }

  lemma ClientKeepsWakeups(g: Config, s: State, t: Tid, c: Choice)
    requires SingleWorker(s) && NoLostWakeup(g, s) && t in s.threads && !Worker(s.threads[t])
    ensures NoLostWakeup(g, StepClient(g, s, t, s.threads[t], c))
  {
    var pc := s.threads[t];
    if pc.Notify? || pc.CloseNotify? {
      NotifyKeepsWakeups(g, s, t, c);
    } else {
      if Closing(pc) { CloserKeepsErrands(g, s, t, c); } else { ProducerKeepsErrands(g, s, t, c); }
      ErrandsKeepWakeups(g, s, StepClient(g, s, t, pc, c), t);
    }
  }

  lemma AwakeIsFine(g: Config, s: State, s': State, w: Tid)
    requires SingleWorker(s) && w in s.threads && Worker(s.threads[w])
    requires forall u :: u in s'.threads && u != w ==>
                           u in s.threads && (Worker(s'.threads[u]) ==> Worker(s.threads[u]))
    requires w in s'.threads ==> Awake(s'.threads[w])
    ensures NoLostWakeup(g, s')
  {
  }

  /** Where a turn can leave the worker asleep or about to sleep, and what it has found then. */
  lemma TurnSleeps(g: Config, s: State, w: Tid, pc: Pc, c: Choice)
    requires InLoop(pc) && !Awake(Turn(g, s, w, pc, c).pc)
    ensures var t := Turn(g, s, w, pc, c);
            && t.s.queued == s.queued
            && (t.pc == Blocked(false) ==>
                  pc == Blocked(false) || (!ShouldStop(s) && (pc.EvalAgain? || !ShouldFlush(g, s))))
            && (t.pc.EvalAgain? ==> !ShouldFlush(g, s))
            && (t.pc.Eval? || t.pc.EvalAgain? ==>
                  t.s.condition == Some(w) || (t.s.condition == s.condition && pc.Eval?))
  {
  }

  lemma OnlyWorkerSleeps(s: State, s': State, w: Tid)
    requires SingleWorker(s) && OnlyLoops(s, s', w) && w in s.threads && Worker(s.threads[w])
    ensures Asleep(s') ==> s'.threads[w] == Blocked(false)
    ensures Dozing(s') ==> s'.threads[w].EvalAgain?
    ensures forall u :: u in s'.threads && (s'.threads[u].Eval? || s'.threads[u].EvalAgain?) ==> u == w
  {
  }

  lemma ClientsStillCome(s: State, s': State, w: Tid)
    requires OnlyLoops(s, s', w) && w in s.threads && Worker(s.threads[w])
    ensures ProducerComing(s) ==> ProducerComing(s')
    ensures CloserComing(s) ==> CloserComing(s')
  {
    if ProducerComing(s) {
      var t :| t in s.threads && OnItsWay(s.threads[t]);
      assert s'.threads[t] == s.threads[t];
    }
    if CloserComing(s) {
      var t :| t in s.threads && s.threads[t].CloseNotify?;
      assert s'.threads[t] == s.threads[t];
    }
  }

  lemma AsleepIsFine(g: Config, s: State, s': State, w: Tid)
    requires SingleWorker(s) && NoLostWakeup(g, s) && OnlyLoops(s, s', w) && s'.queued == s.queued
    requires w in s.threads && Worker(s.threads[w])
    requires s'.threads[w] == Blocked(false) ==>
               s.threads[w] == Blocked(false) || (!ShouldStop(s) && (s.threads[w].EvalAgain? || !ShouldFlush(g, s)))
    requires s'.threads[w].EvalAgain? ==> !ShouldFlush(g, s)
    requires s'.threads[w].Eval? || s'.threads[w].EvalAgain? ==> s'.condition == Some(w)
    ensures NoLostWakeup(g, s')
  {
    OnlyWorkerSleeps(s, s', w);
    ClientsStillCome(s, s', w);
    assert s.threads[w] == Blocked(false) ==> Asleep(s);
    assert s.threads[w].EvalAgain? ==> Dozing(s);
  }

  /** Going to sleep is the worker's own step, under the condition's lock and after testing both. */
  lemma WorkerKeepsWakeups(g: Config, s: State, w: Tid, c: Choice)
    requires SingleWorker(s) && NoLostWakeup(g, s) && w in s.threads && Worker(s.threads[w])
    ensures NoLostWakeup(g, StepWorker(g, s, w, s.threads[w], c))
  {
    var pc, s' := s.threads[w], StepWorker(g, s, w, s.threads[w], c);
    if !InLoop(pc) {
      AwakeIsFine(g, s, s', w);
    } else {
      LoopStep(g, s, w, c);
      if Awake(s'.threads[w]) {
        AwakeIsFine(g, s, s', w);
      } else {
        TurnSleeps(g, s, w, pc, c);
        InLoopStep(g, s, w, c);
        AsleepIsFine(g, s, s', w);
      }
    }
  }

  lemma CallKeepsWakeups(g: Config, s: State, a: Action)
    requires NoLostWakeup(g, s) && !a.Go?
    ensures NoLostWakeup(g, Next(g, s, a))
  {
    var s' := Next(g, s, a);
    assert forall u :: u in s.threads ==> u in s'.threads && s'.threads[u] == s.threads[u];
    if s' != s { assert a.CallEnqueue? ==> OnItsWay(s'.threads[a.t]); }
  }

  /** No wakeup is lost in any interleaving. */
  lemma {:induction false} RunLosesNoWakeup(g: Config, actions: seq<Action>)
    ensures NoLostWakeup(g, Run(g, actions))
  {
    if actions != [] {
      var s, a := Run(g, actions[..|actions| - 1]), actions[|actions| - 1];
      RunHasSingleWorker(g, actions[..|actions| - 1]);
      RunLosesNoWakeup(g, actions[..|actions| - 1]);
      if !a.Go? {
        CallKeepsWakeups(g, s, a);
      } else if a.t in s.threads {
        if Worker(s.threads[a.t]) {
          WorkerKeepsWakeups(g, s, a.t, a.choice);
        } else {
          ClientKeepsWakeups(g, s, a.t, a.choice);
        }
      }
    }
  }

  /**
   A client that is on its way stays so until it has found fewer items than a batch needs, or has
   notified, and nobody is asleep then.
   */
  lemma ProducerNotifies(g: Config, actions: seq<Action>, t: Tid, c: Choice)
    requires var s := Run(g, actions); t in s.threads && OnItsWay(s.threads[t])
    ensures var s' := Next(g, Run(g, actions), Go(t, c));
            || (t in s'.threads && OnItsWay(s'.threads[t]))
            || s'.queued < g.batchMin
            || !Asleep(s')
  {
    RunHasSingleWorker(g, actions);
    var s := Run(g, actions);
    if s.threads[t].Notify? {
      if Next(g, s, Go(t, c)) != s { WakeWakes(s, c); }
    } else {
      ProducerKeepsErrands(g, s, t, c);
    }
  }

  /** And a client that closes is about to notify until nobody is asleep. */
  lemma CloserNotifies(g: Config, actions: seq<Action>, t: Tid, c: Choice)
    requires var s := Run(g, actions); t in s.threads && s.threads[t].CloseNotify?
    ensures var s' := Next(g, Run(g, actions), Go(t, c));
            (t in s'.threads && s'.threads[t].CloseNotify?) || !Asleep(s')
  {
    RunHasSingleWorker(g, actions);
    var s := Run(g, actions);
    if Next(g, s, Go(t, c)) != s { WakeWakes(s, c); }
  }

  /** Whoever closes a running queue sets the stop event, if there is one, and notifies before it joins the worker. */
  lemma CloseSetsAndNotifies(g: Config, s: State, t: Tid, c: Choice)
    requires t in s.threads && s.threads[t].CloseRecheck?
    ensures var s' := Next(g, s, Go(t, c));
            && (s.running ==> t in s'.threads && s'.threads[t] == CloseNotify)
            && (s.running && s.stop.Some? ==> s'.stop == Some(true))
            && (!s.running ==> t !in s'.threads && s'.lock == None && s'.stop == s.stop)
  {
    if s.stop.Some? {
      var isSet: bool := s.stop.value;
      assert s.stop == if isSet then Some(true) else Some(false);
    }
  }

  /** The wait ends exactly with enough items for a batch, a stop, or a timeout. */
  lemma WaitEndsExactlyWhen(g: Config, s: State, w: Tid, c: Choice)
    requires w in s.threads && (s.threads[w].Eval? || s.threads[w].EvalAgain?)
    ensures Next(g, s, Go(w, c)).threads[w] == ReadFlag <==>
              if s.threads[w].Eval? then s.queued >= g.batchMin || (s.stop == None && c.TimeOut?)
              else s.stop == Some(true) || (s.stop == Some(false) && c.TimeOut?)
    ensures Next(g, s, Go(w, c)).threads[w] == Blocked(false) <==>
              && !c.TimeOut?
              && if s.threads[w].Eval? then s.queued < g.batchMin && s.stop == None else s.stop == Some(false)
  {
    InLoopStep(g, s, w, c);
  }

  // ---------------------------------------------------------------- items are conserved

  /** Where the accepted items are, of which the worker may have one in its hand; stale ones among them. */
  function Items(s: State): nat { s.queued + s.delayed + if s.held.Some? then 1 else 0 }

  function StaleItems(s: State): nat { s.staleQueued + s.staleDelayed + if s.held == Some(true) then 1 else 0 }

  /** A call puts an item into its queue. */
  predicate Accepts(g: Config, s: State, a: Action) {
    || (a.CallEnqueue? && a.t !in s.threads && (g.queueMax <= 0 || s.queued < g.queueMax))
    || (a.CallEnqueueAfter? && a.t !in s.threads && (g.pqueueMax <= 0 || s.delayed < g.pqueueMax))
  }

  /** The worker takes an item for its batch. */
  predicate TakesAt(g: Config, s: State, pc: Pc, c: Choice) {
    && pc.FlushTake? && c.Take? && (pc.flag || pc.taken != g.batchMax)
    && s.queued > 0 && if c.stale then s.staleQueued > 0 else s.queued > s.staleQueued
  }

  /** The worker puts an entry back that it may not move, or for which the FIFO has no room, into a full queue. */
  predicate LosesAt(g: Config, s: State, pc: Pc, c: Choice) {
    && s.held.Some? && c.Back? && 0 < g.pqueueMax <= s.delayed
    && (pc.Pre? || (pc.FlushMove? && (!pc.flag || 0 < g.queueMax <= s.queued)))
  }

  predicate Takes(g: Config, s: State, a: Action) {
    a.Go? && a.t in s.threads && TakesAt(g, s, s.threads[a.t], a.choice)
  }

  predicate Loses(g: Config, s: State, a: Action) {
    a.Go? && a.t in s.threads && LosesAt(g, s, s.threads[a.t], a.choice)
  }

  lemma MoveConserves(g: Config, s: State, all: bool, c: Choice)
    ensures var m := MoveStep(g, s, all, c);
            && (m.Goes? || m.Ends? ==> Items(m.s) == Items(s) && StaleItems(m.s) == StaleItems(s))
            && (m.Goes? && s.held.None? ==> m.s.delayed == s.delayed - 1 && m.s.queued == s.queued)
            && (m.Goes? && s.held.Some? ==> m.s.delayed == s.delayed && m.s.queued == s.queued + 1)
            && (m.Raises? ==> s.held.Some? && m.s == s.(held := None))
            && (m.Raises? <==> s.held.Some? && c.Back? && (!all || 0 < g.queueMax <= s.queued)
                               && 0 < g.pqueueMax <= s.delayed)
  {
  }

  lemma ClientConserves(g: Config, s: State, t: Tid, c: Choice)
    requires t in s.threads && !Worker(s.threads[t])
    ensures var s' := Next(g, s, Go(t, c));
            && Items(s') == Items(s)
            && StaleItems(s') == if s.stop == Some(false) && s'.stop == Some(true) then Items(s) else StaleItems(s)
  {
  }

  /** What a turn of the worker takes or loses, of stale items too. */
  ghost predicate Turns(g: Config, s: State, s': State, pc: Pc, c: Choice) {
    && Items(s') == Items(s) - (if TakesAt(g, s, pc, c) || LosesAt(g, s, pc, c) then 1 else 0)
    && StaleItems(s') == StaleItems(s) - (if (TakesAt(g, s, pc, c) && c.stale)
                                             || (LosesAt(g, s, pc, c) && s.held == Some(true)) then 1 else 0)
  }

  lemma MovingConserves(g: Config, s: State, w: Tid, pc: Pc, c: Choice)
    requires pc.Pre? || pc.FlushMove?
    ensures Turns(g, s, Turn(g, s, w, pc, c).s, pc, c)
  {
    MoveConserves(g, s, pc.FlushMove? && pc.flag, c);
  }

  lemma TakingConserves(g: Config, s: State, w: Tid, pc: Pc, c: Choice)
    requires pc.FlushTake?
    ensures Turns(g, s, Turn(g, s, w, pc, c).s, pc, c)
  {
  }

  lemma OtherConserves(g: Config, s: State, w: Tid, pc: Pc, c: Choice)
    requires InLoop(pc) && !pc.Pre? && !pc.FlushMove? && !pc.FlushTake?
    ensures Turns(g, s, Turn(g, s, w, pc, c).s, pc, c)
  {
  }

  lemma WorkerConserves(g: Config, s: State, w: Tid, c: Choice)
    requires w in s.threads && Worker(s.threads[w])
    ensures Turns(g, s, Next(g, s, Go(w, c)), s.threads[w], c)
  {
    var pc := s.threads[w];
    if InLoop(pc) {
      InLoopStep(g, s, w, c);
      if pc.Pre? || pc.FlushMove? {
        MovingConserves(g, s, w, pc, c);
      } else if pc.FlushTake? {
        TakingConserves(g, s, w, pc, c);
      } else {
        OtherConserves(g, s, w, pc, c);
      }
    }
  }

  /** The items accepted so far, less those taken and those lost. */
  function Balance(g: Config, actions: seq<Action>): int {
    if actions == [] then 0
    else
      var s, a := Run(g, actions[..|actions| - 1]), actions[|actions| - 1];
      Balance(g, actions[..|actions| - 1])
      + (if Accepts(g, s, a) then 1 else if Takes(g, s, a) || Loses(g, s, a) then -1 else 0)
  }

  /** In every run these are in the queues or in the worker's hand. */
  lemma {:induction false} RunBalances(g: Config, actions: seq<Action>)
    ensures Items(Run(g, actions)) == Balance(g, actions)
  {
    if actions != [] {
      var s, a := Run(g, actions[..|actions| - 1]), actions[|actions| - 1];
      RunBalances(g, actions[..|actions| - 1]);
      if a.Go? && a.t in s.threads {
        if Worker(s.threads[a.t]) {
          WorkerConserves(g, s, a.t, a.choice);
        } else {
          ClientConserves(g, s, a.t, a.choice);
        }
      }
    }
  }

  // ---------------------------------------------------------------- runs from a state

  function RunFrom(g: Config, s: State, actions: seq<Action>): State {
    if actions == [] then s else Next(g, RunFrom(g, s, actions[..|actions| - 1]), actions[|actions| - 1])
  }

  lemma RunFromStep(g: Config, s: State, actions: seq<Action>, a: Action)
    ensures RunFrom(g, s, actions + [a]) == Next(g, RunFrom(g, s, actions), a)
  {
    assert (actions + [a])[..|actions|] == actions;
  }

  lemma {:induction false} RunFromCons(g: Config, s: State, a: Action, rest: seq<Action>)
    ensures RunFrom(g, s, [a] + rest) == RunFrom(g, Next(g, s, a), rest)
  {
    if rest == [] {
      assert [a] + rest == [] + [a];
      RunFromStep(g, s, [], a);
    } else {
      assert ([a] + rest)[..|[a] + rest| - 1] == [a] + rest[..|rest| - 1];
      RunFromCons(g, s, a, rest[..|rest| - 1]);
    }
  }

  lemma OneStep(g: Config, s: State, a: Action)
    ensures RunFrom(g, s, [a]) == Next(g, s, a)
  {
    RunFromStep(g, s, [], a);
    assert [] + [a] == [a];
  }

  lemma TwoSteps(g: Config, s: State, a: Action, b: Action)
    ensures RunFrom(g, s, [a] + [b]) == Next(g, Next(g, s, a), b)
  {
    RunFromCons(g, s, a, [b]);
    OneStep(g, Next(g, s, a), b);
  }

  lemma {:induction false} RunFromOn(g: Config, s: State, actions: seq<Action>, rest: seq<Action>)
    ensures RunFrom(g, s, actions + rest) == RunFrom(g, RunFrom(g, s, actions), rest)
  {
    if rest == [] {
      assert actions + rest == actions;
    } else {
      assert (actions + rest)[..|actions + rest| - 1] == actions + rest[..|rest| - 1];
      RunFromOn(g, s, actions, rest[..|rest| - 1]);
    }
  }

  lemma {:induction false} RunOn(g: Config, actions: seq<Action>, rest: seq<Action>)
    ensures Run(g, actions + rest) == RunFrom(g, Run(g, actions), rest)
  {
    if rest == [] {
      assert actions + rest == actions;
    } else {
      assert (actions + rest)[..|actions + rest| - 1] == actions + rest[..|rest| - 1];
      RunOn(g, actions, rest[..|rest| - 1]);
    }
  }

  lemma Then(g: Config, actions: seq<Action>, a: Action)
    ensures Run(g, actions + [a]) == Next(g, Run(g, actions), a)
  {
    assert (actions + [a])[..|actions|] == actions;
  }
}
