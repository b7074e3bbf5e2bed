/**
 The server-sent-events client of src/qorme/client/client.py (Client._sse) driving the replica of
 src/qorme/ml/store.py.

 The stream is adversarial: a function from the attempt's number and the Last-Event-ID it sends to
 what the connection then does. The event's data is already decoded, or marked as undecodable.
 */
module SseClient {
  import opened Basics
  import opened MlMerge

  // ---------------------------------------------------------------- the replica

  /** The data of an event: none, bytes that do not decode, or updates by category. */
  datatype Data<C(==)> = Empty | Undecodable | Batches(byCategory: map<string, seq<Update<C>>>)

  datatype Event<C(==)> = Event(id: string, kind: string, data: Data<C>)

  datatype Link = Uninitialised | Connecting | Connected | Disconnected | Dead

  datatype Replica<C(==)> = Replica(models: map<string, Models<C>>, lastEventId: string, link: Link)

  /** Whether on_event returns instead of raising. */
  predicate Acceptable<C>(e: Event<C>) {
    e.kind == "ml.updates" && !e.data.Undecodable?
  }

  /** Updates for categories nobody registered are dropped. */
  function UpdateCategories<C(==)>(models: map<string, Models<C>>, data: Data<C>): map<string, Models<C>> {
    if !data.Batches? then models
    else map c | c in models :: CategoryAfter(models[c], data.byCategory, c)
  }

  function CategoryAfter<C(==)>(m: Models<C>, batches: map<string, seq<Update<C>>>, c: string): Models<C> {
    if c in batches then UpdateModels(m, batches[c]) else m
  }

  /** The updates of an event for one category. */
  function Batch<C(==)>(e: Event<C>, c: string): seq<Update<C>> {
    if e.data.Batches? && c in e.data.byCategory then e.data.byCategory[c] else []
  }

  /** The updates of a log for one category, in their order. */
  function AllFor<C(==)>(log: seq<Event<C>>, c: string): seq<Update<C>> {
    if log == [] then [] else AllFor(log[..|log| - 1], c) + Batch(log[|log| - 1], c)
  }

  lemma UpdatesBatch<C>(models: map<string, Models<C>>, e: Event<C>, c: string)
    ensures c in UpdateCategories(models, e.data) <==> c in models
    ensures c in models ==> UpdateCategories(models, e.data)[c] == UpdateModels(models[c], Batch(e, c))
  {
  }

  /** Each category that is registered has received all its updates, as one batch after another. */
  lemma {:induction false} ReplayIsUpdates<C>(models: map<string, Models<C>>, log: seq<Event<C>>, c: string)
    ensures c in Replay(models, log) <==> c in models
    ensures c in models ==> Replay(models, log)[c] == UpdateModels(models[c], AllFor(log, c))
  {
    if log != [] {
      var init, e := log[..|log| - 1], log[|log| - 1];
      ReplayIsUpdates(models, init, c);
      UpdatesBatch(Replay(models, init), e, c);
      if c in models { UpdateConcat(models[c], AllFor(init, c), Batch(e, c)); }
    }
  }

  /** The models after a log of events. */
  function Replay<C(==)>(models: map<string, Models<C>>, log: seq<Event<C>>): map<string, Models<C>> {
    if log == [] then models
    else UpdateCategories(Replay(models, log[..|log| - 1]), log[|log| - 1].data)
  }

  // ---------------------------------------------------------------- what a connection can do

  /** Transport is the retried error; interrupted says that the sleep after it would be cancelled. */
  datatype Failure = Transport(interrupted: bool) | Cancelled | Crash

  /** A session hands over events and then ends, cleanly when there is no failure. */
  datatype Attempt<C(==)> = Refused(failure: Failure) | Session(events: seq<Event<C>>, end: Option<Failure>)

  datatype Callback = OnConnect | OnEvent(id: string) | OnDisconnect | OnExit

  /** One turn of the retry loop; processed counts the events handled before it. */
  datatype Try = Try(header: string, processed: nat, clean: bool, slept: real)

  /** Running: the attempts that are looked at are over, and the loop is not. */
  datatype Ending = Exhausted | RaisedCancelled | RaisedError | Running

  /** Everything a run shows. */
  datatype Run<C(==)> = Run(trace: seq<Callback>, tries: seq<Try>, processed: seq<Event<C>>,
                            replica: Replica<C>, ending: Ending)

  type Server<!C(==)> = (nat, string) -> Attempt<C>

  /** The parameters of the retry loop; no session ends cleanly from attempt `bound` on. */
  datatype Loop<!C> = Loop(server: Server<C>, maxRetries: int, interval: real, bound: nat)
  {
    ghost predicate Ends() {
      forall k: nat, h: string | k >= bound :: !(server(k, h).Session? && server(k, h).end.None?)
    }

    ghost function Remaining(k: nat): nat { if k < bound then bound - k else 0 }
  }

  /** How many leading events the handler takes before one makes it raise. */
  function Taken<C>(events: seq<Event<C>>): (n: nat)
    ensures n <= |events|
  {
    if events == [] || !Acceptable(events[0]) then 0 else 1 + Taken(events[1..])
  }

  /** The replica after the handler took these events. */
  function Absorb<C(==)>(r: Replica<C>, events: seq<Event<C>>): Replica<C> {
    if events == [] then r
    else
      var r', e := Absorb(r, events[..|events| - 1]), events[|events| - 1];
      r'.(models := UpdateCategories(r'.models, e.data), lastEventId := e.id)
  }

  /** The callbacks of one session: a raising event is still reported to the handler. */
  function SessionTrace<C>(events: seq<Event<C>>): seq<Callback> {
    var n := Taken(events);
    [OnConnect] + Called(events[..if n < |events| then n + 1 else n]) + [OnDisconnect]
  }

  function Called<C>(events: seq<Event<C>>): seq<Callback> {
    if events == [] then [] else Called(events[..|events| - 1]) + [OnEvent(events[|events| - 1].id)]
  }

  lemma {:induction false} TakenIs<C>(events: seq<Event<C>>, n: nat)
    requires n <= |events| && (n < |events| ==> !Acceptable(events[n]))
    requires forall i :: 0 <= i < n ==> Acceptable(events[i])
    ensures Taken(events) == n
  {
    if n > 0 { TakenIs(events[1..], n - 1); }
  }

  /** The outcome of one attempt; a handler that raises counts as a crash. */
  datatype Outcome<C(==)> = Outcome(trace: seq<Callback>, taken: seq<Event<C>>, replica: Replica<C>,
                                    failure: Option<Failure>)

  function Connect<C(==)>(r: Replica<C>, a: Attempt<C>): Outcome<C> {
    match a
    case Refused(f) => Outcome([], [], r, Some(f))
    case Session(events, end) =>
      var taken := events[..Taken(events)];
      Outcome(SessionTrace(events), taken,
              Absorb(r.(link := Connected), taken).(link := Disconnected),
              if |taken| < |events| then Some(Crash) else end)
  }

  /** The pause after a failure that was preceded by `retries` others. */
  function Sleep(interval: real, retries: nat): real {
    if retries == 0 then 0.0 else interval * Pow2(retries - 1) as real
  }

  /** What the loop does about the outcome: the new failure count, what it raises, how long it slept. */
  datatype Verdict = Verdict(retries: nat, raised: Option<Ending>, slept: real)

  function Judge(failure: Option<Failure>, retries: nat, interval: real): Verdict {
    match failure
    case None => Verdict(0, None, 0.0)
    case Some(Cancelled) => Verdict(retries, Some(RaisedCancelled), 0.0)
    case Some(Crash) => Verdict(retries, Some(RaisedError), 0.0)
    case Some(Transport(interrupted)) =>
      if retries != 0 && interrupted then Verdict(retries, Some(RaisedCancelled), Sleep(interval, retries))
      else Verdict(retries + 1, None, Sleep(interval, retries))
  }

  function Finish<C(==)>(r: Replica<C>, ending: Ending): Run<C> {
    Run([OnExit], [], [], r.(link := Dead), ending)
  }

  function Before<C(==)>(trace: seq<Callback>, tries: seq<Try>, taken: seq<Event<C>>, rest: Run<C>): Run<C> {
    rest.(trace := trace + rest.trace, tries := tries + rest.tries, processed := taken + rest.processed)
  }

  /**
   The retry loop from attempt k on, with `retries` failures in a row and `count` events processed.
   It ends because clean ends stop at `bound` and failures in a row stop at maxRetries.
   */
  ghost function Attempts<C>(loop: Loop<C>,
                             k: nat, retries: nat, count: nat, r: Replica<C>): Run<C>
    requires loop.Ends()
    decreases loop.Remaining(k), loop.maxRetries - retries
  {
    if retries >= loop.maxRetries then Finish(r, Exhausted)
    else
      var c := Connect(r, loop.server(k, r.lastEventId));
      var v := Judge(c.failure, retries, loop.interval);
      Before(c.trace, [Try(r.lastEventId, count, c.failure.None?, v.slept)], c.taken,
             if v.raised.Some? then Finish(c.replica, v.raised.value)
             else Attempts(loop, k + 1, v.retries, count + |c.taken|, c.replica))
  }

  /** The whole run. */
  ghost function SseRun<C>(loop: Loop<C>, r: Replica<C>): Run<C>
    requires loop.Ends()
  {
    Attempts(loop, 0, 0, 0, r)
  }

  /** What the loop shows in its first n attempts from there on, whether or not it ever ends. */
  function FirstAttempts<C(==)>(loop: Loop<C>, n: nat, k: nat, retries: nat, count: nat, r: Replica<C>): Run<C>
    decreases n
  {
    if retries >= loop.maxRetries then Finish(r, Exhausted)
    else if n == 0 then Run([], [], [], r, Running)
    else
      var c := Connect(r, loop.server(k, r.lastEventId));
      var v := Judge(c.failure, retries, loop.interval);
      Before(c.trace, [Try(r.lastEventId, count, c.failure.None?, v.slept)], c.taken,
             if v.raised.Some? then Finish(c.replica, v.raised.value)
             else FirstAttempts(loop, n - 1, k + 1, v.retries, count + |c.taken|, c.replica))
  }

  function First<C(==)>(loop: Loop<C>, n: nat, r: Replica<C>): Run<C> { FirstAttempts(loop, n, 0, 0, 0, r) }

  // ---------------------------------------------------------------- the code

  class MLStore<C(==)> {
    var models: map<string, Models<C>>
    var lastEventId: string
    var link: Link

    ghost function View(): Replica<C>
      reads this
    {
      Replica(models, lastEventId, link)
    }

    constructor ()
      ensures View() == Replica(map[], "", Uninitialised)
    {
      models, lastEventId, link := map[], "", Uninitialised;
    }

    method Register(category: string)
      modifies this`models
      ensures models == if category in old(models) then old(models) else old(models)[category := map[]]
    {
      if category !in models {
        models := models[category := map[]];
      }
    }

    /** Returns whether the handler raised; then nothing changed. */
    method OnEvent(e: Event<C>) returns (raised: bool)
      modifies this
      ensures raised <==> e.kind != "ml.updates" || e.data.Undecodable?
      ensures raised ==> View() == old(View())
      ensures !raised ==> View() == Absorb(old(View()), [e])
      ensures !raised ==> lastEventId == e.id && link == old(link) && models.Keys == old(models).Keys
      ensures !raised ==> forall c :: c in models ==>
                models[c] == UpdateModels(old(models)[c], Batch(e, c))
    {
      if e.kind != "ml.updates" || e.data.Undecodable? {
        return true;
      }
      assert [e][..0] == [];
      forall c | c in models
        ensures c in UpdateCategories(models, e.data)
        ensures UpdateCategories(models, e.data)[c] == UpdateModels(models[c], Batch(e, c))
      {
        UpdatesBatch(models, e, c);
      }
      models := UpdateCategories(models, e.data);
      lastEventId := e.id;
      return false;
    }
  }

  /** The inner loop: hand the events over one by one, up to the one that makes the handler raise. */
  method Deliver<C>(handler: MLStore<C>, events: seq<Event<C>>) returns (trace: seq<Callback>, raised: bool)
    modifies handler
    ensures handler.View() == Absorb(old(handler.View()), events[..Taken(events)])
    ensures raised <==> Taken(events) < |events|
    ensures [OnConnect] + trace + [OnDisconnect] == SessionTrace(events)
  {
    trace, raised := [], false;
    ghost var r := handler.View();
    assert events[..0] == [];
    for i := 0 to |events|
      invariant !raised && forall j :: 0 <= j < i ==> Acceptable(events[j])
      invariant trace == Called(events[..i]) && handler.View() == Absorb(r, events[..i])
    {
      OneMore(r, events, i);
      trace := trace + [OnEvent(events[i].id)];
      raised := handler.OnEvent(events[i]);
      if raised {
        TakenIs(events, i);
        return;
      }
    }
    TakenIs(events, |events|);
    assert events[..|events|] == events;
  }

  lemma OneMore<C>(r: Replica<C>, events: seq<Event<C>>, i: nat)
    requires i < |events|
    ensures Called(events[..i + 1]) == Called(events[..i]) + [OnEvent(events[i].id)]
    ensures Absorb(r, events[..i + 1]) == Absorb(Absorb(r, events[..i]), [events[i]])
  {
    assert events[..i + 1][..i] == events[..i] && events[..i + 1] == events[..i] + [events[i]];
    AbsorbOne(r, events[..i], events[i]);
  }

  /** One attempt, with the disconnect callback in a finally clause. */
  method Attend<C>(handler: MLStore<C>, a: Attempt<C>)
    returns (trace: seq<Callback>, taken: seq<Event<C>>, failure: Option<Failure>)
    modifies handler
    ensures Outcome(trace, taken, handler.View(), failure) == Connect(old(handler.View()), a)
  {
    match a
    case Refused(f) => trace, taken, failure := [], [], Some(f);
    case Session(events, end) =>
      handler.link := Connected;
      var raised;
      trace, raised := Deliver(handler, events);
      trace, taken := [OnConnect] + trace + [OnDisconnect], events[..Taken(events)];
      handler.link := Disconnected;
      failure := if raised then Some(Crash) else end;
  }

  /** These are the callbacks and the effects of attempt k. */
  ghost predicate Attempted<C>(server: Server<C>, interval: real, retries: nat, k: nat, count: nat, r: Replica<C>,
                               more: seq<Callback>, taken: seq<Event<C>>, t: Try, retries': nat,
                               raised: Option<Ending>, r': Replica<C>)
  {
    var c := Connect(r, server(k, r.lastEventId));
    var v := Judge(c.failure, retries, interval);
    && more == c.trace && taken == c.taken && r' == c.replica
    && t == Try(r.lastEventId, count, c.failure.None?, v.slept) && retries' == v.retries && raised == v.raised
  }

  /** The body of the loop. */
  method OneAttempt<C>(server: Server<C>, handler: MLStore<C>, interval: real, numRetries: nat, k: nat, count: nat)
    returns (more: seq<Callback>, taken: seq<Event<C>>, t: Try, retries: nat, raised: Option<Ending>)
    modifies handler
    ensures Attempted(server, interval, numRetries, k, count, old(handler.View()),
                      more, taken, t, retries, raised, handler.View())
  {
    var header := handler.lastEventId;
    var failure;
    more, taken, failure := Attend(handler, server(k, header));
    var slept;
    slept, retries, raised := AfterAttempt(failure, numRetries, interval);
    t := Try(header, count, failure.None?, slept);
  }

  method Sse<C>(server: Server<C>, handler: MLStore<C>, maxRetries: int, interval: real, ghost bound: nat)
    returns (trace: seq<Callback>, tries: seq<Try>, processed: seq<Event<C>>, ending: Ending)
    requires Loop(server, maxRetries, interval, bound).Ends()
    modifies handler
    ensures Run(trace, tries, processed, handler.View(), ending)
            == SseRun(Loop(server, maxRetries, interval, bound), old(handler.View()))
  {
    ghost var loop := Loop(server, maxRetries, interval, bound);
    var numRetries, k := 0, 0;
    var raised: Option<Ending> := None;
    trace, tries, processed := [], [], [];
    ghost var whole := SseRun(loop, handler.View());
    BeforeNothing(whole);
    while numRetries < maxRetries && raised.None?
      invariant numRetries >= 0
      invariant whole == Before(trace, tries, processed,
                                Continue(loop, k, numRetries, |processed|,
                                         handler.View(), raised))
      decreases raised.None?, loop.Remaining(k), maxRetries - numRetries
    {
      ghost var r := handler.View();
      var more, taken, t, retries;
      more, taken, t, retries, raised := OneAttempt(server, handler, interval, numRetries, k, |processed|);
      Unroll(loop, k, numRetries, r, trace, tries, processed, more, taken, t, retries, raised, handler.View());
      numRetries := retries;
      trace, tries, processed, k := trace + more, tries + [t], processed + taken, k + 1;
    }
    ending := if raised.Some? then raised.value else Exhausted;
    FinishAfter(trace, tries, processed, handler.View(), ending);
    trace := trace + [OnExit];
    handler.link := Dead;
  }

  /** The loop has shown this much of the whole run, and n attempts are left to look at. */
  ghost predicate Shown<C>(whole: Run<C>, trace: seq<Callback>, tries: seq<Try>, processed: seq<Event<C>>,
                           loop: Loop<C>, n: nat, k: nat, retries: nat, r: Replica<C>, raised: Option<Ending>)
  {
    whole == Before(trace, tries, processed, ContinueFirst(loop, n, k, retries, |processed|, r, raised))
  }

  /** The body of the loop, as one of the n attempts that are left to look at. */
  method OneOf<C>(server: Server<C>, handler: MLStore<C>, interval: real, numRetries: nat, k: nat,
                  trace: seq<Callback>, tries: seq<Try>, processed: seq<Event<C>>,
                  ghost loop: Loop<C>, ghost n: nat, ghost whole: Run<C>)
    returns (trace': seq<Callback>, tries': seq<Try>, processed': seq<Event<C>>, retries: nat, raised: Option<Ending>)
    requires server == loop.server && interval == loop.interval && n > 0 && numRetries < loop.maxRetries
    requires Shown(whole, trace, tries, processed, loop, n, k, numRetries, handler.View(), None)
    modifies handler
    ensures raised != Some(Running)
    ensures Shown(whole, trace', tries', processed', loop, n - 1, k + 1, retries, handler.View(), raised)
  {
    var more, taken, t;
    more, taken, t, retries, raised := OneAttempt(server, handler, interval, numRetries, k, |processed|);
    UnrollFirst(loop, n, k, numRetries, old(handler.View()), trace, tries, processed,
                more, taken, t, retries, raised, handler.View());
    trace', tries', processed' := trace + more, tries + [t], processed + taken;
  }

  /** The loop for at most n attempts, and why it is left or no longer looked at. */
  method RetryLoop<C>(server: Server<C>, handler: MLStore<C>, maxRetries: int, interval: real, n: nat)
    returns (trace: seq<Callback>, tries: seq<Try>, processed: seq<Event<C>>, numRetries: nat,
             raised: Option<Ending>, k: nat)
    modifies handler
    ensures k <= n && (numRetries >= maxRetries || raised.Some? || k == n) && raised != Some(Running)
    ensures Shown(First(Loop(server, maxRetries, interval, 0), n, old(handler.View())), trace, tries, processed,
                  Loop(server, maxRetries, interval, 0), n - k, k, numRetries, handler.View(), raised)
  {
    ghost var loop := Loop(server, maxRetries, interval, 0);
    numRetries, k, raised := 0, 0, None;
    trace, tries, processed := [], [], [];
    ghost var whole, left := First(loop, n, handler.View()), n;
    BeforeNothing(whole);
    while numRetries < maxRetries && raised.None? && k < n
      invariant 0 <= k <= n && left == n - k && raised != Some(Running)
      invariant Shown(whole, trace, tries, processed, loop, left, k, numRetries, handler.View(), raised)
      decreases n - k
    {
      trace, tries, processed, numRetries, raised :=
        OneOf(server, handler, interval, numRetries, k, trace, tries, processed, loop, left, whole);
      k, left := k + 1, left - 1;
    }
  }

  /** Sse, looked at for its first n attempts: no assumption on the server. */
  method SseUpTo<C>(server: Server<C>, handler: MLStore<C>, maxRetries: int, interval: real, n: nat)
    returns (trace: seq<Callback>, tries: seq<Try>, processed: seq<Event<C>>, ending: Ending)
    modifies handler
    ensures Run(trace, tries, processed, handler.View(), ending)
            == First(Loop(server, maxRetries, interval, 0), n, old(handler.View()))
  {
    var numRetries, raised, k;
    trace, tries, processed, numRetries, raised, k := RetryLoop(server, handler, maxRetries, interval, n);
    ending := if raised.Some? then raised.value else if numRetries < maxRetries then Running else Exhausted;
    StopsAfter(Loop(server, maxRetries, interval, 0), n - k, k, numRetries, handler.View(), raised,
               trace, tries, processed);
    if ending != Running {
      trace := trace + [OnExit];
      handler.link := Dead;
    }
  }

  /** Where the loop is left, or no longer looked at. */
  lemma StopsAfter<C>(loop: Loop<C>, n: nat, k: nat, retries: nat, r: Replica<C>, raised: Option<Ending>,
                      trace: seq<Callback>, tries: seq<Try>, processed: seq<Event<C>>)
    requires retries >= loop.maxRetries || raised.Some? || n == 0
    requires raised != Some(Running)
    ensures Before(trace, tries, processed, ContinueFirst(loop, n, k, retries, |processed|, r, raised))
            == if raised.Some? then Run(trace + [OnExit], tries, processed, r.(link := Dead), raised.value)
               else if retries < loop.maxRetries then Run(trace, tries, processed, r, Running)
               else Run(trace + [OnExit], tries, processed, r.(link := Dead), Exhausted)
  {
    if raised.Some? {
      FinishAfter(trace, tries, processed, r, raised.value);
    } else if retries < loop.maxRetries {
      RunningAfter(trace, tries, processed, r);
    } else {
      FinishAfter(trace, tries, processed, r, Exhausted);
    }
  }

  lemma RunningAfter<C>(trace: seq<Callback>, tries: seq<Try>, processed: seq<Event<C>>, r: Replica<C>)
    ensures Before(trace, tries, processed, Run([], [], [], r, Running)) == Run(trace, tries, processed, r, Running)
  {
  }

  lemma FinishAfter<C>(trace: seq<Callback>, tries: seq<Try>, processed: seq<Event<C>>, r: Replica<C>, e: Ending)
    ensures Before(trace, tries, processed, Finish(r, e))
            == Run(trace + [OnExit], tries, processed, r.(link := Dead), e)
  {
  }

  /** The except clauses of one attempt. */
  method AfterAttempt(failure: Option<Failure>, numRetries: nat, interval: real)
    returns (slept: real, retries: nat, raised: Option<Ending>)
    ensures Verdict(retries, raised, slept) == Judge(failure, numRetries, interval)
  {
    slept, retries, raised := 0.0, numRetries, None;
    match failure
    case None => retries := 0;
    case Some(Cancelled) => raised := Some(RaisedCancelled);
    case Some(Crash) => raised := Some(RaisedError);
    case Some(Transport(interrupted)) =>
      if numRetries != 0 {
        slept := interval * Pow2(numRetries - 1) as real;
        if interrupted {
          raised := Some(RaisedCancelled);
          return;
        }
      }
      retries := numRetries + 1;
  }

  ghost function Continue<C>(loop: Loop<C>, k: nat,
                             retries: nat, count: nat, r: Replica<C>, raised: Option<Ending>): Run<C>
    requires loop.Ends()
  {
    if raised.Some? then Finish(r, raised.value)
    else Attempts(loop, k, retries, count, r)
  }

  /** One turn of the loop, taken off the front of the run. */
  lemma Unfold<C>(loop: Loop<C>,
                  k: nat, retries: nat, count: nat, r: Replica<C>)
    returns (c: Outcome<C>, v: Verdict, t: Try, rest: Run<C>)
    requires loop.Ends() && retries < loop.maxRetries
    ensures c == Connect(r, loop.server(k, r.lastEventId)) && v == Judge(c.failure, retries, loop.interval)
    ensures t == Try(r.lastEventId, count, c.failure.None?, v.slept)
    ensures c.failure.None? ==> k < loop.bound
    ensures rest == Continue(loop, k + 1, v.retries, count + |c.taken|,
                             c.replica, v.raised)
    ensures Attempts(loop, k, retries, count, r)
            == Before(c.trace, [t], c.taken, rest)
  {
    c := Connect(r, loop.server(k, r.lastEventId));
    v := Judge(c.failure, retries, loop.interval);
    t := Try(r.lastEventId, count, c.failure.None?, v.slept);
    rest := Continue(loop, k + 1, v.retries, count + |c.taken|, c.replica, v.raised);
  }

  lemma Unroll<C>(loop: Loop<C>, k: nat, retries: nat, r: Replica<C>, trace: seq<Callback>,
                  tries: seq<Try>, processed: seq<Event<C>>, more: seq<Callback>, taken: seq<Event<C>>,
                  t: Try, retries': nat, raised: Option<Ending>, r': Replica<C>)
    requires loop.Ends() && retries < loop.maxRetries
    requires Attempted(loop.server, loop.interval, retries, k, |processed|, r, more, taken, t, retries', raised, r')
    ensures raised.None? ==> retries' == retries + 1 || k < loop.bound
    ensures Before(trace, tries, processed, Attempts(loop, k, retries, |processed|, r))
            == Before(trace + more, tries + [t], processed + taken,
                      Continue(loop, k + 1, retries', |processed + taken|, r', raised))
  {
    var c, v, t0, rest := Unfold(loop, k, retries, |processed|, r);
    BeforeBefore(trace, tries, processed, c.trace, [t], c.taken, rest);
  }

  ghost function ContinueFirst<C>(loop: Loop<C>, n: nat, k: nat, retries: nat, count: nat, r: Replica<C>,
                                  raised: Option<Ending>): Run<C>
  {
    if raised.Some? then Finish(r, raised.value) else FirstAttempts(loop, n, k, retries, count, r)
  }

  lemma UnrollFirst<C>(loop: Loop<C>, n: nat, k: nat, retries: nat, r: Replica<C>, trace: seq<Callback>,
                       tries: seq<Try>, processed: seq<Event<C>>, more: seq<Callback>, taken: seq<Event<C>>,
                       t: Try, retries': nat, raised: Option<Ending>, r': Replica<C>)
    requires n > 0 && retries < loop.maxRetries
    requires Attempted(loop.server, loop.interval, retries, k, |processed|, r, more, taken, t, retries', raised, r')
    ensures raised != Some(Running)
    ensures Before(trace, tries, processed, FirstAttempts(loop, n, k, retries, |processed|, r))
            == Before(trace + more, tries + [t], processed + taken,
                      ContinueFirst(loop, n - 1, k + 1, retries', |processed + taken|, r', raised))
  {
    var c, v, t0, rest := UnfoldFirst(loop, n, k, retries, |processed|, r);
    BeforeBefore(trace, tries, processed, c.trace, [t], c.taken, rest);
  }

  /** One attempt, taken off the front of the first n. */
  lemma UnfoldFirst<C>(loop: Loop<C>, n: nat, k: nat, retries: nat, count: nat, r: Replica<C>)
    returns (c: Outcome<C>, v: Verdict, t: Try, rest: Run<C>)
    requires n > 0 && retries < loop.maxRetries
    ensures c == Connect(r, loop.server(k, r.lastEventId)) && v == Judge(c.failure, retries, loop.interval)
    ensures t == Try(r.lastEventId, count, c.failure.None?, v.slept)
    ensures rest == ContinueFirst(loop, n - 1, k + 1, v.retries, count + |c.taken|, c.replica, v.raised)
    ensures FirstAttempts(loop, n, k, retries, count, r) == Before(c.trace, [t], c.taken, rest)
  {
    c := Connect(r, loop.server(k, r.lastEventId));
    v := Judge(c.failure, retries, loop.interval);
    t := Try(r.lastEventId, count, c.failure.None?, v.slept);
    rest := ContinueFirst(loop, n - 1, k + 1, v.retries, count + |c.taken|, c.replica, v.raised);
  }

  /** From here on the whole run is its first n attempts. */
  ghost predicate SameRun<C>(loop: Loop<C>, n: nat, k: nat, retries: nat, count: nat, r: Replica<C>)
    requires loop.Ends()
  {
    var run := Attempts(loop, k, retries, count, r);
    run == FirstAttempts(loop, n, k, retries, count, r) && run.ending != Running
  }

  /** The loop goes on after attempt k with these failures in a row, events processed and replica. */
  ghost predicate GoesOn<C>(loop: Loop<C>, k: nat, retries: nat, count: nat, r: Replica<C>,
                            retries': nat, count': nat, r': Replica<C>)
  {
    var c := Connect(r, loop.server(k, r.lastEventId));
    var v := Judge(c.failure, retries, loop.interval);
    v.raised.None? && retries' == v.retries && count' == count + |c.taken| && r' == c.replica
  }

  lemma NextAttempt<C>(loop: Loop<C>, k: nat, retries: nat, count: nat, r: Replica<C>)
    returns (retries': nat, count': nat, r': Replica<C>, goesOn: bool)
    requires loop.Ends() && retries < loop.maxRetries
    ensures if goesOn then GoesOn(loop, k, retries, count, r, retries', count', r')
            else SameRun(loop, 1, k, retries, count, r)
    ensures goesOn ==> loop.Remaining(k + 1) < loop.Remaining(k)
                       || (loop.Remaining(k + 1) <= loop.Remaining(k) && retries' == retries + 1)
  {
    var c, v, t, rest := Unfold(loop, k, retries, count, r);
    retries', count', r', goesOn := v.retries, count + |c.taken|, c.replica, v.raised.None?;
  }

  lemma OneAttemptMore<C>(loop: Loop<C>, n: nat, k: nat, retries: nat, count: nat, r: Replica<C>,
                          retries': nat, count': nat, r': Replica<C>)
    requires loop.Ends() && retries < loop.maxRetries
    requires GoesOn(loop, k, retries, count, r, retries', count', r') && SameRun(loop, n, k + 1, retries', count', r')
    ensures SameRun(loop, n + 1, k, retries, count, r)
  {
  }

  /** When clean ends stop, the whole run is its first n attempts, for some n. */
  lemma {:induction false} AttemptsAreFirst<C>(loop: Loop<C>, k: nat, retries: nat, count: nat, r: Replica<C>)
    returns (n: nat)
    requires loop.Ends()
    ensures SameRun(loop, n, k, retries, count, r)
    decreases loop.Remaining(k), loop.maxRetries - retries
  {
    n := 0;
    if retries < loop.maxRetries {
      n := 1;
      var retries', count', r', goesOn := NextAttempt(loop, k, retries, count, r);
      if goesOn {
        var m := AttemptsAreFirst(loop, k + 1, retries', count', r');
        OneAttemptMore(loop, m, k, retries, count, r, retries', count', r');
        n := m + 1;
      }
    }
  }

  lemma RunIsFirst<C>(loop: Loop<C>, r: Replica<C>) returns (n: nat)
    requires loop.Ends()
    ensures SseRun(loop, r) == First(loop, n, r) && SseRun(loop, r).ending != Running
  {
    n := AttemptsAreFirst(loop, 0, 0, 0, r);
  }

  lemma BeforeNothing<C>(run: Run<C>)
    ensures Before([], [], [], run) == run
  {
  }

  lemma BeforeBefore<C>(a: seq<Callback>, b: seq<Try>, c: seq<Event<C>>,
                        a': seq<Callback>, b': seq<Try>, c': seq<Event<C>>, rest: Run<C>)
    ensures Before(a, b, c, Before(a', b', c', rest)) == Before(a + a', b + b', c + c', rest)
  {
    assert a + (a' + rest.trace) == (a + a') + rest.trace;
    assert b + (b' + rest.tries) == (b + b') + rest.tries;
    assert c + (c' + rest.processed) == (c + c') + rest.processed;
  }

  lemma AbsorbOne<C>(r: Replica<C>, events: seq<Event<C>>, e: Event<C>)
    ensures Absorb(Absorb(r, events), [e]) == Absorb(r, events + [e])
  {
    assert [e][..0] == [] && (events + [e])[..|events|] == events;
  }

  // ---------------------------------------------------------------- callbacks are bracketed

  /** The states of the automaton that accepts (connect event* disconnect)* exit. */
  datatype Phase = Idle | Open | Over | Wrong

  function Advance(p: Phase, c: Callback): Phase {
    match (p, c)
    case (Idle, OnConnect) => Open
    case (Open, OnEvent(_)) => Open
    case (Open, OnDisconnect) => Idle
    case (Idle, OnExit) => Over
    case _ => Wrong
  }

  function PhaseAfter(p: Phase, trace: seq<Callback>): Phase {
    if trace == [] then p else Advance(PhaseAfter(p, trace[..|trace| - 1]), trace[|trace| - 1])
  }

  lemma {:induction false} PhaseConcat(p: Phase, a: seq<Callback>, b: seq<Callback>)
    ensures PhaseAfter(p, a + b) == PhaseAfter(PhaseAfter(p, a), b)
  {
    if b == [] {
      assert a + b == a;
    } else {
      assert (a + b)[..|a + b| - 1] == a + b[..|b| - 1];
      PhaseConcat(p, a, b[..|b| - 1]);
    }
  }

  lemma {:induction false} EventsStayOpen<C>(events: seq<Event<C>>)
    ensures PhaseAfter(Open, Called(events)) == Open
  {
    if events != [] {
      EventsStayOpen(events[..|events| - 1]);
      var init, last := Called(events[..|events| - 1]), OnEvent(events[|events| - 1].id);
      assert (init + [last])[..|init|] == init;
    }
  }

  lemma SessionIsBracketed<C>(events: seq<Event<C>>)
    ensures PhaseAfter(Idle, SessionTrace(events)) == Idle
  {
    var n := Taken(events);
    var called := events[..if n < |events| then n + 1 else n];
    var middle := Called(called);
    OneStep(Idle, OnConnect);
    OneStep(Open, OnDisconnect);
    PhaseConcat(Idle, [OnConnect] + middle, [OnDisconnect]);
    PhaseConcat(Idle, [OnConnect], middle);
    EventsStayOpen(called);
  }

  lemma OneStep(p: Phase, c: Callback)
    ensures PhaseAfter(p, [c]) == Advance(p, c)
  {
    assert [c][..0] == [];
  }

  lemma ConnectIsBracketed<C>(r: Replica<C>, a: Attempt<C>)
    ensures PhaseAfter(Idle, Connect(r, a).trace) == Idle
  {
    if a.Session? { SessionIsBracketed(a.events); }
  }

  // ---------------------------------------------------------------- resumption

  function LastId<C>(id: string, events: seq<Event<C>>): string {
    if events == [] then id else events[|events| - 1].id
  }

  lemma {:induction false} AbsorbIsReplay<C>(r: Replica<C>, events: seq<Event<C>>)
    ensures Absorb(r, events) == Replica(Replay(r.models, events), LastId(r.lastEventId, events), r.link)
  {
    if events != [] { AbsorbIsReplay(r, events[..|events| - 1]); }
  }

  lemma {:induction false} ReplayConcat<C>(models: map<string, Models<C>>, a: seq<Event<C>>, b: seq<Event<C>>)
    ensures Replay(models, a + b) == Replay(Replay(models, a), b)
  {
    if b == [] {
      assert a + b == a;
    } else {
      assert (a + b)[..|a + b| - 1] == a + b[..|b| - 1];
      ReplayConcat(models, a, b[..|b| - 1]);
    }
  }

  /** The events taken from an attempt are the first ones of its session. */
  predicate HandedOver<C(==)>(a: Attempt<C>, taken: seq<Event<C>>) {
    if a.Session? then taken <= a.events else taken == []
  }

  lemma ConnectIsReplay<C>(r: Replica<C>, a: Attempt<C>)
    ensures var c := Connect(r, a);
            && c.replica.models == Replay(r.models, c.taken)
            && c.replica.lastEventId == LastId(r.lastEventId, c.taken)
            && HandedOver(a, c.taken)
  {
    if a.Session? { AbsorbIsReplay(r.(link := Connected), Connect(r, a).taken); }
  }

  /** An attempt that resumes after the last event processed before it. */
  predicate Resumes<C(==)>(t: Try, processed: seq<Event<C>>, count: nat, id: string) {
    && count <= t.processed <= count + |processed|
    && t.header == LastId(id, processed[..t.processed - count])
  }

  lemma ResumesLater<C>(t: Try, processed: seq<Event<C>>, count: nat, id: string, taken: seq<Event<C>>)
    requires Resumes(t, processed, count + |taken|, LastId(id, taken))
    ensures Resumes(t, taken + processed, count, id)
  {
    assert (taken + processed)[..t.processed - count] == taken + processed[..t.processed - count - |taken|];
  }

  lemma ResumesNow<C>(t: Try, processed: seq<Event<C>>, count: nat, id: string)
    requires t.header == id && t.processed == count
    ensures Resumes(t, processed, count, id)
  {
  }

  // ---------------------------------------------------------------- a run as a chain of attempts

  /** One attempt, taken off the front of a run. */
  ghost predicate Turn<C>(server: Server<C>, k: nat, count: nat, r: Replica<C>, run: Run<C>, more: seq<Callback>,
                          t: Try, taken: seq<Event<C>>, r': Replica<C>, rest: Run<C>)
  {
    && run.trace == more + rest.trace && PhaseAfter(Idle, more) == Idle
    && run.tries == [t] + rest.tries && run.processed == taken + rest.processed
    && run.replica == rest.replica && run.ending == rest.ending
    && t.header == r.lastEventId && t.processed == count && HandedOver(server(k, r.lastEventId), taken)
    && r'.models == Replay(r.models, taken) && r'.lastEventId == LastId(r.lastEventId, taken)
    && r'.link == if more == [] then r.link else Disconnected
  }

  /** No attempt is left: the loop was left, or is no longer looked at. */
  predicate NoTurn<C(==)>(run: Run<C>, r: Replica<C>) {
    && run.tries == [] && run.processed == []
    && run.replica.models == r.models && run.replica.lastEventId == r.lastEventId
    && if run.ending == Running then run.trace == [] && run.replica.link == r.link
       else run.trace == [OnExit] && run.replica.link == Dead
  }

  /** The run consists of at most n attempts. */
  ghost predicate Turns<C(!new)>(server: Server<C>, n: nat, k: nat, count: nat, r: Replica<C>, run: Run<C>)
    decreases n
  {
    || NoTurn(run, r)
    || (n > 0 && exists more, t, taken, r', rest ::
          Turn(server, k, count, r, run, more, t, taken, r', rest)
          && Turns(server, n - 1, k + 1, count + |taken|, r', rest))
  }

  lemma FirstTurn<C>(loop: Loop<C>, n: nat, k: nat, retries: nat, count: nat, r: Replica<C>)
    returns (more: seq<Callback>, t: Try, taken: seq<Event<C>>, retries': nat, r': Replica<C>, rest: Run<C>,
             raised: bool)
    requires n > 0 && retries < loop.maxRetries
    ensures Turn(loop.server, k, count, r, FirstAttempts(loop, n, k, retries, count, r), more, t, taken, r', rest)
    ensures if raised then NoTurn(rest, r')
            else rest == FirstAttempts(loop, n - 1, k + 1, retries', count + |taken|, r')
  {
    var c, v;
    c, v, t, rest := UnfoldFirst(loop, n, k, retries, count, r);
    more, taken, retries', r', raised := c.trace, c.taken, v.retries, c.replica, v.raised.Some?;
    ConnectIsReplay(r, loop.server(k, r.lastEventId));
    ConnectIsBracketed(r, loop.server(k, r.lastEventId));
  }

  lemma NoAttempt<C>(loop: Loop<C>, n: nat, k: nat, retries: nat, count: nat, r: Replica<C>)
    requires retries >= loop.maxRetries || n == 0
    ensures NoTurn(FirstAttempts(loop, n, k, retries, count, r), r)
  {
  }

  lemma OneTurnMore<C(!new)>(server: Server<C>, n: nat, k: nat, count: nat, r: Replica<C>, run: Run<C>,
                             more: seq<Callback>, t: Try, taken: seq<Event<C>>, r': Replica<C>, rest: Run<C>)
    requires n > 0 && Turn(server, k, count, r, run, more, t, taken, r', rest)
    requires Turns(server, n - 1, k + 1, count + |taken|, r', rest)
    ensures Turns(server, n, k, count, r, run)
  {
  }

  lemma {:induction false} FirstAreTurns<C(!new)>(loop: Loop<C>, n: nat, k: nat, retries: nat, count: nat,
                                                  r: Replica<C>)
    ensures Turns(loop.server, n, k, count, r, FirstAttempts(loop, n, k, retries, count, r))
    decreases n
  {
    if retries >= loop.maxRetries || n == 0 {
      NoAttempt(loop, n, k, retries, count, r);
    } else {
      var run := FirstAttempts(loop, n, k, retries, count, r);
      var more, t, taken, retries', r', rest, raised := FirstTurn(loop, n, k, retries, count, r);
      if !raised {
        FirstAreTurns(loop, n - 1, k + 1, retries', count + |taken|, r');
      }
      OneTurnMore(loop.server, n, k, count, r, run, more, t, taken, r', rest);
    }
  }

  lemma {:induction false} TurnsAreBracketed<C(!new)>(server: Server<C>, n: nat, k: nat, count: nat, r: Replica<C>,
                                                      run: Run<C>)
    requires Turns(server, n, k, count, r, run)
    ensures PhaseAfter(Idle, run.trace) == if run.ending == Running then Idle else Over
    ensures run.replica.link == if run.ending != Running then Dead else if run.trace == [] then r.link else Disconnected
    decreases n
  {
    if NoTurn(run, r) {
      OneStep(Idle, OnExit);
    } else {
      var more, t, taken, r', rest :| Turn(server, k, count, r, run, more, t, taken, r', rest)
                                      && Turns(server, n - 1, k + 1, count + |taken|, r', rest);
      TurnsAreBracketed(server, n - 1, k + 1, count + |taken|, r', rest);
      PhaseConcat(Idle, more, rest.trace);
    }
  }

  /**
   Whatever the stream does, the callbacks are (connect event* disconnect)* while the loop runs, and one
   final exit, which leaves the store dead, when it ends; with finitely many clean ends it does end.
   */
  lemma CallbacksAreBracketed<C(!new)>(loop: Loop<C>, n: nat, r: Replica<C>)
    ensures var run := First(loop, n, r);
            && PhaseAfter(Idle, run.trace) == (if run.ending == Running then Idle else Over)
            && run.replica.link == (if run.ending != Running then Dead
                                    else if run.trace == [] then r.link else Disconnected)
    ensures loop.Ends() ==> PhaseAfter(Idle, SseRun(loop, r).trace) == Over && SseRun(loop, r).replica.link == Dead
  {
    FirstAreTurns(loop, n, 0, 0, 0, r);
    TurnsAreBracketed(loop.server, n, 0, 0, r, First(loop, n, r));
    if loop.Ends() {
      var m := RunIsFirst(loop, r);
      FirstAreTurns(loop, m, 0, 0, 0, r);
      TurnsAreBracketed(loop.server, m, 0, 0, r, First(loop, m, r));
    }
  }

  lemma {:induction false} HeaderFollowsProcessed<C(!new)>(server: Server<C>, n: nat, k: nat, count: nat, r: Replica<C>,
                                                     run: Run<C>, i: nat)
    requires Turns(server, n, k, count, r, run) && i < |run.tries|
    ensures Resumes(run.tries[i], run.processed, count, r.lastEventId)
    decreases n
  {
    var more, t, taken, r', rest :| Turn(server, k, count, r, run, more, t, taken, r', rest)
                                    && Turns(server, n - 1, k + 1, count + |taken|, r', rest);
    if i == 0 {
      ResumesNow(t, run.processed, count, r.lastEventId);
    } else {
      HeaderFollowsProcessed(server, n - 1, k + 1, count + |taken|, r', rest, i - 1);
      ResumesLater(rest.tries[i - 1], rest.processed, count, r.lastEventId, taken);
    }
  }

  /** The resume header of every attempt is the id of the last event processed before it. */
  lemma HeadersFollowProcessed<C(!new)>(loop: Loop<C>, n: nat, r: Replica<C>)
    ensures var run := First(loop, n, r);
            forall t :: t in run.tries ==> Resumes(t, run.processed, 0, r.lastEventId)
  {
    var run := First(loop, n, r);
    FirstAreTurns(loop, n, 0, 0, 0, r);
    forall t | t in run.tries ensures Resumes(t, run.processed, 0, r.lastEventId) {
      var i :| 0 <= i < |run.tries| && run.tries[i] == t;
      HeaderFollowsProcessed(loop.server, n, 0, 0, r, run, i);
    }
  }

  lemma {:induction false} TurnsAreReplay<C(!new)>(server: Server<C>, n: nat, k: nat, count: nat, r: Replica<C>,
                                                   run: Run<C>)
    requires Turns(server, n, k, count, r, run)
    ensures run.replica.models == Replay(r.models, run.processed)
    ensures run.replica.lastEventId == LastId(r.lastEventId, run.processed)
    decreases n
  {
    if !NoTurn(run, r) {
      var more, t, taken, r', rest :| Turn(server, k, count, r, run, more, t, taken, r', rest)
                                      && Turns(server, n - 1, k + 1, count + |taken|, r', rest);
      TurnsAreReplay(server, n - 1, k + 1, count + |taken|, r', rest);
      ReplayStep(r, taken, r', rest.processed);
    }
  }

  /**
   After any number of attempts each registered category has merged all updates of the processed events,
   and the replica resumes after the last of them: an event whose handling raised, or that was cut off,
   leaves no trace.
   */
  lemma RunIsReplay<C(!new)>(loop: Loop<C>, n: nat, r: Replica<C>)
    ensures var run := First(loop, n, r);
            && run.replica.models == Replay(r.models, run.processed)
            && run.replica.models.Keys == r.models.Keys
            && (forall c :: c in r.models ==>
                  run.replica.models[c] == UpdateModels(r.models[c], AllFor(run.processed, c)))
            && run.replica.lastEventId == LastId(r.lastEventId, run.processed)
  {
    FirstAreTurns(loop, n, 0, 0, 0, r);
    var run := First(loop, n, r);
    TurnsAreReplay(loop.server, n, 0, 0, r, run);
    forall c
      ensures c in Replay(r.models, run.processed) <==> c in r.models
      ensures c in r.models ==>
                Replay(r.models, run.processed)[c] == UpdateModels(r.models[c], AllFor(run.processed, c))
    {
      ReplayIsUpdates(r.models, run.processed, c);
    }
  }

  lemma ReplayStep<C>(r: Replica<C>, taken: seq<Event<C>>, r': Replica<C>, rest: seq<Event<C>>)
    requires r'.models == Replay(r.models, taken) && r'.lastEventId == LastId(r.lastEventId, taken)
    ensures Replay(r.models, taken + rest) == Replay(r'.models, rest)
    ensures LastId(r.lastEventId, taken + rest) == LastId(r'.lastEventId, rest)
  {
    ReplayConcat(r.models, taken, rest);
  }

  /** The id a client that has processed the first n events of the log resumes from. */
  function IdAt<C>(log: seq<Event<C>>, n: nat): string
    requires n <= |log|
  {
    if n == 0 then "" else log[n - 1].id
  }

  predicate UniqueIds<C>(log: seq<Event<C>>) {
    && (forall i :: 0 <= i < |log| ==> log[i].id != "")
    && (forall i, j :: 0 <= i < j < |log| ==> log[i].id != log[j].id)
  }

  /** A server that replays its log strictly after the header: any session is a prefix of that. */
  ghost predicate Replays<C>(server: Server<C>, log: seq<Event<C>>) {
    forall k: nat, n: nat | n <= |log| :: ReplaysAt(server, log, k, n)
  }

  predicate ReplaysAt<C(==)>(server: Server<C>, log: seq<Event<C>>, k: nat, n: nat)
    requires n <= |log|
  {
    server(k, IdAt(log, n)).Session? ==> server(k, IdAt(log, n)).events <= log[n..]
  }

  /** p is what the log holds from position `at` on, as far as p goes. */
  predicate Follows<C(==)>(p: seq<Event<C>>, log: seq<Event<C>>, at: nat) {
    at <= |log| && (p == [] || (at < |log| && p[0] == log[at] && Follows(p[1..], log, at + 1)))
  }

  lemma {:induction false} FollowsIsPrefix<C>(p: seq<Event<C>>, log: seq<Event<C>>, at: nat)
    ensures Follows(p, log, at) <==> at <= |log| && p <= log[at..]
  {
    if p != [] && at < |log| {
      FollowsIsPrefix(p[1..], log, at + 1);
      assert p == [p[0]] + p[1..] && log[at..] == [log[at]] + log[at + 1..];
    }
  }

  /** The events one attempt takes continue the log where the replica stands. */
  lemma HandedOverFollows<C>(server: Server<C>, k: nat, log: seq<Event<C>>, at: nat, taken: seq<Event<C>>)
    requires Replays(server, log) && at <= |log| && HandedOver(server(k, IdAt(log, at)), taken)
    ensures Follows(taken, log, at) && at + |taken| <= |log|
    ensures LastId(IdAt(log, at), taken) == IdAt(log, at + |taken|)
  {
    assert ReplaysAt(server, log, k, at);
    assert taken <= log[at..];
    FollowsIsPrefix(taken, log, at);
  }

  lemma FollowsOn<C>(log: seq<Event<C>>, n: nat, a: seq<Event<C>>, b: seq<Event<C>>)
    requires Follows(a, log, n) && Follows(b, log, n + |a|)
    ensures Follows(a + b, log, n)
  {
    FollowsIsPrefix(a, log, n);
    FollowsIsPrefix(b, log, n + |a|);
    FollowsIsPrefix(a + b, log, n);
    assert log[n..] == log[n..][..|a|] + log[n + |a|..];
  }

  lemma FollowsOnRun<C>(log: seq<Event<C>>, n: nat, a: seq<Event<C>>, b: seq<Event<C>>, whole: seq<Event<C>>)
    requires whole == a + b && Follows(a, log, n) && Follows(b, log, n + |a|)
    ensures Follows(whole, log, n)
  {
    FollowsOn(log, n, a, b);
  }

  lemma TurnFollows<C>(server: Server<C>, k: nat, count: nat, r: Replica<C>, run: Run<C>, more: seq<Callback>,
                       t: Try, taken: seq<Event<C>>, r': Replica<C>, rest: Run<C>, log: seq<Event<C>>, at: nat)
    requires Turn(server, k, count, r, run, more, t, taken, r', rest)
    requires Replays(server, log) && at <= |log| && r.lastEventId == IdAt(log, at)
    ensures at + |taken| <= |log| && r'.lastEventId == IdAt(log, at + |taken|)
    ensures Follows(rest.processed, log, at + |taken|) ==> Follows(run.processed, log, at)
  {
    HandedOverFollows(server, k, log, at, taken);
    if Follows(rest.processed, log, at + |taken|) {
      FollowsOnRun(log, at, taken, rest.processed, run.processed);
    }
  }

  lemma FollowsNothing<C>(log: seq<Event<C>>, at: nat, p: seq<Event<C>>)
    requires at <= |log| && p == []
    ensures Follows(p, log, at)
  {
  }

  lemma {:induction false} ProcessesPrefix<C(!new)>(server: Server<C>, n: nat, k: nat, count: nat, r: Replica<C>,
                                                    run: Run<C>, log: seq<Event<C>>, at: nat)
    requires Turns(server, n, k, count, r, run)
    requires Replays(server, log) && at <= |log| && r.lastEventId == IdAt(log, at)
    ensures Follows(run.processed, log, at)
    decreases n
  {
    if NoTurn(run, r) {
      FollowsNothing(log, at, run.processed);
    } else {
      var more, t, taken, r', rest :| Turn(server, k, count, r, run, more, t, taken, r', rest)
                                      && Turns(server, n - 1, k + 1, count + |taken|, r', rest);
      TurnFollows(server, k, count, r, run, more, t, taken, r', rest, log, at);
      ProcessesPrefix(server, n - 1, k + 1, count + |taken|, r', rest, log, at + |taken|);
    }
  }

  /**
   Exactly-once resume: after any number of attempts, over any pattern of connects and drops, the
   processed events are a prefix of the log, without gap or duplicate; the replica is the replay of
   that prefix, and the id it would resume from names that position of the log and no other.
   */
  lemma ResumesExactlyOnce<C(!new)>(loop: Loop<C>, n: nat, r: Replica<C>, log: seq<Event<C>>)
    requires UniqueIds(log) && Replays(loop.server, log) && r.lastEventId == ""
    ensures var run := First(loop, n, r);
            var m := |run.processed|;
            && m <= |log| && run.processed == log[..m]
            && run.replica.models == Replay(r.models, log[..m])
            && (forall i: nat | i <= |log| :: run.replica.lastEventId == IdAt(log, i) <==> i == m)
  {
    FirstAreTurns(loop, n, 0, 0, 0, r);
    ProcessesPrefix(loop.server, n, 0, 0, r, First(loop, n, r), log, 0);
    FollowsIsPrefix(First(loop, n, r).processed, log, 0);
    RunIsReplay(loop, n, r);
    var run := First(loop, n, r);
    assert log[0..] == log;
    assert run.processed == log[..|run.processed|];
    assert run.replica.lastEventId == IdAt(log, |run.processed|);
    IdNamesPosition(log, |run.processed|);
  }

  lemma {:induction false} AllForConcat<C>(a: seq<Event<C>>, b: seq<Event<C>>, c: string)
    ensures AllFor(a + b, c) == AllFor(a, c) + AllFor(b, c)
  {
    if b == [] {
      assert a + b == a;
    } else {
      assert (a + b)[..|a + b| - 1] == a + b[..|b| - 1];
      AllForConcat(a, b[..|b| - 1], c);
    }
  }

  /**
   So, against a server that replays its log, a category registered empty shows under each name the
   stable last writers of the part of the log that has been processed, when the log's updates of that
   name are in order; and no model exactly when there are none.
   */
  lemma ReplicaShowsLastWriters<C(!new)>(loop: Loop<C>, n: nat, r: Replica<C>, log: seq<Event<C>>, c: string,
                                         name: string)
    requires UniqueIds(log) && Replays(loop.server, log) && r.lastEventId == ""
    requires c in r.models && r.models[c] == map[] && InOrder(ForName(AllFor(log, c), name))
    ensures var run := First(loop, n, r);
            && |run.processed| <= |log| && c in run.replica.models
            && var updates := ForName(AllFor(log[..|run.processed|], c), name);
               var m := Get(run.replica.models[c], name);
               && ShowsStableLatest(SamplesOf(m), Epoch(updates))
               && (m.None? <==> !exists s: Sample :: s.stable && Latest(Epoch(updates), s))
  {
    ResumesExactlyOnce(loop, n, r, log);
    RunIsReplay(loop, n, r);
    var run := First(loop, n, r);
    PartInOrder(log, |run.processed|, c, name);
    ShowsPart(run, r.models, log[..|run.processed|], c, name);
  }

  lemma PartInOrder<C>(log: seq<Event<C>>, m: nat, c: string, name: string)
    requires m <= |log| && InOrder(ForName(AllFor(log, c), name))
    ensures InOrder(ForName(AllFor(log[..m], c), name))
  {
    assert log == log[..m] + log[m..];
    AllForConcat(log[..m], log[m..], c);
    ForNameConcat(AllFor(log[..m], c), AllFor(log[m..], c), name);
    InOrderPrefix(ForName(AllFor(log[..m], c), name), ForName(AllFor(log[m..], c), name));
  }

  lemma ShowsPart<C>(run: Run<C>, models: map<string, Models<C>>, part: seq<Event<C>>, c: string, name: string)
    requires c in models && models[c] == map[] && c in run.replica.models
    requires run.replica.models[c] == UpdateModels(models[c], AllFor(part, c))
    requires InOrder(ForName(AllFor(part, c), name))
    ensures var updates := ForName(AllFor(part, c), name);
            var m := Get(run.replica.models[c], name);
            && ShowsStableLatest(SamplesOf(m), Epoch(updates))
            && (m.None? <==> !exists s: Sample :: s.stable && Latest(Epoch(updates), s))
  {
    StoreIsLastWriterWins(AllFor(part, c), name);
  }

  lemma IdNamesPosition<C>(log: seq<Event<C>>, n: nat)
    requires UniqueIds(log) && n <= |log|
    ensures forall m: nat | m <= |log| :: IdAt(log, n) == IdAt(log, m) <==> m == n
  {
  }

  // ---------------------------------------------------------------- backoff

  predicate HasClean(tries: seq<Try>) {
    exists i :: 0 <= i < |tries| && tries[i].clean
  }

  /** The attempts after the last clean end. */
  function SinceClean(tries: seq<Try>): (s: seq<Try>)
    ensures !HasClean(s)
  {
    if !HasClean(tries) then tries else SinceClean(tries[1..])
  }

  function TotalSleep(tries: seq<Try>): real {
    if tries == [] then 0.0 else TotalSleep(tries[..|tries| - 1]) + tries[|tries| - 1].slept
  }

  function BackoffTotal(interval: real, maxRetries: nat): real
    requires maxRetries >= 1
  {
    interval * (Pow2(maxRetries - 1) - 1) as real
  }

  lemma {:induction false} DoublingSum(interval: real, tries: seq<Try>)
    requires forall i :: 0 <= i < |tries| ==> tries[i].slept == Sleep(interval, i)
    ensures tries != [] ==> TotalSleep(tries) == interval * (Pow2(|tries| - 1) - 1) as real
  {
    if |tries| > 1 {
      DoublingSum(interval, tries[..|tries| - 1]);
      var p := Pow2(|tries| - 2);
      assert Pow2(|tries| - 1) == 2 * p;
      assert interval * (p - 1) as real + interval * p as real == interval * (2 * p - 1) as real;
    } else if |tries| == 1 {
      assert tries[..0] == [];
    }
  }

  /** The tail of a run that started with `retries` failures and gave up after maxRetries in a row. */
  ghost predicate Doubles(tries: seq<Try>, maxRetries: nat, retries: nat, interval: real) {
    var tail, from := SinceClean(tries), if HasClean(tries) then 0 else retries;
    && |tail| == maxRetries - from
    && forall i :: 0 <= i < |tail| ==> tail[i].slept == Sleep(interval, from + i)
  }

  lemma TailOf(t: Try, rest: seq<Try>)
    ensures HasClean([t] + rest) <==> t.clean || HasClean(rest)
    ensures SinceClean([t] + rest) == if t.clean || HasClean(rest) then SinceClean(rest) else [t] + rest
  {
    var tries := [t] + rest;
    assert tries[1..] == rest;
    if t.clean { assert tries[0].clean; }
    if HasClean(rest) {
      var i :| 0 <= i < |rest| && rest[i].clean;
      assert tries[i + 1].clean;
    }
  }

  lemma DoublesPrepend(t: Try, rest: seq<Try>, maxRetries: nat, retries: nat, interval: real)
    requires Doubles(rest, maxRetries, if t.clean then 0 else retries + 1, interval)
    requires !t.clean ==> t.slept == Sleep(interval, retries)
    ensures Doubles([t] + rest, maxRetries, retries, interval)
  {
    TailOf(t, rest);
  }

  lemma TurnSleeps<C>(loop: Loop<C>, n: nat, k: nat, retries: nat, count: nat, r: Replica<C>)
    returns (t: Try, rest: Run<C>, next: nat, count': nat, r': Replica<C>, raised: bool)
    requires n > 0 && retries < loop.maxRetries
    ensures var run := FirstAttempts(loop, n, k, retries, count, r);
            run.tries == [t] + rest.tries && run.ending == rest.ending
    ensures raised ==> rest.ending != Exhausted
    ensures !raised ==> rest == FirstAttempts(loop, n - 1, k + 1, next, count', r')
    ensures !raised ==> next == if t.clean then 0 else retries + 1
    ensures !raised && !t.clean ==> t.slept == Sleep(loop.interval, retries)
  {
    var c, v;
    c, v, t, rest := UnfoldFirst(loop, n, k, retries, count, r);
    next, count', r', raised := v.retries, count + |c.taken|, c.replica, v.raised.Some?;
  }

  lemma {:induction false} ExhaustionTail<C>(loop: Loop<C>, n: nat, k: nat, retries: nat, count: nat, r: Replica<C>)
    requires retries <= loop.maxRetries
    ensures var run := FirstAttempts(loop, n, k, retries, count, r);
            run.ending == Exhausted ==> Doubles(run.tries, loop.maxRetries, retries, loop.interval)
    decreases n
  {
    if retries < loop.maxRetries && n > 0 {
      var t, rest, next, count', r', raised := TurnSleeps(loop, n, k, retries, count, r);
      if !raised && rest.ending == Exhausted {
        ExhaustionTail(loop, n - 1, k + 1, next, count', r');
        DoublesPrepend(t, rest.tries, loop.maxRetries, retries, loop.interval);
      }
    }
  }

  /**
   A run that gives up, after however many attempts, made maxRetries attempts after its last clean end
   and slept, over them, interval * (2^(maxRetries - 1) - 1) in all.
   */
  lemma BackoffBeforeGivingUp<C>(loop: Loop<C>, n: nat, r: Replica<C>)
    requires loop.maxRetries >= 1
    ensures var run := First(loop, n, r);
            run.ending == Exhausted ==>
              && |SinceClean(run.tries)| == loop.maxRetries
              && TotalSleep(SinceClean(run.tries)) == BackoffTotal(loop.interval, loop.maxRetries)
  {
    var run := First(loop, n, r);
    ExhaustionTail(loop, n, 0, 0, 0, r);
    TailSleep(run.tries, loop.maxRetries, loop.interval);
  }

  lemma TailSleep(tries: seq<Try>, maxRetries: nat, interval: real)
    requires maxRetries >= 1
    ensures Doubles(tries, maxRetries, 0, interval) ==>
              && |SinceClean(tries)| == maxRetries
              && TotalSleep(SinceClean(tries)) == BackoffTotal(interval, maxRetries)
  {
    if Doubles(tries, maxRetries, 0, interval) { DoublingSum(interval, SinceClean(tries)); }
  }
}
