/**
 How a run of the server-sent-events client (src/qorme/client/client.py, Client._sse) ends, told from the
 answers of the server alone: which attempt is the last, what the run raises, and how long it sleeps.
 */
module SseEndings {
  import opened Basics
  import opened MlMerge
  import opened SseClient

  // ---------------------------------------------------------------- what the server's answer comes to

  /** The handler's assertion or its decoder raises on this event. */
  predicate Rejected<C>(e: Event<C>) { e.kind != "ml.updates" || e.data.Undecodable? }

  datatype How = Clean | Dropped(interrupted: bool) | Interrupted | Crashed

  function HowFailed(f: Failure): How {
    match f
    case Transport(interrupted) => Dropped(interrupted)
    case Cancelled => Interrupted
    case Crash => Crashed
  }

  /** A session ends as its stream does, unless an event of it is rejected. */
  function HowEnded<C>(a: Attempt<C>): How {
    match a
    case Refused(f) => HowFailed(f)
    case Session(events, end) =>
      if exists i :: 0 <= i < |events| && Rejected(events[i]) then Crashed
      else if end.None? then Clean else HowFailed(end.value)
  }

  /** m is the number of events before the first that is rejected, or of all events. */
  ghost predicate UpToRejected<C>(events: seq<Event<C>>, m: nat) {
    && m <= |events| && (forall i :: 0 <= i < m ==> !Rejected(events[i]))
    && (m < |events| ==> Rejected(events[m]))
  }

  lemma {:induction false} TakenUpToRejected<C>(events: seq<Event<C>>)
    ensures UpToRejected(events, Taken(events))
  {
    if events != [] && !Rejected(events[0]) {
      TakenUpToRejected(events[1..]);
      var n := Taken(events[1..]);
      assert forall i :: 0 < i < n + 1 ==> events[i] == events[1..][i - 1];
    }
  }

  /** The callbacks of a session: a rejected event is handed over too, and none after it. */
  ghost predicate Brackets<C>(trace: seq<Callback>, events: seq<Event<C>>, handed: nat)
    requires handed <= |events|
  {
    && |trace| == handed + 2 && trace[0] == OnConnect && trace[handed + 1] == OnDisconnect
    && forall i :: 0 <= i < handed ==> trace[i + 1] == OnEvent(events[i].id)
  }

  lemma {:induction false} CalledAre<C>(events: seq<Event<C>>, n: nat)
    requires n <= |events|
    ensures |Called(events[..n])| == n
    ensures forall i :: 0 <= i < n ==> Called(events[..n])[i] == OnEvent(events[i].id)
  {
    if n > 0 {
      CalledAre(events, n - 1);
      assert events[..n][..n - 1] == events[..n - 1];
    }
  }

  /**
   An attempt takes the events before the first rejected one, calls back for that one too, and leaves
   the store disconnected; one that is refused does nothing.
   */
  lemma AttemptExactly<C>(r: Replica<C>, a: Attempt<C>)
    ensures var c := Connect(r, a);
            match a
            case Refused(f) => c == Outcome([], [], r, Some(f))
            case Session(events, end) =>
              var m := |c.taken|;
              && UpToRejected(events, m) && c.taken == events[..m]
              && Brackets(c.trace, events, if m < |events| then m + 1 else m)
              && c.replica.link == Disconnected
  {
    if a.Session? {
      var events, m := a.events, Taken(a.events);
      TakenUpToRejected(events);
      CalledAre(events, if m < |events| then m + 1 else m);
      AbsorbIsReplay(r.(link := Connected), events[..m]);
    }
  }

  function HowFor(failure: Option<Failure>): How { if failure.None? then Clean else HowFailed(failure.value) }

  lemma FailureIsHow<C>(r: Replica<C>, a: Attempt<C>)
    ensures HowFor(Connect(r, a).failure) == HowEnded(a)
  {
    if a.Session? {
      TakenUpToRejected(a.events);
    }
  }

  // ---------------------------------------------------------------- a run, from these alone

  /** Transport failures in a row before attempt i, when `retries` came before the first. */
  function InARow(retries: nat, hows: seq<How>, i: nat): nat
    requires i <= |hows|
  {
    if i == 0 then retries else if hows[i - 1].Dropped? then InARow(retries, hows, i - 1) + 1 else 0
  }

  /** Such an attempt is the last: also a transport failure whose pause is cancelled, and only a repeated one pauses. */
  predicate Final(how: How, before: nat) {
    how.Interrupted? || how.Crashed? || (how == Dropped(true) && before > 0)
  }

  predicate EndsAs(how: How, before: nat, last: bool, ending: Ending) {
    Final(how, before) ==> last && ending == if how.Crashed? then RaisedError else RaisedCancelled
  }

  predicate Pauses(how: How, before: nat, interval: real, slept: real) {
    slept == if how.Dropped? && before > 0 then interval * Pow2(before - 1) as real else 0.0
  }

  /** Attempt i of the run, of which `retries` failures came before the first. */
  predicate TryTold(tries: seq<Try>, hows: seq<How>, retries: nat, maxRetries: int, interval: real, ending: Ending,
                    i: nat)
    requires i < |hows| == |tries|
  {
    var before := InARow(retries, hows, i);
    && before < maxRetries && (tries[i].clean <==> hows[i].Clean?)
    && EndsAs(hows[i], before, i == |hows| - 1, ending)
    && Pauses(hows[i], before, interval, tries[i].slept)
  }

  /** No attempt was the last of its own accord. */
  predicate Undecided(hows: seq<How>, retries: nat) {
    hows == [] || !Final(hows[|hows| - 1], InARow(retries, hows, |hows| - 1))
  }

  /** The whole run, of at most n attempts. */
  ghost predicate Told(tries: seq<Try>, hows: seq<How>, retries: nat, maxRetries: int, interval: real, ending: Ending,
                       n: nat)
  {
    && |tries| == |hows| <= n
    && (forall i :: 0 <= i < |hows| ==> TryTold(tries, hows, retries, maxRetries, interval, ending, i))
    && (Undecided(hows, retries) ==>
          if InARow(retries, hows, |hows|) >= maxRetries then ending == Exhausted
          else ending == Running && |tries| == n)
  }

  /** Told by the server's answers to the headers that were sent. */
  function Hows<C>(server: Server<C>, k: nat, tries: seq<Try>): (hows: seq<How>)
    ensures |hows| == |tries|
    ensures forall i :: 0 <= i < |hows| ==> hows[i] == HowEnded(server(k + i, tries[i].header))
    decreases |tries|
  {
    if tries == [] then [] else [HowEnded(server(k, tries[0].header))] + Hows(server, k + 1, tries[1..])
  }

  lemma {:induction false} InARowLater(retries: nat, how: How, rest: seq<How>, i: nat)
    requires i <= |rest|
    ensures InARow(retries, [how] + rest, i + 1) == InARow(if how.Dropped? then retries + 1 else 0, rest, i)
  {
    if i > 0 {
      InARowLater(retries, how, rest, i - 1);
      assert ([how] + rest)[i] == rest[i - 1];
    }
  }

  lemma OneTryMore(t: Try, rest: seq<Try>, how: How, hows: seq<How>, retries: nat, maxRetries: int, interval: real,
                   ending: Ending, n: nat)
    requires retries < maxRetries && (t.clean <==> how.Clean?) && Pauses(how, retries, interval, t.slept)
    requires if Final(how, retries) then rest == [] && hows == [] && EndsAs(how, retries, true, ending)
             else Told(rest, hows, if how.Dropped? then retries + 1 else 0, maxRetries, interval, ending, n)
    ensures Told([t] + rest, [how] + hows, retries, maxRetries, interval, ending, n + 1)
  {
    if !Final(how, retries) {
      var next := if how.Dropped? then retries + 1 else 0;
      forall i | 0 <= i < |hows| + 1
        ensures TryTold([t] + rest, [how] + hows, retries, maxRetries, interval, ending, i)
      {
        if i > 0 {
          InARowLater(retries, how, hows, i - 1);
          assert TryTold(rest, hows, next, maxRetries, interval, ending, i - 1);
        }
      }
      InARowLater(retries, how, hows, |hows|);
      if hows != [] { InARowLater(retries, how, hows, |hows| - 1); }
    }
  }

  lemma OneTurn<C>(loop: Loop<C>, n: nat, k: nat, retries: nat, count: nat, r: Replica<C>)
    returns (how: How, t: Try, rest: Run<C>, count': nat, r': Replica<C>)
    requires n > 0 && retries < loop.maxRetries
    ensures var run := FirstAttempts(loop, n, k, retries, count, r);
            run.tries == [t] + rest.tries && run.ending == rest.ending
    ensures how == HowEnded(loop.server(k, t.header)) && (t.clean <==> how.Clean?)
    ensures Pauses(how, retries, loop.interval, t.slept)
    ensures if Final(how, retries) then rest.tries == [] && EndsAs(how, retries, true, rest.ending)
            else rest == FirstAttempts(loop, n - 1, k + 1, if how.Dropped? then retries + 1 else 0, count', r')
  {
    var c, v;
    c, v, t, rest := UnfoldFirst(loop, n, k, retries, count, r);
    how, count', r' := HowFor(c.failure), count + |c.taken|, c.replica;
    FailureIsHow(r, loop.server(k, r.lastEventId));
  }

  lemma {:induction false} FirstAreTold<C>(loop: Loop<C>, n: nat, k: nat, retries: nat, count: nat, r: Replica<C>,
                                           run: Run<C>)
    requires run == FirstAttempts(loop, n, k, retries, count, r)
    ensures Told(run.tries, Hows(loop.server, k, run.tries), retries, loop.maxRetries, loop.interval, run.ending, n)
    decreases n
  {
    if retries < loop.maxRetries && n > 0 {
      var how, t, rest, count', r' := OneTurn(loop, n, k, retries, count, r);
      assert run.tries[1..] == rest.tries;
      if !Final(how, retries) {
        FirstAreTold(loop, n - 1, k + 1, if how.Dropped? then retries + 1 else 0, count', r', rest);
      }
      OneTryMore(t, rest.tries, how, Hows(loop.server, k + 1, rest.tries), retries, loop.maxRetries, loop.interval,
                 run.ending, n - 1);
    }
  }

  /** The server's answer to attempt i of a run. */
  function Answer<C>(loop: Loop<C>, run: Run<C>, i: nat): Attempt<C>
    requires i < |run.tries|
  {
    loop.server(i, run.tries[i].header)
  }

  /**
   The answers of the server decide all about a run: a cancelled attempt, a crash and a rejected event end
   it there and are raised, and so does a cancelled pause; it gives up after maxRetries transport failures
   in a row; otherwise all n attempts are made. Each pause is as long as the failures before it say.
   */
  lemma RunIsTold<C>(loop: Loop<C>, n: nat, r: Replica<C>)
    ensures var run := First(loop, n, r);
            Told(run.tries, Hows(loop.server, 0, run.tries), 0, loop.maxRetries, loop.interval, run.ending, n)
  {
    FirstAreTold(loop, n, 0, 0, 0, r, First(loop, n, r));
  }

  /** Attempt i is refused with this failure, or its session ends in it after events that are all accepted. */
  ghost predicate FailsWith<C>(a: Attempt<C>, f: Failure) {
    || a == Refused(f)
    || (a.Session? && a.end == Some(f) && forall i :: 0 <= i < |a.events| ==>
          a.events[i].kind == "ml.updates" && !a.events[i].data.Undecodable?)
  }

  ghost predicate HasRejected<C>(a: Attempt<C>) {
    a.Session? && exists i :: 0 <= i < |a.events| && (a.events[i].kind != "ml.updates" || a.events[i].data.Undecodable?)
  }

  lemma FailsHow<C>(a: Attempt<C>)
    ensures FailsWith(a, Cancelled) ==> HowEnded(a).Interrupted?
    ensures FailsWith(a, Crash) || HasRejected(a) ==> HowEnded(a).Crashed?
  {
    if HasRejected(a) {
      var j :| 0 <= j < |a.events| && (a.events[j].kind != "ml.updates" || a.events[j].data.Undecodable?);
      assert Rejected(a.events[j]);
    }
  }

  lemma OneTold(tries: seq<Try>, hows: seq<How>, maxRetries: int, interval: real, ending: Ending, n: nat, i: nat)
    requires Told(tries, hows, 0, maxRetries, interval, ending, n) && i < |hows|
    ensures hows[i].Interrupted? ==> i == |hows| - 1 && ending == RaisedCancelled
    ensures hows[i].Crashed? ==> i == |hows| - 1 && ending == RaisedError
    ensures i < |hows| - 1 && !hows[i].Dropped? ==> tries[i].clean
  {
    assert TryTold(tries, hows, 0, maxRetries, interval, ending, i);
  }

  /** Cancellation is raised at once, and so are all errors other than transport errors; neither is retried. */
  lemma ErrorsAreRaised<C>(loop: Loop<C>, n: nat, r: Replica<C>, i: nat)
    requires i < |First(loop, n, r).tries|
    ensures var run := First(loop, n, r);
            && (FailsWith(Answer(loop, run, i), Cancelled) ==> i == |run.tries| - 1 && run.ending == RaisedCancelled)
            && (FailsWith(Answer(loop, run, i), Crash) || HasRejected(Answer(loop, run, i)) ==>
                  i == |run.tries| - 1 && run.ending == RaisedError)
  {
    RunIsTold(loop, n, r);
    var run := First(loop, n, r);
    OneTold(run.tries, Hows(loop.server, 0, run.tries), loop.maxRetries, loop.interval, run.ending, n, i);
    FailsHow(Answer(loop, run, i));
  }

  /** Why a run ended, from its last attempts. */
  ghost predicate EndsFor(hows: seq<How>, maxRetries: int, ending: Ending) {
    var last := |hows| - 1;
    && (ending == RaisedError <==> hows != [] && hows[last].Crashed?)
    && (ending == RaisedCancelled <==>
          hows != [] && (hows[last].Interrupted?
                         || (hows[last] == Dropped(true) && last > 0 && hows[last - 1].Dropped?)))
    && (ending == Exhausted <==> ending != RaisedCancelled && InARow(0, hows, |hows|) >= maxRetries)
  }

  lemma EndingFromLast(tries: seq<Try>, hows: seq<How>, maxRetries: int, interval: real, ending: Ending, n: nat)
    requires Told(tries, hows, 0, maxRetries, interval, ending, n)
    ensures EndsFor(hows, maxRetries, ending) && (ending == Running ==> |tries| == n)
  {
    if hows != [] { assert TryTold(tries, hows, 0, maxRetries, interval, ending, |hows| - 1); }
  }

  /** Each way for a run to end has its own last attempts; while it is running all attempts were made. */
  lemma EndsExactlyFor<C>(loop: Loop<C>, n: nat, r: Replica<C>)
    ensures var run := First(loop, n, r);
            && EndsFor(Hows(loop.server, 0, run.tries), loop.maxRetries, run.ending)
            && (run.ending == Running ==> |run.tries| == n)
  {
    RunIsTold(loop, n, r);
    var run := First(loop, n, r);
    EndingFromLast(run.tries, Hows(loop.server, 0, run.tries), loop.maxRetries, loop.interval, run.ending, n);
  }

  lemma {:induction false} RowIsDropped(hows: seq<How>, i: nat)
    requires i <= |hows|
    ensures InARow(0, hows, i) <= i
    ensures forall j :: i - InARow(0, hows, i) <= j < i ==> hows[j].Dropped?
    ensures InARow(0, hows, i) < i ==> !hows[i - InARow(0, hows, i) - 1].Dropped?
  {
    if i > 0 && hows[i - 1].Dropped? { RowIsDropped(hows, i - 1); }
  }

  ghost predicate FailsInTransport<C>(a: Attempt<C>) { exists f: Failure :: f.Transport? && FailsWith(a, f) }

  lemma DroppedFails<C>(a: Attempt<C>)
    requires HowEnded(a).Dropped?
    ensures FailsInTransport(a)
  {
    var f := Transport(HowEnded(a).interrupted);
    if a.Session? {
      forall i | 0 <= i < |a.events| ensures !Rejected(a.events[i]) {}
    }
    assert FailsWith(a, f);
  }

  /** A run gives up only when the last maxRetries attempts, and no more in a row, have failed in transport. */
  lemma GivesUpAfter<C>(loop: Loop<C>, n: nat, r: Replica<C>)
    requires First(loop, n, r).ending == Exhausted && loop.maxRetries >= 1
    ensures var run := First(loop, n, r);
            && loop.maxRetries <= |run.tries|
            && FailsFrom(loop, run, |run.tries| - loop.maxRetries)
            && (loop.maxRetries < |run.tries| ==> run.tries[|run.tries| - loop.maxRetries - 1].clean)
  {
    RunIsTold(loop, n, r);
    GaveUp(loop, First(loop, n, r), n);
  }

  lemma GaveUp<C>(loop: Loop<C>, run: Run<C>, n: nat)
    requires run.ending == Exhausted && loop.maxRetries >= 1
    requires Told(run.tries, Hows(loop.server, 0, run.tries), 0, loop.maxRetries, loop.interval, run.ending, n)
    ensures loop.maxRetries <= |run.tries|
    ensures FailsFrom(loop, run, |run.tries| - loop.maxRetries)
    ensures loop.maxRetries < |run.tries| ==> run.tries[|run.tries| - loop.maxRetries - 1].clean
  {
    var hows := Hows(loop.server, 0, run.tries);
    RowAtEnd(run.tries, hows, loop.maxRetries, loop.interval, run.ending, n);
    DroppedAnswers(loop, run, |run.tries| - loop.maxRetries);
  }

  predicate DroppedFrom(hows: seq<How>, from: int) { forall i: nat :: from <= i < |hows| ==> hows[i].Dropped? }

  /** All attempts from that one on failed in transport. */
  ghost predicate FailsFrom<C>(loop: Loop<C>, run: Run<C>, from: int) {
    forall i: nat :: from <= i < |run.tries| ==> FailsInTransport(Answer(loop, run, i))
  }

  lemma DroppedAnswers<C>(loop: Loop<C>, run: Run<C>, from: int)
    requires DroppedFrom(Hows(loop.server, 0, run.tries), from)
    ensures FailsFrom(loop, run, from)
  {
    forall i: nat | from <= i < |run.tries| ensures FailsInTransport(Answer(loop, run, i)) {
      AnswerIsHow(loop, run, i);
      DroppedFails(Answer(loop, run, i));
    }
  }

  lemma AnswerIsHow<C>(loop: Loop<C>, run: Run<C>, i: nat)
    requires i < |run.tries|
    ensures Hows(loop.server, 0, run.tries)[i] == HowEnded(Answer(loop, run, i))
  {
  }

  lemma RowAtEnd(tries: seq<Try>, hows: seq<How>, maxRetries: int, interval: real, ending: Ending, n: nat)
    requires Told(tries, hows, 0, maxRetries, interval, ending, n) && ending == Exhausted && maxRetries >= 1
    ensures maxRetries <= |hows| && DroppedFrom(hows, |hows| - maxRetries)
    ensures maxRetries < |hows| ==> tries[|hows| - maxRetries - 1].clean
  {
    EndingFromLast(tries, hows, maxRetries, interval, ending, n);
    if hows != [] { assert TryTold(tries, hows, 0, maxRetries, interval, ending, |hows| - 1); }
    RowIsDropped(hows, |hows|);
    if maxRetries < |hows| { OneTold(tries, hows, maxRetries, interval, ending, n, |hows| - maxRetries - 1); }
  }
}
