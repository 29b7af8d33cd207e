/**
 One call of the runner as an object, and the same call as lines of a thread in the exclusion protocol: when nobody else
 moves, both leave the same rows, locks and `_running_since`.
 */
module RunnerRefinement {
  import opened Wrappers
  import opened CollectionRuns
  import opened CollectionRunner
  import X = CollectionExclusion

  // ----- Running a list of events -----

  function Play(s: X.System, events: seq<X.Event>): X.System
    decreases |events|
  {
    if events == [] then s else Play(X.Next(s, events[0]), events[1..])
  }

  lemma {:induction false} PlayConcat(s: X.System, a: seq<X.Event>, b: seq<X.Event>)
    ensures Play(s, a + b) == Play(Play(s, a), b)
    decreases |a|
  {
    hide X.Next;
    if a == [] {
      assert a + b == b;
    } else {
      assert (a + b)[1..] == a[1..] + b;
      PlayConcat(X.Next(s, a[0]), a[1..], b);
    }
  }

  lemma {:induction false} RunIsPlay(s: X.System, events: seq<X.Event>, n: nat)
    requires n <= |events|
    ensures X.Run(s, events, n) == Play(s, events[..n])
  {
    hide X.Next;
    if n > 0 {
      RunIsPlay(s, events, n - 1);
      assert events[..n] == events[..n - 1] + [events[n - 1]];
      PlayConcat(s, events[..n - 1], [events[n - 1]]);
      assert Play(X.Run(s, events, n - 1), [events[n - 1]]) == X.Run(s, events, n) by {
        assert [events[n - 1]][1..] == [];
      }
    }
  }

  lemma {:induction false} PlayTwo(s: X.System, a: X.Event, b: X.Event)
    ensures Play(s, [a, b]) == X.Next(X.Next(s, a), b)
  {
    hide X.Next;
    assert [a, b][1..] == [b] && [b][1..] == [];
    assert Play(X.Next(s, a), [b]) == Play(X.Next(X.Next(s, a), b), []);
  }

  // ----- The lines of a call -----

  /** The heartbeats, each at its instant. */
  function BeatEvents(t: X.Thread, clock: int, beats: seq<int>): seq<X.Event>
    requires Timely(clock, beats)
    decreases |beats|
  {
    if beats == [] then []
    else [X.Tick(beats[0] - clock), X.Beat(t, true)] + BeatEvents(t, beats[0], beats[1..])
  }

  /** The instants come one after the other. */
  predicate Timely(clock: int, beats: seq<int>)
    decreases |beats|
  {
    beats == [] || (clock <= beats[0] && Timely(beats[0], beats[1..]))
  }

  function LastOf(clock: int, beats: seq<int>): int
    decreases |beats|
  {
    if beats == [] then clock else LastOf(beats[0], beats[1..])
  }

  /** From the end of the collection to the reset of `_running_since`. */
  function EndEvents(t: X.Thread, script: Script): seq<X.Event>
    requires LastOf(script.startedAt, script.beats) <= script.endedAt
  {
    [X.Tick(script.endedAt - LastOf(script.startedAt, script.beats)), X.Step(t, script.collects)]
    + (if script.collects then [] else [X.Step(t, script.recorded)])
    + [X.Step(t, true)]
  }

  /** Everything may happen in this order. */
  predicate InOrder(script: Script) {
    Timely(script.startedAt, script.beats) && LastOf(script.startedAt, script.beats) <= script.endedAt
  }

  function InsideEvents(t: X.Thread, script: Script): seq<X.Event>
    requires InOrder(script)
  {
    if script.setupFine
    then [X.Step(t, true)] + BeatEvents(t, script.startedAt, script.beats) + EndEvents(t, script)
    else [X.Step(t, false)]
  }

  /** Both locks are free for the caller. */
  predicate Admits(s: X.System, t: X.Thread, script: Script) {
    X.ThreadLock(s, t.process).None? && (!s.postgres || (script.answers && s.advisory.None?))
  }

  /** All lines of the call; it has one line when the thread lock is taken. */
  function CallEvents(s: X.System, t: X.Thread, script: Script): seq<X.Event>
    requires InOrder(script)
  {
    if X.ThreadLock(s, t.process).Some? then [X.Step(t, true)]
    else
      [X.Step(t, true), X.Step(t, script.answers)]
      + (if Admits(s, t, script) then [X.Step(t, true)] + InsideEvents(t, script) + [X.Step(t, true)] else [])
      + [X.Step(t, true)]
  }

  // ----- What they do -----

  /** `s'` is `s` but for the rows, the clock and the place of thread `t`. */
  ghost predicate Moves(s: X.System, s': X.System, t: X.Thread, phase: X.Phase, rows: seq<CollectionRun>, clock: int) {
    && X.PhaseOf(s', t) == phase && s'.rows == rows && s'.clock == clock
    && s'.postgres == s.postgres && s'.processes == s.processes && s'.timeout == s.timeout
    && s'.advisory == s.advisory
    && X.ThreadLock(s', t.process) == X.ThreadLock(s, t.process)
    && X.RunningSince(s', t.process) == X.RunningSince(s, t.process)
  }

  lemma {:induction false} BeatsPlay(s: X.System, t: X.Thread, before: seq<CollectionRun>, run: CollectionRun, beats: seq<int>)
    requires t.process < s.processes && X.PhaseOf(s, t) == X.Working(|before|) && s.rows == before + [run]
    requires Timely(s.clock, beats)
    ensures
      Moves(s, Play(s, BeatEvents(t, s.clock, beats)), t, X.Working(|before|), before + [BeatenBy(run, beats)],
            LastOf(s.clock, beats))
    decreases |beats|
  {
    if beats != [] {
      var first, rest := [X.Tick(beats[0] - s.clock), X.Beat(t, true)], BeatEvents(t, beats[0], beats[1..]);
      var s1 := X.Next(s, first[0]);
      var s2 := X.Next(s1, first[1]);
      assert Play(s, first + rest) == Play(s2, rest) by {
        PlayConcat(s, first, rest);
        assert first[1..] == [X.Beat(t, true)];
      }
      assert s2.rows == before + [Beaten(run, beats[0])];
      BeatsPlay(s2, t, before, Beaten(run, beats[0]), beats[1..]);
      BeatenFromFront(run, beats);
    }
  }

  lemma {:induction false} BeatenFromFront(run: CollectionRun, beats: seq<int>)
    requires beats != []
    ensures BeatenBy(run, beats) == BeatenBy(Beaten(run, beats[0]), beats[1..])
  {
    if |beats| > 1 {
      var last := |beats| - 1;
      BeatenFromFront(run, beats[..last]);
      assert beats[..last][1..] == beats[1..][..last - 1];
    }
  }

  /** The state after the line that ends the collection, and after the record of its error if it raised. */
  function Ended(s: X.System, t: X.Thread, script: Script): X.System
    requires s.clock <= script.endedAt
  {
    var b := X.Next(X.Next(s, X.Tick(script.endedAt - s.clock)), X.Step(t, script.collects));
    if script.collects then b else X.Next(b, X.Step(t, script.recorded))
  }

  lemma {:induction false} EndLines(s: X.System, t: X.Thread, script: Script, before: seq<CollectionRun>, run: CollectionRun)
    requires t.process < s.processes && X.PhaseOf(s, t) == X.Working(|before|) && s.rows == before + [run]
    requires s.clock <= script.endedAt
    ensures
      var s' := Ended(s, t, script);
      && X.PhaseOf(s', t).Clearing?
      && s'.rows == before + [EndOf(run, script)]
      && s'.processes == s.processes && s'.postgres == s.postgres && s'.advisory == s.advisory
      && X.ThreadLock(s', t.process) == X.ThreadLock(s, t.process)
  {
    var b := X.Next(X.Next(s, X.Tick(script.endedAt - s.clock)), X.Step(t, script.collects));
    assert b.rows == if script.collects then before + [FinishedAs(run, Success, script.endedAt)] else before + [run];
  }

  lemma {:induction false} ClearLine(s: X.System, t: X.Thread)
    requires t.process < s.processes && X.PhaseOf(s, t).Clearing?
    ensures
      var s' := X.Next(s, X.Step(t, true));
      && X.PhaseOf(s', t).Unlocking? && X.RunningSince(s', t.process).None? && s'.rows == s.rows
      && s'.processes == s.processes && s'.postgres == s.postgres && s'.advisory == s.advisory
      && X.ThreadLock(s', t.process) == X.ThreadLock(s, t.process)
  {
  }

  lemma {:induction false} EndIsPlayed(s: X.System, t: X.Thread, script: Script)
    requires InOrder(script) && s.clock == LastOf(script.startedAt, script.beats)
    ensures Play(s, EndEvents(t, script)) == X.Next(Ended(s, t, script), X.Step(t, true))
  {
    hide X.Next, Timely, LastOf;
    var tail, last := if script.collects then [] else [X.Step(t, script.recorded)], [X.Step(t, true)];
    var head := [X.Tick(script.endedAt - s.clock), X.Step(t, script.collects)];
    PlayConcat(s, head + tail, last);
    PlayConcat(s, head, tail);
    PlayTwo(s, head[0], head[1]);
    assert EndEvents(t, script) == head + tail + last;
    assert Play(Play(s, head), tail) == Ended(s, t, script);
  }

  /** From the middle of the collection to the reset of `_running_since`. */
  lemma {:induction false} EndPlays(s: X.System, t: X.Thread, script: Script, before: seq<CollectionRun>, run: CollectionRun)
    requires t.process < s.processes && X.PhaseOf(s, t) == X.Working(|before|) && s.rows == before + [run]
    requires InOrder(script) && s.clock == LastOf(script.startedAt, script.beats)
    ensures
      var s' := Play(s, EndEvents(t, script));
      && X.PhaseOf(s', t).Unlocking? && X.RunningSince(s', t.process).None?
      && s'.rows == before + [EndOf(run, script)]
      && s'.processes == s.processes && s'.postgres == s.postgres && s'.advisory == s.advisory
      && X.ThreadLock(s', t.process) == X.ThreadLock(s, t.process)
  {
    hide X.Next, EndOf, X.ThreadLock, X.RunningSince, X.PhaseOf, Timely, LastOf, Play, EndEvents, Ended;
    EndIsPlayed(s, t, script);
    EndLines(s, t, script, before, run);
    ClearLine(Ended(s, t, script), t);
  }

  /** What the end of the call makes of its row. */
  function EndOf(run: CollectionRun, script: Script): CollectionRun {
    if script.collects then FinishedAs(run, Success, script.endedAt)
    else if script.recorded then FinishedAs(run, Error, script.endedAt)
    else run
  }

  /** From the first line inside to the last. */
  lemma {:induction false} InsidePlays(s: X.System, t: X.Thread, script: Script)
    requires t.process < s.processes && X.PhaseOf(s, t) == X.Starting(script.startedAt) && InOrder(script)
    requires s.clock == script.startedAt && s.timeout == script.timeout
    ensures
      var s' := Play(s, InsideEvents(t, script));
      && X.PhaseOf(s', t).Unlocking? && s'.rows == RowsAfterRun(s.rows, script)
      && X.RunningSince(s', t.process) == (if script.setupFine then None else X.RunningSince(s, t.process))
      && s'.processes == s.processes && s'.postgres == s.postgres && s'.advisory == s.advisory
      && X.ThreadLock(s', t.process) == X.ThreadLock(s, t.process)
  {
    var first := X.Next(s, X.Step(t, script.setupFine));
    assert Play(s, [X.Step(t, script.setupFine)]) == first;
    if script.setupFine {
      var before := Abandoned(s.rows, script.startedAt - script.timeout);
      var beats, rest := BeatEvents(t, script.startedAt, script.beats), EndEvents(t, script);
      PlayConcat(s, [X.Step(t, true)] + beats, rest);
      PlayConcat(s, [X.Step(t, true)], beats);
      BeatsPlay(first, t, before, Started(script.startedAt), script.beats);
      hide Abandoned;
      EndPlays(Play(first, beats), t, script, before, BeatenBy(Started(script.startedAt), script.beats));
    }
  }

  /** The lines up to the first one inside, when both locks are free. */
  lemma {:induction false} EntryLines(s: X.System, t: X.Thread, script: Script)
    requires t.process < s.processes && X.PhaseOf(s, t).Outside? && Admits(s, t, script)
    ensures
      var s' := X.Next(X.Next(X.Next(s, X.Step(t, true)), X.Step(t, script.answers)), X.Step(t, true));
      && X.PhaseOf(s', t) == X.Starting(s.clock) && s'.rows == s.rows && s'.clock == s.clock && s'.timeout == s.timeout
      && s'.processes == s.processes && s'.postgres == s.postgres
      && s'.advisory == (if s.postgres then Some(t) else s.advisory)
      && X.RunningSince(s', t.process) == Some(s.clock) && X.ThreadLock(s', t.process) == Some(t)
  {
  }

  /** The lines of a call that does not get in. */
  lemma {:induction false} RefusedLines(s: X.System, t: X.Thread, script: Script)
    requires t.process < s.processes && X.PhaseOf(s, t).Outside? && !Admits(s, t, script)
    ensures
      var s1 := X.Next(s, X.Step(t, true));
      var s' := if X.ThreadLock(s, t.process).Some? then s1
                else X.Next(X.Next(s1, X.Step(t, script.answers)), X.Step(t, true));
      && X.PhaseOf(s', t).Outside? && s'.rows == s.rows && s'.advisory == s.advisory
      && X.ThreadLock(s', t.process) == X.ThreadLock(s, t.process)
      && X.RunningSince(s', t.process) == X.RunningSince(s, t.process)
  {
  }

  /** The last two lines of a call that got in. */
  lemma {:induction false} ExitLines(s: X.System, t: X.Thread)
    requires t.process < s.processes && X.PhaseOf(s, t).Unlocking?
    ensures
      var s' := X.Next(X.Next(s, X.Step(t, true)), X.Step(t, true));
      && X.PhaseOf(s', t).Outside? && s'.rows == s.rows
      && s'.advisory == (if s.advisory == Some(t) then None else s.advisory)
      && X.ThreadLock(s', t.process).None? && X.RunningSince(s', t.process) == X.RunningSince(s, t.process)
  {
  }

  lemma {:induction false} AdmittedPlays(s: X.System, t: X.Thread, script: Script)
    requires t.process < s.processes && X.PhaseOf(s, t).Outside? && InOrder(script) && Admits(s, t, script)
    requires s.clock == script.startedAt && s.timeout == script.timeout && s.advisory != Some(t)
    ensures
      var end := Play(s, CallEvents(s, t, script));
      && X.PhaseOf(end, t).Outside? && X.ThreadLock(end, t.process).None? && end.advisory == s.advisory
      && end.rows == RowsAfterRun(s.rows, script)
      && X.RunningSince(end, t.process) == (if script.setupFine then None else Some(script.startedAt))
  {
    EntryLines(s, t, script);
    var head, last, inside := [X.Step(t, true), X.Step(t, script.answers)], [X.Step(t, true)], InsideEvents(t, script);
    var s2 := X.Next(X.Next(s, X.Step(t, true)), X.Step(t, script.answers));
    var s3 := X.Next(s2, X.Step(t, true));
    hide X.Next, InsideEvents, RowsAfterRun, X.ThreadLock, X.RunningSince, X.PhaseOf;
    InsidePlays(s3, t, script);
    var s4 := Play(s3, inside);
    ExitLines(s4, t);
    PlayTwo(s, head[0], head[1]);
    PlayTwo(s4, last[0], last[0]);
    PlayConcat(s, head, last + inside + (last + last));
    PlayConcat(s2, last + inside, last + last);
    PlayConcat(s2, last, inside);
    assert last + last == [last[0], last[0]];
    assert CallEvents(s, t, script) == head + (last + inside + (last + last)) by {
      assert X.ThreadLock(s, t.process).None?;
    }
    assert Play(s2, last) == s3;
  }

  /**
   A call that nobody disturbs is the same as the lines of its thread: the rows, the locks and `_running_since` that the
   run of the protocol reaches are those that `CollectionRunner.Run` leaves.
   */
  lemma {:induction false} CallIsRun(s: X.System, t: X.Thread, script: Script)
    requires t.process < s.processes && X.PhaseOf(s, t).Outside? && InOrder(script)
    requires s.clock == script.startedAt && s.timeout == script.timeout && s.advisory != Some(t)
    ensures
      var events := CallEvents(s, t, script);
      var end, entered := X.Run(s, events, |events|), Admits(s, t, script);
      && X.PhaseOf(end, t).Outside?
      && X.ThreadLock(end, t.process) == X.ThreadLock(s, t.process) && end.advisory == s.advisory
      && end.rows == (if entered then RowsAfterRun(s.rows, script) else s.rows)
      && X.RunningSince(end, t.process) ==
         (if !entered then X.RunningSince(s, t.process) else if script.setupFine then None else Some(script.startedAt))
  {
    var events := CallEvents(s, t, script);
    RunIsPlay(s, events, |events|);
    assert events[..|events|] == events;
    if Admits(s, t, script) {
      AdmittedPlays(s, t, script);
    } else {
      RefusedLines(s, t, script);
      hide X.Next;
      if X.ThreadLock(s, t.process).Some? {
        assert Play(X.Next(s, X.Step(t, true)), []) == Play(s, events);
      } else {
        var head, last := [X.Step(t, true), X.Step(t, script.answers)], [X.Step(t, true)];
        PlayConcat(s, head, last);
        PlayTwo(s, head[0], head[1]);
        assert events == head + last;
        assert Play(s, events) == Play(X.Next(X.Next(s, head[0]), head[1]), last);
      }
    }
  }
}
