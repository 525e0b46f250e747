/** What whole runs of a worker do with the messages they read, and how they stop. */
module WorkerRuns {
  import opened Worker

  // ---------------------------------------------------------------- reads become tasks

  /** The copies the reads of a run handed over, in order. */
  ghost function ReadCopies(acts: seq<Act>): seq<Copy>
    decreases |acts|
  {
    if acts == [] then [] else (if acts[0].Got? then acts[0].batch else []) + ReadCopies(acts[1..])
  }

  /** The copy a step makes a task of, if any. */
  ghost function NewTask(w: State, v: State): seq<Copy> {
    if w.nextTask < v.nextTask && w.nextTask in v.tasks then [v.tasks[w.nextTask].copy] else []
  }

  /** The copies a run makes tasks of, in order. */
  ghost function SpawnedCopies(w: State, acts: seq<Act>): seq<Copy>
    requires Legal(w, acts)
    decreases |acts|
  {
    if acts == [] then []
    else NewTask(w, Step(w, acts[0])) + SpawnedCopies(Step(w, acts[0]), acts[1..])
  }

  /** What the loop has read and not made tasks of. */
  ghost function Held(w: State): seq<Copy> {
    if w.main.Spawning? || w.main.Blocked? || w.main.Granted? then w.main.batch else []
  }

  lemma StepConserves(w: State, a: Act)
    requires Permits(w) && Enabled(w, a) && !w.stopping
    ensures NewTask(w, Step(w, a)) + Held(Step(w, a)) == Held(w) + if a.Got? then a.batch else []
  {
    var v := Step(w, a);
    if v.nextTask > w.nextTask {
      assert w.main.batch == [w.main.batch[0]] + w.main.batch[1..];
    }
  }

  ghost predicate NoStop(acts: seq<Act>) {
    forall i :: 0 <= i < |acts| ==> acts[i] != Stop
  }

  lemma {:induction false} RunConserves(w: State, acts: seq<Act>)
    requires Inv(w) && Legal(w, acts) && !w.stopping && NoStop(acts)
    ensures SpawnedCopies(w, acts) + Held(After(w, acts)) == Held(w) + ReadCopies(acts)
    decreases |acts|
  {
    if acts != [] {
      var v := Step(w, acts[0]);
      assert acts[0] != Stop;
      StepInv(w, acts[0]);
      StepConserves(w, acts[0]);
      RunConserves(v, acts[1..]);
      var got := if acts[0].Got? then acts[0].batch else [];
      Regroup(NewTask(w, v), SpawnedCopies(v, acts[1..]), Held(After(w, acts)), Held(v), ReadCopies(acts[1..]),
              Held(w), got);
    }
  }

  lemma Regroup(a: seq<Copy>, b: seq<Copy>, c: seq<Copy>, d: seq<Copy>, e: seq<Copy>, f: seq<Copy>, g: seq<Copy>)
    requires b + c == d + e && a + d == f + g
    ensures (a + b) + c == f + (g + e)
  {
    assert (a + b) + c == a + (b + c) == (a + d) + e == f + (g + e);
  }

  /** Over every run that is not stopped each message read becomes one task, in the order
      of the reads, except for those the loop still holds. */
  lemma EveryReadBecomesATask(limit: nat, vt: nat, acts: seq<Act>)
    requires Legal(Fresh(limit, vt), acts) && NoStop(acts)
    ensures SpawnedCopies(Fresh(limit, vt), acts) + Held(After(Fresh(limit, vt), acts)) == ReadCopies(acts)
  {
    FreshInv(limit, vt);
    RunConserves(Fresh(limit, vt), acts);
  }

  // ---------------------------------------------------------------- stopping

  /** One task can still come if the loop is waiting for a permit. */
  ghost function Due(w: State): nat {
    if w.main.Blocked? || w.main.Granted? then 1 else 0
  }

  lemma {:induction false} StoppingSpawns(w: State, acts: seq<Act>)
    requires w.stopping && Legal(w, acts)
    ensures After(w, acts).stopping
    ensures After(w, acts).nextTask + Due(After(w, acts)) <= w.nextTask + Due(w)
    decreases |acts|
  {
    if acts != [] {
      StoppingSpawns(Step(w, acts[0]), acts[1..]);
    }
  }

  /** After a stop nothing more is spawned, except that a loop that was already waiting for
      a permit spawns the one message it waited for. */
  lemma StopSpawnsAtMostOne(w: State, acts: seq<Act>)
    requires Legal(Step(w, Stop), acts)
    ensures After(Step(w, Stop), acts).nextTask
              <= w.nextTask + if w.main.Blocked? || w.main.Granted? then 1 else 0
  {
    StoppingSpawns(Step(w, Stop), acts);
  }

  ghost predicate OnTheWayOut(w: State) {
    w.main.Finalizing? || w.main.Ended?
  }

  lemma {:induction false} StoppedAtTop(w: State, acts: seq<Act>)
    requires w.stopping && (w.main.LoopTop? || OnTheWayOut(w)) && Legal(w, acts)
    ensures After(w, acts).main.LoopTop? || OnTheWayOut(After(w, acts))
    ensures After(w, acts).nextTask == w.nextTask
    decreases |acts|
  {
    if acts != [] {
      StoppedAtTop(Step(w, acts[0]), acts[1..]);
    }
  }

  /** Once the loop is at its top after a stop, it never reads again and spawns nothing. */
  lemma StoppedNeverReads(w: State, acts: seq<Act>, more: seq<Act>)
    requires Legal(Step(w, Stop), acts) && After(Step(w, Stop), acts).main == LoopTop
    requires Legal(After(Step(w, Stop), acts), more)
    ensures var u := After(After(Step(w, Stop), acts), more);
            && (u.main == LoopTop || OnTheWayOut(u))
            && u.nextTask == After(Step(w, Stop), acts).nextTask
  {
    StoppingSpawns(Step(w, Stop), acts);
    StoppedAtTop(After(Step(w, Stop), acts), more);
  }

  // ---------------------------------------------------------------- waiting

  lemma {:induction false} LeftForGood(w: State, acts: seq<Act>)
    requires OnTheWayOut(w) && Legal(w, acts)
    ensures OnTheWayOut(After(w, acts)) && After(w, acts).nextTask == w.nextTask
    decreases |acts|
  {
    if acts != [] {
      LeftForGood(Step(w, acts[0]), acts[1..]);
    }
  }

  /** A wait that raises ends the loop: nothing is read or spawned any more. */
  lemma FailedWaitLeaves(w: State, acts: seq<Act>)
    requires Enabled(w, WaitFailed) && Legal(Step(w, WaitFailed), acts)
    ensures OnTheWayOut(After(Step(w, WaitFailed), acts))
    ensures After(Step(w, WaitFailed), acts).nextTask == w.nextTask
  {
    LeftForGood(Step(w, WaitFailed), acts);
  }

  lemma {:induction false} StillWaiting(w: State, acts: seq<Act>)
    requires (w.main.Backoff? || w.main.Waiting? || OnTheWayOut(w)) && Legal(w, acts)
    requires forall i :: 0 <= i < |acts| ==> acts[i] != Woken
    ensures var v := After(w, acts);
            (v.main.Backoff? || v.main.Waiting? || OnTheWayOut(v)) && v.nextTask == w.nextTask
    decreases |acts|
  {
    if acts != [] {
      assert acts[0] != Woken;
      StillWaiting(Step(w, acts[0]), acts[1..]);
    }
  }

  /** After a read that was empty or raised, the loop neither reads nor spawns before a wait
      for a notification has come back. */
  lemma EmptyReadWaits(w: State, a: Act, acts: seq<Act>)
    requires (a == Got([]) || a == ReadFailed) && Enabled(w, a) && Legal(Step(w, a), acts)
    requires forall i :: 0 <= i < |acts| ==> acts[i] != Woken
    ensures After(Step(w, a), acts).main != Reading && After(Step(w, a), acts).nextTask == w.nextTask
  {
    StillWaiting(Step(w, a), acts);
  }

  /** And a wait that has come back leads to a read, unless the worker is stopping. */
  lemma WokenReads(w: State)
    requires Enabled(w, Woken)
    ensures Enabled(Step(w, Woken), Loop)
    ensures Step(Step(w, Woken), Loop).main == Reading <==> !w.stopping
  {
  }
}
