/** One worker process: the `run` loop, the message semaphore and the tasks it spawns.
    A step is the code from one `await` to the next, or a finer piece of it. */
module Worker {
  import opened Common

  /** One delivery of a message: its id and the read counter that delivery saw. */
  datatype Copy = Copy(id: nat, attempts: nat)

  /** `Ready`: created, not run yet.  `Deleting`: the handler returned, `delete` is
      awaited.  `Failing`: an exception was caught, `_handle_error` is at its queue
      operation.  `Finished`: the coroutine ended, its done-callback has not run. */
  datatype Phase = Ready | Handling | Deleting | Failing(err: Error) | Finished

  datatype Task = Task(copy: Copy, phase: Phase)

  /** Where the main loop is.  `Blocked`: awaiting a permit.  `Granted`: `release` has
      handed the permit to the loop, which has not resumed yet.  `Finalizing`: awaiting
      the tasks that were registered when the loop was left. */
  datatype Main =
    | LoopTop
    | Reading
    | Backoff
    | Waiting
    | Spawning(batch: seq<Copy>)
    | Blocked(batch: seq<Copy>)
    | Granted(batch: seq<Copy>)
    | Finalizing(awaited: set<nat>)
    | Ended

  /** `tasks` is the worker's `_tasks` set; task numbers are never reused.  `released`
      is history: how often each task released the semaphore. */
  datatype State = State(
    limit: nat,
    vt: nat,
    free: nat,
    main: Main,
    tasks: map<nat, Task>,
    nextTask: nat,
    stopping: bool,
    released: multiset<nat>)

  function Fresh(limit: nat, vt: nat): State {
    State(limit, vt, limit, LoopTop, map[], 0, false, multiset{})
  }

  datatype Act =
    | Stop
    | Loop
    | Got(batch: seq<Copy>)
    | ReadFailed
    | BackoffOver
    | Woken
    | WaitFailed
    | Next
    | Resume
    | Move(t: nat, phase: Phase)
    | Done(t: nat)
    | End

  predicate Enabled(w: State, a: Act) {
    match a
    case Stop => true
    case Loop => w.main == LoopTop
    case Got(_) => w.main == Reading
    case ReadFailed => w.main == Reading
    case BackoffOver => w.main == Backoff
    case Woken => w.main == Waiting
    case WaitFailed => w.main == Waiting
    case Next => w.main.Spawning?
    case Resume => w.main.Granted? && w.main.batch != []
    case Move(t, phase) => t in w.tasks && w.tasks[t].phase != Finished && phase != Ready
    case Done(t) => t in w.tasks && w.tasks[t].phase == Finished
    case End => w.main.Finalizing? &&
                forall t :: t in w.main.awaited && t in w.tasks ==> w.tasks[t].phase == Finished
  }

  function Spawn(w: State, batch: seq<Copy>): State
    requires batch != []
  {
    w.(tasks := w.tasks[w.nextTask := Task(batch[0], Ready)],
       nextTask := w.nextTask + 1,
       main := Spawning(batch[1..]))
  }

  function Step(w: State, a: Act): State
    requires Enabled(w, a)
  {
    match a
    case Stop => w.(stopping := true)
    case Loop => w.(main := if w.stopping then Finalizing(w.tasks.Keys) else Reading)
    case Got(batch) => w.(main := if batch == [] then Waiting else Spawning(batch))
    case ReadFailed => w.(main := Backoff)
    case BackoffOver => w.(main := Waiting)
    case Woken => w.(main := LoopTop)
    case WaitFailed => w.(main := Finalizing(w.tasks.Keys))
    case Next =>
      if w.main.batch == [] || w.stopping then w.(main := LoopTop)
      else if w.free > 0 then Spawn(w.(free := w.free - 1), w.main.batch)
      else w.(main := Blocked(w.main.batch))
    case Resume => Spawn(w, w.main.batch)
    case Move(t, phase) => w.(tasks := w.tasks[t := Task(w.tasks[t].copy, phase)])
    case Done(t) =>
      var v := w.(tasks := w.tasks - {t}, released := w.released + multiset{t});
      if w.main.Blocked? then v.(main := Granted(w.main.batch)) else v.(free := w.free + 1)
    case End => w.(main := Ended)
  }

  /** Free permits, registered tasks and a permit handed over make up the limit. */
  ghost predicate Permits(w: State) {
    && w.free + |w.tasks| + (if w.main.Granted? then 1 else 0) == w.limit
    && (w.main.Blocked? ==> w.free == 0)
    && (w.main.Blocked? || w.main.Granted? ==> w.main.batch != [])
    && (forall t :: t in w.tasks ==> t < w.nextTask)
  }

  /** Each spawned task that left the set released exactly once, the others not yet. */
  ghost predicate Releases(w: State) {
    forall t: nat :: w.released[t] == if t < w.nextTask && t !in w.tasks then 1 else 0
  }

  /** A loop that is being left still awaits every unfinished task. */
  ghost predicate Awaits(w: State) {
    && (w.main.Finalizing? ==>
          forall t :: t in w.tasks && w.tasks[t].phase != Finished ==> t in w.main.awaited)
    && (w.main.Ended? ==> forall t :: t in w.tasks ==> w.tasks[t].phase == Finished)
  }

  ghost predicate Inv(w: State) {
    Permits(w) && Releases(w) && Awaits(w)
  }

  lemma FreshInv(limit: nat, vt: nat)
    ensures Inv(Fresh(limit, vt))
  {
  }

  lemma StepPermits(w: State, a: Act)
    requires Permits(w) && Enabled(w, a)
    ensures Permits(Step(w, a))
  {
    if a.Done? {
      DoneCount(w.tasks, a.t);
    } else if a.Move? {
      assert w.tasks[a.t := Task(w.tasks[a.t].copy, a.phase)].Keys == w.tasks.Keys;
      SameCount(w.tasks, w.tasks[a.t := Task(w.tasks[a.t].copy, a.phase)]);
    } else if (a.Next? || a.Resume?) && Step(w, a).nextTask != w.nextTask {
      SpawnCount(w.tasks, w.nextTask, Task(w.main.batch[0], Ready));
    }
  }

  lemma DoneCount(tasks: map<nat, Task>, t: nat)
    requires t in tasks
    ensures |tasks - {t}| == |tasks| - 1
  {
    assert (tasks - {t}).Keys == tasks.Keys - {t};
    assert |(tasks - {t}).Keys| == |tasks - {t}| && |tasks.Keys| == |tasks|;
  }

  lemma SameCount(tasks: map<nat, Task>, tasks': map<nat, Task>)
    requires tasks.Keys == tasks'.Keys
    ensures |tasks'| == |tasks|
  {
    assert |tasks'.Keys| == |tasks'| && |tasks.Keys| == |tasks|;
  }

  lemma SpawnCount(tasks: map<nat, Task>, t: nat, task: Task)
    requires t !in tasks
    ensures |tasks[t := task]| == |tasks| + 1
  {
    assert tasks[t := task].Keys == tasks.Keys + {t};
    assert |tasks[t := task].Keys| == |tasks[t := task]| && |tasks.Keys| == |tasks|;
  }

  lemma StepReleases(w: State, a: Act)
    requires Permits(w) && Releases(w) && Enabled(w, a)
    ensures Releases(Step(w, a))
  {
    var v := Step(w, a);
    if a.Done? {
      forall t: nat
        ensures v.released[t] == if t < v.nextTask && t !in v.tasks then 1 else 0
      {
        assert w.released[t] == if t < w.nextTask && t !in w.tasks then 1 else 0;
      }
    } else {
      assert v.released == w.released;
      forall t: nat
        ensures v.released[t] == if t < v.nextTask && t !in v.tasks then 1 else 0
      {
        assert w.released[t] == if t < w.nextTask && t !in w.tasks then 1 else 0;
      }
    }
  }

  lemma StepAwaits(w: State, a: Act)
    requires Awaits(w) && Enabled(w, a)
    ensures Awaits(Step(w, a))
  {
  }

  /** Every step of every task and of the loop keeps the permit account. */
  lemma StepInv(w: State, a: Act)
    requires Inv(w) && Enabled(w, a)
    ensures Inv(Step(w, a))
  {
    StepPermits(w, a);
    StepReleases(w, a);
    StepAwaits(w, a);
  }

  // ---------------------------------------------------------------- whole runs

  ghost predicate Legal(w: State, acts: seq<Act>)
    decreases |acts|
  {
    acts == [] || (Enabled(w, acts[0]) && Legal(Step(w, acts[0]), acts[1..]))
  }

  ghost function After(w: State, acts: seq<Act>): State
    requires Legal(w, acts)
    decreases |acts|
  {
    if acts == [] then w else After(Step(w, acts[0]), acts[1..])
  }

  lemma {:induction false} RunInv(w: State, acts: seq<Act>)
    requires Inv(w) && Legal(w, acts)
    ensures Inv(After(w, acts))
    ensures After(w, acts).limit == w.limit
    decreases |acts|
  {
    if acts != [] {
      StepInv(w, acts[0]);
      RunInv(Step(w, acts[0]), acts[1..]);
    }
  }

  /** In every state of every run: free permits, registered tasks and a permit handed
      to the blocked loop add up to the limit; the loop waits only when no permit is
      free; no task releases twice, and it releases when it leaves the set. */
  lemma Concurrency(limit: nat, vt: nat, acts: seq<Act>)
    requires Legal(Fresh(limit, vt), acts)
    ensures var w := After(Fresh(limit, vt), acts);
            && w.free + |w.tasks| + (if w.main.Granted? then 1 else 0) == limit
            && |w.tasks| <= limit
            && (w.main.Blocked? ==> |w.tasks| == limit)
            && forall t: nat :: w.released[t] == if t < w.nextTask && t !in w.tasks then 1 else 0
  {
    FreshInv(limit, vt);
    RunInv(Fresh(limit, vt), acts);
  }

  /** A worker of limit 1 (the default, used for the deliveries to Chatwoot) never has two
      tasks: a delivery starts only after the one before has finished, so the attempts of
      one process do not overlap. */
  lemma OneAtATime(vt: nat, acts: seq<Act>, s: nat, t: nat)
    requires Legal(Fresh(1, vt), acts)
    requires s in After(Fresh(1, vt), acts).tasks && t in After(Fresh(1, vt), acts).tasks
    ensures s == t
  {
    FreshInv(1, vt);
    RunInv(Fresh(1, vt), acts);
    OneTask(After(Fresh(1, vt), acts), s, t);
  }

  lemma OneTask(w: State, s: nat, t: nat)
    requires Permits(w) && w.limit == 1 && s in w.tasks && t in w.tasks
    ensures s == t
  {
    var others := w.tasks.Keys - {s};
    assert w.tasks.Keys == others + {s};
    assert |w.tasks.Keys| == |w.tasks|;
    assert others == {};
  }

  /** `run` returns only after every task it ever spawned has finished, however it was
      left, and nothing is spawned afterwards. */
  lemma {:induction false} EndedAfterEveryTask(limit: nat, vt: nat, acts: seq<Act>, more: seq<Act>)
    requires Legal(Fresh(limit, vt), acts)
    requires After(Fresh(limit, vt), acts).main == Ended
    requires Legal(After(Fresh(limit, vt), acts), more)
    ensures var w := After(After(Fresh(limit, vt), acts), more);
            && w.main == Ended
            && w.nextTask == After(Fresh(limit, vt), acts).nextTask
            && forall t :: t < w.nextTask && t in w.tasks ==> w.tasks[t].phase == Finished
  {
    Concurrency(limit, vt, acts);
    RunInv(Fresh(limit, vt), acts) by { FreshInv(limit, vt); }
    EndedForever(After(Fresh(limit, vt), acts), more);
  }

  lemma {:induction false} EndedForever(w: State, acts: seq<Act>)
    requires Inv(w) && w.main == Ended && Legal(w, acts)
    ensures After(w, acts).main == Ended && After(w, acts).nextTask == w.nextTask
    ensures Inv(After(w, acts))
    decreases |acts|
  {
    if acts != [] {
      StepInv(w, acts[0]);
      EndedForever(Step(w, acts[0]), acts[1..]);
    }
  }

  // ---------------------------------------------------------------- the worker object

  /** The worker object.  Each method is the code of `run`, `_process_messages`,
      `_on_task_done` or `_finalize_tasks` between two suspension points. */
  class BaseWorker {
    const messageLimit: nat
    const vtSeconds: nat
    var semValue: nat
    var position: Main
    var tasks: map<nat, Task>
    var nextTask: nat
    var stopping: bool
    ghost var released: multiset<nat>

    ghost function View(): State
      reads this
    {
      State(messageLimit, vtSeconds, semValue, position, tasks, nextTask, stopping, released)
    }

    constructor (messageLimit: nat, vtSeconds: nat)
      ensures View() == Fresh(messageLimit, vtSeconds)
    {
      this.messageLimit, this.vtSeconds := messageLimit, vtSeconds;
      semValue, position, tasks, nextTask := messageLimit, LoopTop, map[], 0;
      stopping, released := false, multiset{};
    }

    method RequestStop()
      modifies this
      ensures View() == Step(old(View()), Stop)
    {
      stopping := true;
    }

    /** The loop test of `run`, up to the read or to the `finally` block. */
    method LoopTest()
      requires position == LoopTop
      modifies this
      ensures View() == Step(old(View()), Loop)
    {
      if stopping {
        BeginFinalize();
      } else {
        position := Reading;
      }
    }

    method BeginFinalize()
      modifies this`position
      ensures position == Finalizing(tasks.Keys)
    {
      position := Finalizing(tasks.Keys);
    }

    /** `gather` came back: every task that was registered has finished. */
    method EndFinalize()
      requires position.Finalizing?
      requires forall t :: t in position.awaited && t in tasks ==> tasks[t].phase == Finished
      modifies this
      ensures View() == Step(old(View()), End)
    {
      position := Ended;
    }

    /** `_safe_read_queue` returned; an empty list goes to wait for a notification. */
    method OnRead(batch: seq<Copy>)
      requires position == Reading
      modifies this
      ensures View() == Step(old(View()), Got(batch))
    {
      if batch == [] {
        position := Waiting;
      } else {
        position := Spawning(batch);
      }
    }

    /** `wait_for_notification` came back; an exception leaves `run` through `finally`. */
    method OnWaitOver(failed: bool)
      requires position == Waiting
      modifies this
      ensures View() == Step(old(View()), if failed then WaitFailed else Woken)
    {
      if failed {
        BeginFinalize();
      } else {
        position := LoopTop;
      }
    }

    /** One turn of the `for` loop of `_process_messages`, up to the next suspension. */
    method ProcessNext()
      requires position.Spawning?
      modifies this
      ensures View() == Step(old(View()), Next)
    {
      var batch := position.batch;
      if batch == [] || stopping {
        position := LoopTop;
      } else if semValue > 0 {
        semValue := semValue - 1;
        CreateTask(batch);
      } else {
        position := Blocked(batch);
      }
    }

    method CreateTask(batch: seq<Copy>)
      requires batch != []
      modifies this
      ensures View() == Spawn(old(View()), batch)
    {
      tasks := tasks[nextTask := Task(batch[0], Ready)];
      nextTask := nextTask + 1;
      position := Spawning(batch[1..]);
    }

    /** The loop resumes with the permit it was handed. */
    method ResumeAcquired()
      requires position.Granted? && position.batch != []
      modifies this
      ensures View() == Step(old(View()), Resume)
    {
      CreateTask(position.batch);
    }

    /** The done-callback: drop the task, then release, which wakes a waiting `acquire`. */
    method OnTaskDone(t: nat)
      requires t in tasks && tasks[t].phase == Finished
      modifies this
      ensures View() == Step(old(View()), Done(t))
    {
      tasks := tasks - {t};
      released := released + multiset{t};
      if position.Blocked? {
        position := Granted(position.batch);
      } else {
        semValue := semValue + 1;
      }
    }
  }
}
