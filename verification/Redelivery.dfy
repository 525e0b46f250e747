/** How often one message can reach its handler.  One worker process, any limit, any
    visibility timeout, any publishers; settlement statements succeed, reads may fail. */
module Redelivery {
  import opened Common
  import opened MessageQueue
  import opened Delivery
  import Worker

  /** A step of a process that does not crash and whose `delete`, `archive` and `set_vt`
      succeed. */
  predicate Calm(l: Label) {
    match l
    case Crash(_) => false
    case W(_, DeleteCall(_, o)) => o.Ok?
    case W(_, Settle(_, o)) => o.Ok?
    case _ => true
  }

  function Batch(w: Worker.State): seq<Copy> {
    if w.main.Spawning? || w.main.Blocked? || w.main.Granted? then w.main.batch else []
  }

  /** A task that still holds its copy unsettled. */
  ghost predicate Holds(w: Worker.State, c: Copy) {
    exists t :: t in w.tasks && w.tasks[t].copy == c && w.tasks[t].phase != Worker.Finished
  }

  /** The loop may still come back to a read; not so after it dropped a batch on stop. */
  predicate CanRead(w: Worker.State) {
    && !w.main.Finalizing? && !w.main.Ended?
    && !(w.main.LoopTop? && w.stopping)
  }

  /** Copies of a message whose read count lies beyond every retry allowance. */
  ghost function Late(s: State, m: nat): set<Copy> {
    set c | c in s.hist.obtained && c.id == m && c.attempts > 10
  }

  ghost predicate Alone(s: State) {
    s.workers.Keys == {0}
  }

  /** Every copy obtained carries a read count its row has reached. */
  ghost predicate Counted(s: State) {
    forall c :: c in s.hist.obtained ==>
      && c.attempts >= 1 && c.id in s.db.origin
      && (c.id in s.db.live ==> c.attempts <= s.db.live[c.id].readCt)
  }

  /** Copies in the batch are obtained, all different, and not run yet. */
  ghost predicate BatchNew(batch: seq<Copy>, h: History) {
    && (forall i :: 0 <= i < |batch| ==> batch[i] in h.obtained && batch[i] !in h.runs)
    && (forall i, j :: 0 <= i < j < |batch| ==> batch[i] != batch[j])
  }

  /** Copies in tasks are obtained, all different, and not run yet before `Begin`. */
  ghost predicate TasksNew(tasks: map<nat, Worker.Task>, h: History) {
    && (forall t :: t in tasks ==> tasks[t].copy in h.obtained)
    && (forall t, u :: t in tasks && u in tasks && t != u ==> tasks[t].copy != tasks[u].copy)
    && (forall t :: t in tasks && tasks[t].phase == Worker.Ready ==> tasks[t].copy !in h.runs)
  }

  ghost predicate Apart(batch: seq<Copy>, tasks: map<nat, Worker.Task>) {
    forall t, i :: t in tasks && 0 <= i < |batch| ==> batch[i] != tasks[t].copy
  }

  /** No copy is run twice. */
  ghost predicate RunsOnce(h: History) {
    && (forall i :: 0 <= i < |h.runs| ==> h.runs[i] in h.obtained)
    && (forall i, j :: 0 <= i < j < |h.runs| ==> h.runs[i] != h.runs[j])
  }

  ghost predicate Distinct(s: State)
    requires Alone(s)
  {
    var w := s.workers[0];
    && BatchNew(Batch(w), s.hist)
    && TasksNew(w.tasks, s.hist)
    && Apart(Batch(w), w.tasks)
    && RunsOnce(s.hist)
  }

  /** While a message is live, all its late copies are still to be settled. */
  ghost predicate LateHeld(s: State, m: nat)
    requires Alone(s)
  {
    m in s.db.live && CanRead(s.workers[0]) ==>
      forall c :: c in Late(s, m) ==> c in Batch(s.workers[0]) || Holds(s.workers[0], c)
  }

  ghost predicate Inv(s: State, m: nat, cap: nat) {
    && Alone(s)
    && Conserved(s.db)
    && Worker.Inv(s.workers[0])
    && Counted(s)
    && Distinct(s)
    && LateHeld(s, m)
    && |Late(s, m)| <= cap
  }

  /** The step does not read message `m` while a copy of it is waiting or running. */
  ghost predicate ReadsAlone(s: State, l: Label, m: nat) {
    l.W? && l.act.Read? && m in l.act.ids && l.w in s.workers ==>
      forall t :: t in s.workers[l.w].tasks && s.workers[l.w].tasks[t].copy.id == m ==>
        s.workers[l.w].tasks[t].phase == Worker.Finished
  }

  // ---------------------------------------------------------------- one step

  lemma StepCounted(s: State, l: Label)
    requires Conserved(s.db) && Counted(s) && Enabled(s, l)
    ensures Counted(Apply(s, l))
  {
    var s' := Apply(s, l);
    ExecConserves(s.db, OpOf(s, l));
    forall c | c in s'.hist.obtained
      ensures c.attempts >= 1 && c.id in s'.db.origin
      ensures c.id in s'.db.live ==> c.attempts <= s'.db.live[c.id].readCt
    {
      if c !in s.hist.obtained {
        var copies := CopiesOf(s.db, l.act.ids);
        var i :| 0 <= i < |copies| && copies[i] == c;
        assert c.id == l.act.ids[i];
      }
    }
  }

  lemma StepWorker(s: State, l: Label)
    requires Alone(s) && Worker.Inv(s.workers[0]) && Enabled(s, l) && Calm(l)
    ensures Alone(Apply(s, l)) && Worker.Inv(Apply(s, l).workers[0])
    ensures Apply(s, l).workers[0].limit == s.workers[0].limit
  {
    if l.W? {
      Worker.StepInv(s.workers[0], WorkerStep(s, 0, l.act));
    }
  }

  /** A read hands out copies nobody has obtained before. */
  lemma FreshCopies(s: State, ids: seq<nat>, i: nat)
    requires Counted(s) && i < |ids|
    requires forall j :: 0 <= j < |ids| ==> ids[j] in s.db.live
    ensures CopiesOf(s.db, ids)[i] !in s.hist.obtained
  {
  }

  lemma StepDistinct(s: State, l: Label)
    requires Alone(s) && Conserved(s.db) && Counted(s) && Distinct(s)
    requires Worker.Inv(s.workers[0]) && Enabled(s, l) && Calm(l)
    ensures Alone(Apply(s, l)) && Distinct(Apply(s, l))
  {
    if !l.W? {
      IdleWorker(s, l);
    } else if l.act.Plain? {
      PlainDistinct(s, l.act.a);
    } else if l.act.Read? {
      if l.act.o.Ok? {
        ReadDistinct(s, l.act.ids);
      }
    } else {
      MoveDistinct(s, l.act);
    }
  }

  lemma IdleWorker(s: State, l: Label)
    requires Alone(s) && Enabled(s, l) && Calm(l) && !l.W?
    ensures Apply(s, l).workers == s.workers
    ensures Apply(s, l).hist.obtained == s.hist.obtained && Apply(s, l).hist.runs == s.hist.runs
  {
  }

  lemma PlainDistinct(s: State, a: Worker.Act)
    requires Alone(s) && Distinct(s) && Worker.Inv(s.workers[0])
    requires Enabled(s, W(0, Plain(a)))
    ensures Distinct(Apply(s, W(0, Plain(a))))
  {
    if a.Next? || a.Resume? {
      SpawnDistinct(s, a);
    } else {
      var w := s.workers[0];
      var v := Apply(s, W(0, Plain(a))).workers[0];
      assert forall t :: t in v.tasks ==> t in w.tasks && v.tasks[t] == w.tasks[t];
      assert Batch(v) == Batch(w) || Batch(v) == [];
    }
  }

  /** A step of one task: only the first one, `Begin`, adds its copy to the runs. */
  lemma MoveDistinct(s: State, a: WorkAct)
    requires Alone(s) && Distinct(s)
    requires Enabled(s, W(0, a)) && !a.Plain? && !a.Read?
    ensures Distinct(Apply(s, W(0, a)))
  {
    var s' := Apply(s, W(0, a));
    var w, v := s.workers[0], s'.workers[0];
    assert Batch(v) == Batch(w);
    assert s'.hist.obtained == s.hist.obtained;
    var ran := if a.Begin? then [w.tasks[a.t].copy] else [];
    assert s'.hist.runs == s.hist.runs + ran;
    var phase := WorkerStep(s, 0, a).phase;
    assert v.tasks == w.tasks[a.t := Worker.Task(w.tasks[a.t].copy, phase)];
    MoveKeeps(Batch(w), w.tasks, s.hist, s'.hist, a.t, phase, ran);
  }

  lemma MoveKeeps(batch: seq<Copy>, tasks: map<nat, Worker.Task>, h: History, h': History,
                  t: nat, phase: Worker.Phase, ran: seq<Copy>)
    requires BatchNew(batch, h) && TasksNew(tasks, h) && Apart(batch, tasks) && RunsOnce(h)
    requires t in tasks && phase != Worker.Ready
    requires ran == [] || (ran == [tasks[t].copy] && tasks[t].phase == Worker.Ready)
    requires h'.obtained == h.obtained && h'.runs == h.runs + ran
    ensures var moved := tasks[t := Worker.Task(tasks[t].copy, phase)];
            BatchNew(batch, h') && TasksNew(moved, h') && Apart(batch, moved) && RunsOnce(h')
  {
    forall d | d !in ran
      ensures d in h'.runs <==> d in h.runs
    {
    }
    assert forall i :: 0 <= i < |batch| ==> batch[i] != tasks[t].copy;
  }

  lemma SpawnDistinct(s: State, a: Worker.Act)
    requires Alone(s) && Distinct(s) && Worker.Inv(s.workers[0])
    requires a.Next? || a.Resume?
    requires Enabled(s, W(0, Plain(a)))
    ensures Distinct(Apply(s, W(0, Plain(a))))
  {
    var w := s.workers[0];
    var v := Apply(s, W(0, Plain(a))).workers[0];
    if v.nextTask == w.nextTask + 1 {
      assert Batch(v) == Batch(w)[1..];
      assert v.tasks == w.tasks[w.nextTask := Worker.Task(Batch(w)[0], Worker.Ready)];
      assert w.nextTask !in w.tasks;
    } else {
      assert v.tasks == w.tasks;
    }
  }

  lemma ReadDistinct(s: State, ids: seq<nat>)
    requires Alone(s) && Conserved(s.db) && Counted(s) && Distinct(s)
    requires Enabled(s, W(0, Read(ids, Ok)))
    ensures Distinct(Apply(s, W(0, Read(ids, Ok))))
  {
    var s' := Apply(s, W(0, Read(ids, Ok)));
    var copies := CopiesOf(s.db, ids);
    var batch := Batch(s'.workers[0]);
    assert batch == copies || (copies == [] && batch == []);
    forall i | 0 <= i < |batch|
      ensures batch[i] !in s.hist.obtained && batch[i] in s'.hist.obtained
    {
      FreshCopies(s, ids, i);
    }
  }

  lemma StepLateHeld(s: State, l: Label, m: nat)
    requires Alone(s) && Conserved(s.db) && Counted(s) && LateHeld(s, m)
    requires Worker.Inv(s.workers[0]) && Enabled(s, l) && Calm(l)
    ensures Alone(Apply(s, l)) && LateHeld(Apply(s, l), m)
  {
    var s' := Apply(s, l);
    if m in s'.db.live && CanRead(s'.workers[0]) {
      forall c | c in Late(s', m)
        ensures c in Batch(s'.workers[0]) || Holds(s'.workers[0], c)
      {
        if c in s.hist.obtained {
          StepKeepsHeld(s, l, m, c);
        } else {
          assert c in CopiesOf(s.db, l.act.ids);
        }
      }
    }
  }

  /** A late copy leaves the batch only for a task, and a task only by settling its message. */
  lemma StepKeepsHeld(s: State, l: Label, m: nat, c: Copy)
    requires Alone(s) && Conserved(s.db) && Counted(s) && LateHeld(s, m)
    requires Worker.Inv(s.workers[0]) && Enabled(s, l) && Calm(l)
    requires c in Late(s, m)
    requires m in Apply(s, l).db.live && CanRead(Apply(s, l).workers[0])
    ensures c in Batch(Apply(s, l).workers[0]) || Holds(Apply(s, l).workers[0], c)
  {
    var s' := Apply(s, l);
    var w, v := s.workers[0], s'.workers[0];
    ExecConserves(s.db, OpOf(s, l));
    assert m in s.db.origin;
    assert m in s.db.live;
    assert CanRead(w);
    if c in Batch(w) {
      BatchMoves(s, l, c);
    } else {
      var t :| t in w.tasks && w.tasks[t].copy == c && w.tasks[t].phase != Worker.Finished;
      TaskKeepsHolding(s, l, t);
    }
  }

  /** A task with a late copy finishes only by taking its message out of the live table. */
  lemma TaskKeepsHolding(s: State, l: Label, t: nat)
    requires Alone(s) && Worker.Inv(s.workers[0]) && Enabled(s, l) && Calm(l)
    requires t in s.workers[0].tasks && s.workers[0].tasks[t].phase != Worker.Finished
    requires s.workers[0].tasks[t].copy.attempts > 10
    requires s.workers[0].tasks[t].copy.id in Apply(s, l).db.live
    ensures Holds(Apply(s, l).workers[0], s.workers[0].tasks[t].copy)
  {
    var w, v := s.workers[0], Apply(s, l).workers[0];
    if SettlesTask(l, t) {
      LateSettles(s, l, t);
      assert false;
    } else if l.W? {
      UnsettledStays(s, l.act, t);
    } else {
      IdleWorker(s, l);
    }
  }

  lemma UnsettledStays(s: State, a: WorkAct, t: nat)
    requires Alone(s) && WorkEnabled(s, 0, a) && !SettlesTask(W(0, a), t)
    requires t in s.workers[0].tasks && s.workers[0].tasks[t].phase != Worker.Finished
    requires t < s.workers[0].nextTask
    ensures var v := Worker.Step(s.workers[0], WorkerStep(s, 0, a));
            && t in v.tasks && v.tasks[t].copy == s.workers[0].tasks[t].copy
            && v.tasks[t].phase != Worker.Finished
  {
  }

  predicate SettlesTask(l: Label, t: nat) {
    l.W? && (l.act.DeleteCall? || l.act.Settle?) && l.act.t == t
  }

  /** Whatever a late delivery raised, settling it takes its message out. */
  lemma LateSettles(s: State, l: Label, t: nat)
    requires Alone(s) && Enabled(s, l) && Calm(l) && SettlesTask(l, t)
    requires s.workers[0].tasks[t].copy.attempts > 10
    ensures s.workers[0].tasks[t].copy.id !in Apply(s, l).db.live
  {
  }

  lemma BatchMoves(s: State, l: Label, c: Copy)
    requires Alone(s) && Worker.Inv(s.workers[0]) && Enabled(s, l) && Calm(l)
    requires c in Batch(s.workers[0]) && CanRead(Apply(s, l).workers[0])
    ensures c in Batch(Apply(s, l).workers[0]) || Holds(Apply(s, l).workers[0], c)
  {
    var w, v := s.workers[0], Apply(s, l).workers[0];
    if v.nextTask == w.nextTask + 1 {
      var batch := Batch(w);
      assert v.tasks[w.nextTask] == Worker.Task(batch[0], Worker.Ready);
      assert Batch(v) == batch[1..];
      assert batch == [batch[0]] + batch[1..];
      if c == batch[0] {
        assert Holds(v, c);
      }
    } else {
      assert Batch(v) == Batch(w);
    }
  }

  /** The late copies of a message still held by tasks are at most the permits. */
  lemma LateWithinTasks(s: State, m: nat)
    requires Alone(s) && Worker.Inv(s.workers[0]) && LateHeld(s, m)
    requires m in s.db.live && s.workers[0].main == Worker.Reading
    ensures |Late(s, m)| <= s.workers[0].limit
    ensures forall c :: c in Late(s, m) ==> Holds(s.workers[0], c)
  {
    var w := s.workers[0];
    var f := map c | c in Late(s, m) :: TaskOf(w, c);
    forall c, d | c in f && d in f && f[c] == f[d]
      ensures c == d
    {
      assert w.tasks[f[c]].copy == c && w.tasks[f[d]].copy == d;
    }
    InjectionBound(f, w.tasks.Keys);
    assert f.Keys == Late(s, m);
    assert |w.tasks.Keys| == |w.tasks|;
  }

  ghost function TaskOf(w: Worker.State, c: Copy): (t: nat)
    ensures Holds(w, c) ==> t in w.tasks && w.tasks[t].copy == c
  {
    if Holds(w, c) then var t :| t in w.tasks && w.tasks[t].copy == c; t else 0
  }

  lemma StepLateBound(s: State, l: Label, m: nat, cap: nat)
    requires Alone(s) && Worker.Inv(s.workers[0]) && LateHeld(s, m) && |Late(s, m)| <= cap
    requires Enabled(s, l) && Calm(l)
    requires cap == s.workers[0].limit + 1 || (cap >= 1 && ReadsAlone(s, l, m))
    ensures |Late(Apply(s, l), m)| <= cap
  {
    if l.W? && l.act.Read? && l.act.o.Ok? && m in l.act.ids {
      ReadLateBound(s, l.act.ids, m, cap);
    } else {
      assert Late(Apply(s, l), m) == Late(s, m);
    }
  }

  lemma ReadLateBound(s: State, ids: seq<nat>, m: nat, cap: nat)
    requires Alone(s) && Worker.Inv(s.workers[0]) && LateHeld(s, m)
    requires Enabled(s, W(0, Read(ids, Ok))) && m in ids
    requires cap == s.workers[0].limit + 1 || (cap >= 1 && ReadsAlone(s, W(0, Read(ids, Ok)), m))
    ensures |Late(Apply(s, W(0, Read(ids, Ok))), m)| <= cap
  {
    var s' := Apply(s, W(0, Read(ids, Ok)));
    LateWithinTasks(s, m);
    var i :| 0 <= i < |ids| && ids[i] == m;
    var copies := CopiesOf(s.db, ids);
    var c := copies[i];
    assert forall j :: 0 <= j < |ids| && j != i ==> copies[j].id != m;
    assert Late(s', m) <= Late(s, m) + {c};
    SubsetBound(Late(s', m), Late(s, m) + {c});
    if cap != s.workers[0].limit + 1 {
      assert Late(s, m) == {};
    }
  }

  lemma StepInv(s: State, l: Label, m: nat, cap: nat)
    requires Inv(s, m, cap) && Enabled(s, l) && Calm(l)
    requires cap == s.workers[0].limit + 1 || (cap >= 1 && ReadsAlone(s, l, m))
    ensures Inv(Apply(s, l), m, cap)
    ensures Apply(s, l).workers[0].limit == s.workers[0].limit
  {
    ExecConserves(s.db, OpOf(s, l));
    StepCounted(s, l);
    StepWorker(s, l);
    StepDistinct(s, l);
    StepLateHeld(s, l, m);
    StepLateBound(s, l, m, cap);
  }

  // ---------------------------------------------------------------- every run

  /** Every step is calm; if `apart`, message `m` is never read while a copy of it runs. */
  ghost predicate CalmRun(s: State, run: seq<Label>, m: nat, apart: bool)
    requires Legal(s, run)
    decreases |run|
  {
    run == [] ||
    (Calm(run[0]) && (apart ==> ReadsAlone(s, run[0], m))
     && CalmRun(Apply(s, run[0]), run[1..], m, apart))
  }

  lemma {:induction false} RunInv(s: State, run: seq<Label>, m: nat, apart: bool, cap: nat)
    requires Legal(s, run) && CalmRun(s, run, m, apart) && Inv(s, m, cap)
    requires cap == s.workers[0].limit + 1 || (apart && cap >= 1)
    ensures Inv(After(s, run), m, cap)
    decreases |run|
  {
    if run != [] {
      StepInv(s, run[0], m, cap);
      RunInv(Apply(s, run[0]), run[1..], m, apart, cap);
    }
  }

  /** The handler runs of a message, as positions in the history of runs. */
  ghost function RunsOf(s: State, m: nat): set<nat> {
    set i | 0 <= i < |s.hist.runs| && s.hist.runs[i].id == m
  }

  function Early(m: nat, n: nat): (early: set<Copy>)
    ensures |early| <= n
    ensures forall a :: 1 <= a <= n ==> Worker.Copy(m, a) in early
  {
    if n == 0 then {} else Early(m, n - 1) + {Worker.Copy(m, n)}
  }

  lemma RunsBounded(s: State, m: nat, cap: nat)
    requires Inv(s, m, cap)
    ensures |RunsOf(s, m)| <= 10 + cap
  {
    var f := map i | i in RunsOf(s, m) :: s.hist.runs[i];
    var target := Early(m, 10) + Late(s, m);
    forall i | i in f
      ensures f[i] in target
    {
      RunInTarget(s, m, i);
    }
    InjectionBound(f, target);
    assert f.Keys == RunsOf(s, m);
  }

  lemma RunInTarget(s: State, m: nat, i: nat)
    requires Alone(s) && Counted(s) && RunsOnce(s.hist) && i in RunsOf(s, m)
    ensures s.hist.runs[i] in Early(m, 10) + Late(s, m)
  {
    var c := s.hist.runs[i];
    assert c in s.hist.obtained && c == Worker.Copy(m, c.attempts);
  }

  lemma InitInv(limit: nat, vt: nat, m: nat, cap: nat)
    ensures Inv(Init(map[0 := limit], vt), m, cap)
  {
    var s := Init(map[0 := limit], vt);
    assert s.workers == map[0 := Worker.Fresh(limit, vt)];
    Worker.FreshInv(limit, vt);
    assert Late(s, m) == {};
  }

  /** Bounded redelivery: in one process with `limit` permits a message reaches its
      handler at most `11 + limit` times, twelve times for the default limit of one,
      whatever the visibility timeout, the handlers, the reads and the other messages do. */
  lemma BoundedRedelivery(limit: nat, vt: nat, run: seq<Label>, m: nat)
    requires Legal(Init(map[0 := limit], vt), run)
    requires CalmRun(Init(map[0 := limit], vt), run, m, false)
    ensures |RunsOf(After(Init(map[0 := limit], vt), run), m)| <= 11 + limit
  {
    InitInv(limit, vt, m, limit + 1);
    RunInv(Init(map[0 := limit], vt), run, m, false, limit + 1);
    RunsBounded(After(Init(map[0 := limit], vt), run), m, limit + 1);
  }

  /** If the message is never read while a copy of it is being handled, eleven times. */
  lemma BoundedRedeliveryApart(limit: nat, vt: nat, run: seq<Label>, m: nat)
    requires Legal(Init(map[0 := limit], vt), run)
    requires CalmRun(Init(map[0 := limit], vt), run, m, true)
    ensures |RunsOf(After(Init(map[0 := limit], vt), run), m)| <= 11
  {
    InitInv(limit, vt, m, 1);
    RunInv(Init(map[0 := limit], vt), run, m, true, 1);
    RunsBounded(After(Init(map[0 := limit], vt), run), m, 1);
  }
}
