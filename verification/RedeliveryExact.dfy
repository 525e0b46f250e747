/** The bounds of `Redelivery` are exact: a message whose handler keeps raising an ordinary
    exception reaches them, for every limit and every visibility timeout. */
module RedeliveryExact {
  import opened Common
  import opened MessageQueue
  import opened Delivery
  import opened Redelivery
  import Worker

  /** A state a calm run of one process reaches. */
  ghost predicate Reached(limit: nat, vt: nat, apart: bool, s: State) {
    exists run :: Legal(Init(map[0 := limit], vt), run)
               && CalmRun(Init(map[0 := limit], vt), run, 0, apart)
               && s == After(Init(map[0 := limit], vt), run)
  }

  lemma {:induction false} Extend(s: State, run: seq<Label>, l: Label, m: nat, apart: bool)
    requires Legal(s, run) && CalmRun(s, run, m, apart)
    requires Enabled(After(s, run), l) && Calm(l) && (apart ==> ReadsAlone(After(s, run), l, m))
    ensures Legal(s, run + [l]) && CalmRun(s, run + [l], m, apart)
    ensures After(s, run + [l]) == Apply(After(s, run), l)
    decreases |run|
  {
    if run == [] {
      assert Legal(Apply(s, l), []) && [l][1..] == [];
      assert run + [l] == [l];
    } else {
      assert (run + [l])[1..] == run[1..] + [l];
      Extend(Apply(s, run[0]), run[1..], l, m, apart);
    }
  }

  lemma More(limit: nat, vt: nat, apart: bool, s: State, l: Label)
    requires Reached(limit, vt, apart, s) && Enabled(s, l) && Calm(l)
    requires apart ==> ReadsAlone(s, l, 0)
    ensures Reached(limit, vt, apart, Apply(s, l))
  {
    var run :| Legal(Init(map[0 := limit], vt), run)
            && CalmRun(Init(map[0 := limit], vt), run, 0, apart)
            && s == After(Init(map[0 := limit], vt), run);
    Extend(Init(map[0 := limit], vt), run, l, 0, apart);
  }

  /** A step that is no read. */
  lemma Then(limit: nat, vt: nat, apart: bool, s: State, l: Label) returns (t: State)
    requires Reached(limit, vt, apart, s) && Enabled(s, l) && Calm(l) && !(l.W? && l.act.Read?)
    ensures t == Apply(s, l) && Reached(limit, vt, apart, t)
  {
    More(limit, vt, apart, s, l);
    t := Apply(s, l);
  }

  // ---------------------------------------------------------------- the stages of the run

  /** The worker part: one process, not stopping, with `j` of its permits taken. */
  ghost predicate Working(w: Worker.State, limit: nat, vt: nat, j: nat) {
    && w.limit == limit && w.vt == vt && !w.stopping && w.free + j == limit
    && (j == 0 ==> w.tasks == map[])
    && (j == 1 ==> w.tasks.Keys == {w.nextTask - 1})
  }

  /** The message was read and run `k` times, and `j` tasks are running it; the latest
      is at its handler.  It has been hidden for its whole timeout. */
  ghost predicate Stage(s: State, limit: nat, vt: nat, k: nat, j: nat) {
    && Alone(s)
    && Working(s.workers[0], limit, vt, j) && s.workers[0].main == Worker.LoopTop
    && (j > 0 ==> Latest(s.workers[0], k))
    && 0 in s.db.live && s.db.live[0].readCt == k && s.db.live[0].visibleAt <= s.db.now
    && AllOf(s.hist.runs, k)
  }

  ghost predicate Latest(w: Worker.State, k: nat) {
    w.nextTask > 0 && w.nextTask - 1 in w.tasks
    && w.tasks[w.nextTask - 1] == Worker.Task(Worker.Copy(0, k), Worker.Handling)
  }

  ghost predicate AllOf(runs: seq<Copy>, k: nat) {
    |runs| == k && forall i :: 0 <= i < k ==> runs[i].id == 0
  }

  lemma Published(limit: nat, vt: nat, apart: bool) returns (s: State)
    ensures Reached(limit, vt, apart, s) && Stage(s, limit, vt, 0, 0)
  {
    s := Init(map[0 := limit], vt);
    assert Legal(s, []) && CalmRun(s, [], 0, apart) && After(s, []) == s;
    s := Then(limit, vt, apart, s, P(0, Start("k", false)));
    s := Then(limit, vt, apart, s, P(0, Check(Ok)));
    s := Then(limit, vt, apart, s, P(0, Send(Ok)));
  }

  /** The loop reads the message. */
  lemma Fetch(limit: nat, vt: nat, apart: bool, s: State, k: nat, j: nat) returns (t: State)
    requires Reached(limit, vt, apart, s) && Stage(s, limit, vt, k, j) && limit >= 1
    requires apart ==> j == 0
    ensures Reached(limit, vt, apart, t) && Alone(t)
    ensures t.workers[0] == s.workers[0].(main := Worker.Spawning([Worker.Copy(0, k + 1)]))
    ensures 0 in t.db.live && t.db.live[0].readCt == k + 1 && t.db.live[0].visibleAt == t.db.now + vt
    ensures t.hist.runs == s.hist.runs
  {
    var l := W(0, Plain(Worker.Loop));
    t := Then(limit, vt, apart, s, l);
    assert t.workers[0] == s.workers[0].(main := Worker.Reading) && t.db == s.db;
    var r := W(0, Read([0], Ok));
    assert Readable(t.db, [0], limit);
    More(limit, vt, apart, t, r);
    assert CopiesOf(t.db, [0]) == [Worker.Copy(0, k + 1)];
    t := Apply(t, r);
  }

  /** A permit is free: the copy gets a task, which enters the handler. */
  lemma Run(limit: nat, vt: nat, apart: bool, s: State, c: Copy) returns (t: State)
    requires Reached(limit, vt, apart, s) && Alone(s)
    requires s.workers[0].main == Worker.Spawning([c]) && s.workers[0].free > 0 && !s.workers[0].stopping
    ensures Reached(limit, vt, apart, t) && Alone(t)
    ensures var w := s.workers[0];
            t.workers[0] == w.(tasks := w.tasks[w.nextTask := Worker.Task(c, Worker.Handling)],
                               nextTask := w.nextTask + 1, free := w.free - 1, main := Worker.LoopTop)
    ensures t.db == s.db && t.hist.runs == s.hist.runs + [c]
  {
    t := Spawn(limit, vt, apart, s, c);
    t := Then(limit, vt, apart, t, W(0, Begin(s.workers[0].nextTask)));
    assert t.workers[0].main == Worker.Spawning([]);
    t := Then(limit, vt, apart, t, W(0, Plain(Worker.Next)));
  }

  lemma Spawn(limit: nat, vt: nat, apart: bool, s: State, c: Copy) returns (t: State)
    requires Reached(limit, vt, apart, s) && Alone(s)
    requires s.workers[0].main == Worker.Spawning([c]) && s.workers[0].free > 0 && !s.workers[0].stopping
    ensures Reached(limit, vt, apart, t) && Alone(t)
    ensures var w := s.workers[0];
            t.workers[0] == w.(tasks := w.tasks[w.nextTask := Worker.Task(c, Worker.Ready)],
                               nextTask := w.nextTask + 1, free := w.free - 1, main := Worker.Spawning([]))
    ensures t.db == s.db && t.hist.runs == s.hist.runs
  {
    assert [c][1..] == [];
    t := Then(limit, vt, apart, s, W(0, Plain(Worker.Next)));
  }

  /** One more delivery while the earlier ones are still running. */
  lemma Deliver(limit: nat, vt: nat, apart: bool, s: State, k: nat, j: nat) returns (t: State)
    requires Reached(limit, vt, apart, s) && Stage(s, limit, vt, k, j) && j < limit
    requires apart ==> j == 0
    ensures Reached(limit, vt, apart, t) && Stage(t, limit, vt, k + 1, j + 1)
  {
    t := Fetch(limit, vt, apart, s, k, j);
    t := Run(limit, vt, apart, t, Worker.Copy(0, k + 1));
    t := Then(limit, vt, apart, t, Tick(vt));
  }

  /** The latest handler raises and the message is left to its timeout, or archived. */
  lemma Raise(limit: nat, vt: nat, apart: bool, s: State, k: nat) returns (t: State)
    requires Reached(limit, vt, apart, s) && Alone(s) && Latest(s.workers[0], k)
    ensures Reached(limit, vt, apart, t) && Alone(t)
    ensures var w, n := s.workers[0], s.workers[0].nextTask - 1;
            t.workers[0] == w.(tasks := w.tasks[n := Worker.Task(Worker.Copy(0, k), Worker.Finished)])
    ensures k <= 10 ==> t.db == s.db
    ensures t.hist.runs == s.hist.runs
  {
    var n := s.workers[0].nextTask - 1;
    t := Then(limit, vt, apart, s, W(0, HandlerRaised(n, Other)));
    t := Then(limit, vt, apart, t, W(0, Settle(n, Ok)));
  }

  /** A delivery on its own, which leaves the message to its timeout. */
  lemma DeliverAndLeave(limit: nat, vt: nat, apart: bool, s: State, k: nat) returns (t: State)
    requires Reached(limit, vt, apart, s) && Stage(s, limit, vt, k, 0) && k < 10 && limit >= 1
    ensures Reached(limit, vt, apart, t) && Stage(t, limit, vt, k + 1, 0)
  {
    var u := Deliver(limit, vt, apart, s, k, 0);
    t := Raise(limit, vt, apart, u, k + 1);
    var n := u.workers[0].nextTask - 1;
    assert t.workers[0].tasks.Keys == {n};
    t := Then(limit, vt, apart, t, W(0, Plain(Worker.Done(n))));
    assert t.workers[0].tasks == map[];
  }

  lemma TenLeft(limit: nat, vt: nat, apart: bool) returns (s: State)
    requires limit >= 1
    ensures Reached(limit, vt, apart, s) && Stage(s, limit, vt, 10, 0)
  {
    s := Published(limit, vt, apart);
    for k := 0 to 10
      invariant Reached(limit, vt, apart, s) && Stage(s, limit, vt, k, 0)
    {
      s := DeliverAndLeave(limit, vt, apart, s, k);
    }
  }

  /** All permits run late copies and one more copy was read. */
  lemma AllRunning(limit: nat, vt: nat) returns (s: State)
    requires limit >= 1
    ensures Reached(limit, vt, false, s) && Alone(s)
    ensures var w := s.workers[0];
            && w.main == Worker.Spawning([Worker.Copy(0, 11 + limit)])
            && w.free == 0 && !w.stopping && Latest(w, 10 + limit)
    ensures AllOf(s.hist.runs, 10 + limit)
  {
    s := TenLeft(limit, vt, false);
    for j := 0 to limit
      invariant Reached(limit, vt, false, s) && Stage(s, limit, vt, 10 + j, j)
    {
      s := Deliver(limit, vt, false, s, 10 + j, j);
    }
    s := Fetch(limit, vt, false, s, 10 + limit, limit);
  }

  /** With no permit free the loop blocks, until the task that archives the message hands
      over its own. */
  lemma HandOver(limit: nat, vt: nat, s: State, c: Copy, k: nat) returns (t: State)
    requires Reached(limit, vt, false, s) && Alone(s)
    requires s.workers[0].main == Worker.Spawning([c]) && s.workers[0].free == 0 && !s.workers[0].stopping
    requires Latest(s.workers[0], k)
    ensures Reached(limit, vt, false, t) && Alone(t)
    ensures t.workers[0].main == Worker.Granted([c]) && t.hist.runs == s.hist.runs
  {
    var n := s.workers[0].nextTask - 1;
    t := Then(limit, vt, false, s, W(0, Plain(Worker.Next)));
    assert t.workers[0] == s.workers[0].(main := Worker.Blocked([c]));
    t := Raise(limit, vt, false, t, k);
    t := Then(limit, vt, false, t, W(0, Plain(Worker.Done(n))));
  }

  /** The copy that waited runs, although its message may be archived by now. */
  lemma StaleCopyRuns(limit: nat, vt: nat, s: State, c: Copy) returns (t: State)
    requires Reached(limit, vt, false, s) && Alone(s) && s.workers[0].main == Worker.Granted([c])
    ensures Reached(limit, vt, false, t) && t.hist.runs == s.hist.runs + [c]
  {
    var n := s.workers[0].nextTask;
    t := Then(limit, vt, false, s, W(0, Plain(Worker.Resume)));
    assert t.workers[0].tasks[n] == Worker.Task(c, Worker.Ready);
    t := Then(limit, vt, false, t, W(0, Begin(n)));
  }

  ghost function Positions(runs: seq<Copy>): set<nat> {
    set i | 0 <= i < |runs| && runs[i].id == 0
  }

  lemma {:induction false} CountPositions(runs: seq<Copy>)
    requires forall i :: 0 <= i < |runs| ==> runs[i].id == 0
    ensures |Positions(runs)| == |runs|
    decreases |runs|
  {
    if runs != [] {
      var n := |runs| - 1;
      CountPositions(runs[..n]);
      assert Positions(runs) == Positions(runs[..n]) + {n};
    }
  }

  /** The bound of `BoundedRedelivery` is reached for every limit and timeout: the handler
      runs exactly `11 + limit` times, twelve times for the default limit. */
  lemma BoundIsReached(limit: nat, vt: nat)
    requires limit >= 1
    ensures exists run ::
              && Legal(Init(map[0 := limit], vt), run)
              && CalmRun(Init(map[0 := limit], vt), run, 0, false)
              && |RunsOf(After(Init(map[0 := limit], vt), run), 0)| == 11 + limit
  {
    var s := AllRunning(limit, vt);
    s := HandOver(limit, vt, s, Worker.Copy(0, 11 + limit), 10 + limit);
    s := StaleCopyRuns(limit, vt, s, Worker.Copy(0, 11 + limit));
    CountPositions(s.hist.runs);
    assert RunsOf(s, 0) == Positions(s.hist.runs);
  }

  /** And so is that of `BoundedRedeliveryApart`, by a message that is never read while
      a copy of it is being handled. */
  lemma ApartBoundIsReached(limit: nat, vt: nat)
    requires limit >= 1
    ensures exists run ::
              && Legal(Init(map[0 := limit], vt), run)
              && CalmRun(Init(map[0 := limit], vt), run, 0, true)
              && |RunsOf(After(Init(map[0 := limit], vt), run), 0)| == 11
  {
    var s := TenLeft(limit, vt, true);
    s := Deliver(limit, vt, true, s, 10, 0);
    CountPositions(s.hist.runs);
    assert RunsOf(s, 0) == Positions(s.hist.runs);
  }
}
