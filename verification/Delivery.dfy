/** The durable delivery pipeline as one transition system: publishers that check, send
    and mark a key; the queue and key tables; worker processes that read, handle and
    settle.  Every step is the code between two suspension points, so a run is one
    interleaving; every database operation may also raise, before or after its effect. */
module Delivery {
  import opened Common
  import opened MessageQueue
  import Worker

  type Copy = Worker.Copy

  // ---------------------------------------------------------------- settlement policy

  datatype Settlement = ToArchive | RetryLater(delay: real) | LeaveVisible

  /** What `_handle_error` does with an exception at a given read count. */
  function Decide(err: Error, attempts: nat): Settlement {
    match err
    case Transient(delay) =>
      if attempts >= MAX_TRANSIENT_ATTEMPTS then ToArchive else RetryLater(delay)
    case Fatal => ToArchive
    case Other => if attempts > 10 then ToArchive else LeaveVisible
  }

  // ---------------------------------------------------------------- state

  /** `Cleared`: the key was not marked when it was checked.  `Returned`: the publish
      returned normally.  `Duplicate`: it reported that the key was processed already. */
  datatype PubPhase = Checking | Cleared | Enqueued | Marked | Returned | Duplicate | Failed

  /** `email` publishes swallow what send and mark raise.  `sent` is history: the id
      of the row this publish inserted. */
  datatype Pub = Pub(key: string, email: bool, phase: PubPhase, sent: Option<nat>) {
    predicate Active() {
      phase.Checking? || phase.Cleared? || phase.Enqueued? || phase.Marked?
    }
  }

  /** An exception the worker caught for a message, from its handler or its delete. */
  datatype Cause = Cause(id: nat, attempts: nat, err: Error)

  /** What has happened so far: ids whose handler returned normally, exceptions caught,
      copies obtained by reads, handler runs in order, publishes whose check found the
      key unmarked, and which publish sent each id. */
  datatype History = History(
    handled: set<nat>,
    causes: set<Cause>,
    obtained: set<Copy>,
    runs: seq<Copy>,
    passed: set<nat>,
    sender: map<nat, nat>)

  datatype State = State(
    db: Tables,
    pubs: map<nat, Pub>,
    workers: map<nat, Worker.State>,
    hist: History)

  /** Empty tables, no publisher yet, and any number of worker processes. */
  function Init(limits: map<nat, nat>, vt: nat): State {
    State(EmptyTables, map[],
          map w | w in limits :: Worker.Fresh(limits[w], vt),
          History({}, {}, {}, [], {}, map[]))
  }

  // ---------------------------------------------------------------- steps

  datatype PubAct =
    | Start(key: string, email: bool)
    | Check(o: Outcome)
    | Send(o: Outcome)
    | MarkKey(o: Outcome)
    | Confirm(o: Outcome)
    | Abandon

  datatype WorkAct =
    | Plain(a: Worker.Act)
    | Read(ids: seq<nat>, o: Outcome)
    | Begin(t: nat)
    | HandlerReturned(t: nat)
    | HandlerRaised(t: nat, err: Error)
    | DeleteCall(t: nat, o: Outcome)
    | Settle(t: nat, o: Outcome)

  datatype Label =
    | Tick(elapsed: nat)
    | P(p: nat, pub: PubAct)
    | W(w: nat, act: WorkAct)
    | Crash(w: nat)

  predicate PubEnabled(s: State, p: nat, a: PubAct) {
    match a
    case Start(_, _) => p !in s.pubs
    case Check(_) => p in s.pubs && s.pubs[p].phase == Checking
    case Send(_) => p in s.pubs && s.pubs[p].phase == Cleared
    case MarkKey(_) => p in s.pubs && s.pubs[p].phase == Enqueued
    case Confirm(o) => p in s.pubs && s.pubs[p].phase == Marked && (s.pubs[p].email ==> o.Ok?)
    case Abandon => p in s.pubs && s.pubs[p].Active()
  }

  predicate TaskIn(w: Worker.State, t: nat, phase: Worker.Phase) {
    t in w.tasks && w.tasks[t].phase == phase
  }

  predicate WorkEnabled(s: State, w: nat, a: WorkAct) {
    w in s.workers &&
    var v := s.workers[w];
    match a
    case Plain(b) =>
      !b.Got? && !b.ReadFailed? && !b.Move? && Worker.Enabled(v, b)
    case Read(ids, _) => v.main == Worker.Reading && Readable(s.db, ids, v.limit)
    case Begin(t) => TaskIn(v, t, Worker.Ready)
    case HandlerReturned(t) => TaskIn(v, t, Worker.Handling)
    case HandlerRaised(t, _) => TaskIn(v, t, Worker.Handling)
    case DeleteCall(t, _) => TaskIn(v, t, Worker.Deleting)
    case Settle(t, o) =>
      t in v.tasks && v.tasks[t].phase.Failing? &&
      (Decide(v.tasks[t].phase.err, v.tasks[t].copy.attempts) == LeaveVisible ==> o.Ok?)
  }

  predicate Enabled(s: State, l: Label) {
    match l
    case Tick(_) => true
    case P(p, a) => PubEnabled(s, p, a)
    case W(w, a) => WorkEnabled(s, w, a)
    case Crash(w) => w in s.workers
  }

  /** The statement that takes effect in a step. */
  function OpOf(s: State, l: Label): DbOp
    requires Enabled(s, l)
  {
    match l
    case Tick(elapsed) => Advance(elapsed)
    case P(p, Send(o)) => if o.Applied() then Insert(s.pubs[p].key) else Nop
    case P(p, MarkKey(o)) => if o.Applied() then Mark(s.pubs[p].key) else Nop
    case W(w, Read(ids, o)) => if o.Applied() then Take(ids, s.workers[w].vt) else Nop
    case W(w, DeleteCall(t, o)) =>
      if o.Applied() then MessageQueue.Delete(s.workers[w].tasks[t].copy.id) else Nop
    case W(w, Settle(t, o)) =>
      var task := s.workers[w].tasks[t];
      if !o.Applied() then Nop else SettleOp(task.copy.id, Decide(task.phase.err, task.copy.attempts))
    case _ => Nop
  }

  function SettleOp(id: nat, how: Settlement): DbOp {
    match how
    case ToArchive => Archive(id)
    case RetryLater(delay) => Hide(id, VtSeconds(delay))
    case LeaveVisible => Nop
  }

  /** The copies a read of `ids` hands to the worker. */
  function CopiesOf(t: Tables, ids: seq<nat>): (copies: seq<Copy>)
    requires forall i :: 0 <= i < |ids| ==> ids[i] in t.live
    ensures |copies| == |ids|
    ensures forall i :: 0 <= i < |ids| ==>
              copies[i] == Worker.Copy(ids[i], t.live[ids[i]].readCt + 1)
  {
    seq(|ids|, i requires 0 <= i < |ids| => Worker.Copy(ids[i], t.live[ids[i]].readCt + 1))
  }

  function NextPub(s: State, p: nat, a: PubAct): Pub
    requires PubEnabled(s, p, a)
  {
    match a
    case Start(key, email) => Pub(key, email, Checking, None)
    case Check(o) =>
      var u := s.pubs[p];
      u.(phase := if !o.Ok? then Failed else if u.key in s.db.marked then Duplicate else Cleared)
    case Send(o) =>
      var u := s.pubs[p];
      u.(phase := if o.Ok? then Enqueued else if u.email then Returned else Failed,
         sent := if o.Applied() then Some(s.db.next) else None)
    case MarkKey(o) =>
      var u := s.pubs[p];
      u.(phase := if o.Ok? then Marked else if u.email then Returned else Failed)
    case Confirm(o) => s.pubs[p].(phase := if o.Ok? then Returned else Failed)
    case Abandon => s.pubs[p].(phase := Failed)
  }

  /** The step of the worker machine a work action is. */
  function WorkerStep(s: State, w: nat, a: WorkAct): Worker.Act
    requires WorkEnabled(s, w, a)
  {
    match a
    case Plain(b) => b
    case Read(ids, o) => if o.Ok? then Worker.Got(CopiesOf(s.db, ids)) else Worker.ReadFailed
    case Begin(t) => Worker.Move(t, Worker.Handling)
    case HandlerReturned(t) => Worker.Move(t, Worker.Deleting)
    case HandlerRaised(t, err) => Worker.Move(t, Worker.Failing(err))
    case DeleteCall(t, o) =>
      Worker.Move(t, if o.Ok? then Worker.Finished else Worker.Failing(o.err))
    case Settle(t, o) => Worker.Move(t, Worker.Finished)
  }

  function NextHistory(s: State, l: Label): History
    requires Enabled(s, l)
  {
    var h := s.hist;
    match l
    case P(p, Check(o)) =>
      if o.Ok? && s.pubs[p].key !in s.db.marked then h.(passed := h.passed + {p}) else h
    case P(p, Send(o)) =>
      if o.Applied() then h.(sender := h.sender[s.db.next := p]) else h
    case W(w, Read(ids, o)) =>
      if o.Ok? then h.(obtained := h.obtained + (set c | c in CopiesOf(s.db, ids))) else h
    case W(w, Begin(t)) => h.(runs := h.runs + [s.workers[w].tasks[t].copy])
    case W(w, HandlerReturned(t)) =>
      h.(handled := h.handled + {s.workers[w].tasks[t].copy.id})
    case W(w, HandlerRaised(t, err)) =>
      var c := s.workers[w].tasks[t].copy;
      h.(causes := h.causes + {Cause(c.id, c.attempts, err)})
    case W(w, DeleteCall(t, o)) =>
      var c := s.workers[w].tasks[t].copy;
      if o.Ok? then h else h.(causes := h.causes + {Cause(c.id, c.attempts, o.err)})
    case _ => h
  }

  function Apply(s: State, l: Label): State
    requires Enabled(s, l)
  {
    State(
      Exec(s.db, OpOf(s, l)),
      if l.P? then s.pubs[l.p := NextPub(s, l.p, l.pub)] else s.pubs,
      (match l
       case W(w, a) => s.workers[w := Worker.Step(s.workers[w], WorkerStep(s, w, a))]
       case Crash(w) => s.workers[w := Worker.Fresh(s.workers[w].limit, s.workers[w].vt)]
       case _ => s.workers),
      NextHistory(s, l))
  }

  // ---------------------------------------------------------------- runs

  ghost predicate Legal(s: State, run: seq<Label>)
    decreases |run|
  {
    run == [] || (Enabled(s, run[0]) && Legal(Apply(s, run[0]), run[1..]))
  }

  ghost function After(s: State, run: seq<Label>): State
    requires Legal(s, run)
    decreases |run|
  {
    if run == [] then s else After(Apply(s, run[0]), run[1..])
  }

  lemma {:induction false} Concatenate(s: State, a: seq<Label>, b: seq<Label>)
    requires Legal(s, a) && Legal(After(s, a), b)
    ensures Legal(s, a + b) && After(s, a + b) == After(After(s, a), b)
    decreases |a|
  {
    if a == [] {
      assert a + b == b;
    } else {
      assert (a + b)[1..] == a[1..] + b;
      Concatenate(Apply(s, a[0]), a[1..], b);
    }
  }

  /** A state some interleaving of some number of workers and publishers reaches. */
  ghost predicate Reachable(s: State) {
    exists limits: map<nat, nat>, vt: nat, run: seq<Label> ::
      Legal(Init(limits, vt), run) && s == After(Init(limits, vt), run)
  }

  lemma InitReachable(limits: map<nat, nat>, vt: nat)
    ensures Reachable(Init(limits, vt))
  {
    assert Legal(Init(limits, vt), []) && After(Init(limits, vt), []) == Init(limits, vt);
  }

  lemma StepReachable(s: State, l: Label)
    requires Reachable(s) && Enabled(s, l)
    ensures Reachable(Apply(s, l))
  {
    var limits: map<nat, nat>, vt: nat, run: seq<Label> :|
      Legal(Init(limits, vt), run) && s == After(Init(limits, vt), run);
    assert Legal(Apply(s, l), []);
    assert [l][1..] == [];
    Concatenate(Init(limits, vt), run, [l]);
  }
}
