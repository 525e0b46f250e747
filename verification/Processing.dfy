/** The publishing and settling code as it is written, over the queue object.  Each
    method, run on its own, is a run of the transition system of `Delivery`. */
module Processing {
  import opened Common
  import opened MessageQueue
  import opened Delivery
  import Worker

  /** `r` is a run from `s` made of steps of publisher `p` only. */
  ghost predicate PubRun(s: State, r: seq<Label>, p: nat) {
    Legal(s, r) && forall i :: 0 <= i < |r| ==> r[i].P? && r[i].p == p
  }

  /** `r` is a run from `s` made of steps of task `t` of worker `w` only. */
  ghost predicate TaskRun(s: State, r: seq<Label>, w: nat, t: nat) {
    Legal(s, r) && forall i :: 0 <= i < |r| ==>
      r[i].W? && r[i].w == w &&
      match r[i].act
      case Plain(_) => false
      case Read(_, _) => false
      case Begin(u) => u == t
      case HandlerReturned(u) => u == t
      case HandlerRaised(u, _) => u == t
      case DeleteCall(u, _) => u == t
      case Settle(u, _) => u == t
  }

  lemma OneMore(s: State, r: seq<Label>, l: Label)
    requires Legal(s, r) && Enabled(After(s, r), l)
    ensures Legal(s, r + [l]) && After(s, r + [l]) == Apply(After(s, r), l)
  {
    assert Legal(Apply(After(s, r), l), []);
    assert [l][1..] == [];
    Concatenate(s, r, [l]);
  }

  /** A channel's message processor; the email one swallows what send and mark raise. */
  class MessageProcessor {
    const queue: PGMessageQueue
    const email: bool

    constructor (queue: PGMessageQueue, email: bool)
      ensures this.queue == queue && this.email == email
    {
      this.queue, this.email := queue, email;
    }

    /** Look the connector up, check the key, send, mark, confirm.  `connected` says whether
        there is such a connector; `check`, `send`, `mark` and `confirm` are what happens
        to the four remote calls.  The result is the phase the publish ends in:
        `Duplicate` exactly when the check succeeds on a marked key, `Returned` exactly
        when the caller sees a normal return. */
    method Publish(key: string, connected: bool, check: Outcome, send: Outcome, mark: Outcome, confirm: Outcome,
                   ghost s: State, ghost p: nat)
      returns (result: PubPhase, ghost run: seq<Label>)
      requires s.db == queue.View() && p !in s.pubs
      requires email ==> connected && confirm.Ok?
      modifies queue
      ensures PubRun(s, run, p)
      ensures After(s, run).db == queue.View()
      ensures p in After(s, run).pubs && After(s, run).pubs[p].key == key
      ensures After(s, run).pubs[p].phase == result && !After(s, run).pubs[p].Active()
      ensures result == Duplicate <==> connected && check.Ok? && key in old(queue.View()).marked
      ensures result == Duplicate || !connected ==> queue.View() == old(queue.View())
      ensures result == Returned <==>
                connected && check.Ok? && key !in old(queue.View()).marked
                && (email || (send.Ok? && mark.Ok? && confirm.Ok?))
      ensures var clear := connected && check.Ok? && key !in old(queue.View()).marked;
              && queue.View().live == (if clear && send.Applied() then WithRow(old(queue.View()), key)
                                       else old(queue.View()).live)
              && queue.View().marked
                   == old(queue.View()).marked + if clear && send.Ok? && mark.Applied() then {key} else {}
    {
      if !connected {
        run := Refused(s, p, key, email);
        return Failed, run;
      }
      ghost var checked;
      checked, run := Checked(s, p, key, email, check);
      var known, raised := queue.IsAlreadyProcessed(key, check);
      if raised != None {
        return Failed, run;
      }
      if known {
        return Duplicate, run;
      }
      ghost var rest;
      result, rest := ProcessQueue(key, send, mark, checked, p);
      Concatenate(s, run, rest);
      run := run + rest;
      if result == Marked {
        run := ThenConfirm(s, run, p, confirm);
        result := if confirm.Ok? then Returned else Failed;
      }
    }

    /** `_process_queue`: send, then mark. */
    method ProcessQueue(key: string, send: Outcome, mark: Outcome, ghost s: State, ghost p: nat)
      returns (result: PubPhase, ghost run: seq<Label>)
      requires s.db == queue.View() && p in s.pubs
      requires s.pubs[p].key == key && s.pubs[p].email == email && s.pubs[p].phase == Cleared
      modifies queue
      ensures PubRun(s, run, p)
      ensures After(s, run).db == queue.View()
      ensures p in After(s, run).pubs
      ensures After(s, run).pubs[p].key == key && After(s, run).pubs[p].email == email
      ensures After(s, run).pubs[p].phase == result
      ensures result == if send.Ok? && mark.Ok? then Marked else if email then Returned else Failed
      ensures queue.View().live == if send.Applied() then WithRow(old(queue.View()), key) else old(queue.View()).live
      ensures queue.View().marked == old(queue.View()).marked + if send.Ok? && mark.Applied() then {key} else {}
    {
      OneMore(s, [], P(p, Delivery.Send(send)));
      run := [] + [P(p, Delivery.Send(send))];
      var raised := queue.Send(key, send);
      if raised != None {
        return if email then Returned else Failed, run;
      }
      OneMore(s, run, P(p, MarkKey(mark)));
      run := run + [P(p, MarkKey(mark))];
      raised := queue.MarkAsProcessed(key, mark);
      if raised != None {
        return if email then Returned else Failed, run;
      }
      return Marked, run;
    }
  }

  /** The rows with one more for the key: new, unread and visible at once. */
  ghost function WithRow(t: Tables, key: string): map<nat, Row> {
    t.live[t.next := Row(key, 0, t.now)]
  }

  ghost function Alone(t: Tables): State {
    State(t, map[], map[], History({}, {}, {}, [], {}, map[]))
  }

  /** The same message published twice in a row.  Once the first publish has marked its key,
      the second is refused as processed, whatever the rest of its calls would do, and
      leaves the tables as they are. */
  method PublishTwice(a: MessageProcessor, b: MessageProcessor, key: string, mark: Outcome, confirm: Outcome,
                      send': Outcome, mark': Outcome, confirm': Outcome)
    returns (first: PubPhase, second: PubPhase)
    requires a.queue == b.queue && key !in a.queue.View().marked && mark.Applied()
    requires (a.email ==> confirm.Ok?) && (b.email ==> confirm'.Ok?)
    modifies a.queue
    ensures mark.Ok? && confirm.Ok? ==> first == Returned
    ensures second == Duplicate
    ensures a.queue.View().live == WithRow(old(a.queue.View()), key)
    ensures a.queue.View().marked == old(a.queue.View()).marked + {key}
  {
    ghost var run;
    first, run := a.Publish(key, true, Ok, Ok, mark, confirm, Alone(a.queue.View()), 0);
    second, run := b.Publish(key, true, Ok, send', mark', confirm', Alone(b.queue.View()), 0);
  }

  lemma ThenConfirm(s: State, run: seq<Label>, p: nat, confirm: Outcome) returns (longer: seq<Label>)
    requires PubRun(s, run, p) && PubEnabled(After(s, run), p, Confirm(confirm))
    ensures PubRun(s, longer, p) && After(s, longer).db == After(s, run).db
    ensures p in After(s, longer).pubs
    ensures After(s, longer).pubs[p] == After(s, run).pubs[p].(phase := if confirm.Ok? then Returned else Failed)
  {
    OneMore(s, run, P(p, Confirm(confirm)));
    longer := run + [P(p, Confirm(confirm))];
  }

  /** A publish that fails before its check, as a run. */
  lemma Refused(s: State, p: nat, key: string, email: bool) returns (run: seq<Label>)
    requires p !in s.pubs
    ensures PubRun(s, run, p) && After(s, run).db == s.db
    ensures p in After(s, run).pubs && After(s, run).pubs[p] == Pub(key, email, Failed, None)
  {
    run := [] + [P(p, Start(key, email))];
    OneMore(s, [], P(p, Start(key, email)));
    OneMore(s, run, P(p, Abandon));
    run := run + [P(p, Abandon)];
  }

  /** The start of a publish as a run: it appears and its check comes back. */
  lemma Checked(s: State, p: nat, key: string, email: bool, check: Outcome)
    returns (s': State, run: seq<Label>)
    requires p !in s.pubs
    ensures PubRun(s, run, p) && After(s, run) == s' && s'.db == s.db
    ensures p in s'.pubs && s'.pubs[p] == Pub(key, email,
      if !check.Ok? then Failed else if key in s.db.marked then Duplicate else Cleared, None)
  {
    run := [] + [P(p, Start(key, email))];
    OneMore(s, [], P(p, Start(key, email)));
    OneMore(s, run, P(p, Check(check)));
    run := run + [P(p, Check(check))];
    s' := After(s, run);
  }

  /** The outcome a worker task records; `Escaped` stands for an exception that a
      settlement statement raised and nobody caught. */
  datatype TaskOutcome = Deleted | RetryScheduled | Archived | Left | Escaped

  // ---------------------------------------------------------------- runs of one task

  lemma ReturnedThenDelete(s: State, w: nat, t: nat, delete: Outcome) returns (run: seq<Label>)
    requires w in s.workers && TaskIn(s.workers[w], t, Worker.Handling)
    ensures TaskRun(s, run, w, t) && w in After(s, run).workers
    ensures var s', copy := After(s, run), s.workers[w].tasks[t].copy;
            && s'.db == Exec(s.db, if delete.Applied() then MessageQueue.Delete(copy.id) else Nop)
            && TaskIn(s'.workers[w], t, if delete.Ok? then Worker.Finished else Worker.Failing(delete.err))
            && s'.workers[w].tasks[t].copy == copy
            && copy.id in s'.hist.handled
  {
    var l := W(w, HandlerReturned(t));
    OneMore(s, [], l);
    run := [] + [l];
    l := W(w, DeleteCall(t, delete));
    OneMore(s, run, l);
    run := run + [l];
  }

  lemma HandlerFails(s: State, w: nat, t: nat, err: Error) returns (run: seq<Label>)
    requires w in s.workers && TaskIn(s.workers[w], t, Worker.Handling)
    ensures TaskRun(s, run, w, t) && w in After(s, run).workers
    ensures var s', copy := After(s, run), s.workers[w].tasks[t].copy;
            && s'.db == s.db
            && TaskIn(s'.workers[w], t, Worker.Failing(err))
            && s'.workers[w].tasks[t].copy == copy
  {
    var l := W(w, HandlerRaised(t, err));
    OneMore(s, [], l);
    run := [] + [l];
  }

  lemma ThenSettle(s: State, run: seq<Label>, w: nat, t: nat, settle: Outcome) returns (longer: seq<Label>)
    requires TaskRun(s, run, w, t) && w in After(s, run).workers
    requires Enabled(After(s, run), W(w, Settle(t, settle)))
    ensures TaskRun(s, longer, w, t) && w in After(s, longer).workers
    ensures var s1, s', task := After(s, run), After(s, longer), After(s, run).workers[w].tasks[t];
            && s'.db == Exec(s1.db, if settle.Applied()
                                    then SettleOp(task.copy.id, Decide(task.phase.err, task.copy.attempts))
                                    else Nop)
            && TaskIn(s'.workers[w], t, Worker.Finished)
  {
    var l := W(w, Settle(t, settle));
    OneMore(s, run, l);
    longer := run + [l];
  }

  /** The outcome of an exception at a number of attempts. */
  ghost predicate SettledAs(r: TaskOutcome, err: Error, attempts: nat, o: Outcome) {
    r == if !o.Ok? then Escaped
         else if err == Fatal || (err.Transient? && attempts >= 10) || (err == Other && attempts > 10) then Archived
         else if err.Transient? then RetryScheduled
         else Left
  }

  /** Hidden for the delay of the error from now on, and nothing else changed. */
  ghost predicate Retimed(t: Tables, u: Tables, id: nat, err: Error)
    requires id in t.live
  {
    err.Transient? &&
    var row := t.live[id];
    u == t.(live := t.live[id := Row(row.key, row.readCt, t.now + VtSeconds(err.delay))])
  }

  /** The settling half of the worker object. */
  class Settler {
    const queue: PGMessageQueue

    constructor (queue: PGMessageQueue)
      ensures this.queue == queue
    {
      this.queue := queue;
    }

    /** `_handle_error`: archive, schedule a retry, or leave the message to its timeout. */
    method HandleError(id: nat, err: Error, attempts: nat, o: Outcome) returns (r: TaskOutcome)
      requires Decide(err, attempts) == LeaveVisible ==> o.Ok?
      modifies queue
      ensures queue.View() == Exec(old(queue.View()),
                                   if o.Applied() then SettleOp(id, Decide(err, attempts)) else Nop)
      ensures r == if !o.Ok? then Escaped
                   else match Decide(err, attempts)
                        case ToArchive => Archived
                        case RetryLater(_) => RetryScheduled
                        case LeaveVisible => Left
      ensures SettledAs(r, err, attempts, o)
      ensures r == Archived ==> id !in queue.View().live
      ensures r == RetryScheduled && id in old(queue.View()).live ==> Retimed(old(queue.View()), queue.View(), id, err)
      ensures r == Left ==> queue.View() == old(queue.View())
    {
      var raised: Option<Error>;
      if err.Transient? {
        if attempts >= MAX_TRANSIENT_ATTEMPTS {
          raised := queue.ArchiveMessage(id, o);
          return if raised == None then Archived else Escaped;
        }
        raised := queue.SetVt(id, err.delay, o);
        return if raised == None then RetryScheduled else Escaped;
      }
      if err.Fatal? {
        raised := queue.ArchiveMessage(id, o);
        return if raised == None then Archived else Escaped;
      }
      if attempts > 10 {
        raised := queue.ArchiveMessage(id, o);
        return if raised == None then Archived else Escaped;
      }
      return Left;
    }

    /** `_handle_with_retries` for the task `t` of worker `w`.  `handler` is what the
        handler raised, `delete` and `settle` what happens to the statements.  A `delete`
        that raises is settled like a handler that raised. */
    method HandleWithRetries(copy: Copy, handler: Option<Error>, delete: Outcome, settle: Outcome,
                             ghost s: State, ghost w: nat, ghost t: nat)
      returns (r: TaskOutcome, ghost run: seq<Label>)
      requires s.db == queue.View()
      requires w in s.workers && TaskIn(s.workers[w], t, Worker.Handling)
      requires s.workers[w].tasks[t].copy == copy
      requires handler.Some? && Decide(handler.value, copy.attempts) == LeaveVisible ==> settle.Ok?
      requires delete.Raised? && Decide(delete.err, copy.attempts) == LeaveVisible ==> settle.Ok?
      modifies queue
      ensures TaskRun(s, run, w, t)
      ensures After(s, run).db == queue.View()
      ensures w in After(s, run).workers && TaskIn(After(s, run).workers[w], t, Worker.Finished)
      ensures r == Deleted <==> handler == None && delete.Ok?
      ensures handler.Some? ==> SettledAs(r, handler.value, copy.attempts, settle)
      ensures handler == None && delete.Raised? ==> SettledAs(r, delete.err, copy.attempts, settle)
      ensures r == Deleted ==> copy.id !in queue.View().live && copy.id in After(s, run).hist.handled
      ensures r == RetryScheduled && handler.Some? && copy.id in old(queue.View()).live ==>
                Retimed(old(queue.View()), queue.View(), copy.id, handler.value)
      ensures r == Left && handler.Some? ==> queue.View() == old(queue.View())
      ensures r == Archived ==> copy.id !in queue.View().live
    {
      var err;
      if handler == None {
        run := ReturnedThenDelete(s, w, t, delete);
        var raised := queue.DeleteMessage(copy.id, delete);
        if raised == None {
          return Deleted, run;
        }
        err := raised.value;
      } else {
        err := handler.value;
        run := HandlerFails(s, w, t, err);
      }
      run := ThenSettle(s, run, w, t, settle);
      r := HandleError(copy.id, err, copy.attempts, settle);
    }
  }
}
