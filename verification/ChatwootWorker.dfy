/** The worker that delivers to Chatwoot: the tasks of one process and the attempts their
    handlers make, as one transition system. */
module ChatwootWorker {
  import Chatwoot
  import Worker

  datatype State = State(worker: Worker.State, chatwoot: Chatwoot.State)

  function Init(limit: nat, vt: nat): State {
    State(Worker.Fresh(limit, vt), Chatwoot.Start)
  }

  /** `Main`: a step of the loop or of a task outside its handler.  `Attempt`: the handler
      of the task begins its attempt or makes its next request.  `HandlerOver`: the
      handler ends, and with it the attempt; an empty message makes none. */
  datatype Label =
    | Main(a: Worker.Act)
    | Attempt(l: Chatwoot.Label)
    | HandlerOver(t: nat, phase: Worker.Phase)

  predicate Handling(w: Worker.State, t: nat) {
    t in w.tasks && w.tasks[t].phase == Worker.Handling
  }

  predicate Enabled(s: State, l: Label) {
    match l
    case Main(a) => Worker.Enabled(s.worker, a) && (a.Move? ==> !Handling(s.worker, a.t))
    case Attempt(c) => Chatwoot.Enabled(s.chatwoot, c) && Handling(s.worker, c.n)
    case HandlerOver(t, phase) =>
      && Handling(s.worker, t) && Worker.Enabled(s.worker, Worker.Move(t, phase)) && phase != Worker.Handling
      && (t in s.chatwoot.attempts ==> !s.chatwoot.attempts[t].Active())
  }

  function Step(s: State, l: Label): State
    requires Enabled(s, l)
  {
    match l
    case Main(a) => s.(worker := Worker.Step(s.worker, a))
    case Attempt(c) => s.(chatwoot := Chatwoot.Step(s.chatwoot, c))
    case HandlerOver(t, phase) => s.(worker := Worker.Step(s.worker, Worker.Move(t, phase)))
  }

  ghost predicate Legal(s: State, run: seq<Label>)
    decreases |run|
  {
    run == [] || (Enabled(s, run[0]) && Legal(Step(s, run[0]), run[1..]))
  }

  ghost function After(s: State, run: seq<Label>): State
    requires Legal(s, run)
    decreases |run|
  {
    if run == [] then s else After(Step(s, run[0]), run[1..])
  }

  /** The attempts' part of a run. */
  ghost function AttemptLabels(run: seq<Label>): seq<Chatwoot.Label>
    decreases |run|
  {
    if run == [] then []
    else (if run[0].Attempt? then [run[0].l] else []) + AttemptLabels(run[1..])
  }

  /** An attempt is under way only while its task is at its handler. */
  ghost predicate WithinHandlers(s: State) {
    forall n :: n in s.chatwoot.attempts && s.chatwoot.attempts[n].Active() ==> Handling(s.worker, n)
  }

  lemma StepWithin(s: State, l: Label)
    requires Worker.Inv(s.worker) && WithinHandlers(s) && Enabled(s, l)
    ensures Worker.Inv(Step(s, l).worker) && WithinHandlers(Step(s, l))
    ensures Step(s, l).worker.limit == s.worker.limit
  {
    match l
    case Main(a) => Worker.StepInv(s.worker, a);
    case Attempt(_) =>
    case HandlerOver(t, phase) => Worker.StepInv(s.worker, Worker.Move(t, phase));
  }

  /** With one permit, at most one attempt is under way, for whatever contact. */
  lemma OneAttempt(s: State, c: Chatwoot.Contact)
    requires Worker.Inv(s.worker) && WithinHandlers(s) && s.worker.limit == 1
    ensures Chatwoot.Serial(s.chatwoot, c)
  {
    forall m, n | Chatwoot.ActiveFor(s.chatwoot, m, c) && Chatwoot.ActiveFor(s.chatwoot, n, c)
      ensures m == n
    {
      Worker.OneTask(s.worker, m, n);
    }
  }

  lemma {:induction false} AttemptsRun(s: State, run: seq<Label>, c: Chatwoot.Contact)
    requires Legal(s, run) && Worker.Inv(s.worker) && WithinHandlers(s) && s.worker.limit == 1
    ensures Chatwoot.Legal(s.chatwoot, AttemptLabels(run))
    ensures Chatwoot.After(s.chatwoot, AttemptLabels(run)) == After(s, run).chatwoot
    ensures Chatwoot.NeverOverlapping(s.chatwoot, AttemptLabels(run), c)
    decreases |run|
  {
    OneAttempt(s, c);
    if run != [] {
      StepWithin(s, run[0]);
      AttemptsRun(Step(s, run[0]), run[1..], c);
      if run[0].Attempt? {
        Prepend(s.chatwoot, run[0].l, AttemptLabels(run[1..]), c);
      } else {
        assert AttemptLabels(run) == AttemptLabels(run[1..]);
      }
    }
  }

  lemma Prepend(s: Chatwoot.State, l: Chatwoot.Label, rest: seq<Chatwoot.Label>, c: Chatwoot.Contact)
    requires Chatwoot.Enabled(s, l) && Chatwoot.Serial(s, c)
    requires Chatwoot.Legal(Chatwoot.Step(s, l), rest)
    requires Chatwoot.NeverOverlapping(Chatwoot.Step(s, l), rest, c)
    ensures Chatwoot.Legal(s, [l] + rest) && Chatwoot.NeverOverlapping(s, [l] + rest, c)
    ensures Chatwoot.After(s, [l] + rest) == Chatwoot.After(Chatwoot.Step(s, l), rest)
  {
    assert ([l] + rest)[1..] == rest;
  }

  /** One process with the default limit of one never duplicates: whatever its tasks are
      handed and wherever their requests fail, every contact and every conversation of a
      contact and inbox is created at most once, and deliveries for one contact and inbox
      reach the same conversation. */
  lemma OneProcessConverges(vt: nat, run: seq<Label>, c: Chatwoot.Contact)
    requires Legal(Init(1, vt), run)
    ensures var s := After(Init(1, vt), run).chatwoot;
            && Chatwoot.Once(s.remote.contacts, c)
            && (forall v | Chatwoot.OfContact(s.remote, v, c) :: Chatwoot.Once(s.remote.conversations, v))
            && forall m, n | Chatwoot.DeliveredFor(s, m, c) && Chatwoot.DeliveredFor(s, n, c) ::
                 s.attempts[m].request.inbox == s.attempts[n].request.inbox ==>
                   s.attempts[m].phase == s.attempts[n].phase
  {
    Worker.FreshInv(1, vt);
    AttemptsRun(Init(1, vt), run, c);
    Chatwoot.RetriesConverge(AttemptLabels(run), c);
  }
}
