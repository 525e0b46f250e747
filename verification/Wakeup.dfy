/** The LISTEN/NOTIFY wake-up protocol: the workers of a process, one per queue, all
    waiting on the one event of their shared queue object. */
module Wakeup {

  /** Where the worker of a queue is.  `Checking`: its read came back empty (or raised)
      and `wait_for_notification` is about to look for a listener connection.
      `Connecting`, `Listening`: awaiting the connection, then `add_listener`.
      `Blocked`: awaiting the event.  `Woken`: the event resolved its wait, the code
      after the wait has not run; a wait that finds the flag set goes on at once, which
      is one of the orders the steps allow. */
  datatype Pc = Top | Busy | Checking | Connecting | Listening | Blocked | Woken | Dead

  /** `inserted` counts the messages inserted, `seen` those inserted when the last empty
      read looked; `transit` counts notifications on their way.  `listens`: the server
      has executed LISTEN for the current connection; `registered`: the callback is in
      place and the connection is the recorded one, still open. */
  datatype QueueState = QueueState(
    inserted: nat, seen: nat, transit: nat, listens: bool, registered: bool, pc: Pc)

  datatype State = State(flag: bool, qs: map<nat, QueueState>)

  function Init(queues: set<nat>): State {
    State(false, map q | q in queues :: QueueState(0, 0, 0, false, false, Top))
  }

  datatype Label =
    | Insert(q: nat)
    | Deliver(q: nat)
    | ReadEmpty(q: nat)
    | ReadSome(q: nat)
    | ReadFailed(q: nat)
    | Processed(q: nat)
    | EnterWait(q: nat)
    | Connected(q: nat)
    | ConnectFailed(q: nat)
    | ServerListens(q: nat)
    | Registered(q: nat)
    | Resume(q: nat)
    | Timeout(q: nat)
    | Drop(q: nat)
    | Close(q: nat)

  predicate Enabled(s: State, l: Label) {
    l.q in s.qs &&
    var x := s.qs[l.q];
    match l
    case Insert(_) => true
    case Deliver(_) => x.transit > 0
    case ReadEmpty(_) => x.pc == Top
    case ReadSome(_) => x.pc == Top
    case ReadFailed(_) => x.pc == Top
    case Processed(_) => x.pc == Busy
    case EnterWait(_) => x.pc == Checking
    case Connected(_) => x.pc == Connecting
    case ConnectFailed(_) => x.pc == Connecting || x.pc == Listening
    case ServerListens(_) => x.pc == Listening && !x.listens
    case Registered(_) => x.pc == Listening && x.listens
    case Resume(_) => x.pc == Woken
    case Timeout(_) => x.pc == Blocked
    case Drop(_) => x.registered
    case Close(_) => true
  }

  /** `Event.set`: raise the flag and resolve every wait. */
  function Set(s: State): State {
    State(true, map q | q in s.qs ::
      if s.qs[q].pc == Blocked then s.qs[q].(pc := Woken) else s.qs[q])
  }

  function Put(s: State, q: nat, x: QueueState): State {
    s.(qs := s.qs[q := x])
  }

  function Step(s: State, l: Label): State
    requires Enabled(s, l)
  {
    var q := l.q;
    var x := s.qs[q];
    match l
    case Insert(_) =>
      Put(s, q, x.(inserted := x.inserted + 1, transit := if x.listens then x.transit + 1 else x.transit))
    case Deliver(_) =>
      var t := Put(s, q, x.(transit := x.transit - 1));
      if x.registered then Set(t) else t
    case ReadEmpty(_) => Put(s, q, x.(seen := x.inserted, pc := Checking))
    case ReadSome(_) => Put(s, q, x.(pc := Busy))
    case ReadFailed(_) => Put(s, q, x.(pc := Checking))
    case Processed(_) => Put(s, q, x.(pc := Top))
    case EnterWait(_) =>
      Put(s, q, x.(pc := if !x.registered then Connecting else if s.flag then Woken else Blocked))
    case Connected(_) => Put(s, q, x.(pc := Listening, listens := false, transit := 0))
    case ConnectFailed(_) => Put(s, q, x.(pc := Dead, listens := false, transit := 0))
    case ServerListens(_) => Put(s, q, x.(listens := true))
    case Registered(_) => Set(Put(s, q, x.(registered := true, pc := Woken)))
    case Resume(_) => Put(s.(flag := false), q, x.(pc := Top))
    case Timeout(_) => Put(s, q, x.(pc := Top))
    case Drop(_) => Put(s, q, x.(listens := false, registered := false, transit := 0))
    case Close(_) => Set(s)
  }

  ghost predicate Legal(s: State, run: seq<Label>)
    decreases |run|
  {
    run == [] || (Enabled(s, run[0]) && Legal(Step(s, run[0]), run[1..]))
  }

  ghost function After(s: State, run: seq<Label>): State
    requires Legal(s, run)
    decreases |run|
  {
    if run == [] then s else After(Step(s, run[0]), run[1..])
  }

  ghost predicate ReadsSucceed(run: seq<Label>) {
    forall i :: 0 <= i < |run| ==> !run[i].ReadFailed?
  }

  /** A state reached by the workers of `queues`; reads may raise only if `failing`. */
  ghost predicate Reachable(queues: set<nat>, failing: bool, s: State) {
    exists run :: Legal(Init(queues), run) && (failing || ReadsSucceed(run)) && s == After(Init(queues), run)
  }

  /** A blocked worker with an open listener and no notification under way has read
      everything there was: no message waits for a wake-up that never comes. */
  ghost predicate NothingMissed(s: State) {
    forall q :: q in s.qs && s.qs[q].pc == Blocked && s.qs[q].registered && s.qs[q].transit == 0 ==>
      s.qs[q].inserted == s.qs[q].seen
  }

  // ---------------------------------------------------------------- one queue per event

  ghost predicate Inv(s: State, q: nat) {
    && s.qs.Keys == {q}
    && var x := s.qs[q];
    && (x.registered ==> x.listens)
    && (x.pc == Blocked ==> !s.flag)
    && (x.pc == Connecting || x.pc == Listening ==> !x.registered)
    && ((x.pc == Checking || x.pc == Blocked) && x.registered ==>
          s.flag || x.transit > 0 || x.inserted == x.seen)
  }

  lemma StepInv(s: State, l: Label, q: nat)
    requires Inv(s, q) && Enabled(s, l) && !l.ReadFailed?
    ensures Inv(Step(s, l), q)
  {
    assert Step(s, l).qs.Keys == s.qs.Keys;
  }

  lemma {:induction false} RunInv(s: State, run: seq<Label>, q: nat)
    requires Inv(s, q) && Legal(s, run) && ReadsSucceed(run)
    ensures Inv(After(s, run), q)
    decreases |run|
  {
    if run != [] {
      StepInv(s, run[0], q);
      RunInv(Step(s, run[0]), run[1..], q);
    }
  }

  /** With one queue on the event and reads that succeed no wake-up is lost, whatever
      the placement of inserts, notifications, timeouts and dropped connections; the gap
      between an empty read and the registration of the listener is included. */
  lemma NoLostWakeUp(q: nat, s: State)
    requires Reachable({q}, false, s)
    ensures NothingMissed(s)
  {
    var run :| Legal(Init({q}), run) && ReadsSucceed(run) && s == After(Init({q}), run);
    assert Inv(Init({q}), q);
    RunInv(Init({q}), run, q);
  }

  // ---------------------------------------------------------------- where it fails

  lemma {:induction false} Extend(s: State, run: seq<Label>, l: Label)
    requires Legal(s, run) && Enabled(After(s, run), l)
    ensures Legal(s, run + [l]) && After(s, run + [l]) == Step(After(s, run), l)
    decreases |run|
  {
    if run == [] {
      assert run + [l] == [l];
      assert [l][1..] == [];
      assert Legal(Step(s, l), []);
    } else {
      assert (run + [l])[1..] == run[1..] + [l];
      Extend(Step(s, run[0]), run[1..], l);
    }
  }

  lemma StepReachable(queues: set<nat>, failing: bool, s: State, l: Label)
    requires Reachable(queues, failing, s) && Enabled(s, l) && (failing || !l.ReadFailed?)
    ensures Reachable(queues, failing, Step(s, l))
  {
    var run :| Legal(Init(queues), run) && (failing || ReadsSucceed(run)) && s == After(Init(queues), run);
    Extend(Init(queues), run, l);
    assert Legal(Init(queues), run + [l]);
  }

  lemma InitReachable(queues: set<nat>, failing: bool)
    ensures Reachable(queues, failing, Init(queues))
  {
    assert Legal(Init(queues), []) && ReadsSucceed([]);
    assert After(Init(queues), []) == Init(queues);
  }

  /** The worker of `q` goes from the loop top through its first wait up to the point
      where registering its listener has woken it. */
  lemma FirstWait(queues: set<nat>, failing: bool, s: State, q: nat) returns (t: State)
    requires Reachable(queues, failing, s) && q in s.qs
    requires s.qs[q].pc == Top && !s.qs[q].registered
    ensures Reachable(queues, failing, t) && t.qs.Keys == s.qs.Keys && t.flag
    ensures t.qs[q] == QueueState(s.qs[q].inserted, s.qs[q].inserted, 0, true, true, Woken)
    ensures forall r :: r in s.qs && r != q && s.qs[r].pc != Blocked ==> t.qs[r] == s.qs[r]
  {
    t := FirstConnect(queues, failing, s, q);
    StepReachable(queues, failing, t, ServerListens(q));
    t := Step(t, ServerListens(q));
    StepReachable(queues, failing, t, Registered(q));
    t := Step(t, Registered(q));
  }

  lemma FirstConnect(queues: set<nat>, failing: bool, s: State, q: nat) returns (t: State)
    requires Reachable(queues, failing, s) && q in s.qs
    requires s.qs[q].pc == Top && !s.qs[q].registered
    ensures Reachable(queues, failing, t) && t.qs.Keys == s.qs.Keys && Enabled(t, ServerListens(q))
    ensures t.qs[q] == QueueState(s.qs[q].inserted, s.qs[q].inserted, 0, false, false, Listening)
    ensures forall r :: r in s.qs && r != q ==> t.qs[r] == s.qs[r]
  {
    StepReachable(queues, failing, s, ReadEmpty(q));
    t := Step(s, ReadEmpty(q));
    StepReachable(queues, failing, t, EnterWait(q));
    t := Step(t, EnterWait(q));
    StepReachable(queues, failing, t, Connected(q));
    t := Step(t, Connected(q));
  }

  /** Two queues on one event, as the gateway is wired: while the worker of `a` is
      between its empty read and its wait, the worker of `b` registers its listener and
      consumes the event that the notification for `a` had set, without a suspension in
      between, and `a` blocks on a queue that holds a message. */
  lemma SharedEventLosesWakeUp(queues: set<nat>, a: nat, b: nat)
    requires a in queues && b in queues && a != b
    ensures exists s :: Reachable(queues, false, s) && !NothingMissed(s)
  {
    InitReachable(queues, false);
    var s := FirstWait(queues, false, Init(queues), a);
    StepReachable(queues, false, s, Resume(a));
    s := Step(s, Resume(a));
    s := FirstConnect(queues, false, s, b);
    StepReachable(queues, false, s, ServerListens(b));
    s := Step(s, ServerListens(b));
    s := MissedNotification(queues, s, a);
    assert s.qs[a] == QueueState(1, 0, 0, true, true, Checking) && Enabled(s, Registered(b));
    StepReachable(queues, false, s, Registered(b));
    s := Step(s, Registered(b));
    assert s.qs[a] == QueueState(1, 0, 0, true, true, Checking);
    StepReachable(queues, false, s, Resume(b));
    s := Step(s, Resume(b));
    StepReachable(queues, false, s, EnterWait(a));
    s := Step(s, EnterWait(a));
    assert s.qs[a] == QueueState(1, 0, 0, true, true, Blocked);
    assert !NothingMissed(s);
  }

  /** A message comes in just after the empty read of `a`, and so does its notification. */
  lemma MissedNotification(queues: set<nat>, s: State, a: nat) returns (t: State)
    requires Reachable(queues, false, s) && a in s.qs
    requires s.qs[a] == QueueState(0, 0, 0, true, true, Top) && forall q :: q in s.qs ==> s.qs[q].pc != Blocked
    ensures Reachable(queues, false, t) && t.qs.Keys == s.qs.Keys
    ensures t.qs[a] == QueueState(1, 0, 0, true, true, Checking)
    ensures forall q :: q in s.qs && q != a ==> t.qs[q] == s.qs[q]
  {
    StepReachable(queues, false, s, ReadEmpty(a));
    t := Step(s, ReadEmpty(a));
    StepReachable(queues, false, t, Insert(a));
    t := Step(t, Insert(a));
    StepReachable(queues, false, t, Deliver(a));
    t := Step(t, Deliver(a));
  }

  /** A read that raises is followed by a wait as if the queue had been empty. */
  lemma FailedReadMissesMessages(queues: set<nat>, a: nat)
    requires a in queues
    ensures exists s :: Reachable(queues, true, s) && !NothingMissed(s)
  {
    InitReachable(queues, true);
    var s := FirstWait(queues, true, Init(queues), a);
    StepReachable(queues, true, s, Resume(a));
    s := Step(s, Resume(a));
    StepReachable(queues, true, s, Insert(a));
    s := Step(s, Insert(a));
    StepReachable(queues, true, s, Deliver(a));
    s := Step(s, Deliver(a));
    assert s.qs[a] == QueueState(1, 0, 0, true, true, Top);
    s := ForgetFlag(queues, s, a);
    StepReachable(queues, true, s, ReadFailed(a));
    s := Step(s, ReadFailed(a));
    StepReachable(queues, true, s, EnterWait(a));
    s := Step(s, EnterWait(a));
    assert s.qs[a] == QueueState(1, 0, 0, true, true, Blocked);
    assert !NothingMissed(s);
  }

  /** One more failing read uses up the flag without looking at the queue. */
  lemma ForgetFlag(queues: set<nat>, s: State, a: nat) returns (t: State)
    requires Reachable(queues, true, s) && a in s.qs && s.flag
    requires s.qs[a].pc == Top && s.qs[a].registered
    ensures Reachable(queues, true, t) && a in t.qs && !t.flag && t.qs[a] == s.qs[a]
  {
    t := Step(s, ReadFailed(a));
    StepReachable(queues, true, s, ReadFailed(a));
    StepReachable(queues, true, t, EnterWait(a));
    t := Step(t, EnterWait(a));
    StepReachable(queues, true, t, Resume(a));
    t := Step(t, Resume(a));
  }

  lemma NothingMissedEmpty(failing: bool, s: State)
    requires Reachable({}, failing, s)
    ensures NothingMissed(s)
  {
    var run :| Legal(Init({}), run) && s == After(Init({}), run);
    assert run == [];
  }

  ghost predicate LooksAt(l: Label, q: nat) {
    l == ReadEmpty(q) || l == ReadSome(q) || l == ReadFailed(q)
  }

  /** However a wait ends, by a notification, by its timeout or because the queue object is
      closed, the next thing its worker does is another read. */
  lemma WaitsEndInReads(s: State, l: Label, q: nat, run: seq<Label>)
    requires Enabled(s, l) && (l == Resume(q) || l == Timeout(q)) && Legal(Step(s, l), run)
    requires forall i :: 0 <= i < |run| ==> !LooksAt(run[i], q)
    ensures Enabled(After(Step(s, l), run), ReadEmpty(q)) && Enabled(After(Step(s, l), run), ReadSome(q))
    ensures l == Timeout(q) ==> Step(s, l).flag == s.flag
    ensures l == Resume(q) ==> !Step(s, l).flag
  {
    StaysAtTop(Step(s, l), q, run);
  }

  lemma {:induction false} StaysAtTop(s: State, q: nat, run: seq<Label>)
    requires q in s.qs && s.qs[q].pc == Top && Legal(s, run)
    requires forall i :: 0 <= i < |run| ==> !LooksAt(run[i], q)
    ensures q in After(s, run).qs && After(s, run).qs[q].pc == Top
    decreases |run|
  {
    if run != [] {
      assert !LooksAt(run[0], q);
      StaysAtTop(Step(s, run[0]), q, run[1..]);
    }
  }

  /** Closing the queue object leaves no worker waiting. */
  lemma CloseWakesAll(s: State, q: nat)
    requires q in s.qs
    ensures var t := Step(s, Close(q));
            t.flag && forall r :: r in t.qs ==> t.qs[r].pc != Blocked
    ensures forall r :: r in s.qs && s.qs[r].pc == Blocked ==> Enabled(Step(s, Close(q)), Resume(r))
  {
  }

  /** Exactly when the protocol never misses a message: at most one queue waits on the
      event, and its reads succeed. */
  lemma NoLostWakeUpIff(queues: set<nat>, failing: bool)
    ensures (forall s :: Reachable(queues, failing, s) ==> NothingMissed(s))
            <==> |queues| == 0 || (|queues| == 1 && !failing)
  {
    if |queues| == 0 {
      assert queues == {};
      forall s | Reachable(queues, failing, s)
        ensures NothingMissed(s)
      {
        NothingMissedEmpty(failing, s);
      }
    } else {
      var a :| a in queues;
      if |queues| > 1 {
        assert |queues - {a}| > 0;
        var b :| b in queues - {a};
        SharedEventLosesWakeUp(queues, a, b);
        var s :| Reachable(queues, false, s) && !NothingMissed(s);
        assert Reachable(queues, failing, s);
      } else if failing {
        FailedReadMissesMessages(queues, a);
      } else {
        assert |queues - {a}| == 0;
        assert queues == {a};
        forall s | Reachable(queues, failing, s)
          ensures NothingMissed(s)
        {
          NoLostWakeUp(a, s);
        }
      }
    }
  }

  // ---------------------------------------------------------------- the event object

  /** The event and listener part of the queue object.  Each method is the code between
      two suspension points of `wait_for_notification`, or the listener callback. */
  class Notifications {
    var isSet: bool
    var qs: map<nat, QueueState>

    ghost function View(): State
      reads this
    {
      State(isSet, qs)
    }

    constructor (queues: set<nat>)
      ensures View() == Init(queues)
    {
      isSet := false;
      qs := map q | q in queues :: QueueState(0, 0, 0, false, false, Top);
    }

    /** Raise the flag, then resolve the waits one by one. */
    method SetEvent()
      modifies this
      ensures View() == Set(old(View()))
    {
      isSet := true;
      var left := qs.Keys;
      while left != {}
        invariant left <= old(qs).Keys && qs.Keys == old(qs).Keys && isSet
        invariant forall q :: q in left ==> qs[q] == old(qs)[q]
        invariant forall q :: q in qs && q !in left ==> qs[q] == Set(old(View())).qs[q]
        decreases |left|
      {
        var q :| q in left;
        left := left - {q};
        if qs[q].pc == Blocked {
          qs := qs[q := qs[q].(pc := Woken)];
        }
      }
    }

    /** Entry of `wait_for_notification`: reuse an open listener or go to connect. */
    method BeginWait(q: nat)
      requires Enabled(View(), EnterWait(q))
      modifies this
      ensures View() == Step(old(View()), EnterWait(q))
    {
      var x := qs[q];
      if !x.registered {
        qs := qs[q := x.(pc := Connecting)];
      } else if isSet {
        qs := qs[q := x.(pc := Woken)];
      } else {
        qs := qs[q := x.(pc := Blocked)];
      }
    }

    /** `add_listener` returned: record the connection and force one more look. */
    method ListenerAdded(q: nat)
      requires Enabled(View(), Registered(q))
      modifies this
      ensures View() == Step(old(View()), Registered(q))
    {
      qs := qs[q := qs[q].(registered := true, pc := Woken)];
      SetEvent();
    }

    /** A notification arrives; a connection without callback drops it. */
    method OnNotification(q: nat)
      requires Enabled(View(), Deliver(q))
      modifies this
      ensures View() == Step(old(View()), Deliver(q))
    {
      qs := qs[q := qs[q].(transit := qs[q].transit - 1)];
      if qs[q].registered {
        SetEvent();
      }
    }

    /** The wait resolved: clear the event and report the notification. */
    method FinishWait(q: nat) returns (notified: bool)
      requires Enabled(View(), Resume(q))
      modifies this
      ensures notified && View() == Step(old(View()), Resume(q))
    {
      isSet := false;
      qs := qs[q := qs[q].(pc := Top)];
      notified := true;
    }

    /** The wait timed out; the event stays as it is. */
    method WaitTimedOut(q: nat) returns (notified: bool)
      requires Enabled(View(), Timeout(q))
      modifies this
      ensures !notified && View() == Step(old(View()), Timeout(q))
    {
      qs := qs[q := qs[q].(pc := Top)];
      notified := false;
    }
  }
}
