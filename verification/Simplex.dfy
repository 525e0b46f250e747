/** The SimpleX client: any number of concurrent commands on one websocket, matched to
    replies by correlation id across timeouts, cancelled callers and reconnects. */
module Simplex {
  import opened Common
  import opened SimplexEvents

  // ---------------------------------------------------------------- correlation ids

  const DIGITS: string := "0123456789"

  /** `str(n)`. */
  function IdText(n: nat): (s: string)
    ensures |s| > 0
    ensures forall i :: 0 <= i < |s| ==> s[i] in DIGITS
  {
    if n < 10 then [DIGITS[n]] else IdText(n / 10) + [DIGITS[n % 10]]
  }

  function Value(s: string): nat
    requires forall i :: 0 <= i < |s| ==> s[i] in DIGITS
  {
    if s == "" then 0
    else 10 * Value(s[..|s| - 1]) + Digit(s[|s| - 1])
  }

  function Digit(c: char): (d: nat)
    requires c in DIGITS
    ensures d < 10 && DIGITS[d] == c
  {
    (c as int) - ('0' as int)
  }

  lemma {:induction false} IdTextValue(n: nat)
    ensures Value(IdText(n)) == n
  {
    if n < 10 {
      LastDigit("", n);
      assert IdText(n) == "" + [DIGITS[n]];
    } else {
      IdTextValue(n / 10);
      LastDigit(IdText(n / 10), n % 10);
      assert IdText(n) == IdText(n / 10) + [DIGITS[n % 10]];
    }
  }

  lemma DigitAt(d: nat)
    requires d < 10
    ensures DIGITS[d] in DIGITS && Digit(DIGITS[d]) == d
  {
  }

  lemma LastDigit(s: string, d: nat)
    requires d < 10 && forall i :: 0 <= i < |s| ==> s[i] in DIGITS
    ensures forall i :: 0 <= i < |s + [DIGITS[d]]| ==> (s + [DIGITS[d]])[i] in DIGITS
    ensures Value(s + [DIGITS[d]]) == 10 * Value(s) + d
  {
    var t := s + [DIGITS[d]];
    DigitAt(d);
    assert t[..|t| - 1] == s && t[|t| - 1] == DIGITS[d];
  }

  lemma IdTextInjective(m: nat, n: nat)
    ensures IdText(m) == IdText(n) ==> m == n
  {
    IdTextValue(m);
    IdTextValue(n);
  }

  // ---------------------------------------------------------------- the client

  /** The future of a command.  `Replied(corrId, resp)`: completed by that reply. */
  datatype Future = Open | Replied(corrId: string, resp: Json) | Lost | Cancelled

  /** Where the caller of a command is.  `Expired`: its wait has timed out, and it has not
      been resumed to take its command out of `pending`. */
  datatype Caller = Sending | Awaiting | Expired | Gone

  /** Commands are numbered by `_corr_id`.  `ready`: connected with a websocket.
      `tearing`: the teardown has begun and `_fail_pending` is still to come. */
  datatype State = State(
    ready: bool,
    tearing: bool,
    pending: map<string, nat>,
    futs: map<nat, Future>,
    callers: map<nat, Caller>,
    corrId: nat,
    inbound: seq<Inbound>)

  const Start := State(false, false, map[], map[], map[], 0, [])

  datatype Label =
    | Connect
    | BeginCommand
    | SendFailed(n: nat)
    | Sent(n: nat)
    | Finish(n: nat)
    | TimeOut(n: nat)
    | DiscardExpired(n: nat)
    | CancelCaller(n: nat)
    | Dispatch(corrId: Option<string>, resp: Json)
    | BeginTeardown
    | FailPending

  predicate CallerIs(s: State, n: nat, c: Caller) {
    n in s.callers && s.callers[n] == c && n in s.futs
  }

  predicate Enabled(s: State, l: Label) {
    match l
    case Connect => !s.ready && !s.tearing
    case BeginCommand => s.ready
    case SendFailed(n) => CallerIs(s, n, Sending)
    case Sent(n) => CallerIs(s, n, Sending)
    case Finish(n) => CallerIs(s, n, Awaiting) && s.futs[n] != Open
    case TimeOut(n) => CallerIs(s, n, Awaiting)
    case DiscardExpired(n) => CallerIs(s, n, Expired)
    case CancelCaller(n) => n in s.callers && s.callers[n] != Gone && n in s.futs
    case Dispatch(_, _) => true
    case BeginTeardown => !s.tearing
    case FailPending => s.tearing
  }

  function Step(s: State, l: Label): State
    requires Enabled(s, l)
  {
    match l
    case Connect => s.(ready := true)
    case BeginCommand =>
      var n := s.corrId + 1;
      s.(corrId := n, pending := s.pending[IdText(n) := n],
         futs := s.futs[n := Open], callers := s.callers[n := Sending])
    case SendFailed(n) => s.(pending := s.pending - {IdText(n)}, callers := s.callers[n := Gone])
    case Sent(n) => s.(callers := s.callers[n := Awaiting])
    case Finish(n) => s.(callers := s.callers[n := Gone])
    case TimeOut(n) =>
      s.(futs := if s.futs[n] == Open then s.futs[n := Cancelled] else s.futs,
         callers := s.callers[n := Expired])
    case DiscardExpired(n) => s.(pending := s.pending - {IdText(n)}, callers := s.callers[n := Gone])
    case CancelCaller(n) =>
      s.(futs := if s.callers[n] != Sending && s.futs[n] == Open then s.futs[n := Cancelled] else s.futs,
         callers := s.callers[n := Gone])
    case Dispatch(corrId, resp) => Dispatched(s, corrId, resp)
    case BeginTeardown => s.(ready := false, tearing := true)
    case FailPending =>
      s.(tearing := false, pending := map[],
         futs := map n | n in s.futs ::
           if n in s.pending.Values && s.futs[n] == Open then Lost else s.futs[n])
  }

  /** `_dispatch`: a reply with a pending id completes its future, anything else is an event. */
  function Dispatched(s: State, corrId: Option<string>, resp: Json): State {
    if corrId.Some? && corrId.value in s.pending then Completed(s, corrId.value, s.pending[corrId.value], resp)
    else s.(inbound := s.inbound + EventMessages(resp))
  }

  /** Future `n` leaves `pending`, where it is under `id`, and takes the reply if it is open. */
  function Completed(s: State, id: string, n: nat, resp: Json): State {
    s.(pending := s.pending - {id},
       futs := if n in s.futs && s.futs[n] == Open then s.futs[n := Replied(id, resp)] else s.futs)
  }

  ghost predicate Inv(s: State) {
    && (forall n :: n in s.futs ==> 1 <= n <= s.corrId)
    && (forall k :: k in s.pending ==> k == IdText(s.pending[k]) && s.pending[k] in s.futs)
    && (forall n :: n in s.futs && s.futs[n].Replied? ==> s.futs[n].corrId == IdText(n))
    && (forall n :: n in s.callers && n in s.futs && s.callers[n] != Gone && s.futs[n] == Open ==>
          IdText(n) in s.pending)
    && (!s.ready && !s.tearing ==> s.pending == map[])
    && (s.tearing ==> !s.ready)
  }

  /** What a later state may differ in: done futures stay as they are. */
  ghost predicate Settled(s: State, s': State) {
    && s.corrId <= s'.corrId
    && (forall n :: n in s.futs ==> n in s'.futs && (s.futs[n] != Open ==> s'.futs[n] == s.futs[n]))
    && (forall n :: n in s'.futs && n !in s.futs ==> n > s.corrId)
  }

  lemma StepInv(s: State, l: Label)
    requires Inv(s) && Enabled(s, l)
    ensures Inv(Step(s, l)) && Settled(s, Step(s, l))
  {
    match l
    case BeginCommand => BeginKeeps(s);
    case SendFailed(n) => PopKeeps(s, l, n);
    case DiscardExpired(n) => PopKeeps(s, l, n);
    case Dispatch(corrId, resp) => DispatchKeeps(s, corrId, resp);
    case FailPending => FailKeeps(s);
    case _ =>
  }

  lemma BeginKeeps(s: State)
    requires Inv(s) && Enabled(s, BeginCommand)
    ensures Inv(Step(s, BeginCommand)) && Settled(s, Step(s, BeginCommand))
  {
    var n := s.corrId + 1;
    assert n !in s.futs;
    FreshId(s, n);
  }

  lemma FreshId(s: State, n: nat)
    requires Inv(s) && n > s.corrId
    ensures IdText(n) !in s.pending
  {
    if IdText(n) in s.pending {
      IdTextInjective(s.pending[IdText(n)], n);
    }
  }

  lemma PopKeeps(s: State, l: Label, n: nat)
    requires Inv(s) && Enabled(s, l) && (l == SendFailed(n) || l == DiscardExpired(n))
    ensures Inv(Step(s, l)) && Settled(s, Step(s, l))
  {
    var s' := Step(s, l);
    forall m | m in s'.callers && m in s'.futs && s'.callers[m] != Gone && s'.futs[m] == Open
      ensures IdText(m) in s'.pending
    {
      IdTextInjective(m, n);
    }
  }

  lemma DispatchKeeps(s: State, corrId: Option<string>, resp: Json)
    requires Inv(s)
    ensures Inv(Dispatched(s, corrId, resp)) && Settled(s, Dispatched(s, corrId, resp))
  {
    if corrId.Some? && corrId.value in s.pending {
      CompletedKeeps(s, corrId.value, s.pending[corrId.value], resp);
    } else {
      InboundKeeps(s, s.inbound + EventMessages(resp));
    }
  }

  lemma InboundKeeps(s: State, inbound: seq<Inbound>)
    requires Inv(s)
    ensures Inv(s.(inbound := inbound)) && Settled(s, s.(inbound := inbound))
  {
  }

  lemma CompletedKeeps(s: State, id: string, n: nat, resp: Json)
    requires Inv(s) && id in s.pending && s.pending[id] == n
    ensures Inv(Completed(s, id, n, resp)) && Settled(s, Completed(s, id, n, resp))
  {
    var s' := Completed(s, id, n, resp);
    forall m | m in s'.callers && m in s'.futs && s'.callers[m] != Gone && s'.futs[m] == Open
      ensures IdText(m) in s'.pending
    {
      IdTextInjective(m, n);
    }
  }

  lemma FailKeeps(s: State)
    requires Inv(s) && Enabled(s, FailPending)
    ensures Inv(Step(s, FailPending)) && Settled(s, Step(s, FailPending))
  {
    var s' := Step(s, FailPending);
    forall n | n in s'.callers && n in s'.futs && s'.callers[n] != Gone
      ensures s'.futs[n] != Open
    {
      if s.futs[n] == Open {
        assert IdText(n) in s.pending;
        IdTextInjective(s.pending[IdText(n)], n);
        assert n in s.pending.Values;
      }
    }
  }

  // ---------------------------------------------------------------- whole runs

  ghost predicate Legal(s: State, run: seq<Label>)
    decreases |run|
  {
    run == [] || (Enabled(s, run[0]) && Legal(Step(s, run[0]), run[1..]))
  }

  ghost function After(s: State, run: seq<Label>): State
    requires Legal(s, run)
    decreases |run|
  {
    if run == [] then s else After(Step(s, run[0]), run[1..])
  }

  lemma {:induction false} RunInv(s: State, run: seq<Label>)
    requires Inv(s) && Legal(s, run)
    ensures Inv(After(s, run)) && Settled(s, After(s, run))
    decreases |run|
  {
    if run != [] {
      StepInv(s, run[0]);
      RunInv(Step(s, run[0]), run[1..]);
    }
  }

  ghost predicate Reachable(s: State) {
    exists run :: Legal(Start, run) && s == After(Start, run)
  }

  lemma ReachableInv(s: State)
    requires Reachable(s)
    ensures Inv(s)
  {
    var run :| Legal(Start, run) && s == After(Start, run);
    RunInv(Start, run);
  }

  /** Reply matching over whole runs: a future completes at most once, only with a reply
      that bears its own id, and no later command ever uses that id again, whatever
      timeouts, cancellations, stray replies and reconnects there are. */
  lemma ReplyMatching(s: State, run: seq<Label>, n: nat)
    requires Reachable(s) && Legal(s, run) && n in s.futs
    ensures var s' := After(s, run);
            && n in s'.futs
            && (s.futs[n] != Open ==> s'.futs[n] == s.futs[n])
            && (s'.futs[n].Replied? ==> s'.futs[n].corrId == IdText(n))
            && forall m :: m in s'.futs && m !in s.futs ==> m != n && IdText(m) != IdText(n)
  {
    ReachableInv(s);
    RunInv(s, run);
    var s' := After(s, run);
    forall m | m in s'.futs && m !in s.futs
      ensures IdText(m) != IdText(n)
    {
      IdTextInjective(m, n);
    }
  }

  /** A reply nobody waits for, late or unknown, completes no future and changes nothing
      but the inbound queue, which it enters only as received one-to-one text items. */
  lemma UnmatchedReply(s: State, corrId: Option<string>, resp: Json)
    requires corrId.Some? ==> corrId.value !in s.pending
    ensures var s' := Step(s, Dispatch(corrId, resp));
            && s' == s.(inbound := s'.inbound)
            && s.inbound <= s'.inbound
            && forall m :: m in s'.inbound[|s.inbound|..] ==> Contains(Entries(UnwrapEvent(resp)), m)
  {
    var added := EventMessages(resp);
    EmittedAreReceivedTexts(Entries(UnwrapEvent(resp)));
    assert (s.inbound + added)[|s.inbound|..] == added;
  }

  /** A reply to a pending command goes to the command that sent its id. */
  lemma MatchedReply(s: State, n: nat, resp: Json)
    requires Reachable(s) && IdText(n) in s.pending
    ensures var s' := Step(s, Dispatch(Some(IdText(n)), resp));
            && n in s.futs && s'.inbound == s.inbound && IdText(n) !in s'.pending
            && (s.futs[n] == Open ==> s'.futs == s.futs[n := Replied(IdText(n), resp)])
            && (s.futs[n] != Open ==> s'.futs == s.futs)
  {
    ReachableInv(s);
    IdTextInjective(s.pending[IdText(n)], n);
  }

  lemma {:induction false} StaysForgotten(s: State, run: seq<Label>, n: nat)
    requires Legal(s, run) && IdText(n) !in s.pending && n <= s.corrId
    ensures IdText(n) !in After(s, run).pending
    decreases |run|
  {
    if run != [] {
      StepForgets(s, run[0], n);
      StaysForgotten(Step(s, run[0]), run[1..], n);
    }
  }

  lemma StepForgets(s: State, l: Label, n: nat)
    requires Enabled(s, l) && IdText(n) !in s.pending && n <= s.corrId
    ensures IdText(n) !in Step(s, l).pending && n <= Step(s, l).corrId
  {
    IdTextInjective(n, s.corrId + 1);
  }

  /** A command given up, after a failed send or a timeout, is forgotten: in every later
      state a reply with its id, however late, completes nothing and is taken for an event. */
  lemma GivenUpIsForgotten(s: State, l: Label, n: nat, run: seq<Label>, resp: Json)
    requires Reachable(s) && Enabled(s, l) && (l == SendFailed(n) || l == DiscardExpired(n))
    requires Legal(Step(s, l), run)
    ensures var t := After(Step(s, l), run);
            && IdText(n) !in t.pending
            && Step(t, Dispatch(Some(IdText(n)), resp)) == Step(t, Dispatch(None, resp))
  {
    ReachableInv(s);
    StepInv(s, l);
    StaysForgotten(Step(s, l), run, n);
  }

  /** The command of a cancelled caller is not: the reply to it is swallowed, and neither
      completes a future nor is taken for an event. */
  lemma CancelledIsSwallowed(s: State, n: nat, resp: Json)
    requires Reachable(s) && Enabled(s, CancelCaller(n)) && s.callers[n] == Awaiting && s.futs[n] == Open
    ensures var t := Step(s, CancelCaller(n));
            var u := Step(t, Dispatch(Some(IdText(n)), resp));
            && t.futs[n] == Cancelled && t.callers[n] == Gone
            && u == t.(pending := t.pending - {IdText(n)})
  {
    ReachableInv(s);
    IdTextInjective(s.pending[IdText(n)], n);
  }

  /** No stranded sender: from the end of a teardown to the next connect nothing is
      pending and every caller still waiting has a completed future; the teardown
      completes every future it finds pending, wherever its sender is. */
  lemma NoStrandedSender(s: State)
    requires Reachable(s)
    ensures !s.ready && !s.tearing ==>
              s.pending == map[]
              && forall n :: n in s.callers && n in s.futs && s.callers[n] != Gone ==> s.futs[n] != Open
    ensures s.tearing ==>
              forall k :: k in s.pending ==>
                s.pending[k] in s.futs && Step(s, FailPending).futs[s.pending[k]] != Open
  {
    ReachableInv(s);
    if s.tearing {
      forall k | k in s.pending
        ensures s.pending[k] in s.futs && Step(s, FailPending).futs[s.pending[k]] != Open
      {
        assert s.pending[k] in s.pending.Values;
      }
    }
  }

  // ---------------------------------------------------------------- the client object

  /** The connection object; each method is the code between two suspension points. */
  class SimplexConnection {
    var ready: bool
    var tearing: bool
    var pending: map<string, nat>
    var futures: map<nat, Future>
    var callers: map<nat, Caller>
    var corrId: nat
    var inbound: seq<Inbound>

    ghost function View(): State
      reads this
    {
      State(ready, tearing, pending, futures, callers, corrId, inbound)
    }

    constructor ()
      ensures View() == Start
    {
      ready, tearing, pending, futures := false, false, map[], map[];
      callers, corrId, inbound := map[], 0, [];
    }

    /** The head of `send_command`: refuse, or take the next id and register a future. */
    method BeginSend() returns (refused: bool)
      modifies this
      ensures refused <==> !old(ready)
      ensures View() == if refused then old(View()) else Step(old(View()), BeginCommand)
    {
      if !ready {
        return true;
      }
      corrId := corrId + 1;
      pending := pending[IdText(corrId) := corrId];
      futures := futures[corrId := Open];
      callers := callers[corrId := Sending];
      return false;
    }

    method OnSendFailed(n: nat)
      requires Enabled(View(), SendFailed(n))
      modifies this
      ensures View() == Step(old(View()), SendFailed(n))
    {
      pending := pending - {IdText(n)};
      callers := callers[n := Gone];
    }

    method OnTimeout(n: nat)
      requires Enabled(View(), TimeOut(n))
      modifies this
      ensures View() == Step(old(View()), TimeOut(n))
    {
      if futures[n] == Open {
        futures := futures[n := Cancelled];
      }
      callers := callers[n := Expired];
    }

    method OnExpired(n: nat)
      requires Enabled(View(), DiscardExpired(n))
      modifies this
      ensures View() == Step(old(View()), DiscardExpired(n))
    {
      pending := pending - {IdText(n)};
      callers := callers[n := Gone];
    }

    /** `_dispatch`. */
    method OnText(id: Option<string>, resp: Json)
      modifies this
      ensures View() == Step(old(View()), Dispatch(id, resp))
    {
      if id.Some? && id.value in pending {
        var n := pending[id.value];
        pending := pending - {id.value};
        if n in futures && futures[n] == Open {
          futures := futures[n := Replied(id.value, resp)];
        }
      } else {
        HandleEvent(resp);
      }
    }

    /** `_handle_event`: the entries of an event are emitted in order, up to one that raises. */
    method HandleEvent(resp: Json)
      modifies this`inbound
      ensures inbound == old(inbound) + EventMessages(resp)
    {
      var entries := Entries(UnwrapEvent(resp));
      var i := 0;
      while i < |entries|
        invariant 0 <= i <= |entries|
        invariant inbound + Emitted(entries[i..]) == old(inbound) + Emitted(entries)
      {
        EmittedFrom(entries, i);
        match Emit(entries[i]) {
          case Nothing =>
          case Forward(message) =>
            inbound := inbound + [message];
          case Raises =>
            return;
        }
        i := i + 1;
      }
    }

    /** The rest of the `finally` block of `_run`, after the session is closed. */
    method FailAllPending()
      requires tearing
      modifies this
      ensures View() == Step(old(View()), FailPending)
    {
      FailFutures(pending.Values);
      pending := map[];
      tearing := false;
    }

    /** The loop of `_fail_pending` over the registered futures. */
    method FailFutures(targets: set<nat>)
      modifies this`futures
      ensures futures == map n | n in old(futures) ::
                if n in targets && old(futures)[n] == Open then Lost else old(futures)[n]
    {
      var left := targets;
      while left != {}
        invariant left <= targets
        invariant futures.Keys == old(futures).Keys
        invariant forall n :: n in futures ==>
          futures[n] == if n in targets - left && old(futures)[n] == Open then Lost else old(futures)[n]
        decreases |left|
      {
        var n :| n in left;
        left := left - {n};
        if n in futures && futures[n] == Open {
          futures := futures[n := Lost];
        }
      }
    }
  }
}
