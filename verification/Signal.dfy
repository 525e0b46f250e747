/** The Signal bridge: the daemon's session loop, the client that matches results to
    senders by FIFO position, and the two FIFO streams of a connection between them. */
module Signal {
  import opened Common

  // ---------------------------------------------------------------- the daemon

  /** A line the daemon reads; commands are numbered in the order they were sent. */
  datatype Line = Blank | Command(cmd: nat) | Garbage

  /** A line the daemon writes.  `Message` is an incoming Signal message; `Note` stands
      for every other event (whoami, ready, queue_empty, error). */
  datatype Event = SendResult(cmd: nat) | Message(id: nat) | Note

  function Commands(lines: seq<Line>): seq<nat> {
    if lines == [] then []
    else (if lines[0].Command? then [lines[0].cmd] else []) + Commands(lines[1..])
  }

  function Results(events: seq<Event>): seq<nat> {
    if events == [] then []
    else (if events[0].SendResult? then [events[0].cmd] else []) + Results(events[1..])
  }

  lemma {:induction false} ResultsAppend(a: seq<Event>, b: seq<Event>)
    ensures Results(a + b) == Results(a) + Results(b)
    decreases |a|
  {
    if a == [] {
      assert a + b == b;
    } else {
      var head := if a[0].SendResult? then [a[0].cmd] else [];
      assert (a + b)[0] == a[0] && (a + b)[1..] == a[1..] + b;
      ResultsAppend(a[1..], b);
      assert Results(a + b) == head + Results(a[1..] + b);
    }
  }

  lemma {:induction false} CommandsAppend(a: seq<Line>, b: seq<Line>)
    ensures Commands(a + b) == Commands(a) + Commands(b)
    decreases |a|
  {
    if a == [] {
      assert a + b == b;
    } else {
      var head := if a[0].Command? then [a[0].cmd] else [];
      assert (a + b)[0] == a[0] && (a + b)[1..] == a[1..] + b;
      CommandsAppend(a[1..], b);
      assert Commands(a + b) == head + Commands(a[1..] + b);
    }
  }

  function MessageOf(event: Event): seq<nat> {
    if event.Message? then [event.id] else []
  }

  function Messages(events: seq<Event>): seq<nat> {
    if events == [] then [] else MessageOf(events[0]) + Messages(events[1..])
  }

  lemma {:induction false} MessagesAppend(a: seq<Event>, b: seq<Event>)
    ensures Messages(a + b) == Messages(a) + Messages(b)
    decreases |a|
  {
    if a == [] {
      assert a + b == b;
    } else {
      assert (a + b)[0] == a[0] && (a + b)[1..] == a[1..] + b;
      MessagesAppend(a[1..], b);
      assert Messages(a + b) == MessageOf(a[0]) + Messages(a[1..] + b);
    }
  }

  lemma MessagesPush(events: seq<Event>, event: Event)
    ensures Messages(events + [event]) == Messages(events) + MessageOf(event)
  {
    MessagesAppend(events, [event]);
    assert [event][1..] == [];
  }

  function Flatten(pushed: seq<seq<Event>>): seq<Event> {
    if pushed == [] then [] else Flatten(pushed[..|pushed| - 1]) + pushed[|pushed| - 1]
  }

  lemma ResultsOfPushes(events: seq<Event>)
    requires forall i :: 0 <= i < |events| ==> !events[i].SendResult?
    ensures Results(events) == []
  {
  }

  /** One session.  `pushed[i]` are the events the receive task writes to the shared sink
      before line `i` is handled.  However the two are interleaved, every valid command
      gets one result, in the order of the commands, and every message pushed is there,
      in the order they came. */
  method Session(lines: seq<Line>, pushed: seq<seq<Event>>) returns (sink: seq<Event>)
    requires |pushed| == |lines|
    requires forall i, j :: 0 <= i < |pushed| && 0 <= j < |pushed[i]| ==> !pushed[i][j].SendResult?
    ensures Results(sink) == Commands(lines)
    ensures Messages(sink) == Messages(Flatten(pushed))
  {
    sink := [Note, Note];
    assert Results(sink) == [] by { ResultsOfPushes(sink); }
    assert sink[1..] == [Note] && [Note][1..] == [];
    for i := 0 to |lines|
      invariant Results(sink) == Commands(lines[..i])
      invariant Messages(sink) == Messages(Flatten(pushed[..i]))
    {
      ResultsAppend(sink, pushed[i]);
      ResultsOfPushes(pushed[i]);
      FlattenOne(pushed, i, sink);
      sink := sink + pushed[i];
      var answer := HandleCommand(lines[i]);
      ResultsAppend(sink, answer);
      MessagesAppend(sink, answer);
      sink := sink + answer;
      assert lines[..i + 1] == lines[..i] + [lines[i]];
      CommandsAppend(lines[..i], [lines[i]]);
      assert [lines[i]][1..] == [];
    }
    assert lines[..|lines|] == lines && pushed[..|lines|] == pushed;
  }

  lemma FlattenOne(pushed: seq<seq<Event>>, i: nat, sink: seq<Event>)
    requires i < |pushed| && Messages(sink) == Messages(Flatten(pushed[..i]))
    ensures Messages(sink + pushed[i]) == Messages(Flatten(pushed[..i + 1]))
  {
    MessagesAppend(sink, pushed[i]);
    MessagesAppend(Flatten(pushed[..i]), pushed[i]);
    assert pushed[..i + 1][..i] == pushed[..i];
  }

  /** A blank line is skipped, an undecodable one draws an error event. */
  function HandleCommand(line: Line): (answer: seq<Event>)
    ensures Results(answer) == Commands([line]) && Messages(answer) == []
    ensures answer == [] <==> line == Blank
  {
    match line
    case Blank => []
    case Command(cmd) => [SendResult(cmd)]
    case Garbage => [Note]
  }

  // ---------------------------------------------------------------- the client

  /** A future of a send.  `Answered(of, discards)`: completed with the result of command
      `of`, when `discards` futures had been discarded on the connection. */
  datatype Future = Open | Answered(of: nat, discards: nat) | Lost | Cancelled

  /** `Writing`: awaiting the writer.  `Waiting`: awaiting the future.  `Expired`: the wait
      has timed out, and the send has not been resumed to discard its future. */
  datatype Stage = Idle | Writing | Waiting | Expired

  /** `futs` are all futures created so far, numbered like their commands.  `holder` is
      the send that holds the lock, `stage` where that send is.  `discards`
      counts the futures removed from `pending` by their own send on this connection. */
  datatype Client = Client(
    connected: bool,
    pending: seq<nat>,
    futs: map<nat, Future>,
    holder: Option<nat>,
    stage: Stage,
    next: nat,
    discards: nat,
    inbound: seq<nat>)

  const NewClient := Client(false, [], map[], None, Idle, 0, 0, [])

  datatype Act =
    | Connect
    | BeginSend
    | Drained
    | DrainFailed
    | Finish
    | TimeOut
    | DiscardExpired
    | CancelCaller
    | Handle(event: Event)
    | Teardown

  predicate ClientEnabled(c: Client, a: Act) {
    match a
    case Connect => !c.connected
    case BeginSend => c.connected && c.holder == None
    case Drained => c.holder.Some? && c.stage == Writing
    case DrainFailed => c.holder.Some? && c.stage == Writing
    case Finish => c.holder.Some? && c.stage == Waiting && Status(c, c.holder.value) != Open
    case TimeOut => c.holder.Some? && c.stage == Waiting
    case DiscardExpired => c.holder.Some? && c.stage == Expired
    case CancelCaller => c.holder.Some?
    case Handle(_) => c.connected
    case Teardown => c.connected
  }

  function Status(c: Client, f: nat): Future {
    if f in c.futs then c.futs[f] else Cancelled
  }

  /** `deque.remove`: without the first occurrence, unchanged if there is none. */
  function Without(s: seq<nat>, x: nat): (r: seq<nat>)
    ensures x !in s ==> r == s
    ensures x in s ==> |r| == |s| - 1
  {
    if s == [] then [] else if s[0] == x then s[1..] else [s[0]] + Without(s[1..], x)
  }

  function Discard(c: Client, f: nat): Client {
    c.(pending := Without(c.pending, f),
       discards := if f in c.pending then c.discards + 1 else c.discards)
  }

  function CancelFuture(c: Client, f: nat): Client {
    c.(futs := if Status(c, f) == Open then c.futs[f := Cancelled] else c.futs)
  }

  /** `_resolve_pending`: the oldest pending future takes the result. */
  function Resolve(c: Client, cmd: nat): Client {
    if c.pending == [] then c
    else
      var f := c.pending[0];
      c.(pending := c.pending[1..],
         futs := if Status(c, f) == Open then c.futs[f := Answered(cmd, c.discards)] else c.futs)
  }

  /** `_fail_pending`: every pending future that is not done fails. */
  function FailAll(c: Client): Client {
    c.(pending := [],
       futs := map f | f in c.futs ::
         if f in c.pending && c.futs[f] == Open then Lost else c.futs[f])
  }

  function ClientStep(c: Client, a: Act): Client
    requires ClientEnabled(c, a)
  {
    match a
    case Connect => c.(connected := true, discards := 0)
    case BeginSend =>
      c.(pending := c.pending + [c.next], futs := c.futs[c.next := Open],
         holder := Some(c.next), stage := Writing, next := c.next + 1)
    case Drained => c.(stage := Waiting)
    case DrainFailed => Discard(c, c.holder.value).(holder := None, stage := Idle)
    case Finish => c.(holder := None, stage := Idle)
    case TimeOut => CancelFuture(c, c.holder.value).(stage := Expired)
    case DiscardExpired => Discard(c, c.holder.value).(holder := None, stage := Idle)
    case CancelCaller =>
      (if c.stage == Writing then c else CancelFuture(c, c.holder.value)).(holder := None, stage := Idle)
    case Handle(event) =>
      (match event
       case SendResult(cmd) => Resolve(c, cmd)
       case Message(id) => c.(inbound := c.inbound + [id])
       case Note => c)
    case Teardown => FailAll(c).(connected := false)
  }

  // ---------------------------------------------------------------- client and daemon

  /** The client and the two streams of its current connection. */
  datatype State = State(client: Client, toServer: seq<nat>, toClient: seq<Event>)

  const Start := State(NewClient, [], [])

  /** `Client(a)`: a client step other than handling a line.  `Serve`: the daemon answers
      its next command.  `Push`: its receive task writes an event.  `Receive`: the client
      handles the next line. */
  datatype Label = Local(a: Act) | Serve | Push(event: Event) | Receive

  predicate Enabled(s: State, l: Label) {
    match l
    case Local(a) => !a.Handle? && ClientEnabled(s.client, a)
    case Serve => s.toServer != []
    case Push(event) => s.client.connected && !event.SendResult?
    case Receive => s.client.connected && s.toClient != []
  }

  function Step(s: State, l: Label): State
    requires Enabled(s, l)
  {
    match l
    case Local(Connect) => State(ClientStep(s.client, Connect), [], [])
    case Local(BeginSend) =>
      s.(client := ClientStep(s.client, BeginSend), toServer := s.toServer + [s.client.next])
    case Local(Teardown) => State(ClientStep(s.client, Teardown), [], [])
    case Local(a) => s.(client := ClientStep(s.client, a))
    case Serve => s.(toServer := s.toServer[1..], toClient := s.toClient + [SendResult(s.toServer[0])])
    case Push(event) => s.(toClient := s.toClient + [event])
    case Receive =>
      s.(client := ClientStep(s.client, Handle(s.toClient[0])), toClient := s.toClient[1..])
  }

  /** Commands sent on this connection whose result the client has not handled, oldest first. */
  ghost function Unanswered(s: State): seq<nat> {
    Results(s.toClient) + s.toServer
  }

  /** Discarded sends whose results are still to come. */
  ghost function Backlog(s: State): int {
    |Unanswered(s)| - |s.client.pending|
  }

  ghost predicate Increasing(s: seq<nat>) {
    forall i, j :: 0 <= i < j < |s| ==> s[i] < s[j]
  }

  /** The unanswered commands are the latest ones, the pending futures some of them in
      order, and no more are missing than were discarded. */
  ghost predicate Aligned(u: seq<nat>, pending: seq<nat>, next: nat, discards: nat) {
    && UpTo(u, next)
    && Increasing(pending)
    && (forall i :: 0 <= i < |pending| ==> next - |u| <= pending[i] < next)
    && |u| <= |pending| + discards
  }

  /** The `|u|` numbers before `next`, in order. */
  ghost predicate UpTo(u: seq<nat>, next: nat)
    decreases |u|
  {
    u == [] || (u[0] == next - |u| && UpTo(u[1..], next))
  }

  ghost predicate Streams(s: State) {
    && Aligned(Unanswered(s), s.client.pending, s.client.next, s.client.discards)
    && (!s.client.connected ==> Unanswered(s) == [])
  }

  /** The lock holder is the latest send; while its future is open it is pending. */
  ghost predicate Lock(c: Client) {
    && (forall f :: f in c.futs ==> f < c.next)
    && (forall i :: 0 <= i < |c.pending| ==> c.pending[i] in c.futs)
    && (c.holder.Some? ==>
          && c.holder.value == c.next - 1 && c.holder.value in c.futs
          && (c.futs[c.holder.value] == Open ==> c.holder.value in c.pending))
    && (c.holder == None <==> c.stage == Idle)
    && (c.holder.Some? && c.stage == Expired ==> c.futs[c.holder.value] != Open)
  }

  /** A result never belongs to a later command, nor to one further back than the number
      of futures discarded by then. */
  ghost predicate Lag(c: Client) {
    forall f :: f in c.futs && c.futs[f].Answered? ==>
      c.futs[f].of <= f <= c.futs[f].of + c.futs[f].discards
  }

  ghost predicate Inv(s: State) {
    Streams(s) && Lock(s.client) && Lag(s.client)
  }

  // ---------------------------------------------------------------- one step

  lemma {:induction false} WithoutIncreasing(s: seq<nat>, x: nat)
    requires Increasing(s)
    ensures Increasing(Without(s, x))
    decreases |s|
  {
    if s != [] {
      var tail := s[1..];
      WithoutIncreasing(tail, x);
      WithoutMembers(tail, x);
      if s[0] != x {
        assert forall y :: y in tail ==> s[0] < y;
        PrependIncreasing(s[0], Without(tail, x));
      }
    }
  }

  lemma PrependIncreasing(a: nat, r: seq<nat>)
    requires Increasing(r) && forall y :: y in r ==> a < y
    ensures Increasing([a] + r)
  {
    var s := [a] + r;
    forall i, j | 0 <= i < j < |s|
      ensures s[i] < s[j]
    {
      assert r[j - 1] in r;
    }
  }

  lemma {:induction false} WithoutMembers(s: seq<nat>, x: nat)
    ensures forall y :: y in Without(s, x) ==> y in s
    decreases |s|
  {
    if s != [] {
      assert s == [s[0]] + s[1..];
      WithoutMembers(s[1..], x);
    }
  }

  lemma {:induction false} WithoutAt(s: seq<nat>, i: nat, x: nat)
    requires i < |s| && s[i] == x && x !in s[..i]
    ensures Without(s, x) == s[..i] + s[i + 1..]
    decreases i
  {
    if i > 0 {
      assert s[0] == s[..i][0];
      assert s[1..][..i - 1] == s[..i][1..];
      WithoutAt(s[1..], i - 1, x);
      assert s[1..][i..] == s[i + 1..];
      assert s[..i] == [s[0]] + s[1..][..i - 1];
    }
  }

  /** Where the oldest pending future stands among the unanswered commands. */
  lemma OldestPending(u: seq<nat>, p: seq<nat>, next: nat, discards: nat)
    requires Aligned(u, p, next, discards) && p != []
    ensures u != [] && u[0] <= p[0] <= u[0] + (|u| - |p|)
  {
    IncreasingSpread(p);
  }

  /** A result consumed and the oldest future popped, or nobody to pop. */
  lemma PopAligned(u: seq<nat>, p: seq<nat>, next: nat, discards: nat)
    requires Aligned(u, p, next, discards) && u != []
    ensures Aligned(u[1..], if p == [] then p else p[1..], next, discards)
  {
    if p != [] {
      var q := p[1..];
      forall i | 0 <= i < |q|
        ensures next - |u[1..]| <= q[i] < next
      {
        assert p[0] < p[i + 1] == q[i];
      }
    }
  }

  /** A new command and its future at the end of both. */
  lemma PushAligned(u: seq<nat>, p: seq<nat>, next: nat, discards: nat)
    requires Aligned(u, p, next, discards)
    ensures Aligned(u + [next], p + [next], next + 1, discards)
  {
    UpToPush(u, next);
  }

  lemma {:induction false} UpToPush(u: seq<nat>, next: nat)
    requires UpTo(u, next)
    ensures UpTo(u + [next], next + 1)
    decreases |u|
  {
    if u == [] {
      assert ([next])[1..] == [];
    } else {
      UpToPush(u[1..], next);
      assert (u + [next])[1..] == u[1..] + [next];
    }
  }

  lemma {:induction false} UpToAt(u: seq<nat>, next: nat, i: nat)
    requires UpTo(u, next) && i < |u|
    ensures u[i] == next - |u| + i
    decreases |u|
  {
    if i > 0 {
      UpToAt(u[1..], next, i - 1);
    }
  }

  /** Some future discarded, and counted if it was pending. */
  lemma DropAligned(u: seq<nat>, p: seq<nat>, next: nat, discards: nat, x: nat)
    requires Aligned(u, p, next, discards)
    ensures Aligned(u, Without(p, x), next, if x in p then discards + 1 else discards)
  {
    WithoutIncreasing(p, x);
    WithoutMembers(p, x);
    var q := Without(p, x);
    forall i | 0 <= i < |q|
      ensures next - |u| <= q[i] < next
    {
      assert q[i] in q;
    }
  }

  lemma {:induction false} IncreasingSpread(s: seq<nat>)
    requires Increasing(s) && s != []
    ensures s[|s| - 1] >= s[0] + |s| - 1
    decreases |s|
  {
    if |s| > 1 {
      IncreasingSpread(s[..|s| - 1]);
    }
  }

  lemma ReceivePops(s: State)
    requires Enabled(s, Receive) && s.toClient[0].SendResult?
    ensures Unanswered(s) != [] && Unanswered(Step(s, Receive)) == Unanswered(s)[1..]
  {
    var rest := s.toClient[1..];
    assert Step(s, Receive).toClient == rest && Step(s, Receive).toServer == s.toServer;
    assert Results(s.toClient) == [s.toClient[0].cmd] + Results(rest);
    assert Unanswered(s) == [s.toClient[0].cmd] + (Results(rest) + s.toServer);
  }

  lemma ReceiveStreams(s: State)
    requires Streams(s) && Enabled(s, Receive) && s.toClient[0].SendResult?
    ensures Streams(Step(s, Receive))
  {
    ReceivePops(s);
    PopAligned(Unanswered(s), s.client.pending, s.client.next, s.client.discards);
  }

  lemma ReceiveLag(s: State)
    requires Streams(s) && Lock(s.client) && Lag(s.client)
    requires Enabled(s, Receive) && s.toClient[0].SendResult?
    ensures Lag(Step(s, Receive).client)
    ensures Lock(Step(s, Receive).client)
  {
    var c, c' := s.client, Step(s, Receive).client;
    if c.pending != [] {
      OldestPending(Unanswered(s), c.pending, c.next, c.discards);
      assert Unanswered(s)[0] == s.toClient[0].cmd;
      assert c.pending == [c.pending[0]] + c'.pending;
      assert c'.futs.Keys == c.futs.Keys;
    }
  }

  lemma DiscardingLock(c: Client, a: Act)
    requires Lock(c) && Lag(c) && ClientEnabled(c, a) && (a == DiscardExpired || a == DrainFailed)
    ensures Lock(ClientStep(c, a)) && Lag(ClientStep(c, a))
  {
    var c' := ClientStep(c, a);
    WithoutMembers(c.pending, c.holder.value);
    assert c'.futs.Keys == c.futs.Keys;
    forall i | 0 <= i < |c'.pending|
      ensures c'.pending[i] in c'.futs
    {
      assert c'.pending[i] in c.pending;
    }
  }

  lemma ServeKeeps(s: State)
    requires Enabled(s, Serve)
    ensures Unanswered(Step(s, Serve)) == Unanswered(s)
  {
    ResultsAppend(s.toClient, [SendResult(s.toServer[0])]);
    assert [SendResult(s.toServer[0])][1..] == [];
    assert s.toServer == [s.toServer[0]] + s.toServer[1..];
  }

  lemma PushKeeps(s: State, event: Event)
    requires Enabled(s, Push(event))
    ensures Unanswered(Step(s, Push(event))) == Unanswered(s)
  {
    ResultsAppend(s.toClient, [event]);
    ResultsOfPushes([event]);
  }

  lemma ReceiveOther(s: State)
    requires Inv(s) && Enabled(s, Receive) && !s.toClient[0].SendResult?
    ensures Inv(Step(s, Receive))
  {
    assert Unanswered(Step(s, Receive)) == Unanswered(s);
  }

  lemma StepInv(s: State, l: Label)
    requires Inv(s) && Enabled(s, l)
    ensures Inv(Step(s, l))
  {
    match l
    case Serve => ServeKeeps(s);
    case Push(event) => PushKeeps(s, event);
    case Receive =>
      if s.toClient[0].SendResult? {
        ReceiveStreams(s);
        ReceiveLag(s);
      } else {
        ReceiveOther(s);
      }
    case Local(a) => LocalInv(s, a);
  }

  lemma LocalInv(s: State, a: Act)
    requires Inv(s) && Enabled(s, Local(a))
    ensures Inv(Step(s, Local(a)))
  {
    var c := s.client;
    if a == DiscardExpired || a == DrainFailed {
      DiscardStreams(s, a);
      DiscardingLock(c, a);
    } else if a == BeginSend {
      BeginStreams(s);
      BeginLock(s);
    } else if a == Connect || a == Teardown {
      ConnectionInv(s, a);
    }
  }

  lemma DiscardStreams(s: State, a: Act)
    requires Streams(s) && Enabled(s, Local(a)) && (a == DiscardExpired || a == DrainFailed)
    ensures Streams(Step(s, Local(a)))
  {
    var c := s.client;
    DiscardFields(c, a);
    DropAligned(Unanswered(s), c.pending, c.next, c.discards, c.holder.value);
    assert Unanswered(Step(s, Local(a))) == Unanswered(s);
  }

  lemma DiscardFields(c: Client, a: Act)
    requires ClientEnabled(c, a) && (a == DiscardExpired || a == DrainFailed)
    ensures var c', x := ClientStep(c, a), c.holder.value;
            && c'.pending == Without(c.pending, x) && c'.next == c.next && c'.connected == c.connected
            && c'.discards == if x in c.pending then c.discards + 1 else c.discards
  {
  }

  lemma BeginStreams(s: State)
    requires Inv(s) && Enabled(s, Local(BeginSend))
    ensures Streams(Step(s, Local(BeginSend)))
  {
    PushAligned(Unanswered(s), s.client.pending, s.client.next, s.client.discards);
    assert Unanswered(Step(s, Local(BeginSend))) == Unanswered(s) + [s.client.next];
  }

  lemma ConnectionInv(s: State, a: Act)
    requires Inv(s) && Enabled(s, Local(a)) && (a == Connect || a == Teardown)
    ensures Inv(Step(s, Local(a)))
  {
    assert Unanswered(Step(s, Local(a))) == [];
    if a == Connect {
      NothingPendingOffline(s);
    } else {
      FailAllLock(s.client);
    }
  }

  lemma FailAllLock(c: Client)
    requires Lock(c) && Lag(c)
    ensures Lock(FailAll(c)) && Lag(FailAll(c)) && FailAll(c).pending == []
  {
    assert FailAll(c).futs.Keys == c.futs.Keys;
  }

  lemma NothingPendingOffline(s: State)
    requires Inv(s) && !s.client.connected
    ensures s.client.pending == []
  {
    PendingFits(Unanswered(s), s.client.pending, s.client.next, s.client.discards);
  }

  lemma PendingFits(u: seq<nat>, p: seq<nat>, next: nat, discards: nat)
    requires Aligned(u, p, next, discards)
    ensures |p| <= |u|
  {
    if p != [] {
      OldestPending(u, p, next, discards);
    }
  }

  lemma BeginLock(s: State)
    requires Inv(s) && Enabled(s, Local(BeginSend))
    ensures Lock(Step(s, Local(BeginSend)).client) && Lag(Step(s, Local(BeginSend)).client)
  {
    var c, c' := s.client, Step(s, Local(BeginSend)).client;
    assert c'.futs.Keys == c.futs.Keys + {c.next};
    assert c'.pending[|c.pending|] == c.next;
  }

  // ---------------------------------------------------------------- whole runs

  ghost predicate Legal(s: State, run: seq<Label>)
    decreases |run|
  {
    run == [] || (Enabled(s, run[0]) && Legal(Step(s, run[0]), run[1..]))
  }

  ghost function After(s: State, run: seq<Label>): State
    requires Legal(s, run)
    decreases |run|
  {
    if run == [] then s else After(Step(s, run[0]), run[1..])
  }

  lemma {:induction false} RunInv(s: State, run: seq<Label>)
    requires Inv(s) && Legal(s, run)
    ensures Inv(After(s, run))
    decreases |run|
  {
    if run != [] {
      StepInv(s, run[0]);
      RunInv(Step(s, run[0]), run[1..]);
    }
  }

  ghost predicate Reachable(s: State) {
    exists run :: Legal(Start, run) && s == After(Start, run)
  }

  lemma StartInv()
    ensures Inv(Start)
  {
    assert Unanswered(Start) == [];
  }

  lemma ReachableInv(s: State)
    requires Reachable(s)
    ensures Inv(s)
  {
    var run :| Legal(Start, run) && s == After(Start, run);
    StartInv();
    RunInv(Start, run);
  }

  /** Bounded lag: in every reachable state the pending futures are a subsequence of the
      unanswered commands, the difference is at most the sends discarded on this
      connection, and no future ever took the result of a later command or of one more
      than that number of positions earlier. */
  lemma BoundedLag(s: State)
    requires Reachable(s)
    ensures forall i :: 0 <= i < |s.client.pending| ==> s.client.pending[i] in Unanswered(s)
    ensures Increasing(s.client.pending) && Increasing(Unanswered(s))
    ensures Backlog(s) <= s.client.discards
    ensures forall f :: f in s.client.futs && s.client.futs[f].Answered? ==>
              s.client.futs[f].of <= f <= s.client.futs[f].of + s.client.futs[f].discards
  {
    ReachableInv(s);
    var u, p, next := Unanswered(s), s.client.pending, s.client.next;
    forall i | 0 <= i < |u|
      ensures u[i] == next - |u| + i
    {
      UpToAt(u, next, i);
    }
    forall i | 0 <= i < |p|
      ensures p[i] in u
    {
      assert u[p[i] - (next - |u|)] == p[i];
    }
  }

  /** The next line is a result and the live sender's future is the one that takes it. */
  ghost predicate AboutToAnswer(s: State) {
    && Enabled(s, Receive) && s.toClient[0].SendResult?
    && s.client.holder.Some? && s.client.pending != []
    && s.client.pending[0] == s.client.holder.value
    && Status(s.client, s.client.pending[0]) == Open
  }

  /** The result about to be handed to a live sender is that of the command exactly
      `Backlog` positions before its own. */
  lemma ExactLag(s: State)
    requires Reachable(s) && AboutToAnswer(s)
    ensures 0 <= Backlog(s) <= s.client.discards
    ensures s.toClient[0].cmd == s.client.holder.value - Backlog(s)
    ensures Status(Step(s, Receive).client, s.client.holder.value)
              == Answered(s.client.holder.value - Backlog(s), s.client.discards)
  {
    ReachableInv(s);
    var p := s.client.pending;
    OldestPending(Unanswered(s), p, s.client.next, s.client.discards);
    IncreasingSpread(p);
    assert p[|p| - 1] < s.client.next;
    assert |p| == 1;
    assert Unanswered(s)[0] == s.toClient[0].cmd;
  }

  ghost predicate HandsOwnResult(s: State)
    requires AboutToAnswer(s)
  {
    var f := Status(Step(s, Receive).client, s.client.holder.value);
    f.Answered? && f.of == s.client.holder.value
  }

  /** No send of the run discarded its future, after a timeout or a failed drain. */
  ghost predicate NoDiscards(run: seq<Label>) {
    forall i :: 0 <= i < |run| ==> run[i] != Local(DiscardExpired) && run[i] != Local(DrainFailed)
  }

  /** Without timeouts every future that is answered is answered with its own result,
      whatever callers are cancelled and however often the connection is rebuilt. */
  lemma NoTimeoutsOwnResults(run: seq<Label>)
    requires Legal(Start, run) && NoDiscards(run)
    ensures forall f :: f in After(Start, run).client.futs && After(Start, run).client.futs[f].Answered? ==>
              After(Start, run).client.futs[f].of == f
  {
    RunInv(Start, run);
    RunNoDiscards(Start, run);
  }

  lemma {:induction false} RunNoDiscards(s: State, run: seq<Label>)
    requires Legal(s, run) && NoDiscards(run)
    requires s.client.discards == 0 && NoneDiscarded(s.client)
    ensures NoneDiscarded(After(s, run).client)
    decreases |run|
  {
    if run != [] {
      assert run[0] != Local(DiscardExpired) && run[0] != Local(DrainFailed);
      RunNoDiscards(Step(s, run[0]), run[1..]);
    }
  }

  ghost predicate NoneDiscarded(c: Client) {
    forall f :: f in c.futs && c.futs[f].Answered? ==> c.futs[f].discards == 0
  }

  lemma {:induction false} Extend(s: State, run: seq<Label>, l: Label)
    requires Legal(s, run) && Enabled(After(s, run), l)
    ensures Legal(s, run + [l]) && After(s, run + [l]) == Step(After(s, run), l)
    decreases |run|
  {
    if run == [] {
      assert run + [l] == [l];
      assert [l][1..] == [];
      assert Legal(Step(s, l), []);
    } else {
      assert (run + [l])[1..] == run[1..] + [l];
      Extend(Step(s, run[0]), run[1..], l);
    }
  }

  lemma StepReachable(s: State, l: Label)
    requires Reachable(s) && Enabled(s, l)
    ensures Reachable(Step(s, l))
  {
    var run :| Legal(Start, run) && s == After(Start, run);
    Extend(Start, run, l);
  }

  /** The run that shows the shift: send 0 times out, and send 1 is handed its result. */
  lemma TimeoutShiftsResults()
    ensures exists s :: Reachable(s) && AboutToAnswer(s) && !HandsOwnResult(s)
  {
    assert Legal(Start, []) && After(Start, []) == Start;
    var s := Step(Start, Local(Connect));
    StepReachable(Start, Local(Connect));
    s := SendAndDrain(s);
    StepReachable(s, Local(TimeOut));
    s := Step(s, Local(TimeOut));
    StepReachable(s, Local(DiscardExpired));
    s := Step(s, Local(DiscardExpired));
    assert s.client.pending == [];
    s := SendAndDrain(s);
    StepReachable(s, Serve);
    s := Step(s, Serve);
    assert s.toClient == [SendResult(0)];
    assert AboutToAnswer(s);
    assert Results(s.toClient) == [0];
    ExactLag(s);
  }

  lemma SendAndDrain(s: State) returns (t: State)
    requires Reachable(s) && s.client.connected && s.client.holder == None
    ensures Reachable(t) && t.client.connected
    ensures t.client.pending == s.client.pending + [s.client.next]
    ensures t.client.holder == Some(s.client.next) && t.client.stage == Waiting
    ensures t.client.futs == s.client.futs[s.client.next := Open]
    ensures t.client.next == s.client.next + 1
    ensures t.toServer == s.toServer + [s.client.next] && t.toClient == s.toClient
  {
    StepReachable(s, Local(BeginSend));
    t := Step(s, Local(BeginSend));
    StepReachable(t, Local(Drained));
    t := Step(t, Local(Drained));
  }

  // ---------------------------------------------------------------- no stranded sender

  /** Once a teardown has completed, and until the next connect, nothing is pending and
      the future the lock holder waits for is done; the teardown itself leaves no future
      it found pending undone. */
  lemma NoStrandedSender(s: State)
    requires Reachable(s)
    ensures !s.client.connected ==>
              s.client.pending == []
              && (s.client.holder.Some? ==> Status(s.client, s.client.holder.value) != Open)
    ensures s.client.connected ==>
              forall i :: 0 <= i < |s.client.pending| ==>
                Status(ClientStep(s.client, Teardown), s.client.pending[i]) != Open
  {
    ReachableInv(s);
    if !s.client.connected {
      NothingPendingOffline(s);
    }
  }

  // ---------------------------------------------------------------- the client object

  /** The connection object; each method is the code between two suspension points. */
  class SignalBridgeConnection {
    var connected: bool
    var pending: seq<nat>
    var futures: map<nat, Future>
    var lockHolder: Option<nat>
    var stage: Stage
    var next: nat
    var inbound: seq<nat>
    var discards: nat // bookkeeping for the statements above, not read by the code

    ghost function View(): Client
      reads this
    {
      Client(connected, pending, futures, lockHolder, stage, next, discards, inbound)
    }

    constructor ()
      ensures View() == NewClient
    {
      connected, pending, futures, lockHolder := false, [], map[], None;
      stage, next, inbound, discards := Idle, 0, [], 0;
    }

    /** The head of `send` under the lock: refuse, or register a future and write. */
    method BeginSend() returns (refused: bool)
      requires lockHolder == None
      modifies this
      ensures refused <==> !old(connected)
      ensures View() == if refused then old(View()) else ClientStep(old(View()), Act.BeginSend)
    {
      if !connected {
        return true;
      }
      pending := pending + [next];
      futures := futures[next := Open];
      lockHolder := Some(next);
      stage := Writing;
      next := next + 1;
      return false;
    }

    /** `_discard_pending`: look for the future and take it out. */
    method DiscardPending(f: nat)
      modifies this`pending, this`discards
      ensures View() == Discard(old(View()), f)
    {
      if f in pending {
        discards := discards + 1;
      }
      var i := 0;
      while i < |pending| && pending[i] != f
        invariant 0 <= i <= |pending| && pending == old(pending)
        invariant f !in pending[..i]
      {
        i := i + 1;
      }
      if i < |pending| {
        WithoutAt(pending, i, f);
        pending := pending[..i] + pending[i + 1..];
      } else {
        assert pending[..i] == pending;
      }
    }

    /** The drain raised: discard the future and report a transient failure. */
    method OnDrainFailed()
      requires ClientEnabled(View(), DrainFailed)
      modifies this
      ensures View() == ClientStep(old(View()), DrainFailed)
    {
      DiscardPending(lockHolder.value);
      lockHolder := None;
      stage := Idle;
    }

    /** `wait_for` times out: it cancels the future and resumes the send a loop turn later. */
    method OnTimeout()
      requires ClientEnabled(View(), TimeOut)
      modifies this
      ensures View() == ClientStep(old(View()), TimeOut)
    {
      if lockHolder.value in futures && futures[lockHolder.value] == Open {
        futures := futures[lockHolder.value := Cancelled];
      }
      stage := Expired;
    }

    /** The send that timed out is resumed and takes its future out, if it is still there. */
    method OnExpired()
      requires ClientEnabled(View(), DiscardExpired)
      modifies this
      ensures View() == ClientStep(old(View()), DiscardExpired)
    {
      DiscardPending(lockHolder.value);
      lockHolder := None;
      stage := Idle;
    }

    /** The caller of `send` is cancelled; its entry stays behind in `pending`. */
    method OnCallerCancelled()
      requires ClientEnabled(View(), CancelCaller)
      modifies this
      ensures View() == ClientStep(old(View()), CancelCaller)
    {
      if stage != Writing && lockHolder.value in futures && futures[lockHolder.value] == Open {
        futures := futures[lockHolder.value := Cancelled];
      }
      lockHolder := None;
      stage := Idle;
    }

    /** `_handle_event`. */
    method HandleEvent(event: Event)
      requires connected
      modifies this
      ensures View() == ClientStep(old(View()), Handle(event))
    {
      match event
      case Message(id) => inbound := inbound + [id];
      case SendResult(cmd) =>
        if pending != [] {
          var f := pending[0];
          pending := pending[1..];
          if f in futures && futures[f] == Open {
            futures := futures[f := Answered(cmd, discards)];
          }
        }
      case Note =>
    }

    /** The `finally` block of `_run`: disconnect, then fail the pending futures one by one. */
    method OnConnectionLost()
      requires connected
      modifies this
      ensures View() == ClientStep(old(View()), Teardown)
    {
      connected := false;
      FailPending();
    }

    method FailPending()
      modifies this`pending, this`futures
      ensures View() == FailAll(old(View()))
    {
      ghost var failed: set<nat> := {};
      while pending != []
        invariant forall f :: f in old(pending) <==> f in failed || f in pending
        invariant futures.Keys == old(futures).Keys
        invariant forall f :: f in futures ==>
          futures[f] == if f in failed && old(futures)[f] == Open then Lost else old(futures)[f]
        decreases |pending|
      {
        var f := pending[0];
        assert pending == [f] + pending[1..];
        failed := failed + {f};
        pending := pending[1..];
        if f in futures && futures[f] == Open {
          futures := futures[f := Lost];
        }
      }
    }
  }
}
