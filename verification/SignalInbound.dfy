/** What becomes of the messages the Signal daemon pushes, and of the send lock. */
module SignalInbound {
  import opened Common
  import opened Signal

  /** The messages among the lines a run received, in order. */
  ghost function Received(s: State, run: seq<Label>): seq<nat>
    requires Legal(s, run)
    decreases |run|
  {
    if run == [] then []
    else (if run[0].Receive? then MessageOf(s.toClient[0]) else []) + Received(Step(s, run[0]), run[1..])
  }

  /** The messages among the events the daemon pushed in a run, in order. */
  ghost function Pushed(run: seq<Label>): seq<nat>
    decreases |run|
  {
    if run == [] then [] else PushedBy(run[0]) + Pushed(run[1..])
  }

  ghost function PushedBy(l: Label): seq<nat> {
    if l.Push? then MessageOf(l.event) else []
  }

  /** Every incoming message reaches the consumer: over any run, connects and teardowns
      included, the inbound queue gains exactly the messages received, in order. */
  lemma {:induction false} ReceivedIsInbound(s: State, run: seq<Label>)
    requires Legal(s, run)
    ensures After(s, run).client.inbound == s.client.inbound + Received(s, run)
    decreases |run|
  {
    if run != [] {
      var now := if run[0].Receive? then MessageOf(s.toClient[0]) else [];
      assert Step(s, run[0]).client.inbound == s.client.inbound + now;
      ReceivedIsInbound(Step(s, run[0]), run[1..]);
      assert Received(s, run) == now + Received(Step(s, run[0]), run[1..]);
    }
  }

  ghost predicate KeepsConnection(run: seq<Label>) {
    forall i :: 0 <= i < |run| ==> run[i] != Local(Connect) && run[i] != Local(Teardown)
  }

  /** The messages that have arrived or are on their way. */
  ghost function Flow(s: State): seq<nat> {
    s.client.inbound + Messages(s.toClient)
  }

  lemma StepDelivers(s: State, l: Label)
    requires Enabled(s, l) && l != Local(Connect) && l != Local(Teardown)
    ensures Flow(Step(s, l)) == Flow(s) + PushedBy(l)
  {
    match l
    case Receive =>
      var head, tail := MessageOf(s.toClient[0]), Messages(s.toClient[1..]);
      assert Messages(s.toClient) == head + tail;
      assert Flow(Step(s, l)) == (s.client.inbound + head) + tail;
    case Push(event) => MessagesPush(s.toClient, event);
    case Serve => MessagesPush(s.toClient, SendResult(s.toServer[0]));
    case Local(_) =>
  }

  /** On one connection no message is lost, doubled or reordered: what is in the inbound queue
      and on its way there is what was there before, followed by what was pushed. */
  lemma PushedArrives(s: State, run: seq<Label>)
    requires Legal(s, run) && KeepsConnection(run)
    ensures After(s, run).client.inbound + Messages(After(s, run).toClient)
              == s.client.inbound + Messages(s.toClient) + Pushed(run)
  {
    var flow := RunFlows(s, run);
  }

  lemma {:induction false} RunFlows(s: State, run: seq<Label>) returns (flow: seq<nat>)
    requires Legal(s, run) && KeepsConnection(run)
    ensures flow == Flow(After(s, run)) && flow == Flow(s) + Pushed(run)
    decreases |run|
  {
    if run == [] {
      flow := Flow(s);
    } else {
      assert run[0] != Local(Connect) && run[0] != Local(Teardown);
      StepDelivers(s, run[0]);
      flow := RunFlows(Step(s, run[0]), run[1..]);
      Regroup(Flow(s), PushedBy(run[0]), Pushed(run[1..]));
    }
  }

  lemma Regroup(a: seq<nat>, b: seq<nat>, c: seq<nat>)
    ensures (a + b) + c == a + (b + c)
  {
  }

  // ---------------------------------------------------------------- the send lock

  ghost predicate EndsSend(a: Act) {
    a == Finish || a == DrainFailed || a == DiscardExpired || a == CancelCaller
  }

  /** However a send ends it gives the lock back, so that on a connection the next send can
      begin, and unless it was still writing it leaves no open future. */
  lemma SendsEnd(s: State, a: Act)
    requires Reachable(s) && Enabled(s, Local(a)) && EndsSend(a)
    ensures var s' := Step(s, Local(a));
            && s'.client.holder == None && (s.client.connected ==> Enabled(s', Local(BeginSend)))
            && (s.client.stage != Writing ==> Status(s'.client, s.client.holder.value) != Open)
  {
    ReachableInv(s);
  }
}
