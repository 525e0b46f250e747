/** Which result a Signal send gets, decided when it is sent. */
module SignalLag {
  import opened Signal

  /** Wherever future `n` stands in `pending`, `lag` more commands are unanswered before it
      than futures are pending before it; and if it was answered, then by the result of
      the command `lag` positions earlier. */
  ghost predicate Tracked(s: State, n: nat, lag: int) {
    && n < s.client.next && n in s.client.futs
    && (forall p :: 0 <= p < |s.client.pending| && s.client.pending[p] == n ==>
          n - (s.client.next - |Unanswered(s)|) - p == lag)
    && (s.client.futs[n].Answered? ==> s.client.futs[n].of == n - lag)
  }

  lemma BeginTracks(s: State)
    requires Inv(s) && Enabled(s, Local(BeginSend))
    ensures Tracked(Step(s, Local(BeginSend)), s.client.next, Backlog(s))
  {
    var s' := Step(s, Local(BeginSend));
    assert Unanswered(s') == Unanswered(s) + [s.client.next];
    assert s'.client.pending == s.client.pending + [s.client.next];
    assert s.client.next !in s.client.pending;
  }

  /** Discarding a later future, or the future itself, moves no earlier one. */
  lemma {:induction false} WithoutBefore(s: seq<nat>, x: nat, n: nat, p: nat)
    requires Increasing(s) && n <= x && p < |Without(s, x)| && Without(s, x)[p] == n
    ensures p < |s| && s[p] == n
    decreases |s|
  {
    if s[0] != x && p > 0 {
      WithoutBefore(s[1..], x, n, p - 1);
    }
  }

  lemma DiscardTracks(s: State, a: Act, n: nat, lag: int)
    requires Inv(s) && Tracked(s, n, lag) && Enabled(s, Local(a)) && (a == DiscardExpired || a == DrainFailed)
    ensures Tracked(Step(s, Local(a)), n, lag)
  {
    var s' := Step(s, Local(a));
    assert Unanswered(s') == Unanswered(s);
    forall p | 0 <= p < |s'.client.pending| && s'.client.pending[p] == n
      ensures p < |s.client.pending| && s.client.pending[p] == n
    {
      WithoutBefore(s.client.pending, s.client.holder.value, n, p);
    }
  }

  lemma LocalTracks(s: State, a: Act, n: nat, lag: int)
    requires Inv(s) && Tracked(s, n, lag) && Enabled(s, Local(a))
    ensures Tracked(Step(s, Local(a)), n, lag)
  {
    if a == DiscardExpired || a == DrainFailed {
      DiscardTracks(s, a, n, lag);
    } else if a == BeginSend {
      LaterSendTracks(s, n, lag);
    } else if a == Connect || a == Teardown {
      ConnectionTracks(s, a, n, lag);
    } else {
      assert Unanswered(Step(s, Local(a))) == Unanswered(s);
    }
  }

  lemma LaterSendTracks(s: State, n: nat, lag: int)
    requires Inv(s) && Tracked(s, n, lag) && Enabled(s, Local(BeginSend))
    ensures Tracked(Step(s, Local(BeginSend)), n, lag)
  {
    assert Unanswered(Step(s, Local(BeginSend))) == Unanswered(s) + [s.client.next];
  }

  lemma ConnectionTracks(s: State, a: Act, n: nat, lag: int)
    requires Inv(s) && Tracked(s, n, lag) && Enabled(s, Local(a)) && (a == Connect || a == Teardown)
    ensures Tracked(Step(s, Local(a)), n, lag)
  {
    if a == Connect {
      NothingPendingOffline(s);
    }
    assert Step(s, Local(a)).client.pending == [];
  }

  lemma ResultTracks(s: State, n: nat, lag: int)
    requires Inv(s) && Tracked(s, n, lag) && Enabled(s, Receive) && s.toClient[0].SendResult?
    ensures Tracked(Step(s, Receive), n, lag)
  {
    ReceivePops(s);
    var u, p := Unanswered(s), s.client.pending;
    assert u[0] == s.toClient[0].cmd;
    UpToAt(u, s.client.next, 0);
    if p != [] {
      assert p[0] == n ==> u[0] == n - lag;
      forall i | 0 <= i < |p[1..]| && p[1..][i] == n
        ensures p[i + 1] == n
      {
      }
    }
  }

  lemma StepTracks(s: State, l: Label, n: nat, lag: int)
    requires Inv(s) && Tracked(s, n, lag) && Enabled(s, l)
    ensures Tracked(Step(s, l), n, lag)
  {
    match l
    case Local(a) => LocalTracks(s, a, n, lag);
    case Serve => ServeKeeps(s);
    case Push(event) => PushKeeps(s, event);
    case Receive =>
      if s.toClient[0].SendResult? {
        ResultTracks(s, n, lag);
      } else {
        assert Unanswered(Step(s, l)) == Unanswered(s);
      }
  }

  lemma {:induction false} RunTracks(s: State, run: seq<Label>, n: nat, lag: int)
    requires Inv(s) && Tracked(s, n, lag) && Legal(s, run)
    ensures Tracked(After(s, run), n, lag)
    decreases |run|
  {
    if run != [] {
      StepTracks(s, run[0], n, lag);
      StepInv(s, run[0]);
      RunTracks(Step(s, run[0]), run[1..], n, lag);
    }
  }

  /** Decided at the send: if its future is ever answered, whatever happens in between, it is
      by the result of the command as many positions earlier as there are, at the send,
      discarded sends whose results are still to come.  So it gets its own result exactly
      when there are none. */
  lemma OwnResultIff(s: State, run: seq<Label>)
    requires Reachable(s) && Enabled(s, Local(BeginSend)) && Legal(Step(s, Local(BeginSend)), run)
    ensures var f := Status(After(Step(s, Local(BeginSend)), run).client, s.client.next);
            f.Answered? ==> f.of == s.client.next - Backlog(s) && (f.of == s.client.next <==> Backlog(s) == 0)
  {
    ReachableInv(s);
    BeginTracks(s);
    StepInv(s, Local(BeginSend));
    RunTracks(Step(s, Local(BeginSend)), run, s.client.next, Backlog(s));
  }

  ghost predicate Discards(l: Label) {
    l == Local(DiscardExpired) || l == Local(DrainFailed)
  }

  /** The sends of a run that took their future out again. */
  ghost function DiscardCount(run: seq<Label>): nat
    decreases |run|
  {
    if run == [] then 0 else (if Discards(run[0]) then 1 else 0) + DiscardCount(run[1..])
  }

  lemma {:induction false} DiscardsBounded(s: State, run: seq<Label>)
    requires Legal(s, run)
    ensures After(s, run).client.discards <= s.client.discards + DiscardCount(run)
    decreases |run|
  {
    if run != [] {
      DiscardsBounded(Step(s, run[0]), run[1..]);
    }
  }

  /** The lag on a connection comes from the sends given up on it: after a connect, what a
      future takes is at most as many positions earlier as sends have been given up since. */
  lemma LagOfConnection(s: State, run: seq<Label>)
    requires Reachable(s) && Enabled(s, Local(Connect)) && Legal(Step(s, Local(Connect)), run)
    ensures Backlog(After(Step(s, Local(Connect)), run)) <= DiscardCount(run)
  {
    StepReachable(s, Local(Connect));
    DiscardsBounded(Step(s, Local(Connect)), run);
    ReachableInv(s);
    StepInv(s, Local(Connect));
    RunInv(Step(s, Local(Connect)), run);
  }
}
