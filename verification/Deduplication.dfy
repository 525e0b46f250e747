/** How many copies of one idempotency key the publishers can put on the queue. */
module Deduplication {
  import opened Common
  import opened MessageQueue
  import opened Delivery
  import opened DeliverySafety

  /** The rows ever sent under a key. */
  ghost function Copies(s: State, key: string): set<nat> {
    set id | id in s.db.origin && s.db.origin[id] == key
  }

  /** The publishes of a key whose check found it unmarked. */
  ghost function PassedFor(s: State, key: string): set<nat> {
    set p | p in s.hist.passed && p in s.pubs && s.pubs[p].key == key
  }

  /** Copies never exceed the publishes that passed the check: each sends at most once. */
  lemma CopiesBoundedByPassed(s: State, key: string)
    requires Inv(s)
    ensures |Copies(s, key)| <= |PassedFor(s, key)|
  {
    var f := map id | id in Copies(s, key) :: s.hist.sender[id];
    forall id | id in f
      ensures f[id] in PassedFor(s, key)
    {
      SenderPassed(s, id);
    }
    forall a, b | a in f && b in f && f[a] == f[b]
      ensures a == b
    {
      assert s.pubs[f[a]].sent == Some(a) && s.pubs[f[b]].sent == Some(b);
    }
    InjectionBound(f, PassedFor(s, key));
    assert f.Keys == Copies(s, key);
  }

  lemma SenderPassed(s: State, id: nat)
    requires Inv(s) && id in s.db.origin
    ensures id in s.hist.sender
    ensures s.hist.sender[id] in s.pubs && s.hist.sender[id] in s.hist.passed
    ensures s.pubs[s.hist.sender[id]].key == s.db.origin[id]
  {
    var p := s.hist.sender[id];
    assert PubSound(s, p, s.pubs[p]);
  }

  /** Once a key is marked nobody passes its check any more. */
  lemma {:induction false} PassedFrozen(s: State, run: seq<Label>, key: string)
    requires Inv(s) && key in s.db.marked && Legal(s, run)
    ensures PassedFor(After(s, run), key) == PassedFor(s, key)
    decreases |run|
  {
    if run != [] {
      StepInv(s, run[0]);
      StepPassedFrozen(s, run[0], key);
      PassedFrozen(Apply(s, run[0]), run[1..], key);
    }
  }

  lemma StepPassedFrozen(s: State, l: Label, key: string)
    requires Inv(s) && key in s.db.marked && Enabled(s, l)
    ensures PassedFor(Apply(s, l), key) == PassedFor(s, key)
  {
    StepGrows(s, l);
    var s' := Apply(s, l);
    forall p
      ensures p in PassedFor(s', key) <==> p in PassedFor(s, key)
    {
    }
  }

  /** A marked key has a copy, and in every later state of every interleaving its copies
      are at most the publishes whose check preceded the mark. */
  lemma MarkBoundsCopies(s: State, run: seq<Label>, key: string)
    requires Reachable(s) && key in s.db.marked && Legal(s, run)
    ensures 1 <= |Copies(After(s, run), key)| <= |PassedFor(s, key)|
  {
    ReachableInv(s);
    RunInv(s, run);
    PassedFrozen(s, run, key);
    CopiesBoundedByPassed(After(s, run), key);
    assert HasCopy(After(s, run).db, key);
    var id :| id in After(s, run).db.origin && After(s, run).db.origin[id] == key;
    assert id in Copies(After(s, run), key);
  }

  /** A publish whose check follows the mark sends nothing, whenever it started. */
  lemma LatePublishAddsNone(s: State, run: seq<Label>, p: nat)
    requires Reachable(s) && Legal(s, run) && p !in s.hist.passed
    requires p in After(s, run).pubs && After(s, run).pubs[p].key in s.db.marked
    ensures After(s, run).pubs[p].sent == None
    ensures forall id :: id in After(s, run).hist.sender ==> After(s, run).hist.sender[id] != p
  {
    ReachableInv(s);
    RunInv(s, run);
    var t := After(s, run);
    var key := t.pubs[p].key;
    PassedFrozen(s, run, key);
    assert p !in PassedFor(t, key);
    assert PubSound(t, p, t.pubs[p]);
    forall id | id in t.hist.sender
      ensures t.hist.sender[id] != p
    {
      SenderPassed(t, id);
    }
  }

  // ---------------------------------------------------------------- publishes one by one

  ghost predicate ActiveOn(s: State, p: nat, key: string) {
    p in s.pubs && s.pubs[p].key == key && s.pubs[p].Active()
  }

  /** Publishes of the key do not overlap, and none that sent ended without the mark. */
  ghost predicate OneByOne(s: State, key: string) {
    && (forall p, q | ActiveOn(s, p, key) && ActiveOn(s, q, key) :: p == q)
    && (forall p | p in s.pubs && s.pubs[p].key == key && s.pubs[p].sent.Some? ::
          s.pubs[p].Active() || key in s.db.marked)
  }

  ghost predicate Throughout(s: State, run: seq<Label>, key: string)
    requires Legal(s, run)
    decreases |run|
  {
    OneByOne(s, key) && (run == [] || Throughout(Apply(s, run[0]), run[1..], key))
  }

  /** While a publish stands between its check and its send there is no copy yet. */
  ghost predicate Single(s: State, key: string) {
    && (forall a, b :: a in Copies(s, key) && b in Copies(s, key) ==> a == b)
    && (forall p :: p in s.pubs && s.pubs[p].key == key && s.pubs[p].phase == Cleared ==>
          Copies(s, key) == {})
  }

  lemma StepSingle(s: State, l: Label, key: string)
    requires Inv(s) && Enabled(s, l) && Single(s, key)
    requires OneByOne(s, key) && OneByOne(Apply(s, l), key)
    ensures Single(Apply(s, l), key)
  {
    var s' := Apply(s, l);
    if l.P? && l.pub.Send? && l.pub.o.Applied() && s.pubs[l.p].key == key {
      assert Copies(s, key) == {};
      assert Copies(s', key) == {s.db.next};
      forall p | p in s'.pubs && s'.pubs[p].key == key
        ensures s'.pubs[p].phase != Cleared
      {
        assert ActiveOn(s, l.p, key);
        assert p != l.p ==> !ActiveOn(s, p, key);
      }
    } else {
      SameCopies(s, l, key);
      if l.P? && l.pub.Check? && s.pubs[l.p].key == key && s'.pubs[l.p].phase == Cleared {
        NoCopyBeforeFirstSend(s, l.p, key);
      }
    }
  }

  lemma SameCopies(s: State, l: Label, key: string)
    requires Inv(s) && Enabled(s, l)
    requires !(l.P? && l.pub.Send? && l.pub.o.Applied() && s.pubs[l.p].key == key)
    ensures Copies(Apply(s, l), key) == Copies(s, key)
  {
    NextOrigin(s, l);
    assert s.db.next !in s.db.origin;
  }

  lemma NextOrigin(s: State, l: Label)
    requires Enabled(s, l)
    ensures Apply(s, l).db.origin
              == if l.P? && l.pub.Send? && l.pub.o.Applied() then s.db.origin[s.db.next := s.pubs[l.p].key]
                 else s.db.origin
  {
  }

  /** An unmarked key whose only active publish has not sent yet has no copy. */
  lemma NoCopyBeforeFirstSend(s: State, p: nat, key: string)
    requires Inv(s) && OneByOne(s, key) && key !in s.db.marked
    requires p in s.pubs && s.pubs[p].key == key && s.pubs[p].phase == Checking
    ensures Copies(s, key) == {}
  {
    if id :| id in Copies(s, key) {
      SenderPassed(s, id);
      var q := s.hist.sender[id];
      assert s.pubs[q].sent == Some(id);
      assert PubSound(s, p, s.pubs[p]);
      assert ActiveOn(s, q, key) && ActiveOn(s, p, key);
      assert false;
    }
  }

  lemma {:induction false} RunSingle(s: State, run: seq<Label>, key: string)
    requires Inv(s) && Legal(s, run) && Throughout(s, run, key) && Single(s, key)
    ensures Single(After(s, run), key)
    decreases |run|
  {
    if run != [] {
      StepInv(s, run[0]);
      StepSingle(s, run[0], key);
      RunSingle(Apply(s, run[0]), run[1..], key);
    }
  }

  /** Exactly one copy: if publishes of a key never overlap and none fails between its
      send and its mark, the key never has two copies, and it has one as soon as it is
      marked or a publish of it is acknowledged. */
  lemma ExactlyOneCopy(limits: map<nat, nat>, vt: nat, run: seq<Label>, key: string)
    requires Legal(Init(limits, vt), run) && Throughout(Init(limits, vt), run, key)
    ensures var s := After(Init(limits, vt), run);
            && |Copies(s, key)| <= 1
            && (key in s.db.marked ==> |Copies(s, key)| == 1)
            && forall p :: p in s.pubs && s.pubs[p].key == key && Acknowledged(s.pubs[p]) ==>
                 |Copies(s, key)| == 1
  {
    var s0 := Init(limits, vt);
    InitInv(limits, vt);
    assert Single(s0, key);
    RunInv(s0, run);
    RunSingle(s0, run, key);
    SingleCount(After(s0, run), key);
  }

  lemma SingleCount(s: State, key: string)
    requires Inv(s) && Single(s, key)
    ensures |Copies(s, key)| <= 1
    ensures key in s.db.marked ==> |Copies(s, key)| == 1
    ensures forall p :: p in s.pubs && s.pubs[p].key == key && Acknowledged(s.pubs[p]) ==>
              |Copies(s, key)| == 1
  {
    if id :| id in Copies(s, key) {
      assert Copies(s, key) == {id};
    }
    if HasCopy(s.db, key) {
      var id :| id in s.db.origin && s.db.origin[id] == key;
      assert id in Copies(s, key);
    }
    forall p | p in s.pubs && s.pubs[p].key == key && Acknowledged(s.pubs[p])
      ensures HasCopy(s.db, key)
    {
      assert PubSound(s, p, s.pubs[p]);
    }
  }

  /** Overlap defeats it: when two publishes of one key both check before either marks,
      the message is enqueued twice with no statement failing. */
  lemma OverlapEnqueuesTwice()
    ensures exists s, p, q ::
              && Reachable(s) && p in s.pubs && q in s.pubs && p != q
              && s.pubs[p].phase == Enqueued && s.pubs[q].phase == Enqueued
              && s.pubs[p].key == s.pubs[q].key
              && |Copies(s, s.pubs[p].key)| == 2
  {
    var s := BothCleared();
    var t := Apply(s, P(0, Send(Ok)));
    StepReachable(s, P(0, Send(Ok)));
    assert t.pubs[1] == s.pubs[1] && t.pubs[0].phase == Enqueued;
    assert t.db.origin == map[0 := "k"] && t.db.next == 1;
    var u := Apply(t, P(1, Send(Ok)));
    StepReachable(t, P(1, Send(Ok)));
    assert u.pubs[0] == t.pubs[0] && u.pubs[1].phase == Enqueued;
    assert u.db.origin == map[0 := "k", 1 := "k"];
    assert Copies(u, "k") == {0, 1};
  }

  lemma BothCleared() returns (s: State)
    ensures Reachable(s) && s.db == EmptyTables
    ensures 0 in s.pubs && s.pubs[0] == Pub("k", false, Cleared, None)
    ensures 1 in s.pubs && s.pubs[1] == Pub("k", false, Cleared, None)
  {
    var s0 := Init(map[], 30);
    InitReachable(map[], 30);
    var s1 := Apply(s0, P(0, Start("k", false)));
    StepReachable(s0, P(0, Start("k", false)));
    var s2 := Apply(s1, P(1, Start("k", false)));
    StepReachable(s1, P(1, Start("k", false)));
    assert s2.pubs[0] == s1.pubs[0] && s2.db == EmptyTables;
    var s3 := Apply(s2, P(0, Check(Ok)));
    StepReachable(s2, P(0, Check(Ok)));
    assert s3.pubs[1] == s2.pubs[1] && s3.db == EmptyTables;
    s := Apply(s3, P(1, Check(Ok)));
    StepReachable(s3, P(1, Check(Ok)));
    assert s.pubs[0] == s3.pubs[0];
  }

  // ---------------------------------------------------------------- when a copy can still come

  /** A publish of the key stands between its check and its send. */
  ghost predicate AboutToSend(s: State, key: string) {
    exists p :: p in s.pubs && s.pubs[p].key == key && s.pubs[p].phase == Cleared
  }

  /** What lets a publish add a copy: the key is unmarked, or one has passed its check. */
  ghost predicate Open(s: State, key: string) {
    key !in s.db.marked || AboutToSend(s, key)
  }

  ghost predicate GainsACopy(s: State, run: seq<Label>, key: string)
    requires Legal(s, run)
  {
    |Copies(After(s, run), key)| > |Copies(s, key)|
  }

  lemma StepStaysClosed(s: State, l: Label, key: string)
    requires Inv(s) && Enabled(s, l) && !Open(s, key)
    ensures Copies(Apply(s, l), key) == Copies(s, key) && !Open(Apply(s, l), key)
  {
    var s' := Apply(s, l);
    StepGrows(s, l);
    if l.P? && l.pub.Send? {
      assert s.pubs[l.p].key != key;
    }
    SameCopies(s, l, key);
    forall p | p in s'.pubs && s'.pubs[p].key == key
      ensures s'.pubs[p].phase != Cleared
    {
      if l.P? && l.p == p {
        NextNotCleared(s, p, l.pub, key);
      }
    }
  }

  lemma NextNotCleared(s: State, p: nat, a: PubAct, key: string)
    requires PubEnabled(s, p, a) && key in s.db.marked && NextPub(s, p, a).key == key
    ensures NextPub(s, p, a).phase != Cleared
  {
  }

  lemma {:induction false} RunStaysClosed(s: State, run: seq<Label>, key: string)
    requires Inv(s) && Legal(s, run) && !Open(s, key)
    ensures Copies(After(s, run), key) == Copies(s, key)
    decreases |run|
  {
    if run != [] {
      StepInv(s, run[0]);
      StepStaysClosed(s, run[0], key);
      RunStaysClosed(Apply(s, run[0]), run[1..], key);
    }
  }

  /** A publish past its check sends. */
  lemma SendGains(s: State, p: nat, key: string)
    requires Inv(s) && p in s.pubs && s.pubs[p].key == key && s.pubs[p].phase == Cleared
    ensures Legal(s, [P(p, Send(Ok))]) && GainsACopy(s, [P(p, Send(Ok))], key)
  {
    var l := P(p, Send(Ok));
    var s' := Apply(s, l);
    assert [l][1..] == [] && Legal(s', []) && After(s, [l]) == s';
    NextOrigin(s, l);
    assert s.db.next !in s.db.origin;
    assert Copies(s', key) == Copies(s, key) + {s.db.next};
  }

  /** A publish that starts now passes the check of an unmarked key. */
  lemma CheckPasses(s: State, key: string) returns (p: nat, t: State)
    requires Inv(s) && key !in s.db.marked
    ensures Legal(s, [P(p, Start(key, false)), P(p, Check(Ok))])
    ensures t == After(s, [P(p, Start(key, false)), P(p, Check(Ok))])
    ensures Inv(t) && Copies(t, key) == Copies(s, key)
    ensures p in t.pubs && t.pubs[p].key == key && t.pubs[p].phase == Cleared
  {
    p := NewPublish(s.pubs);
    var start, check := P(p, Start(key, false)), P(p, Check(Ok));
    var u := Apply(s, start);
    StepInv(s, start);
    SameCopies(s, start, key);
    t := Apply(u, check);
    StepInv(u, check);
    SameCopies(u, check, key);
    assert [start, check][1..] == [check] && [check][1..] == [];
    assert Legal(t, []) && Legal(u, [check]) && After(u, [check]) == t;
  }

  lemma NewPublish(pubs: map<nat, Pub>) returns (p: nat)
    ensures p !in pubs
  {
    p := 0;
    var seen: set<nat> := {};
    while p in pubs
      invariant forall q: nat :: q in seen <==> q < p
      invariant seen <= pubs.Keys
      decreases |pubs.Keys - seen|
    {
      seen := seen + {p};
      p := p + 1;
    }
  }

  /** Exactly when a key can still gain a copy, in any interleaving from a reachable state:
      its mark is missing, or some publish has checked and is still to send.  In particular
      a key with a copy is enqueued again only by such a publish or before its mark. */
  lemma AnotherCopyIff(s: State, key: string)
    requires Reachable(s)
    ensures (exists run :: Legal(s, run) && GainsACopy(s, run, key))
            <==> key !in s.db.marked || AboutToSend(s, key)
  {
    ReachableInv(s);
    if !Open(s, key) {
      forall run | Legal(s, run)
        ensures !GainsACopy(s, run, key)
      {
        RunStaysClosed(s, run, key);
      }
    } else {
      var run := OpenGains(s, key);
    }
  }

  lemma OpenGains(s: State, key: string) returns (run: seq<Label>)
    requires Inv(s) && Open(s, key)
    ensures Legal(s, run) && GainsACopy(s, run, key)
  {
    if AboutToSend(s, key) {
      var p :| p in s.pubs && s.pubs[p].key == key && s.pubs[p].phase == Cleared;
      SendGains(s, p, key);
      run := [P(p, Send(Ok))];
    } else {
      var p, t := CheckPasses(s, key);
      SendGains(t, p, key);
      Concatenate(s, [P(p, Start(key, false)), P(p, Check(Ok))], [P(p, Send(Ok))]);
      run := [P(p, Start(key, false)), P(p, Check(Ok))] + [P(p, Send(Ok))];
    }
  }
}
