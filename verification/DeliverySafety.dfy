/** What every interleaving of the delivery pipeline keeps: conservation of messages,
    the causes of deletion and archiving, and that nothing a publish acknowledged is lost. */
module DeliverySafety {
  import opened Common
  import opened MessageQueue
  import opened Delivery
  import Worker

  ghost predicate Archivable(h: History, id: nat) {
    exists c :: c in h.causes && c.id == id && Decide(c.err, c.attempts) == ToArchive
  }

  /** Deletion follows a normal handler return; archiving follows a caught exception
      for which the policy archives at the attempts of the delivery that raised it. */
  ghost predicate Caused(s: State) {
    && (forall id :: id in s.db.deleted ==> id in s.hist.handled)
    && (forall id :: id in s.db.archived ==> Archivable(s.hist, id))
    && (forall w, t :: w in s.workers && t in s.workers[w].tasks ==>
          TaskCaused(s.hist, s.workers[w].tasks[t]))
  }

  ghost predicate TaskCaused(h: History, task: Worker.Task) {
    && (task.phase.Deleting? ==> task.copy.id in h.handled)
    && (task.phase.Failing? ==> Cause(task.copy.id, task.copy.attempts, task.phase.err) in h.causes)
  }

  ghost predicate HasCopy(t: Tables, key: string) {
    exists id :: id in t.origin && t.origin[id] == key
  }

  /** The publishers' view: what each phase implies about the tables and the history. */
  ghost predicate PubSound(s: State, p: nat, u: Pub) {
    && (u.sent.Some? ==>
          && u.sent.value in s.db.origin
          && s.db.origin[u.sent.value] == u.key
          && u.sent.value in s.hist.sender && s.hist.sender[u.sent.value] == p)
    && (u.phase.Enqueued? || u.phase.Marked? || (u.phase.Returned? && !u.email) ==> u.sent.Some?)
    && (u.phase.Checking? || u.phase.Cleared? || u.phase.Duplicate? ==> u.sent.None?)
    && (u.phase.Duplicate? || u.phase.Marked? || (u.phase.Returned? && !u.email) ==> u.key in s.db.marked)
    && (u.phase.Cleared? || u.sent.Some? ==> p in s.hist.passed)
    && (u.phase.Checking? ==> p !in s.hist.passed)
  }

  ghost predicate Published(s: State) {
    && (forall k :: k in s.db.marked ==> HasCopy(s.db, k))
    && (forall p :: p in s.pubs ==> PubSound(s, p, s.pubs[p]))
    && (forall p :: p in s.hist.passed ==> p in s.pubs)
    && s.hist.sender.Keys == s.db.origin.Keys
    && (forall id :: id in s.hist.sender ==>
          s.hist.sender[id] in s.pubs && s.pubs[s.hist.sender[id]].sent == Some(id))
  }

  ghost predicate Inv(s: State) {
    Conserved(s.db) && Caused(s) && Published(s)
  }

  // ---------------------------------------------------------------- one step

  lemma StepGrows(s: State, l: Label)
    requires Conserved(s.db) && Published(s) && Enabled(s, l)
    ensures Grows(s, Apply(s, l))
  {
    ExecConserves(s.db, OpOf(s, l));
    HistoryGrows(s, l);
    if l.P? && l.p in s.pubs {
      PubGrows(s, l.p, l.pub);
    }
  }

  lemma HistoryGrows(s: State, l: Label)
    requires Enabled(s, l)
    ensures var h, h' := s.hist, NextHistory(s, l);
            h.handled <= h'.handled && h.causes <= h'.causes && h.passed <= h'.passed
  {
  }

  /** A publish keeps its key and its row, and an ended one does not move. */
  lemma PubGrows(s: State, p: nat, a: PubAct)
    requires PubEnabled(s, p, a) && p in s.pubs && PubSound(s, p, s.pubs[p])
    ensures var u, u' := s.pubs[p], NextPub(s, p, a);
            && u'.key == u.key && u'.email == u.email && u.Active()
            && (u.sent.Some? ==> u'.sent == u.sent)
  {
  }

  /** What no step takes back. */
  ghost predicate Grows(s: State, s': State) {
    && Later(s.db, s'.db)
    && s.hist.handled <= s'.hist.handled
    && s.hist.causes <= s'.hist.causes
    && s.hist.passed <= s'.hist.passed
    && s.workers.Keys == s'.workers.Keys
    && (forall p :: p in s.pubs ==>
          && p in s'.pubs
          && s'.pubs[p].key == s.pubs[p].key
          && s'.pubs[p].email == s.pubs[p].email
          && (s.pubs[p].sent.Some? ==> s'.pubs[p].sent == s.pubs[p].sent)
          && (!s.pubs[p].Active() ==> s'.pubs[p] == s.pubs[p]))
  }

  /** An operation deletes only what was handled and archives only what the policy archives. */
  lemma OpCaused(s: State, l: Label)
    requires Caused(s) && Enabled(s, l)
    ensures OpOf(s, l).Delete? ==> OpOf(s, l).id in s.hist.handled
    ensures OpOf(s, l).Archive? ==> Archivable(s.hist, OpOf(s, l).id)
  {
    if OpOf(s, l).Delete? {
      assert TaskCaused(s.hist, s.workers[l.w].tasks[l.act.t]);
    }
    if OpOf(s, l).Archive? {
      var task := s.workers[l.w].tasks[l.act.t];
      assert TaskCaused(s.hist, task);
      assert Cause(task.copy.id, task.copy.attempts, task.phase.err) in s.hist.causes;
    }
  }

  lemma ArchivableGrows(h: History, h': History, id: nat)
    requires Archivable(h, id) && h.causes <= h'.causes
    ensures Archivable(h', id)
  {
  }

  lemma StepCaused(s: State, l: Label)
    requires Conserved(s.db) && Caused(s) && Published(s) && Enabled(s, l)
    ensures Caused(Apply(s, l))
  {
    var s' := Apply(s, l);
    StepGrows(s, l);
    OpCaused(s, l);
    StepArchived(s, l);
    forall w, t | w in s'.workers && t in s'.workers[w].tasks
      ensures TaskCaused(s'.hist, s'.workers[w].tasks[t])
    {
      StepTaskCaused(s, l, w, t);
    }
  }

  lemma StepArchived(s: State, l: Label)
    requires Conserved(s.db) && Caused(s) && Published(s) && Enabled(s, l)
    ensures forall id :: id in Apply(s, l).db.archived ==> Archivable(Apply(s, l).hist, id)
  {
    var s' := Apply(s, l);
    StepGrows(s, l);
    OpCaused(s, l);
    forall id | id in s'.db.archived
      ensures Archivable(s'.hist, id)
    {
      assert id !in s.db.archived ==> OpOf(s, l) == Archive(id);
      ArchivableGrows(s.hist, s'.hist, id);
    }
  }

  lemma StepTaskCaused(s: State, l: Label, w: nat, t: nat)
    requires Conserved(s.db) && Caused(s) && Published(s) && Enabled(s, l)
    requires w in Apply(s, l).workers && t in Apply(s, l).workers[w].tasks
    ensures TaskCaused(Apply(s, l).hist, Apply(s, l).workers[w].tasks[t])
  {
    StepGrows(s, l);
    assert w in s.workers;
    if t in s.workers[w].tasks {
      assert TaskCaused(s.hist, s.workers[w].tasks[t]);
    }
    if l.W? && l.w == w {
      WorkTaskCaused(s, w, l.act, t);
    }
  }

  lemma WorkTaskCaused(s: State, w: nat, a: WorkAct, t: nat)
    requires Enabled(s, W(w, a)) && t in Apply(s, W(w, a)).workers[w].tasks
    requires t in s.workers[w].tasks ==> TaskCaused(s.hist, s.workers[w].tasks[t])
    ensures TaskCaused(Apply(s, W(w, a)).hist, Apply(s, W(w, a)).workers[w].tasks[t])
  {
    match a
    case Plain(_) =>
    case Read(_, _) =>
    case Begin(_) =>
    case HandlerReturned(_) =>
    case HandlerRaised(_, _) =>
    case DeleteCall(_, _) =>
    case Settle(_, _) =>
  }

  lemma StepPublished(s: State, l: Label)
    requires Conserved(s.db) && Published(s) && Enabled(s, l)
    ensures Published(Apply(s, l))
  {
    var s' := Apply(s, l);
    StepGrows(s, l);
    if l.P? {
      StepPubSound(s, l.p, l.pub);
    } else {
      SamePublications(s, l);
      KeepsCopies(s, s');
      forall p | p in s'.pubs
        ensures PubSound(s', p, s'.pubs[p])
      {
        assert PubSound(s, p, s.pubs[p]);
      }
    }
  }

  lemma SamePublications(s: State, l: Label)
    requires Enabled(s, l) && !l.P?
    ensures var s' := Apply(s, l);
            && s'.db.marked == s.db.marked && s'.db.origin == s.db.origin
            && s'.hist.sender == s.hist.sender && s'.hist.passed == s.hist.passed
            && s'.pubs == s.pubs
  {
  }

  lemma KeepsCopies(s: State, s': State)
    requires Later(s.db, s'.db)
    ensures forall k :: HasCopy(s.db, k) ==> HasCopy(s'.db, k)
  {
    forall k | HasCopy(s.db, k)
      ensures HasCopy(s'.db, k)
    {
      var id :| id in s.db.origin && s.db.origin[id] == k;
      assert id in s'.db.origin && s'.db.origin[id] == k;
    }
  }

  lemma StepPubSound(s: State, p: nat, a: PubAct)
    requires Conserved(s.db) && Published(s) && PubEnabled(s, p, a)
    ensures Published(Apply(s, P(p, a)))
  {
    var s' := Apply(s, P(p, a));
    StepGrows(s, P(p, a));
    StepMarks(s, p, a);
    StepSender(s, p, a);
    StepOwnPub(s, p, a);
    forall q | q in s'.pubs
      ensures PubSound(s', q, s'.pubs[q])
    {
      if q != p {
        assert PubSound(s, q, s.pubs[q]);
        OtherPubSound(s, p, a, q);
      }
    }
    assert forall q :: q in s'.hist.passed ==> q in s.hist.passed || q == p;
  }

  /** A key is marked only by a publish that has inserted a row for it. */
  lemma StepMarks(s: State, p: nat, a: PubAct)
    requires Conserved(s.db) && Published(s) && PubEnabled(s, p, a)
    ensures forall k :: k in Apply(s, P(p, a)).db.marked ==> HasCopy(Apply(s, P(p, a)).db, k)
  {
    var s' := Apply(s, P(p, a));
    StepGrows(s, P(p, a));
    KeepsCopies(s, s');
    if a.MarkKey? {
      assert PubSound(s, p, s.pubs[p]);
      var id := s.pubs[p].sent.value;
      assert s'.db.origin[id] == s.pubs[p].key;
    }
  }

  lemma StepSender(s: State, p: nat, a: PubAct)
    requires Conserved(s.db) && Published(s) && PubEnabled(s, p, a)
    ensures var s' := Apply(s, P(p, a));
            && s'.hist.sender.Keys == s'.db.origin.Keys
            && forall id :: id in s'.hist.sender ==>
                 s'.hist.sender[id] in s'.pubs && s'.pubs[s'.hist.sender[id]].sent == Some(id)
  {
    var s' := Apply(s, P(p, a));
    if p in s.pubs {
      assert PubSound(s, p, s.pubs[p]);
    }
    if a.Send? && a.o.Applied() {
      assert s'.hist.sender.Keys == s.hist.sender.Keys + {s.db.next};
      assert s'.db.origin.Keys == s.db.origin.Keys + {s.db.next};
    } else {
      assert s'.hist.sender == s.hist.sender;
      assert s'.db.origin == s.db.origin;
    }
  }

  lemma StepOwnPub(s: State, p: nat, a: PubAct)
    requires Conserved(s.db) && Published(s) && PubEnabled(s, p, a)
    ensures PubSound(Apply(s, P(p, a)), p, Apply(s, P(p, a)).pubs[p])
  {
    if p in s.pubs {
      assert PubSound(s, p, s.pubs[p]);
    }
    if a.Send? && a.o.Applied() {
      assert s.db.next !in s.db.origin;
    }
  }

  lemma OtherPubSound(s: State, p: nat, a: PubAct, q: nat)
    requires Conserved(s.db) && Published(s) && PubEnabled(s, p, a)
    requires q in s.pubs && q != p && PubSound(s, q, s.pubs[q])
    ensures PubSound(Apply(s, P(p, a)), q, s.pubs[q])
  {
    var s' := Apply(s, P(p, a));
    StepGrows(s, P(p, a));
    assert s.db.next !in s.db.origin;
    assert q in s'.hist.passed <==> q in s.hist.passed;
  }

  // ---------------------------------------------------------------- every run

  lemma InitInv(limits: map<nat, nat>, vt: nat)
    ensures Inv(Init(limits, vt))
  {
  }

  lemma StepInv(s: State, l: Label)
    requires Inv(s) && Enabled(s, l)
    ensures Inv(Apply(s, l)) && Grows(s, Apply(s, l))
  {
    ExecConserves(s.db, OpOf(s, l));
    StepGrows(s, l);
    StepCaused(s, l);
    StepPublished(s, l);
  }

  lemma GrowsTrans(a: State, b: State, c: State)
    requires Grows(a, b) && Grows(b, c)
    ensures Grows(a, c)
  {
  }

  lemma {:induction false} RunInv(s: State, run: seq<Label>)
    requires Inv(s) && Legal(s, run)
    ensures Inv(After(s, run)) && Grows(s, After(s, run))
    decreases |run|
  {
    if run != [] {
      var s1 := Apply(s, run[0]);
      StepInv(s, run[0]);
      RunInv(s1, run[1..]);
      GrowsTrans(s, s1, After(s, run));
    }
  }

  lemma ReachableInv(s: State)
    requires Reachable(s)
    ensures Inv(s)
  {
    var limits: map<nat, nat>, vt: nat, run: seq<Label> :|
      Legal(Init(limits, vt), run) && s == After(Init(limits, vt), run);
    InitInv(limits, vt);
    RunInv(Init(limits, vt), run);
  }

  // ---------------------------------------------------------------- the theorems

  ghost function InPlaces(s: State, id: nat): nat {
    (if id in s.db.live then 1 else 0)
    + (if id in s.db.archived then 1 else 0)
    + (if id in s.db.deleted then 1 else 0)
  }

  /** Accounted for: in exactly one place, and if settled then for a reason. */
  ghost predicate Kept(s: State, id: nat) {
    && InPlaces(s, id) == 1
    && (id in s.db.deleted ==> id in s.hist.handled)
    && (id in s.db.archived ==> Archivable(s.hist, id))
  }

  /** Conservation and cause: in every later state of every interleaving a sent message
      is in exactly one place under the key it was sent with, was deleted only after its
      handler returned normally and archived only for an exception the policy archives;
      once it left the live table it never comes back. */
  lemma ConservationAndCause(s: State, run: seq<Label>, id: nat)
    requires Reachable(s) && Legal(s, run)
    requires id in s.db.origin
    ensures var s' := After(s, run);
            && id in s'.db.origin && s'.db.origin[id] == s.db.origin[id]
            && Kept(s', id)
            && (id !in s.db.live ==> id !in s'.db.live)
            && (id in s.db.deleted ==> id in s'.db.deleted)
            && (id in s.db.archived ==> id in s'.db.archived)
  {
    ReachableInv(s);
    RunInv(s, run);
  }

  /** The archiving causes spelled out. */
  lemma ArchiveCauses(s: State, id: nat)
    requires Reachable(s) && id in s.db.archived
    ensures exists c :: c in s.hist.causes && c.id == id &&
              (c.err == Fatal
               || (c.err.Transient? && c.attempts >= 10)
               || (c.err == Other && c.attempts > 10))
  {
    ReachableInv(s);
    assert Archivable(s.hist, id);
    var c :| c in s.hist.causes && c.id == id && Decide(c.err, c.attempts) == ToArchive;
  }

  /** What settling does to a live message, both ways: archived exactly when it must be,
      re-timed exactly for a transient error with attempts left, and otherwise as it was. */
  lemma SettledAsDue(s: State, w: nat, t: nat)
    requires Reachable(s) && WorkEnabled(s, w, Settle(t, Ok))
    requires s.workers[w].tasks[t].copy.id in s.db.live
    ensures var task := s.workers[w].tasks[t];
            var id, n, err := task.copy.id, task.copy.attempts, task.phase.err;
            var s' := Apply(s, W(w, Settle(t, Ok)));
            && (id in s'.db.archived <==>
                  err == Fatal || (err.Transient? && n >= 10) || (err == Other && n > 10))
            && (id !in s'.db.archived ==> id in s'.db.live && s'.db.live[id].readCt == s.db.live[id].readCt)
            && (err == Other && n <= 10 ==> s'.db == s.db)
            && (err.Transient? && n < 10 ==> s'.db.live[id].visibleAt == s.db.now + VtSeconds(err.delay))
            && s'.workers[w].tasks[t].phase == Worker.Finished
  {
    ReachableInv(s);
  }

  ghost predicate Acknowledged(u: Pub) {
    u.phase.Duplicate? || (u.phase.Returned? && !u.email)
  }

  /** No accepted message is lost: once a publish has returned normally, or reported the
      key as processed, there is one copy with that key that is accounted for in every
      later state of every interleaving, crashes and failing statements included. */
  lemma NoAcceptedMessageIsLost(s: State, p: nat)
    requires Reachable(s) && p in s.pubs && Acknowledged(s.pubs[p])
    ensures exists id ::
              && id in s.db.origin && s.db.origin[id] == s.pubs[p].key
              && forall run :: Legal(s, run) ==>
                   id in After(s, run).db.origin
                   && After(s, run).db.origin[id] == s.pubs[p].key
                   && Kept(After(s, run), id)
  {
    ReachableInv(s);
    var u := s.pubs[p];
    assert PubSound(s, p, u);
    assert HasCopy(s.db, u.key);
    var id :| id in s.db.origin && s.db.origin[id] == u.key;
    forall run | Legal(s, run)
      ensures id in After(s, run).db.origin
              && After(s, run).db.origin[id] == u.key
              && Kept(After(s, run), id)
    {
      ConservationAndCause(s, run, id);
    }
  }

  /** A publish that got past its mark, or was acknowledged, has its key marked in this and
      every later state, so no publish of the key is cleared by a check from then on. */
  lemma AcknowledgedIsMarked(s: State, p: nat, run: seq<Label>)
    requires Reachable(s) && p in s.pubs && (s.pubs[p].phase.Marked? || Acknowledged(s.pubs[p]))
    requires Legal(s, run)
    ensures s.pubs[p].key in s.db.marked && s.pubs[p].key in After(s, run).db.marked
    ensures forall q | q in After(s, run).pubs && PubEnabled(After(s, run), q, Check(Ok)) ::
              After(s, run).pubs[q].key == s.pubs[p].key ==>
                NextPub(After(s, run), q, Check(Ok)).phase == Duplicate
  {
    ReachableInv(s);
    assert PubSound(s, p, s.pubs[p]);
    RunInv(s, run);
  }

  ghost predicate ReturnedOf(s: State, p: nat, email: bool) {
    Reachable(s) && p in s.pubs && s.pubs[p].phase == Returned && s.pubs[p].email == email
  }

  /** A publish that returned normally has left a copy of its message: true of every
      publish of a kind exactly when the kind is not email, whose processor swallows
      what `send` raises. */
  lemma ReturnLeavesACopyIff(email: bool)
    ensures (forall s, p | ReturnedOf(s, p, email) :: HasCopy(s.db, s.pubs[p].key)) <==> !email
  {
    if email {
      EmailReturnsWithoutACopy();
    } else {
      forall s, p | ReturnedOf(s, p, email)
        ensures HasCopy(s.db, s.pubs[p].key)
      {
        ReachableInv(s);
        assert PubSound(s, p, s.pubs[p]);
      }
    }
  }

  /** The run that shows it: the statement fails without taking effect. */
  lemma EmailReturnsWithoutACopy()
    ensures exists s, p :: ReturnedOf(s, p, true) && !HasCopy(s.db, s.pubs[p].key)
  {
    var s0 := Init(map[], 30);
    InitReachable(map[], 30);
    var s1 := Apply(s0, P(0, Start("k", true)));
    StepReachable(s0, P(0, Start("k", true)));
    var s2 := Apply(s1, P(0, Check(Ok)));
    StepReachable(s1, P(0, Check(Ok)));
    var lost := Raised(Transient(600.0), false);
    var s3 := Apply(s2, P(0, Send(lost)));
    StepReachable(s2, P(0, Send(lost)));
    assert s3.db.origin == map[];
    assert ReturnedOf(s3, 0, true);
  }
}
