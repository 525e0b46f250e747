/** The PGMQ tables as the gateway uses them, one queue and the processed-key table,
    and the object whose methods issue the statements. */
module MessageQueue {
  import opened Common

  /** A live queue row: the idempotency key of its envelope, how often it was read,
      and the time (in seconds) from which a read may take it. */
  datatype Row = Row(key: string, readCt: nat, visibleAt: int)

  /** `origin` and `deleted` are history: every id ever sent with its key, and the
      ids a `delete` removed. */
  datatype Tables = Tables(
    live: map<nat, Row>,
    archived: set<nat>,
    deleted: set<nat>,
    origin: map<nat, string>,
    marked: set<string>,
    next: nat,
    now: int)

  const EmptyTables := Tables(map[], {}, {}, map[], {}, 0, 0)

  /** The statements that change the tables. */
  datatype DbOp =
    | Nop
    | Insert(key: string)
    | Take(ids: seq<nat>, vt: nat)
    | Delete(id: nat)
    | Archive(id: nat)
    | Hide(id: nat, seconds: int)
    | Mark(key: string)
    | Advance(elapsed: nat)

  function Exec(t: Tables, op: DbOp): Tables {
    match op
    case Nop => t
    case Insert(key) =>
      t.(live := t.live[t.next := Row(key, 0, t.now)],
         origin := t.origin[t.next := key],
         next := t.next + 1)
    case Take(ids, vt) =>
      t.(live := map id | id in t.live ::
           if id in ids then Row(t.live[id].key, t.live[id].readCt + 1, t.now + vt)
           else t.live[id])
    case Delete(id) =>
      if id in t.live then t.(live := t.live - {id}, deleted := t.deleted + {id}) else t
    case Archive(id) =>
      if id in t.live then t.(live := t.live - {id}, archived := t.archived + {id}) else t
    case Hide(id, seconds) =>
      if id in t.live then t.(live := t.live[id := t.live[id].(visibleAt := t.now + seconds)]) else t
    case Mark(key) => t.(marked := t.marked + {key})
    case Advance(elapsed) => t.(now := t.now + elapsed)
  }

  predicate Visible(t: Tables, id: nat) {
    id in t.live && t.live[id].visibleAt <= t.now
  }

  /** A batch `pgmq.read` may return: visible rows, none twice, no more than asked for. */
  predicate Readable(t: Tables, ids: seq<nat>, limit: nat) {
    && |ids| <= limit
    && (forall i :: 0 <= i < |ids| ==> Visible(t, ids[i]))
    && (forall i, j :: 0 <= i < j < |ids| ==> ids[i] != ids[j])
  }

  /** Every sent id is in exactly one of the three places, under the key it was sent with. */
  ghost predicate Conserved(t: Tables) {
    && t.live.Keys !! t.archived !! t.deleted
    && t.live.Keys + t.archived + t.deleted == t.origin.Keys
    && (forall id :: id in t.origin ==> id < t.next)
    && (forall id :: id in t.live ==> t.live[id].key == t.origin[id])
  }

  /** How a table state may relate to an earlier one. */
  ghost predicate Later(t: Tables, u: Tables) {
    && t.archived <= u.archived
    && t.deleted <= u.deleted
    && t.marked <= u.marked
    && t.now <= u.now
    && t.next <= u.next
    && (forall id :: id in t.origin ==> id in u.origin && u.origin[id] == t.origin[id])
    && (forall id :: id in t.origin && id in u.live ==>
          id in t.live && t.live[id].readCt <= u.live[id].readCt)
  }

  /** No statement breaks the partition, loses or renames a sent id, or brings a
      settled message back. */
  lemma ExecConserves(t: Tables, op: DbOp)
    requires Conserved(t)
    ensures Conserved(Exec(t, op))
    ensures Later(t, Exec(t, op))
  {
    var u := Exec(t, op);
    match op
    case Insert(key) =>
      assert t.next !in t.origin;
      assert u.live.Keys == t.live.Keys + {t.next};
      assert u.origin.Keys == t.origin.Keys + {t.next};
    case Take(ids, vt) => assert u.live.Keys == t.live.Keys;
    case Delete(id) => assert id in t.live ==> u.live.Keys == t.live.Keys - {id};
    case Archive(id) => assert id in t.live ==> u.live.Keys == t.live.Keys - {id};
    case Hide(id, seconds) => assert u.live.Keys == t.live.Keys;
    case _ =>
  }

  // ---------------------------------------------------------------- retry delays

  /** Python's `int()` on a float: truncation toward zero. */
  function Truncate(r: real): (n: int)
    ensures r >= 0.0 ==> n as real <= r < n as real + 1.0
    ensures r < 0.0 ==> n as real - 1.0 < r <= n as real
  {
    if r >= 0.0 then r.Floor else -((-r).Floor)
  }

  /** The visibility timeout `set_vt` computes from the delay it is given. */
  function VtSeconds(delay: real): int {
    Truncate(if delay <= 0.0 then 1.0 else delay)
  }

  /** The delay of the transient error raised for a channel's rate limit. */
  function RateLimitDelay(retryAfter: real): real {
    Truncate(retryAfter) as real
  }

  /** `set_vt` hides a message for at least a second exactly when the delay is not a
      positive fraction of a second; such a delay is truncated to zero. */
  lemma SetVtHidesIff(delay: real)
    ensures VtSeconds(delay) >= 1 <==> (delay <= 0.0 || 1.0 <= delay)
  {
    assert (1.0).Floor == 1;
    if delay >= 1.0 {
      assert delay.Floor >= 1;
    }
  }

  /** Whatever a channel reports, the retry scheduled for its rate limit hides the
      message for at least one second, and for the reported whole seconds if there are any. */
  lemma RateLimitRetryHides(retryAfter: real)
    ensures VtSeconds(RateLimitDelay(retryAfter)) >= 1
    ensures retryAfter >= 1.0 ==> VtSeconds(RateLimitDelay(retryAfter)) == retryAfter.Floor
  {
    SetVtHidesIff(RateLimitDelay(retryAfter));
    var n := Truncate(retryAfter);
    assert (n as real).Floor == n;
  }

  /** A live row that was read or re-timed is invisible until its seconds have passed, and
      visible from then on; a read counts, a retry does not. */
  lemma HiddenUntil(t: Tables, id: nat, seconds: nat, elapsed: nat)
    requires id in t.live
    ensures Visible(Exec(Exec(t, Hide(id, seconds)), Advance(elapsed)), id) <==> elapsed >= seconds
    ensures Visible(Exec(Exec(t, Take([id], seconds)), Advance(elapsed)), id) <==> elapsed >= seconds
    ensures Exec(t, Hide(id, seconds)).live[id].readCt == t.live[id].readCt
    ensures Exec(t, Take([id], seconds)).live[id].readCt == t.live[id].readCt + 1
    ensures forall other :: other in t.live && other != id ==>
              Exec(t, Hide(id, seconds)).live[other] == t.live[other]
              && Exec(t, Take([id], seconds)).live[other] == t.live[other]
  {
  }

  function ExecAll(t: Tables, ops: seq<DbOp>): Tables
    decreases |ops|
  {
    if ops == [] then t else ExecAll(Exec(t, ops[0]), ops[1..])
  }

  function Elapsed(ops: seq<DbOp>): nat
    decreases |ops|
  {
    if ops == [] then 0 else (if ops[0].Advance? then ops[0].elapsed else 0) + Elapsed(ops[1..])
  }

  /** Statements of any kind, reads of what is visible among them, none of which settles
      or re-times the message. */
  ghost predicate LeaveAlone(t: Tables, ops: seq<DbOp>, id: nat)
    decreases |ops|
  {
    ops == [] ||
    (LeavesAlone(t, ops[0], id) && LeaveAlone(Exec(t, ops[0]), ops[1..], id))
  }

  predicate LeavesAlone(t: Tables, op: DbOp, id: nat) {
    match op
    case Take(ids, _) => Readable(t, ids, |ids|)
    case Delete(other) => other != id
    case Archive(other) => other != id
    case Hide(other, _) => other != id
    case _ => true
  }

  lemma {:induction false} StaysHidden(t: Tables, ops: seq<DbOp>, id: nat)
    requires Conserved(t) && id in t.live && LeaveAlone(t, ops, id)
    requires t.now + Elapsed(ops) < t.live[id].visibleAt
    ensures var u := ExecAll(t, ops);
            id in u.live && u.live[id] == t.live[id] && u.now == t.now + Elapsed(ops)
    decreases |ops|
  {
    if ops != [] {
      ExecConserves(t, ops[0]);
      assert ops[0].Insert? ==> t.next !in t.origin;
      StaysHidden(Exec(t, ops[0]), ops[1..], id);
    }
  }

  /** Once the retry of a rate-limited message is scheduled no read takes it, whatever
      statements come in between, until its whole timeout, a second at least, is over. */
  lemma RateLimitedIsNotReread(t: Tables, id: nat, retryAfter: real, ops: seq<DbOp>, ids: seq<nat>, limit: nat)
    requires Conserved(t) && id in t.live
    requires LeaveAlone(Exec(t, Hide(id, VtSeconds(RateLimitDelay(retryAfter)))), ops, id)
    requires Elapsed(ops) < VtSeconds(RateLimitDelay(retryAfter))
    requires Readable(ExecAll(Exec(t, Hide(id, VtSeconds(RateLimitDelay(retryAfter)))), ops), ids, limit)
    ensures id !in ids
  {
    var op := Hide(id, VtSeconds(RateLimitDelay(retryAfter)));
    ExecConserves(t, op);
    StaysHidden(Exec(t, op), ops, id);
  }

  /** The fraction that escapes the clamp. */
  lemma HalfSecondIsNotHidden()
    ensures VtSeconds(0.5) == 0
  {
    assert (0.5).Floor == 0;
  }

  // ---------------------------------------------------------------- the queue object

  /** The gateway's handle on the queue.  Each method is one SQL statement; `o` is what
      the database did with it, and the exception, if any, is handed back. */
  class PGMessageQueue {
    var live: map<nat, Row>
    var archived: set<nat>
    var processedKeys: set<string>
    var nextId: nat
    var now: int
    ghost var deleted: set<nat>
    ghost var origin: map<nat, string>

    ghost function View(): Tables
      reads this
    {
      Tables(live, archived, deleted, origin, processedKeys, nextId, now)
    }

    constructor ()
      ensures View() == EmptyTables
    {
      live, archived, processedKeys, nextId, now := map[], {}, {}, 0, 0;
      deleted, origin := {}, map[];
    }

    method Send(key: string, o: Outcome) returns (raised: Option<Error>)
      modifies this
      ensures raised == ErrorOf(o)
      ensures View() == Exec(old(View()), if o.Applied() then Insert(key) else Nop)
    {
      if o.Applied() {
        live := live[nextId := Row(key, 0, now)];
        origin := origin[nextId := key];
        nextId := nextId + 1;
      }
      raised := ErrorOf(o);
    }

    /** Read up to `limit` visible rows, hide them for `vt` seconds and count the read.  The
        caller does not see the batch if the statement raises. */
    method Read(candidates: seq<nat>, limit: nat, vt: nat, o: Outcome)
      returns (batch: seq<nat>, raised: Option<Error>)
      modifies this
      ensures raised == ErrorOf(o)
      ensures Readable(old(View()), batch, limit)
      ensures forall i :: 0 <= i < |batch| ==> batch[i] in candidates
      ensures |batch| < limit ==>
                forall id :: id in candidates && Visible(old(View()), id) ==> id in batch
      ensures View() == Exec(old(View()), if o.Applied() then Take(batch, vt) else Nop)
    {
      raised := ErrorOf(o);
      batch := [];
      var i := 0;
      while i < |candidates| && |batch| < limit
        invariant 0 <= i <= |candidates|
        invariant Readable(View(), batch, limit)
        invariant forall j :: 0 <= j < |batch| ==> batch[j] in candidates
        invariant forall j :: 0 <= j < i && Visible(View(), candidates[j]) ==> candidates[j] in batch
        invariant View() == old(View())
      {
        var id := candidates[i];
        if id in live && live[id].visibleAt <= now && id !in batch {
          batch := batch + [id];
        }
        i := i + 1;
      }
      if o.Applied() {
        live := map id | id in live ::
          if id in batch then Row(live[id].key, live[id].readCt + 1, now + vt) else live[id];
      }
    }

    method DeleteMessage(id: nat, o: Outcome) returns (raised: Option<Error>)
      modifies this
      ensures raised == ErrorOf(o)
      ensures View() == Exec(old(View()), if o.Applied() then Delete(id) else Nop)
    {
      if o.Applied() && id in live {
        live := live - {id};
        deleted := deleted + {id};
      }
      raised := ErrorOf(o);
    }

    method ArchiveMessage(id: nat, o: Outcome) returns (raised: Option<Error>)
      modifies this
      ensures raised == ErrorOf(o)
      ensures View() == Exec(old(View()), if o.Applied() then Archive(id) else Nop)
    {
      if o.Applied() && id in live {
        live := live - {id};
        archived := archived + {id};
      }
      raised := ErrorOf(o);
    }

    method SetVt(id: nat, delay: real, o: Outcome) returns (raised: Option<Error>)
      modifies this
      ensures raised == ErrorOf(o)
      ensures View() == Exec(old(View()), if o.Applied() then Hide(id, VtSeconds(delay)) else Nop)
    {
      var clamped := delay;
      if clamped <= 0.0 {
        clamped := 1.0;
      }
      var seconds := Truncate(clamped);
      if o.Applied() && id in live {
        live := live[id := live[id].(visibleAt := now + seconds)];
      }
      raised := ErrorOf(o);
    }

    method IsAlreadyProcessed(key: string, o: Outcome) returns (known: bool, raised: Option<Error>)
      ensures raised == ErrorOf(o)
      ensures raised == None ==> (known <==> key in View().marked)
    {
      known, raised := key in processedKeys, ErrorOf(o);
    }

    method MarkAsProcessed(key: string, o: Outcome) returns (raised: Option<Error>)
      modifies this
      ensures raised == ErrorOf(o)
      ensures View() == Exec(old(View()), if o.Applied() then Mark(key) else Nop)
      ensures processedKeys == old(processedKeys) + if o.Applied() then {key} else {}
    {
      if o.Applied() {
        processedKeys := processedKeys + {key};
      }
      raised := ErrorOf(o);
    }
  }

  function ErrorOf(o: Outcome): Option<Error> {
    match o
    case Ok => None
    case Raised(err, _) => Some(err)
  }
}
