/** The actor table: each call selects, and if there is no row inserts one that replaces
    whatever another call inserted in between. */
module IdentityStore {
  import opened Common

  datatype Contact = Contact(channel: string, externalId: string)

  /** A call of `get_or_create_actor_id`.  `Missing`: its select found no row and its
      upsert is still to come.  `Returned`: it returned this actor id. */
  datatype Phase = Missing | Returned(actor: string) | Failed

  datatype Call = Call(contact: Contact, phase: Phase)

  datatype State = State(table: map<Contact, string>, calls: map<nat, Call>)

  const Start := State(map[], map[])

  /** `Select` starts call `n`; `Upsert` ends it with the fresh token `uuid`.  Either
      statement may raise, the upsert before or after its effect. */
  datatype Label = Select(n: nat, contact: Contact, o: Outcome) | Upsert(n: nat, uuid: string, o: Outcome)

  predicate Enabled(s: State, l: Label) {
    match l
    case Select(n, _, _) => n !in s.calls
    case Upsert(n, _, _) => n in s.calls && s.calls[n].phase == Missing
  }

  function ActorId(channel: string, uuid: string): string {
    channel + "_" + uuid
  }

  /** The unique index on (channel, actor id). */
  predicate Taken(t: map<Contact, string>, c: Contact, actor: string) {
    exists d :: d in t && d != c && d.channel == c.channel && t[d] == actor
  }

  function Step(s: State, l: Label): State
    requires Enabled(s, l)
  {
    match l
    case Select(n, c, o) =>
      s.(calls := s.calls[n := Call(c, if !o.Ok? then Failed
                                       else if c in s.table then Returned(s.table[c])
                                       else Missing)])
    case Upsert(n, uuid, o) =>
      var c := s.calls[n].contact;
      var actor := ActorId(c.channel, uuid);
      var written := o.Applied() && !Taken(s.table, c, actor);
      State(if written then s.table[c := actor] else s.table,
            s.calls[n := Call(c, if written && o.Ok? then Returned(actor) else Failed)])
  }

  ghost predicate Legal(s: State, run: seq<Label>)
    decreases |run|
  {
    run == [] || (Enabled(s, run[0]) && Legal(Step(s, run[0]), run[1..]))
  }

  ghost function After(s: State, run: seq<Label>): State
    requires Legal(s, run)
    decreases |run|
  {
    if run == [] then s else After(Step(s, run[0]), run[1..])
  }

  lemma {:induction false} Concatenate(s: State, a: seq<Label>, b: seq<Label>)
    requires Legal(s, a) && Legal(After(s, a), b)
    ensures Legal(s, a + b) && After(s, a + b) == After(After(s, a), b)
    decreases |a|
  {
    if a == [] {
      assert a + b == b;
    } else {
      assert (a + b)[1..] == a[1..] + b;
      Concatenate(Step(s, a[0]), a[1..], b);
    }
  }

  lemma OneStep(s: State, l: Label)
    requires Enabled(s, l)
    ensures Legal(s, [l]) && After(s, [l]) == Step(s, l)
  {
    assert [l][1..] == [] && Legal(Step(s, l), []);
  }

  /** A call for the contact has found no row and is still to write one. */
  ghost predicate Pending(s: State, c: Contact) {
    exists n :: n in s.calls && s.calls[n] == Call(c, Missing)
  }

  // ---------------------------------------------------------------- when an actor id is replaced

  /** The contact has a row, and will have this row for ever. */
  ghost predicate Keeps(t: map<Contact, string>, c: Contact, actor: string) {
    c in t && t[c] == actor
  }

  lemma {:induction false} RowStays(s: State, c: Contact, run: seq<Label>)
    requires c in s.table && !Pending(s, c) && Legal(s, run)
    ensures Keeps(After(s, run).table, c, s.table[c]) && !Pending(After(s, run), c)
    decreases |run|
  {
    if run != [] {
      assert run[0].Upsert? ==> s.calls[run[0].n] != Call(c, Missing);
      RowStays(Step(s, run[0]), c, run[1..]);
    }
  }

  ghost function Longest(t: map<Contact, string>, contacts: set<Contact>): (n: nat)
    requires contacts <= t.Keys
    ensures forall c :: c in contacts ==> |t[c]| <= n
  {
    if contacts == {} then 0
    else
      var c :| c in contacts;
      var n := Longest(t, contacts - {c});
      if |t[c]| > n then |t[c]| else n
  }

  /** A token that makes an actor id no row has. */
  lemma UnusedToken(t: map<Contact, string>, channel: string) returns (uuid: string)
    ensures forall c :: c in t ==> t[c] != ActorId(channel, uuid)
  {
    var n := Longest(t, t.Keys);
    uuid := seq(n + 1, _ => 'x');
    assert |ActorId(channel, uuid)| > n;
  }

  /** A pending call can replace the row. */
  lemma PendingReplaces(s: State, c: Contact) returns (run: seq<Label>)
    requires c in s.table && Pending(s, c)
    ensures Legal(s, run) && !Keeps(After(s, run).table, c, s.table[c])
  {
    var n :| n in s.calls && s.calls[n] == Call(c, Missing);
    var uuid := UnusedToken(s.table, c.channel);
    OneStep(s, Upsert(n, uuid, Ok));
    run := [Upsert(n, uuid, Ok)];
  }

  /** The actor id of a contact is its actor id in every later state of every interleaving
      exactly when no call for the contact stands between its select and its upsert. */
  lemma ActorStaysIff(s: State, c: Contact)
    requires c in s.table
    ensures (forall run | Legal(s, run) :: Keeps(After(s, run).table, c, s.table[c])) <==> !Pending(s, c)
  {
    if Pending(s, c) {
      var run := PendingReplaces(s, c);
    } else {
      forall run | Legal(s, run)
        ensures Keeps(After(s, run).table, c, s.table[c])
      {
        RowStays(s, c, run);
      }
    }
  }

  // ---------------------------------------------------------------- every run

  ghost predicate Injective(t: map<Contact, string>) {
    forall c, d :: c in t && d in t && c.channel == d.channel && t[c] == t[d] ==> c == d
  }

  /** An actor id of a channel: its name, an underscore and a token without one. */
  ghost predicate Tagged(channel: string, actor: string) {
    channel + "_" <= actor && '_' !in actor[|channel| + 1..]
  }

  /** The tokens are UUIDs in hexadecimal, in particular without an underscore. */
  ghost predicate PlainTokens(run: seq<Label>) {
    forall i :: 0 <= i < |run| && run[i].Upsert? ==> '_' !in run[i].uuid
  }

  lemma {:induction false} RunInjective(s: State, run: seq<Label>)
    requires Injective(s.table) && Legal(s, run)
    ensures Injective(After(s, run).table)
    decreases |run|
  {
    if run != [] {
      RunInjective(Step(s, run[0]), run[1..]);
    }
  }

  lemma {:induction false} RunTagged(s: State, run: seq<Label>)
    requires Legal(s, run) && PlainTokens(run)
    requires forall c :: c in s.table ==> Tagged(c.channel, s.table[c])
    ensures forall c :: c in After(s, run).table ==> Tagged(c.channel, After(s, run).table[c])
    decreases |run|
  {
    if run != [] {
      if run[0].Upsert? {
        var channel := s.calls[run[0].n].contact.channel;
        assert ActorId(channel, run[0].uuid)[|channel| + 1..] == run[0].uuid;
      }
      RunTagged(Step(s, run[0]), run[1..]);
    }
  }

  ghost predicate Between(s: State, n: nat, c: Contact) {
    n in s.calls && s.calls[n] == Call(c, Missing)
  }

  /** No two calls for the contact are between their select and their upsert. */
  ghost predicate NeverOverlapping(s: State, run: seq<Label>, c: Contact)
    requires Legal(s, run)
    decreases |run|
  {
    && (forall m, n | Between(s, m, c) && Between(s, n, c) :: m == n)
    && (run == [] || NeverOverlapping(Step(s, run[0]), run[1..], c))
  }

  /** A contact with a row has no pending call, and the calls for it returned that row. */
  ghost predicate Settled(s: State, c: Contact) {
    && (c in s.table ==> !Pending(s, c))
    && (forall n :: n in s.calls && s.calls[n].contact == c && s.calls[n].phase.Returned? ==>
          Keeps(s.table, c, s.calls[n].phase.actor))
  }

  lemma StepSettled(s: State, l: Label, c: Contact)
    requires Settled(s, c) && Enabled(s, l)
    requires forall m, n | Between(s, m, c) && Between(s, n, c) :: m == n
    ensures Settled(Step(s, l), c)
  {
    if l.Upsert? && s.calls[l.n].contact == c {
      assert Between(s, l.n, c);
      forall m | m in Step(s, l).calls && Step(s, l).calls[m] == Call(c, Missing)
        ensures false
      {
        assert Between(s, m, c);
      }
    }
  }

  lemma {:induction false} RunSettled(s: State, run: seq<Label>, c: Contact)
    requires Settled(s, c) && Legal(s, run) && NeverOverlapping(s, run, c)
    ensures Settled(After(s, run), c)
    decreases |run|
  {
    if run != [] {
      StepSettled(s, run[0], c);
      RunSettled(Step(s, run[0]), run[1..], c);
    }
  }

  /** What `resolve_external_id` may return; `None` where it raises. */
  ghost predicate ResolvesTo(t: map<Contact, string>, channel: string, actor: string, r: Option<string>) {
    match r
    case None => forall c :: c in t && c.channel == channel ==> t[c] != actor
    case Some(id) => Contact(channel, id) in t && t[Contact(channel, id)] == actor
  }

  /** If the calls for a contact have not overlapped by the time one returned, the actor id
      it returned stays the contact's and resolves to its external id, and to nothing
      else, in every later state, whatever overlaps then. */
  lemma ActorForEver(run: seq<Label>, n: nat, more: seq<Label>)
    requires Legal(Start, run) && n in After(Start, run).calls && After(Start, run).calls[n].phase.Returned?
    requires NeverOverlapping(Start, run, After(Start, run).calls[n].contact)
    requires Legal(After(Start, run), more)
    ensures var c, actor := After(Start, run).calls[n].contact, After(Start, run).calls[n].phase.actor;
            var t := After(After(Start, run), more).table;
            && Keeps(t, c, actor)
            && ResolvesTo(t, c.channel, actor, Some(c.externalId))
            && forall r :: ResolvesTo(t, c.channel, actor, r) ==> r == Some(c.externalId)
  {
    var s := After(Start, run);
    var c := s.calls[n].contact;
    RunSettled(Start, run, c);
    ActorStaysIff(s, c);
    RunInjective(Start, run);
    RunInjective(s, more);
    assert c == Contact(c.channel, c.externalId);
  }

  /** Two overlapping calls for one contact: both return, and the actor id the first one
      returned no longer resolves. */
  lemma OverlapOrphansAnActor(c: Contact, a: string, b: string)
    requires a != b
    ensures exists run :: Legal(Start, run) &&
              var s := After(Start, run);
              && 0 in s.calls && s.calls[0] == Call(c, Returned(ActorId(c.channel, a)))
              && 1 in s.calls && s.calls[1] == Call(c, Returned(ActorId(c.channel, b)))
              && ResolvesTo(s.table, c.channel, ActorId(c.channel, a), None)
  {
    OneStep(Start, Select(0, c, Ok));
    var s1 := Step(Start, Select(0, c, Ok));
    OneStep(s1, Select(1, c, Ok));
    var s2 := Step(s1, Select(1, c, Ok));
    Concatenate(Start, [Select(0, c, Ok)], [Select(1, c, Ok)]);
    OneStep(s2, Upsert(0, a, Ok));
    var s3 := Step(s2, Upsert(0, a, Ok));
    assert s3.table == map[c := ActorId(c.channel, a)];
    OneStep(s3, Upsert(1, b, Ok));
    Concatenate(s2, [Upsert(0, a, Ok)], [Upsert(1, b, Ok)]);
    Concatenate(Start, [Select(0, c, Ok)] + [Select(1, c, Ok)], [Upsert(0, a, Ok)] + [Upsert(1, b, Ok)]);
    assert Step(s3, Upsert(1, b, Ok)).table == map[c := ActorId(c.channel, b)];
    assert ActorId(c.channel, a)[|c.channel| + 1..] == a;
    assert ActorId(c.channel, b)[|c.channel| + 1..] == b;
  }

  class ActorStore {
    var table: map<Contact, string>

    constructor ()
      ensures table == map[]
    {
      table := map[];
    }

    /** A whole call with nothing in between: the select and, if needed, the upsert.
        `select` and `upsert` are what happens to the two statements.  It is the steps of
        the transition system, and adds a row or leaves the table. */
    method GetOrCreateActorId(c: Contact, uuid: string, select: Outcome, upsert: Outcome, ghost s: State, ghost n: nat)
      returns (actor: Option<string>, ghost run: seq<Label>)
      requires s.table == table && n !in s.calls
      modifies this
      ensures Legal(s, run) && After(s, run).table == table
      ensures n in After(s, run).calls
      ensures After(s, run).calls[n] == Call(c, if actor.Some? then Returned(actor.value) else Failed)
      ensures forall d :: d in old(table) ==> d in table && table[d] == old(table)[d]
      ensures actor.Some? ==> c in table && table[c] == actor.value
      ensures c in old(table) && select.Ok? ==> actor == Some(old(table)[c])
      ensures c !in old(table) && select.Ok? && !Taken(old(table), c, c.channel + "_" + uuid) ==>
                && table == (if upsert.Applied() then old(table)[c := c.channel + "_" + uuid] else old(table))
                && actor == if upsert.Ok? then Some(c.channel + "_" + uuid) else None
    {
      OneStep(s, Select(n, c, select));
      run := [Select(n, c, select)];
      if select.Raised? {
        return None, run;
      }
      if c in table {
        return Some(table[c]), run;
      }
      OneStep(After(s, run), Upsert(n, uuid, upsert));
      Concatenate(s, run, [Upsert(n, uuid, upsert)]);
      run := run + [Upsert(n, uuid, upsert)];
      var id := c.channel + "_" + uuid;
      var taken := exists d :: d in table && d != c && d.channel == c.channel && table[d] == id;
      if taken {
        return None, run;
      }
      if upsert.Applied() {
        table := table[c := id];
      }
      actor := if upsert.Ok? then Some(id) else None;
    }
  }
}
