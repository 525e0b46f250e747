/** The alias table that hides user ids: one row per (channel, real id), written by one
    upsert statement. */
module AliasStore {
  import opened Common

  datatype Contact = Contact(channel: string, realId: string)

  type Table = map<Contact, string>

  /** A statement: the upsert, with the random id the database would generate, or a
      lookup.  `o` is what the caller sees of it. */
  datatype Op = GetOrCreate(contact: Contact, generated: string, o: Outcome) | Resolve(alias: string)

  /** The upsert; a generated id that is taken violates the unique index. */
  predicate Violates(t: Table, c: Contact, generated: string) {
    c !in t && generated in t.Values
  }

  function Apply(t: Table, op: Op): Table {
    match op
    case Resolve(_) => t
    case GetOrCreate(c, generated, o) =>
      if !o.Applied() || c in t || Violates(t, c, generated) then t else t[c := generated]
  }

  function Run(t: Table, ops: seq<Op>): Table
    decreases |ops|
  {
    if ops == [] then t else Run(Apply(t, ops[0]), ops[1..])
  }

  /** What `get_or_create_alias` returns in a state; `None` where it raises. */
  function Returned(t: Table, c: Contact, generated: string, o: Outcome): Option<string> {
    if !o.Ok? || Violates(t, c, generated) then None
    else Some(if c in t then t[c] else generated)
  }

  ghost predicate Injective(t: Table) {
    forall c, d :: c in t && d in t && t[c] == t[d] ==> c == d
  }

  /** What `resolve_alias` may return: the real id of a row with that alias. */
  ghost predicate ResolvesTo(t: Table, alias: string, r: Option<string>) {
    match r
    case None => alias !in t.Values
    case Some(realId) => exists c :: c in t && t[c] == alias && c.realId == realId
  }

  ghost predicate Extends(t: Table, u: Table) {
    forall c :: c in t ==> c in u && u[c] == t[c]
  }

  lemma ApplyKeeps(t: Table, op: Op)
    requires Injective(t)
    ensures Injective(Apply(t, op)) && Extends(t, Apply(t, op))
  {
    if op.GetOrCreate? && op.contact !in t && op.generated !in t.Values {
      assert forall c :: c in t ==> t[c] in t.Values;
    }
  }

  lemma {:induction false} RunKeeps(t: Table, ops: seq<Op>)
    requires Injective(t)
    ensures Injective(Run(t, ops)) && Extends(t, Run(t, ops))
    decreases |ops|
  {
    if ops != [] {
      ApplyKeeps(t, ops[0]);
      RunKeeps(Apply(t, ops[0]), ops[1..]);
    }
  }

  /** A growing injective map: from the empty table, after any statements of any callers
      in any order, an alias handed out for a contact stays its alias, resolves to its
      real id and to nothing else, and is returned again to whoever asks for that contact. */
  lemma AliasForEver(before: seq<Op>, c: Contact, generated: string, o: Outcome, after: seq<Op>)
    requires Returned(Run(map[], before), c, generated, o).Some?
    ensures var alias := Returned(Run(map[], before), c, generated, o).value;
            var t := Run(Apply(Run(map[], before), GetOrCreate(c, generated, o)), after);
            && c in t && t[c] == alias
            && ResolvesTo(t, alias, Some(c.realId))
            && (forall r :: ResolvesTo(t, alias, r) ==> r == Some(c.realId))
            && (forall again :: Returned(t, c, again, Ok) == Some(alias))
            && (forall d :: d in t && d != c ==> t[d] != alias)
  {
    var t0 := Run(map[], before);
    RunKeeps(map[], before);
    var t1 := Apply(t0, GetOrCreate(c, generated, o));
    ApplyKeeps(t0, GetOrCreate(c, generated, o));
    RunKeeps(t1, after);
    var t := Run(t1, after);
    assert c in t1 && t1[c] == Returned(t0, c, generated, o).value;
    assert t[c] in t.Values;
  }

  /** A call whose statement goes through returns an alias, the contact's or the generated
      one, unless it is the contact's first and the generated id is taken. */
  lemma AliasIsIssuedIff(t: Table, c: Contact, generated: string)
    ensures Returned(t, c, generated, Ok).Some? <==> c in t || forall d :: d in t ==> t[d] != generated
    ensures Returned(t, c, generated, Ok).Some? && c !in t ==>
              Returned(t, c, generated, Ok) == Some(generated)
              && Apply(t, GetOrCreate(c, generated, Ok)) == t[c := generated]
    ensures forall err, applied :: Returned(t, c, generated, Raised(err, applied)) == None
  {
    assert generated in t.Values <==> exists d :: d in t && t[d] == generated;
  }

  class ContactAliasStore {
    var rows: map<Contact, string>

    constructor ()
      ensures rows == map[]
    {
      rows := map[];
    }

    method GetOrCreateAlias(c: Contact, generated: string, o: Outcome) returns (alias: Option<string>)
      modifies this
      ensures rows == Apply(old(rows), GetOrCreate(c, generated, o))
      ensures alias == Returned(old(rows), c, generated, o)
      ensures alias.Some? ==> c in rows && rows[c] == alias.value
    {
      var conflict := false;
      if o.Applied() && c !in rows {
        conflict := generated in rows.Values;
        if !conflict {
          rows := rows[c := generated];
        }
      }
      if !o.Ok? || conflict {
        return None;
      }
      return Some(rows[c]);
    }

    /** The row with the alias, if any; `AliasForEver` says there is at most one. */
    method ResolveAlias(alias: string) returns (r: Option<string>)
      ensures ResolvesTo(rows, alias, r)
    {
      var left := rows.Keys;
      while left != {}
        invariant left <= rows.Keys
        invariant forall c :: c in rows && c !in left ==> rows[c] != alias
        decreases |left|
      {
        var c :| c in left;
        if rows[c] == alias {
          return Some(c.realId);
        }
        left := left - {c};
      }
      return None;
    }
  }
}
