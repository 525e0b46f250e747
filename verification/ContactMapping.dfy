/** The deltawoot mapping between Delta Chat and Chatwoot contacts: a list of pairs kept
    in one configuration value. */
module ContactMapping {
  import opened Common

  datatype Pair = Pair(delta: int, woot: int)

  /** The stored value; `None` while the key has never been set. */
  type Config = Option<seq<Pair>>

  function Pairs(c: Config): seq<Pair> {
    match c
    case None => []
    case Some(pairs) => pairs
  }

  ghost predicate Matches(p: Pair, delta: Option<int>, woot: Option<int>) {
    delta == Some(p.delta) || woot == Some(p.woot)
  }

  /** No contact of either side occurs in two pairs. */
  ghost predicate Bijection(pairs: seq<Pair>) {
    forall i, j :: 0 <= i < j < |pairs| ==> pairs[i].delta != pairs[j].delta && pairs[i].woot != pairs[j].woot
  }

  /** An add as it leaves the list: refused if either side is known. */
  function Added(pairs: seq<Pair>, delta: int, woot: int): seq<Pair> {
    if exists i :: 0 <= i < |pairs| && (pairs[i].delta == delta || pairs[i].woot == woot)
    then pairs else pairs + [Pair(delta, woot)]
  }

  function AllAdded(pairs: seq<Pair>, adds: seq<Pair>): seq<Pair>
    decreases |adds|
  {
    if adds == [] then pairs else AllAdded(Added(pairs, adds[0].delta, adds[0].woot), adds[1..])
  }

  /** Over every serial sequence of adds, refused ones included, the list stays a partial
      bijection, keeps every pair it ever had, and holds nothing that was not added. */
  lemma {:induction false} AddsKeepBijection(pairs: seq<Pair>, adds: seq<Pair>)
    requires Bijection(pairs)
    ensures Bijection(AllAdded(pairs, adds))
    ensures pairs <= AllAdded(pairs, adds)
    ensures forall p :: p in AllAdded(pairs, adds) ==> p in pairs || p in adds
    decreases |adds|
  {
    if adds != [] {
      assert adds == [adds[0]] + adds[1..];
      AddsKeepBijection(Added(pairs, adds[0].delta, adds[0].woot), adds[1..]);
    }
  }

  /** Once an add was taken its pair stays, and in every later list it is the only pair
      with either of its sides: a lookup by one side or the other returns this pair. */
  lemma EitherSideFindsThePair(pairs: seq<Pair>, p: Pair, adds: seq<Pair>, q: Pair)
    requires Bijection(pairs) && p in Added(pairs, p.delta, p.woot)
    requires q in AllAdded(Added(pairs, p.delta, p.woot), adds)
    ensures p in AllAdded(Added(pairs, p.delta, p.woot), adds)
    ensures q.delta == p.delta || q.woot == p.woot ==> q == p
  {
    var first := Added(pairs, p.delta, p.woot);
    AddsKeepBijection(pairs, [p]);
    assert [p][1..] == [];
    assert first == AllAdded(pairs, [p]);
    AddsKeepBijection(first, adds);
    var all := AllAdded(first, adds);
    var i :| 0 <= i < |first| && first[i] == p;
    assert all[i] == p;
    var j :| 0 <= j < |all| && all[j] == q;
  }

  /** An add is taken exactly when neither contact is in a pair yet, and then goes to the end. */
  lemma AddIsTakenIff(pairs: seq<Pair>, delta: int, woot: int)
    ensures Added(pairs, delta, woot) == pairs + [Pair(delta, woot)] <==>
              forall p :: p in pairs ==> p.delta != delta && p.woot != woot
    ensures Added(pairs, delta, woot) == pairs || Added(pairs, delta, woot) == pairs + [Pair(delta, woot)]
  {
    if Added(pairs, delta, woot) == pairs + [Pair(delta, woot)] {
      assert |Added(pairs, delta, woot)| == |pairs| + 1;
    }
    assert forall i :: 0 <= i < |pairs| ==> pairs[i] in pairs;
  }

  class Account {
    var mappings: Config

    ghost predicate Valid()
      reads this
    {
      Bijection(Pairs(mappings))
    }

    constructor ()
      ensures mappings == None && Valid()
    {
      mappings := None;
    }

    /** `get_contact_mapping`; a missing configuration value is initialised on the way. */
    method GetContactMapping(delta: Option<int>, woot: Option<int>) returns (r: Option<Pair>)
      modifies this
      ensures mappings == Some(Pairs(old(mappings)))
      ensures r == None ==>
                forall i :: 0 <= i < |Pairs(mappings)| ==> !Matches(Pairs(mappings)[i], delta, woot)
      ensures r.Some? ==>
                exists i :: 0 <= i < |Pairs(mappings)| && r.value == Pairs(mappings)[i]
                  && Matches(r.value, delta, woot)
                  && forall j :: 0 <= j < i ==> !Matches(Pairs(mappings)[j], delta, woot)
    {
      if mappings == None {
        mappings := Some([]);
        return None;
      }
      var pairs := mappings.value;
      for i := 0 to |pairs|
        invariant mappings == Some(pairs)
        invariant forall j :: 0 <= j < i ==> !Matches(pairs[j], delta, woot)
      {
        if delta == Some(pairs[i].delta) || woot == Some(pairs[i].woot) {
          return Some(pairs[i]);
        }
      }
      return None;
    }

    /** `add_contact_mapping`; the result says whether its assertions held. */
    method AddContactMapping(delta: int, woot: int) returns (added: bool)
      requires Valid()
      modifies this
      ensures Valid()
      ensures Pairs(mappings) == Added(Pairs(old(mappings)), delta, woot)
      ensures added <==> Pairs(mappings) == Pairs(old(mappings)) + [Pair(delta, woot)]
      ensures added ==> Pair(delta, woot) in Pairs(mappings)
    {
      var pairs := if mappings == None then [] else mappings.value;
      var byDelta := GetContactMapping(Some(delta), None);
      if byDelta != None {
        return false;
      }
      var byWoot := GetContactMapping(None, Some(woot));
      if byWoot != None {
        return false;
      }
      assert forall i :: 0 <= i < |pairs| ==>
        !Matches(pairs[i], Some(delta), None) && !Matches(pairs[i], None, Some(woot));
      mappings := Some(pairs + [Pair(delta, woot)]);
      added := true;
    }
  }
}
