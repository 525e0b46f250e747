/** The channel registry: which names the installed entry points register, in what order. */
module Registry {
  import opened Text

  /** An installed entry point: its own name and the `channel` of the object it loads. */
  datatype EntryPoint = EntryPoint(name: string, channel: string)

  /** The dictionary `_channels`: its keys in insertion order, and for each the entry
      point (by position) whose channel object it holds. */
  datatype Table = Table(names: seq<string>, channels: map<string, nat>)

  const EmptyTable := Table([], map[])

  /** An assignment to a dictionary entry: a known key keeps its position. */
  function Put(t: Table, name: string, ep: nat): Table {
    Table(if name in t.channels then t.names else t.names + [name], t.channels[name := ep])
  }

  predicate Wanted(ep: EntryPoint, targets: set<string>) {
    targets == {} || Lower(ep.name) in targets || Lower(ep.channel) in targets
  }

  function RegisterOne(t: Table, ep: EntryPoint, i: nat): Table {
    var u := Put(t, ep.channel, i);
    if ep.name != ep.channel then Put(u, ep.name, i) else u
  }

  /** The table after the first `n` entry points. */
  function Discovered(t: Table, eps: seq<EntryPoint>, n: nat, targets: set<string>): Table
    requires n <= |eps|
  {
    if n == 0 then t
    else
      var u := Discovered(t, eps, n - 1, targets);
      if Wanted(eps[n - 1], targets) then RegisterOne(u, eps[n - 1], n - 1) else u
  }

  ghost predicate WellFormed(t: Table) {
    && (forall i, j :: 0 <= i < j < |t.names| ==> t.names[i] != t.names[j])
    && (forall name :: name in t.names <==> name in t.channels)
  }

  /** A name is registered by an entry point that carries it. */
  predicate Names(ep: EntryPoint, name: string) {
    name == ep.name || name == ep.channel
  }

  lemma PutWellFormed(t: Table, name: string, ep: nat)
    requires WellFormed(t)
    ensures WellFormed(Put(t, name, ep))
  {
    var u := Put(t, name, ep);
    forall x
      ensures x in u.names <==> x in u.channels
    {
      assert x in t.names <==> x in t.channels;
    }
  }

  /** Entry point `i` is loaded and carries the name. */
  predicate Carries(eps: seq<EntryPoint>, i: nat, targets: set<string>, name: string)
    requires i < |eps|
  {
    Wanted(eps[i], targets) && Names(eps[i], name)
  }

  /** The entry for a name is that of the last loaded entry point that carries it. */
  ghost predicate Latest(t: Table, eps: seq<EntryPoint>, n: nat, targets: set<string>)
    requires n <= |eps|
  {
    forall name :: name in t.channels ==> LatestFor(t.channels[name], eps, n, targets, name)
  }

  ghost predicate Complete(t: Table, eps: seq<EntryPoint>, n: nat, targets: set<string>)
    requires n <= |eps|
  {
    forall i, name :: 0 <= i < n && Carries(eps, i, targets, name) ==> name in t.channels
  }

  lemma RegisterOneEntries(t: Table, ep: EntryPoint, i: nat)
    ensures var u := RegisterOne(t, ep, i);
            && (forall name :: name in u.channels <==> name in t.channels || Names(ep, name))
            && (forall name :: Names(ep, name) ==> u.channels[name] == i)
            && (forall name :: name in t.channels && !Names(ep, name) ==> u.channels[name] == t.channels[name])
  {
  }

  lemma RegisterOneWellFormed(t: Table, ep: EntryPoint, i: nat)
    requires WellFormed(t)
    ensures WellFormed(RegisterOne(t, ep, i))
  {
    PutWellFormed(t, ep.channel, i);
    PutWellFormed(Put(t, ep.channel, i), ep.name, i);
  }

  /** Discovery from an empty registry: the names scanned by routing are the names and
      channel names of the loaded entry points, each once, and each leads to the last
      loaded entry point that carries it. */
  lemma {:induction false} DiscoveryIsExact(eps: seq<EntryPoint>, n: nat, targets: set<string>)
    requires n <= |eps|
    ensures Exact(Discovered(EmptyTable, eps, n, targets), eps, n, targets)
  {
    var t := EmptyTable;
    for i := 0 to n
      invariant t == Discovered(EmptyTable, eps, i, targets)
      invariant Exact(t, eps, i, targets)
    {
      NextExact(t, eps, i, targets);
      NextDiscovered(t, eps, i, targets);
      t := Discovered(EmptyTable, eps, i + 1, targets);
    }
  }

  lemma NextDiscovered(t: Table, eps: seq<EntryPoint>, i: nat, targets: set<string>)
    requires i < |eps| && t == Discovered(EmptyTable, eps, i, targets)
    ensures Discovered(EmptyTable, eps, i + 1, targets)
              == if Wanted(eps[i], targets) then RegisterOne(t, eps[i], i) else t
  {
  }

  /** A name keeps the position at which it was first registered. */
  lemma {:induction false} NamesKeepOrder(t: Table, eps: seq<EntryPoint>, m: nat, n: nat, targets: set<string>)
    requires m <= n <= |eps|
    ensures Discovered(t, eps, m, targets).names <= Discovered(t, eps, n, targets).names
    decreases n
  {
    if m < n {
      NamesKeepOrder(t, eps, m, n - 1, targets);
    }
  }

  ghost predicate Exact(t: Table, eps: seq<EntryPoint>, n: nat, targets: set<string>)
    requires n <= |eps|
  {
    WellFormed(t) && Latest(t, eps, n, targets) && Complete(t, eps, n, targets)
  }

  lemma NextExact(t: Table, eps: seq<EntryPoint>, i: nat, targets: set<string>)
    requires i < |eps| && Exact(t, eps, i, targets)
    ensures Exact(if Wanted(eps[i], targets) then RegisterOne(t, eps[i], i) else t, eps, i + 1, targets)
  {
    if Wanted(eps[i], targets) {
      RegisterExact(t, eps, i, targets);
    } else {
      SkipExact(t, eps, i, targets);
    }
  }

  lemma SkipExact(t: Table, eps: seq<EntryPoint>, i: nat, targets: set<string>)
    requires i < |eps| && !Wanted(eps[i], targets)
    requires Latest(t, eps, i, targets) && Complete(t, eps, i, targets)
    ensures Latest(t, eps, i + 1, targets) && Complete(t, eps, i + 1, targets)
  {
  }

  lemma RegisterExact(t: Table, eps: seq<EntryPoint>, i: nat, targets: set<string>)
    requires i < |eps| && Wanted(eps[i], targets)
    requires WellFormed(t) && Latest(t, eps, i, targets) && Complete(t, eps, i, targets)
    ensures var u := RegisterOne(t, eps[i], i);
            WellFormed(u) && Latest(u, eps, i + 1, targets) && Complete(u, eps, i + 1, targets)
  {
    RegisterOneWellFormed(t, eps[i], i);
    RegisterComplete(t, eps, i, targets);
    forall name | name in RegisterOne(t, eps[i], i).channels
      ensures LatestFor(RegisterOne(t, eps[i], i).channels[name], eps, i + 1, targets, name)
    {
      RegisterLatest(t, eps, i, targets, name);
    }
  }

  ghost predicate LatestFor(ep: nat, eps: seq<EntryPoint>, n: nat, targets: set<string>, name: string)
    requires n <= |eps|
  {
    && ep < n && Carries(eps, ep, targets, name)
    && forall i :: ep < i < n ==> !Carries(eps, i, targets, name)
  }

  lemma RegisterLatest(t: Table, eps: seq<EntryPoint>, i: nat, targets: set<string>, name: string)
    requires i < |eps| && Wanted(eps[i], targets) && Latest(t, eps, i, targets)
    requires name in RegisterOne(t, eps[i], i).channels
    ensures LatestFor(RegisterOne(t, eps[i], i).channels[name], eps, i + 1, targets, name)
  {
    RegisterOneEntries(t, eps[i], i);
    if !Names(eps[i], name) {
      assert LatestFor(t.channels[name], eps, i, targets, name);
    }
  }

  lemma RegisterComplete(t: Table, eps: seq<EntryPoint>, i: nat, targets: set<string>)
    requires i < |eps| && Complete(t, eps, i, targets)
    ensures Complete(RegisterOne(t, eps[i], i), eps, i + 1, targets)
  {
    RegisterOneEntries(t, eps[i], i);
  }

  /** Asked for by name, whatever the case; everything is if nothing is asked for. */
  ghost predicate Requested(ep: EntryPoint, requested: set<string>) {
    requested == {} || exists n :: n in requested && (SameIgnoringCase(n, ep.name) || SameIgnoringCase(n, ep.channel))
  }

  function Lowered(names: set<string>): set<string> {
    set n | n in names :: Lower(n)
  }

  lemma WantedIff(ep: EntryPoint, requested: set<string>)
    ensures Wanted(ep, Lowered(requested)) <==> Requested(ep, requested)
  {
    forall n
      ensures Lower(n) == Lower(ep.name) <==> SameIgnoringCase(n, ep.name)
      ensures Lower(n) == Lower(ep.channel) <==> SameIgnoringCase(n, ep.channel)
    {
      LowerMeaning(n, ep.name);
      LowerMeaning(n, ep.channel);
    }
    if requested != {} {
      var n :| n in requested;
      assert Lower(n) in Lowered(requested);
    }
  }

  ghost predicate Offers(eps: seq<EntryPoint>, i: nat, requested: set<string>, name: string) {
    i < |eps| && Requested(eps[i], requested) && (name == eps[i].name || name == eps[i].channel)
  }

  /** Discovery in terms of what was asked for: a name is registered exactly when a requested
      entry point is called so or loads a channel called so, and leads to the last such. */
  lemma DiscoveredByName(eps: seq<EntryPoint>, requested: set<string>, name: string)
    ensures var t := Discovered(EmptyTable, eps, |eps|, Lowered(requested));
            && (name in t.names <==> exists i :: Offers(eps, i, requested, name))
            && (name in t.names ==>
                  && name in t.channels && Offers(eps, t.channels[name], requested, name)
                  && forall i :: t.channels[name] < i ==> !Offers(eps, i, requested, name))
  {
    var t := Discovered(EmptyTable, eps, |eps|, Lowered(requested));
    DiscoveryIsExact(eps, |eps|, Lowered(requested));
    forall i: nat | i < |eps|
      ensures Carries(eps, i, Lowered(requested), name) <==> Offers(eps, i, requested, name)
    {
      WantedIff(eps[i], requested);
    }
    if name in t.names {
      assert Carries(eps, t.channels[name], Lowered(requested), name);
    }
  }

  datatype Discovery = Registered | ChannelsNotFound(missing: set<string>) | NothingDiscovered

  class ChannelRegistry {
    var names: seq<string>
    var channels: map<string, nat>

    ghost function View(): Table
      reads this
    {
      Table(names, channels)
    }

    constructor ()
      ensures View() == EmptyTable
    {
      names, channels := [], map[];
    }

    method Assign(name: string, ep: nat)
      modifies this
      ensures View() == Put(old(View()), name, ep)
    {
      if name !in channels {
        names := names + [name];
      }
      channels := channels[name := ep];
    }

    /** `discover_channels`; if nothing is requested every entry point is loaded. */
    method DiscoverChannels(eps: seq<EntryPoint>, requested: set<string>) returns (r: Discovery)
      modifies this
      ensures View() == Discovered(old(View()), eps, |eps|, Lowered(requested))
      ensures r == Registered <==>
                && (forall t :: t in Lowered(requested) ==> exists name :: name in channels && Lower(name) == t)
                && (exists i :: 0 <= i < |eps| && Wanted(eps[i], Lowered(requested)))
      ensures r.ChannelsNotFound? ==>
                r.missing != {} && r.missing == Lowered(requested) - set name | name in channels :: Lower(name)
    {
      var targets := Lowered(requested);
      var discovered := 0;
      for i := 0 to |eps|
        invariant View() == Discovered(old(View()), eps, i, targets)
        invariant discovered >= 0
        invariant discovered > 0 <==> exists j :: 0 <= j < i && Wanted(eps[j], targets)
      {
        var ep := eps[i];
        if Wanted(ep, targets) {
          Assign(ep.channel, i);
          if ep.name != ep.channel {
            Assign(ep.name, i);
          }
          discovered := discovered + 1;
        }
      }
      var found := set name | name in channels :: Lower(name);
      var missing := targets - found;
      if missing != {} {
        var t :| t in missing;
        assert t in targets && !exists name :: name in channels && Lower(name) == t;
        return ChannelsNotFound(missing);
      }
      forall t | t in targets
        ensures exists name :: name in channels && Lower(name) == t
      {
        assert t !in missing;
        assert t in found;
      }
      return if discovered == 0 then NothingDiscovered else Registered;
    }
  }
}
