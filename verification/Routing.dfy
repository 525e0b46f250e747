/** Return addresses: the prefix an inbound message's sender gets, and how a reply's
    identifier finds its channel and the original id again. */
module Routing {
  import opened Common
  import Registry

  /** `_add_channel_prefix`; the raw id is its string form. */
  function AddPrefix(raw: string, channel: string): string {
    channel + "_" + raw
  }

  predicate HasPrefix(identifier: string, name: string) {
    name + "_" <= identifier
  }

  /** `_strip_channel_prefix`. */
  function StripPrefix(identifier: string, channel: string): string {
    if HasPrefix(identifier, channel) then identifier[|channel| + 1..] else identifier
  }

  /** The first registered name that prefixes the identifier. */
  function FirstMatch(names: seq<string>, identifier: string): Option<string> {
    if names == [] then None
    else if HasPrefix(identifier, names[0]) then Some(names[0])
    else FirstMatch(names[1..], identifier)
  }

  /** `_resolve_outgoing_channel`; `None` stands for an identifier that is no string. */
  function ResolveOutgoing(identifier: Option<string>, urlChannel: string, names: seq<string>): string {
    match identifier
    case None => urlChannel
    case Some(id) =>
      match FirstMatch(names, id)
      case Some(name) => name
      case None => urlChannel
  }

  /** Where a reply goes: the channel that publishes it and the identifier it is given. */
  datatype Routed = To(channel: string, identifier: string) | UnknownAlias | UnknownChannel

  /** `handle_chatwoot_payload` on an outgoing message with a string identifier; `resolve`
      is the alias table. */
  function Route(anonymize: bool, identifier: string, urlChannel: string, names: seq<string>,
                 resolve: string -> Option<string>): Routed
  {
    var owner := if anonymize then FirstMatch(names, identifier) else None;
    if owner.Some? then Deliver(names, owner.value, identifier)
    else if anonymize then
      match resolve(identifier)
      case None => UnknownAlias
      case Some(realId) => Deliver(names, urlChannel, realId)
    else
      var target := ResolveOutgoing(Some(identifier), urlChannel, names);
      Deliver(names, target, StripPrefix(identifier, target))
  }

  function Deliver(names: seq<string>, channel: string, identifier: string): Routed {
    if channel in names then To(channel, identifier) else UnknownChannel
  }

  /** No registered name followed by an underscore is a prefix of another one. */
  ghost predicate PrefixFree(names: seq<string>) {
    forall a, b :: a in names && b in names && a != b ==> !HasPrefix(b, a)
  }

  lemma {:induction false} FirstMatchIs(names: seq<string>, identifier: string)
    ensures FirstMatch(names, identifier) == None <==>
              forall n :: n in names ==> !HasPrefix(identifier, n)
    ensures FirstMatch(names, identifier).Some? ==>
              FirstMatch(names, identifier).value in names
              && HasPrefix(identifier, FirstMatch(names, identifier).value)
    decreases |names|
  {
    if names != [] {
      assert names == [names[0]] + names[1..];
      FirstMatchIs(names[1..], identifier);
    }
  }

  /** Among several it is the one registered first. */
  lemma {:induction false} FirstMatchIsFirst(names: seq<string>, identifier: string, i: nat)
    requires i < |names| && HasPrefix(identifier, names[i])
    requires forall j :: 0 <= j < i ==> !HasPrefix(identifier, names[j])
    ensures FirstMatch(names, identifier) == Some(names[i])
    decreases i
  {
    if i > 0 {
      FirstMatchIsFirst(names[1..], identifier, i - 1);
    }
  }

  lemma PrefixAdded(raw: string, c: string)
    ensures HasPrefix(AddPrefix(raw, c), c)
    ensures StripPrefix(AddPrefix(raw, c), c) == raw
  {
    assert AddPrefix(raw, c)[..|c| + 1] == c + "_";
    assert AddPrefix(raw, c)[|c| + 1..] == raw;
  }

  /** A name that prefixes another channel's address overlaps with its name. */
  lemma OverlappingNames(raw: string, c: string, n: string)
    requires HasPrefix(AddPrefix(raw, c), n) && n != c
    ensures HasPrefix(c, n) || HasPrefix(n, c)
  {
    var id := AddPrefix(raw, c);
    assert id[..|n| + 1] == n + "_" && id[..|c| + 1] == c + "_";
    assert id[..|n|] == n && id[..|c|] == c;
    if |n| < |c| {
      assert n + "_" == c[..|n| + 1];
    } else {
      assert |c| < |n|;
      assert c + "_" == n[..|c| + 1];
    }
  }

  ghost predicate RoundTrips(names: seq<string>, c: string, raw: string, urlChannel: string,
                             resolve: string -> Option<string>)
  {
    Route(false, AddPrefix(raw, c), urlChannel, names, resolve) == To(c, raw)
  }

  lemma RoundTrip(names: seq<string>, c: string, raw: string, urlChannel: string,
                  resolve: string -> Option<string>)
    requires PrefixFree(names) && c in names
    ensures RoundTrips(names, c, raw, urlChannel, resolve)
  {
    PrefixAdded(raw, c);
    FirstMatchIs(names, AddPrefix(raw, c));
    var n := FirstMatch(names, AddPrefix(raw, c)).value;
    if n != c {
      OverlappingNames(raw, c, n);
    }
  }

  /** The identifier is the same string for two channels when one name extends the other. */
  lemma AmbiguousAddress(names: seq<string>, a: string, b: string, urlChannel: string,
                         resolve: string -> Option<string>)
    requires a in names && b in names && a != b && HasPrefix(b, a)
    ensures exists c, raw :: c in names && !RoundTrips(names, c, raw, urlChannel, resolve)
  {
    var raw := StripPrefix(b, a) + "_";
    assert b == a + "_" + StripPrefix(b, a);
    assert AddPrefix("", b) == AddPrefix(raw, a);
    if RoundTrips(names, b, "", urlChannel, resolve) {
      assert !RoundTrips(names, a, raw, urlChannel, resolve);
    }
  }

  /** Reply-address round trip, without anonymization: for every channel, original id and
      webhook channel the reply returns to the originating channel with the original id,
      exactly when the registered names are prefix-free.  The order of registration does
      not matter. */
  lemma ReplyAddressIff(names: seq<string>, urlChannel: string, resolve: string -> Option<string>)
    ensures (forall c, raw | c in names :: RoundTrips(names, c, raw, urlChannel, resolve))
            <==> PrefixFree(names)
  {
    if PrefixFree(names) {
      forall c, raw | c in names
        ensures RoundTrips(names, c, raw, urlChannel, resolve)
      {
        RoundTrip(names, c, raw, urlChannel, resolve);
      }
    } else {
      var a, b :| a in names && b in names && a != b && HasPrefix(b, a);
      AmbiguousAddress(names, a, b, urlChannel, resolve);
    }
  }

  /** Under anonymization an identifier a channel tagged with its own name goes to that
      channel untouched, whatever the webhook channel. */
  lemma OwnIdentityVerbatim(names: seq<string>, c: string, token: string, urlChannel: string,
                            resolve: string -> Option<string>)
    requires PrefixFree(names) && c in names
    ensures Route(true, AddPrefix(token, c), urlChannel, names, resolve) == To(c, AddPrefix(token, c))
  {
    PrefixAdded(token, c);
    FirstMatchIs(names, AddPrefix(token, c));
    var n := FirstMatch(names, AddPrefix(token, c)).value;
    if n != c {
      OverlappingNames(token, c, n);
    }
  }

  /** An identifier that names no channel, and one that is no string, go to the channel of the
      webhook as they are, if there is such a channel. */
  lemma UnprefixedFallsBack(names: seq<string>, identifier: string, urlChannel: string,
                            resolve: string -> Option<string>)
    requires forall n :: n in names ==> !(n + "_" <= identifier)
    ensures ResolveOutgoing(None, urlChannel, names) == urlChannel
    ensures Route(false, identifier, urlChannel, names, resolve)
              == if urlChannel in names then To(urlChannel, identifier) else UnknownChannel
  {
    FirstMatchIs(names, identifier);
  }

  /** Under anonymization such an identifier is an alias; an unknown one reaches nobody. */
  lemma UnknownAliasIsRefused(names: seq<string>, identifier: string, urlChannel: string,
                              resolve: string -> Option<string>)
    requires forall n :: n in names ==> !(n + "_" <= identifier)
    ensures Route(true, identifier, urlChannel, names, resolve) == UnknownAlias <==> resolve(identifier) == None
  {
    FirstMatchIs(names, identifier);
  }

  // ---------------------------------------------------------------- the shipped names

  /** The entry points the package declares. */
  const SHIPPED: seq<Registry.EntryPoint> := [
    Registry.EntryPoint("telegram", "telegram"),
    Registry.EntryPoint("email", "email"),
    Registry.EntryPoint("imessage", "imessage"),
    Registry.EntryPoint("signal", "signal"),
    Registry.EntryPoint("whatsapp", "whatsapp"),
    Registry.EntryPoint("deltachat", "delta_chat"),
    Registry.EntryPoint("session", "session"),
    Registry.EntryPoint("simplex", "simplex")
  ]

  predicate Shipped(name: string) {
    name in ["telegram", "email", "imessage", "signal", "whatsapp", "deltachat", "delta_chat", "session", "simplex"]
  }

  lemma PrefixShape(identifier: string, name: string)
    ensures HasPrefix(identifier, name) ==>
              |name| < |identifier| && identifier[|name|] == '_'
              && (name != "" ==> identifier[0] == name[0])
  {
    if HasPrefix(identifier, name) {
      assert (name + "_")[|name|] == '_';
      assert name != "" ==> (name + "_")[0] == name[0];
    }
  }

  lemma ShippedApart(a: string, b: string)
    requires Shipped(a) && Shipped(b)
    ensures !HasPrefix(b, a)
  {
    assert forall i :: 0 <= i < |b| && b[i] == '_' ==> b == "delta_chat" && i == 5;
    assert |a| == 5 ==> a[0] == 'e';
    PrefixShape(b, a);
  }

  /** However many of the shipped entry points are installed, in whatever order, and
      whichever of them are selected, the names they register are prefix-free. */
  lemma ShippedNamesPrefixFree(eps: seq<Registry.EntryPoint>, targets: set<string>)
    requires forall i :: 0 <= i < |eps| ==> eps[i] in SHIPPED
    ensures PrefixFree(Registry.Discovered(Registry.EmptyTable, eps, |eps|, targets).names)
  {
    var names := Registry.Discovered(Registry.EmptyTable, eps, |eps|, targets).names;
    Registry.DiscoveryIsExact(eps, |eps|, targets);
    forall n | n in names
      ensures Shipped(n)
    {
      var t := Registry.Discovered(Registry.EmptyTable, eps, |eps|, targets);
      assert n in t.channels && eps[t.channels[n]] in SHIPPED;
    }
    forall a, b | a in names && b in names
      ensures !HasPrefix(b, a)
    {
      ShippedApart(a, b);
    }
  }
}
