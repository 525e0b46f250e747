/** Replies end to end: what the alias table and the actor table make of the identifiers
    that routing hands to a channel. */
module Replies {
  import opened Common
  import opened Routing
  import AliasStore
  import IdentityStore

  /** Under anonymization, whatever the alias table went through before and since, the
      reply to a contact's alias reaches its channel and real id exactly when it comes in
      on that channel's webhook: an alias, a UUID, does not name its channel. */
  lemma AliasReplyIff(before: seq<AliasStore.Op>, c: string, raw: string, generated: string, o: Outcome,
                      after: seq<AliasStore.Op>, names: seq<string>, urlChannel: string,
                      resolve: string -> Option<string>)
    requires c in names
    requires Issued(before, AliasStore.Contact(c, raw), generated, o).Some?
    requires '_' !in Issued(before, AliasStore.Contact(c, raw), generated, o).value
    requires Answers(Later(before, AliasStore.GetOrCreate(AliasStore.Contact(c, raw), generated, o), after), resolve)
    ensures var alias := Issued(before, AliasStore.Contact(c, raw), generated, o).value;
            Route(true, alias, urlChannel, names, resolve) == To(c, raw) <==> urlChannel == c
  {
    var contact := AliasStore.Contact(c, raw);
    var alias := Issued(before, contact, generated, o).value;
    AliasStore.AliasForEver(before, contact, generated, o, after);
    var t := Later(before, AliasStore.GetOrCreate(contact, generated, o), after);
    assert AliasStore.ResolvesTo(t, alias, resolve(alias));
    FirstMatchIs(names, alias);
    forall n | n in names
      ensures !HasPrefix(alias, n)
    {
      PrefixShape(alias, n);
    }
  }

  /** The alias returned for a contact after some statements. */
  function Issued(before: seq<AliasStore.Op>, contact: AliasStore.Contact, generated: string, o: Outcome)
    : Option<string>
  {
    AliasStore.Returned(AliasStore.Run(map[], before), contact, generated, o)
  }

  /** The alias table after some statements, one more, and some others. */
  function Later(before: seq<AliasStore.Op>, op: AliasStore.Op, after: seq<AliasStore.Op>): AliasStore.Table {
    AliasStore.Run(AliasStore.Apply(AliasStore.Run(map[], before), op), after)
  }

  /** `resolve` answers from the table. */
  ghost predicate Answers(t: AliasStore.Table, resolve: string -> Option<string>) {
    forall alias :: AliasStore.ResolvesTo(t, alias, resolve(alias))
  }

  /** Native Delta Chat names a contact to Chatwoot by its actor id, which carries the name
      of the channel, and looks the identifier of a reply up in the actor table.  The
      reply finds the contact exactly when users are anonymized: otherwise routing strips
      the name off, and no row has what is left. */
  lemma NativeReplyIff(anonymize: bool, run: seq<IdentityStore.Label>, c: IdentityStore.Contact,
                       names: seq<string>, urlChannel: string, resolve: string -> Option<string>)
    requires IdentityStore.Legal(IdentityStore.Start, run) && IdentityStore.PlainTokens(run)
    requires c in IdentityStore.After(IdentityStore.Start, run).table
    requires c.channel in names && PrefixFree(names)
    ensures var t := IdentityStore.After(IdentityStore.Start, run).table;
            var routed := Route(anonymize, t[c], urlChannel, names, resolve);
            && routed.To? && routed.channel == c.channel
            && (IdentityStore.ResolvesTo(t, c.channel, routed.identifier, Some(c.externalId)) <==> anonymize)
            && (IdentityStore.ResolvesTo(t, c.channel, routed.identifier, None) <==> !anonymize)
  {
    var t := IdentityStore.After(IdentityStore.Start, run).table;
    IdentityStore.RunTagged(IdentityStore.Start, run);
    assert IdentityStore.Tagged(c.channel, t[c]);
    var token := t[c][|c.channel| + 1..];
    assert t[c] == AddPrefix(token, c.channel);
    assert c == IdentityStore.Contact(c.channel, c.externalId);
    if anonymize {
      OwnIdentityVerbatim(names, c.channel, token, urlChannel, resolve);
    } else {
      RoundTrip(names, c.channel, token, urlChannel, resolve);
      forall d | d in t
        ensures t[d] != token
      {
        assert IdentityStore.Tagged(d.channel, t[d]);
        assert t[d][|d.channel|] == (d.channel + "_")[|d.channel|];
      }
    }
  }

  /** Through the orchestrator the actor id is prefixed once more, and comes back whole. */
  lemma OrchestratedActorReplies(run: seq<IdentityStore.Label>, c: IdentityStore.Contact,
                                 names: seq<string>, urlChannel: string, resolve: string -> Option<string>)
    requires IdentityStore.Legal(IdentityStore.Start, run)
    requires c in IdentityStore.After(IdentityStore.Start, run).table
    requires c.channel in names && PrefixFree(names)
    ensures var t := IdentityStore.After(IdentityStore.Start, run).table;
            var routed := Route(false, AddPrefix(t[c], c.channel), urlChannel, names, resolve);
            && routed.To? && routed.channel == c.channel
            && IdentityStore.ResolvesTo(t, c.channel, routed.identifier, Some(c.externalId))
            && forall r :: IdentityStore.ResolvesTo(t, c.channel, routed.identifier, r) ==> r == Some(c.externalId)
  {
    var t := IdentityStore.After(IdentityStore.Start, run).table;
    IdentityStore.RunInjective(IdentityStore.Start, run);
    RoundTrip(names, c.channel, t[c], urlChannel, resolve);
    assert c == IdentityStore.Contact(c.channel, c.externalId);
  }
}
