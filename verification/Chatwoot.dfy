/** Delivery into Chatwoot: find or create the contact, find or create the conversation,
    create the message.  Each request of an attempt is a step of its own and can fail
    before or after its effect, so a run interleaves attempts of any number of tasks. */
module Chatwoot {
  import opened Common

  /** What the Chatwoot server stores.  Ids are positions; creation never looks for an
      existing object. */
  datatype Contact = Contact(account: nat, identifier: string)
  datatype Conversation = Conversation(contact: nat, inbox: nat)
  datatype Message = Message(conversation: nat, content: string)

  datatype Remote = Remote(contacts: seq<Contact>, conversations: seq<Conversation>, messages: seq<Message>)

  /** One delivery: whose message, for which inbox. */
  datatype Request = Request(account: nat, identifier: string, inbox: nat, content: string) {
    function Owner(): Contact {
      Contact(account, identifier)
    }
  }

  /** The request an attempt makes next.  `Creating`: its search found no contact.
      `Starting`: the contact is new, or its list had no conversation for the inbox. */
  datatype Phase =
    | Searching
    | Creating
    | Listing(contact: nat)
    | Starting(contact: nat)
    | Uploading(conversation: nat)
    | Sending(conversation: nat)
    | Done(conversation: nat)
    | Failed(err: Error)

  datatype Attempt = Attempt(request: Request, phase: Phase) {
    predicate Active() {
      !phase.Done? && !phase.Failed?
    }
  }

  datatype State = State(remote: Remote, attempts: map<nat, Attempt>)

  const Start := State(Remote([], [], []), map[])

  datatype Label = Begin(n: nat, request: Request) | Call(n: nat, o: Outcome)

  /** The first position of a value; the search endpoint returns the exact contact first. */
  function Find<T(==)>(s: seq<T>, x: T): (r: Option<nat>)
    ensures r.Some? ==> r.value < |s| && s[r.value] == x && x !in s[..r.value]
    ensures r == None ==> x !in s
  {
    if s == [] then None
    else if s[0] == x then Some(0)
    else
      match Find(s[1..], x)
      case None => None
      case Some(i) =>
        assert s[..i + 1] == [s[0]] + s[1..][..i];
        Some(i + 1)
  }

  predicate Enabled(s: State, l: Label) {
    match l
    case Begin(n, _) => n !in s.attempts
    case Call(n, _) => n in s.attempts && s.attempts[n].Active()
  }

  /** What a request leaves on the server. */
  function Effect(r: Remote, a: Attempt, o: Outcome): Remote {
    if !o.Applied() then r
    else
      match a.phase
      case Creating => r.(contacts := r.contacts + [a.request.Owner()])
      case Starting(contact) => r.(conversations := r.conversations + [Conversation(contact, a.request.inbox)])
      case Sending(conversation) => r.(messages := r.messages + [Message(conversation, a.request.content)])
      case _ => r
  }

  /** Where a request that returned takes the attempt. */
  function Next(r: Remote, a: Attempt): Phase
    requires a.Active()
  {
    match a.phase
    case Searching =>
      (match Find(r.contacts, a.request.Owner())
       case Some(id) => Listing(id)
       case None => Creating)
    case Creating => Starting(|r.contacts|)
    case Listing(contact) =>
      (match Find(r.conversations, Conversation(contact, a.request.inbox))
       case Some(id) => Uploading(id)
       case None => Starting(contact))
    case Starting(_) => Uploading(|r.conversations|)
    case Uploading(conversation) => Sending(conversation)
    case Sending(conversation) => Done(conversation)
  }

  function Step(s: State, l: Label): State
    requires Enabled(s, l)
  {
    match l
    case Begin(n, q) => s.(attempts := s.attempts[n := Attempt(q, Searching)])
    case Call(n, o) =>
      var a := s.attempts[n];
      State(Effect(s.remote, a, o),
            s.attempts[n := a.(phase := if o.Ok? then Next(s.remote, a) else Failed(o.err))])
  }

  ghost predicate Legal(s: State, run: seq<Label>)
    decreases |run|
  {
    run == [] || (Enabled(s, run[0]) && Legal(Step(s, run[0]), run[1..]))
  }

  ghost function After(s: State, run: seq<Label>): State
    requires Legal(s, run)
    decreases |run|
  {
    if run == [] then s else After(Step(s, run[0]), run[1..])
  }

  lemma {:induction false} OneMore(s: State, run: seq<Label>, l: Label)
    requires Legal(s, run) && Enabled(After(s, run), l)
    ensures Legal(s, run + [l]) && After(s, run + [l]) == Step(After(s, run), l)
    decreases |run|
  {
    if run == [] {
      assert run + [l] == [l] && [l][1..] == [] && Legal(Step(s, l), []);
    } else {
      assert (run + [l])[1..] == run[1..] + [l];
      OneMore(Step(s, run[0]), run[1..], l);
    }
  }

  // ---------------------------------------------------------------- every interleaving

  /** The conversation is one of the contact and inbox of the request. */
  ghost predicate BelongsTo(r: Remote, conversation: nat, q: Request) {
    && conversation < |r.conversations|
    && r.conversations[conversation].inbox == q.inbox
    && r.conversations[conversation].contact < |r.contacts|
    && r.contacts[r.conversations[conversation].contact] == q.Owner()
  }

  ghost predicate PhaseSound(r: Remote, a: Attempt) {
    match a.phase
    case Listing(contact) => contact < |r.contacts| && r.contacts[contact] == a.request.Owner()
    case Starting(contact) => contact < |r.contacts| && r.contacts[contact] == a.request.Owner()
    case Uploading(conversation) => BelongsTo(r, conversation, a.request)
    case Sending(conversation) => BelongsTo(r, conversation, a.request)
    case Done(conversation) =>
      BelongsTo(r, conversation, a.request) && Message(conversation, a.request.content) in r.messages
    case _ => true
  }

  /** No conversation or message hangs in the air, and every attempt works where it belongs. */
  ghost predicate Sound(s: State) {
    && (forall i :: 0 <= i < |s.remote.conversations| ==> s.remote.conversations[i].contact < |s.remote.contacts|)
    && (forall i :: 0 <= i < |s.remote.messages| ==> s.remote.messages[i].conversation < |s.remote.conversations|)
    && (forall n :: n in s.attempts ==> PhaseSound(s.remote, s.attempts[n]))
  }

  ghost predicate Grows(r: Remote, r': Remote) {
    r.contacts <= r'.contacts && r.conversations <= r'.conversations && r.messages <= r'.messages
  }

  lemma SoundGrows(r: Remote, r': Remote, a: Attempt)
    requires Grows(r, r') && PhaseSound(r, a)
    ensures PhaseSound(r', a)
  {
  }

  lemma CallSound(r: Remote, a: Attempt, o: Outcome)
    requires PhaseSound(r, a) && a.Active()
    ensures Grows(r, Effect(r, a, o))
    ensures o.Ok? ==> PhaseSound(Effect(r, a, o), a.(phase := Next(r, a)))
  {
    if a.phase.Sending? && o.Ok? {
      assert Effect(r, a, o).messages[|r.messages|] == Message(a.phase.conversation, a.request.content);
    }
  }

  lemma StepSound(s: State, l: Label)
    requires Sound(s) && Enabled(s, l)
    ensures Sound(Step(s, l)) && Grows(s.remote, Step(s, l).remote)
  {
    if l.Call? {
      var r' := Effect(s.remote, s.attempts[l.n], l.o);
      CallSound(s.remote, s.attempts[l.n], l.o);
      forall n | n in s.attempts
        ensures PhaseSound(r', s.attempts[n])
      {
        SoundGrows(s.remote, r', s.attempts[n]);
      }
    }
  }

  lemma {:induction false} RunSound(s: State, run: seq<Label>)
    requires Sound(s) && Legal(s, run)
    ensures Sound(After(s, run)) && Grows(s.remote, After(s, run).remote)
    decreases |run|
  {
    if run != [] {
      StepSound(s, run[0]);
      RunSound(Step(s, run[0]), run[1..]);
    }
  }

  /** Whatever overlaps and wherever requests fail: a delivered attempt has put its message
      into a conversation of its own contact and inbox; and a request leaves at most one
      object, the contact of its attempt, a conversation of that contact and inbox, or
      its message in such a conversation, and with the message its attempt is over. */
  lemma AttemptKeeps(run: seq<Label>, l: Label)
    requires Legal(Start, run) && Enabled(After(Start, run), l) && l.Call?
    ensures var s, s' := After(Start, run), Step(After(Start, run), l);
            var r, r', q := s.remote, s'.remote, s.attempts[l.n].request;
            && (r'.contacts == r.contacts || r'.contacts == r.contacts + [q.Owner()])
            && (r'.conversations == r.conversations
                || (|r'.conversations| == |r.conversations| + 1 && BelongsTo(r', |r.conversations|, q)))
            && (r'.messages == r.messages
                || (r'.messages == r.messages + [Message(s.attempts[l.n].phase.conversation, q.content)]
                    && BelongsTo(r', s.attempts[l.n].phase.conversation, q) && !s'.attempts[l.n].Active()))
            && (s'.attempts[l.n].phase.Done? ==>
                  BelongsTo(r', s'.attempts[l.n].phase.conversation, q)
                  && Message(s'.attempts[l.n].phase.conversation, q.content) in r'.messages)
  {
    RunSound(Start, run);
    var s := After(Start, run);
    assert PhaseSound(s.remote, s.attempts[l.n]);
    StepSound(s, l);
    assert PhaseSound(Step(s, l).remote, Step(s, l).attempts[l.n]);
  }

  ghost predicate RaisedBy(run: seq<Label>, n: nat, err: Error) {
    exists applied :: Call(n, Raised(err, applied)) in run
  }

  lemma {:induction false} RunFails(s: State, run: seq<Label>, n: nat, err: Error)
    requires Legal(s, run)
    ensures n in After(s, run).attempts && After(s, run).attempts[n].phase == Failed(err)
            <==> (n in s.attempts && s.attempts[n].phase == Failed(err)) || RaisedBy(run, n, err)
    decreases |run|
  {
    if run != [] {
      assert run == [run[0]] + run[1..];
      RunFails(Step(s, run[0]), run[1..], n, err);
      StepFails(s, run[0], n, err);
    }
  }

  lemma StepFails(s: State, l: Label, n: nat, err: Error)
    requires Enabled(s, l)
    ensures n in Step(s, l).attempts && Step(s, l).attempts[n].phase == Failed(err)
            <==> (n in s.attempts && s.attempts[n].phase == Failed(err)) || RaisedBy([l], n, err)
  {
    if l.Call? && l.n == n && l.o.Raised? {
      assert l == Call(n, Raised(l.o.err, l.o.applied));
      assert l.o.err == err ==> Call(n, Raised(err, l.o.applied)) in [l];
    }
  }

  /** An attempt fails exactly when one of its requests raises, and with that error. */
  lemma FailsAsRaised(run: seq<Label>, n: nat, err: Error)
    requires Legal(Start, run)
    ensures n in After(Start, run).attempts && After(Start, run).attempts[n].phase == Failed(err)
            <==> exists applied :: Call(n, Raised(err, applied)) in run
  {
    RunFails(Start, run, n, err);
  }

  // ---------------------------------------------------------------- when something is duplicated

  ghost predicate Gains<T>(s: seq<T>, s': seq<T>, x: T) {
    exists i :: |s| <= i < |s'| && s'[i] == x
  }

  /** An attempt for the contact stands between its empty search and its create. */
  ghost predicate AboutToCreate(s: State, c: Contact) {
    exists n :: n in s.attempts && s.attempts[n].request.Owner() == c && s.attempts[n].phase == Creating
  }

  /** An attempt stands between learning that there is no such conversation and its create. */
  ghost predicate AboutToStart(s: State, v: Conversation) {
    exists n :: n in s.attempts && s.attempts[n].request.inbox == v.inbox && s.attempts[n].phase == Starting(v.contact)
  }

  lemma StepNoContact(s: State, l: Label, c: Contact)
    requires Enabled(s, l) && c in s.remote.contacts && !AboutToCreate(s, c)
    ensures c in Step(s, l).remote.contacts && !AboutToCreate(Step(s, l), c)
    ensures s.remote.contacts <= Step(s, l).remote.contacts
    ensures !Gains(s.remote.contacts, Step(s, l).remote.contacts, c)
  {
  }

  lemma {:induction false} RunNoContact(s: State, run: seq<Label>, c: Contact)
    requires Legal(s, run) && c in s.remote.contacts && !AboutToCreate(s, c)
    ensures s.remote.contacts <= After(s, run).remote.contacts
    ensures !Gains(s.remote.contacts, After(s, run).remote.contacts, c)
    decreases |run|
  {
    if run != [] {
      StepNoContact(s, run[0], c);
      RunNoContact(Step(s, run[0]), run[1..], c);
    }
  }

  lemma StepNoConversation(s: State, l: Label, v: Conversation)
    requires Sound(s) && Enabled(s, l) && v in s.remote.conversations && !AboutToStart(s, v)
    ensures v in Step(s, l).remote.conversations && !AboutToStart(Step(s, l), v)
    ensures s.remote.conversations <= Step(s, l).remote.conversations
    ensures !Gains(s.remote.conversations, Step(s, l).remote.conversations, v)
  {
  }

  lemma {:induction false} RunNoConversation(s: State, run: seq<Label>, v: Conversation)
    requires Sound(s) && Legal(s, run) && v in s.remote.conversations && !AboutToStart(s, v)
    ensures s.remote.conversations <= After(s, run).remote.conversations
    ensures !Gains(s.remote.conversations, After(s, run).remote.conversations, v)
    decreases |run|
  {
    if run != [] {
      StepNoConversation(s, run[0], v);
      StepSound(s, run[0]);
      RunNoConversation(Step(s, run[0]), run[1..], v);
    }
  }

  ghost predicate MoreContacts(s: State, run: seq<Label>, c: Contact)
    requires Legal(s, run)
  {
    Gains(s.remote.contacts, After(s, run).remote.contacts, c)
  }

  ghost predicate MoreConversations(s: State, run: seq<Label>, v: Conversation)
    requires Legal(s, run)
  {
    Gains(s.remote.conversations, After(s, run).remote.conversations, v)
  }

  lemma CallCreates(s: State, n: nat)
    requires n in s.attempts && s.attempts[n].Active()
    ensures Legal(s, [Call(n, Ok)]) && After(s, [Call(n, Ok)]) == Step(s, Call(n, Ok))
    ensures var a := s.attempts[n];
            && (a.phase.Creating? ==> MoreContacts(s, [Call(n, Ok)], a.request.Owner()))
            && (a.phase.Starting? ==>
                  MoreConversations(s, [Call(n, Ok)], Conversation(a.phase.contact, a.request.inbox)))
  {
    OneMore(s, [], Call(n, Ok));
    assert [] + [Call(n, Ok)] == [Call(n, Ok)];
    var a, t := s.attempts[n], Step(s, Call(n, Ok));
    assert a.phase.Creating? ==> t.remote.contacts[|s.remote.contacts|] == a.request.Owner();
    assert a.phase.Starting? ==>
      t.remote.conversations[|s.remote.conversations|] == Conversation(a.phase.contact, a.request.inbox);
  }

  /** A contact that exists is created once more in some interleaving exactly when an
      attempt for it stands between an empty search and its create. */
  lemma AnotherContactIff(s: State, c: Contact)
    requires c in s.remote.contacts
    ensures (exists run :: Legal(s, run) && MoreContacts(s, run, c)) <==> AboutToCreate(s, c)
  {
    if AboutToCreate(s, c) {
      var n :| n in s.attempts && s.attempts[n].request.Owner() == c && s.attempts[n].phase == Creating;
      CallCreates(s, n);
    } else {
      forall run | Legal(s, run)
        ensures !MoreContacts(s, run, c)
      {
        RunNoContact(s, run, c);
      }
    }
  }

  /** A conversation of a contact and inbox is created once more exactly when an attempt
      for them stands before its create. */
  lemma AnotherConversationIff(before: seq<Label>, v: Conversation)
    requires Legal(Start, before) && v in After(Start, before).remote.conversations
    ensures var s := After(Start, before);
            (exists run :: Legal(s, run) && MoreConversations(s, run, v)) <==> AboutToStart(s, v)
  {
    var s := After(Start, before);
    RunSound(Start, before);
    if AboutToStart(s, v) {
      var n :| n in s.attempts && s.attempts[n].request.inbox == v.inbox && s.attempts[n].phase == Starting(v.contact);
      CallCreates(s, n);
    } else {
      forall run | Legal(s, run)
        ensures !MoreConversations(s, run, v)
      {
        RunNoConversation(s, run, v);
      }
    }
  }

  /** The run in which two deliveries for a new contact both search before either creates:
      both go through, and leave two contacts and two conversations. */
  lemma OverlapDuplicates(q: Request)
    ensures exists run :: Legal(Start, run) &&
              var s := After(Start, run);
              && s.remote.contacts == [q.Owner(), q.Owner()]
              && s.remote.conversations == [Conversation(0, q.inbox), Conversation(1, q.inbox)]
              && 0 in s.attempts && s.attempts[0] == Attempt(q, Done(0))
              && 1 in s.attempts && s.attempts[1] == Attempt(q, Done(1))
  {
    var run, s := BothSearched(q);
    run, s := CreateAndDeliver(run, s, 0, q);
    run, s := CreateAndDeliver(run, s, 1, q);
  }

  /** An attempt about to create its contact goes through. */
  lemma CreateAndDeliver(run: seq<Label>, s: State, n: nat, q: Request) returns (run': seq<Label>, s': State)
    requires Legal(Start, run) && s == After(Start, run) && n in s.attempts && s.attempts[n] == Attempt(q, Creating)
    ensures Legal(Start, run') && s' == After(Start, run')
    ensures s'.remote.contacts == s.remote.contacts + [q.Owner()]
    ensures s'.remote.conversations == s.remote.conversations + [Conversation(|s.remote.contacts|, q.inbox)]
    ensures s'.attempts == s.attempts[n := Attempt(q, Done(|s.remote.conversations|))]
  {
    run', s' := Advance(run, s, n);
    assert s'.attempts == s.attempts[n := Attempt(q, Starting(|s.remote.contacts|))];
    run', s' := Advance(run', s', n);
    assert s'.attempts == s.attempts[n := Attempt(q, Uploading(|s.remote.conversations|))];
    run', s' := Advance(run', s', n);
    run', s' := Advance(run', s', n);
  }

  lemma BothSearched(q: Request) returns (run: seq<Label>, s: State)
    ensures Legal(Start, run) && s == After(Start, run)
    ensures s == State(Remote([], [], []), map[0 := Attempt(q, Creating), 1 := Attempt(q, Creating)])
  {
    OneMore(Start, [], Begin(0, q));
    run := [] + [Begin(0, q)];
    OneMore(Start, run, Begin(1, q));
    run := run + [Begin(1, q)];
    run, s := Advance(run, After(Start, run), 0);
    run, s := Advance(run, s, 1);
  }

  /** The next request of an attempt succeeds. */
  lemma Advance(run: seq<Label>, s: State, n: nat) returns (run': seq<Label>, s': State)
    requires Legal(Start, run) && s == After(Start, run) && n in s.attempts && s.attempts[n].Active()
    ensures Legal(Start, run') && s' == After(Start, run')
    ensures s' == Step(s, Call(n, Ok))
  {
    OneMore(Start, run, Call(n, Ok));
    run' := run + [Call(n, Ok)];
    s' := After(Start, run');
  }

  // ---------------------------------------------------------------- attempts one by one

  /** At most one attempt for the contact is under way. */
  ghost predicate Serial(s: State, c: Contact) {
    forall m, n | ActiveFor(s, m, c) && ActiveFor(s, n, c) :: m == n
  }

  ghost predicate ActiveFor(s: State, n: nat, c: Contact) {
    n in s.attempts && s.attempts[n].request.Owner() == c && s.attempts[n].Active()
  }

  ghost predicate NeverOverlapping(s: State, run: seq<Label>, c: Contact)
    requires Legal(s, run)
    decreases |run|
  {
    Serial(s, c) && (run == [] || NeverOverlapping(Step(s, run[0]), run[1..], c))
  }

  ghost predicate Once<T(!new)>(s: seq<T>, x: T) {
    forall i, j :: 0 <= i < |s| && 0 <= j < |s| && s[i] == x && s[j] == x ==> i == j
  }

  ghost predicate OfContact(r: Remote, v: Conversation, c: Contact) {
    v.contact < |r.contacts| && r.contacts[v.contact] == c
  }

  /** The contact exists at most once, and so does each of its conversations; what exists
      nobody is about to create. */
  ghost predicate Unique(s: State, c: Contact) {
    && Once(s.remote.contacts, c)
    && (c in s.remote.contacts ==> !AboutToCreate(s, c))
    && (forall v | OfContact(s.remote, v, c) ::
          Once(s.remote.conversations, v) && (v in s.remote.conversations ==> !AboutToStart(s, v)))
  }

  lemma StepOneContact(s: State, l: Label, c: Contact)
    requires Once(s.remote.contacts, c) && (c in s.remote.contacts ==> !AboutToCreate(s, c))
    requires Serial(s, c) && Enabled(s, l)
    ensures Once(Step(s, l).remote.contacts, c)
    ensures c in Step(s, l).remote.contacts ==> !AboutToCreate(Step(s, l), c)
  {
    var s' := Step(s, l);
    if c in s.remote.contacts {
      StepNoContact(s, l, c);
    } else if c in s'.remote.contacts {
      assert ActiveFor(s, l.n, c);
      forall n | n in s'.attempts && s'.attempts[n].request.Owner() == c && s'.attempts[n].phase == Creating
        ensures false
      {
        assert n != l.n ==> ActiveFor(s, n, c);
      }
    }
  }

  lemma StepOneConversation(s: State, l: Label, c: Contact, v: Conversation)
    requires Sound(s) && Enabled(s, l) && Serial(s, c) && OfContact(s.remote, v, c)
    requires Once(s.remote.conversations, v) && (v in s.remote.conversations ==> !AboutToStart(s, v))
    ensures Once(Step(s, l).remote.conversations, v)
    ensures v in Step(s, l).remote.conversations ==> !AboutToStart(Step(s, l), v)
  {
    var s' := Step(s, l);
    if v in s.remote.conversations {
      StepNoConversation(s, l, v);
    } else if v in s'.remote.conversations {
      assert PhaseSound(s.remote, s.attempts[l.n]);
      assert ActiveFor(s, l.n, c);
      forall n | n in s'.attempts && s'.attempts[n].request.inbox == v.inbox
                 && s'.attempts[n].phase == Starting(v.contact)
        ensures false
      {
        assert n != l.n;
        assert PhaseSound(s.remote, s.attempts[n]);
        assert ActiveFor(s, n, c);
      }
    }
  }

  /** A contact that is created now has no conversation, and nobody is about to start one. */
  lemma StepNewContact(s: State, l: Label, c: Contact, v: Conversation)
    requires Sound(s) && Enabled(s, l) && !OfContact(s.remote, v, c) && OfContact(Step(s, l).remote, v, c)
    ensures v !in Step(s, l).remote.conversations
  {
  }

  lemma StepUnique(s: State, l: Label, c: Contact)
    requires Sound(s) && Unique(s, c) && Serial(s, c) && Enabled(s, l)
    ensures Sound(Step(s, l)) && Unique(Step(s, l), c)
  {
    StepSound(s, l);
    StepOneContact(s, l, c);
    forall v | OfContact(Step(s, l).remote, v, c)
      ensures Once(Step(s, l).remote.conversations, v)
      ensures v in Step(s, l).remote.conversations ==> !AboutToStart(Step(s, l), v)
    {
      if OfContact(s.remote, v, c) {
        StepOneConversation(s, l, c, v);
      } else {
        StepNewContact(s, l, c, v);
      }
    }
  }

  lemma {:induction false} RunUnique(s: State, run: seq<Label>, c: Contact)
    requires Sound(s) && Unique(s, c) && Legal(s, run) && NeverOverlapping(s, run, c)
    ensures Sound(After(s, run)) && Unique(After(s, run), c)
    decreases |run|
  {
    if run != [] {
      StepUnique(s, run[0], c);
      RunUnique(Step(s, run[0]), run[1..], c);
    }
  }

  /** Retry-safe find-or-create: over any number of attempts for a contact that do not
      overlap, each failing wherever it likes, while attempts for others go on, the
      contact is created at most once, and so is its conversation for each inbox; and any
      two attempts that delivered for one contact and inbox used the same conversation. */
  lemma RetriesConverge(run: seq<Label>, c: Contact)
    requires Legal(Start, run) && NeverOverlapping(Start, run, c)
    ensures var s := After(Start, run);
            && Once(s.remote.contacts, c)
            && (forall v | OfContact(s.remote, v, c) :: Once(s.remote.conversations, v))
            && forall m, n | DeliveredFor(s, m, c) && DeliveredFor(s, n, c) ::
                 s.attempts[m].request.inbox == s.attempts[n].request.inbox ==>
                   s.attempts[m].phase == s.attempts[n].phase
  {
    RunUnique(Start, run, c);
    UniqueConverges(After(Start, run), c);
  }

  ghost predicate DeliveredFor(s: State, n: nat, c: Contact) {
    n in s.attempts && s.attempts[n].request.Owner() == c && s.attempts[n].phase.Done?
  }

  lemma UniqueConverges(s: State, c: Contact)
    requires Sound(s) && Unique(s, c)
    ensures forall m, n | DeliveredFor(s, m, c) && DeliveredFor(s, n, c) ::
              s.attempts[m].request.inbox == s.attempts[n].request.inbox ==>
                s.attempts[m].phase == s.attempts[n].phase
  {
    forall m, n | DeliveredFor(s, m, c) && DeliveredFor(s, n, c)
                  && s.attempts[m].request.inbox == s.attempts[n].request.inbox
      ensures s.attempts[m].phase == s.attempts[n].phase
    {
      assert PhaseSound(s.remote, s.attempts[m]) && PhaseSound(s.remote, s.attempts[n]);
      var a, b := s.attempts[m].phase.conversation, s.attempts[n].phase.conversation;
      var v := s.remote.conversations[a];
      assert s.remote.conversations[b].contact == v.contact;
      assert OfContact(s.remote, v, c) && s.remote.conversations[b] == v;
    }
  }

  // ---------------------------------------------------------------- the client object

  /** What happens to each request of an attempt, in the order they may be made. */
  datatype Plan = Plan(
    search: Outcome, createContact: Outcome, listConversations: Outcome,
    createConversation: Outcome, upload: Outcome, createMessage: Outcome)

  /** No request the attempt makes fails. */
  predicate GoesThrough(r: Remote, q: Request, p: Plan) {
    && p.search.Ok? && p.upload.Ok? && p.createMessage.Ok?
    && match Find(r.contacts, q.Owner())
       case None => p.createContact.Ok? && p.createConversation.Ok?
       case Some(id) => FindsConversation(r.conversations, Conversation(id, q.inbox), p)
  }

  predicate FindsConversation(conversations: seq<Conversation>, v: Conversation, p: Plan) {
    p.listConversations.Ok? && (v in conversations || p.createConversation.Ok?)
  }

  /** `run` is a run from `s` made of steps of attempt `n` only. */
  ghost predicate AttemptRun(s: State, run: seq<Label>, n: nat) {
    Legal(s, run) && forall i :: 0 <= i < |run| ==> run[i].n == n
  }

  /** The client, with the server it talks to. */
  class ChatwootClient {
    var contacts: seq<Contact>
    var conversations: seq<Conversation>
    var messages: seq<Message>

    ghost function View(): Remote
      reads this
    {
      Remote(contacts, conversations, messages)
    }

    constructor ()
      ensures View() == Start.remote
    {
      contacts, conversations, messages := [], [], [];
    }

    /** `deliver_channel_to_chatwoot_message`, run on its own: a run of attempt `n` up to
        its end, `Done` or `Failed`. */
    method Deliver(q: Request, p: Plan, ghost s: State, ghost n: nat)
      returns (result: Phase, ghost run: seq<Label>)
      requires s.remote == View() && n !in s.attempts
      modifies this
      ensures AttemptRun(s, run, n) && After(s, run).remote == View()
      ensures n in After(s, run).attempts && After(s, run).attempts[n] == Attempt(q, result)
      ensures result.Done? || result.Failed?
      ensures result.Done? <==> GoesThrough(old(View()), q, p)
    {
      run := [] + [Begin(n, q)];
      OneMore(s, [], Begin(n, q));
      OneMore(s, run, Call(n, p.search));
      run := run + [Call(n, p.search)];
      if p.search.Raised? {
        return Failed(p.search.err), run;
      }
      var found := Find(contacts, q.Owner());
      var conversation: Phase;
      if found == None {
        conversation, run := DeliverToNew(q, p, s, n, run);
      } else {
        conversation, run := DeliverToKnown(q, p, found.value, s, n, run);
      }
      if conversation.Failed? {
        return conversation, run;
      }
      result, run := SendMessage(q, p, conversation.conversation, s, n, run);
    }

    /** The last part: upload the attachments, then create the message. */
    method SendMessage(q: Request, p: Plan, conversation: nat, ghost s: State, ghost n: nat, ghost before: seq<Label>)
      returns (result: Phase, ghost run: seq<Label>)
      requires AttemptRun(s, before, n) && After(s, before).remote == View()
      requires n in After(s, before).attempts && After(s, before).attempts[n] == Attempt(q, Uploading(conversation))
      modifies this`messages
      ensures AttemptRun(s, run, n) && After(s, run).remote == View()
      ensures n in After(s, run).attempts && After(s, run).attempts[n] == Attempt(q, result)
      ensures if p.upload.Ok? && p.createMessage.Ok? then result == Done(conversation) else result.Failed?
    {
      OneMore(s, before, Call(n, p.upload));
      run := before + [Call(n, p.upload)];
      if p.upload.Raised? {
        return Failed(p.upload.err), run;
      }
      OneMore(s, run, Call(n, p.createMessage));
      run := run + [Call(n, p.createMessage)];
      if p.createMessage.Applied() {
        messages := messages + [Message(conversation, q.content)];
      }
      result := if p.createMessage.Raised? then Failed(p.createMessage.err) else Done(conversation);
    }

    /** The branch for an unknown contact: create it and a conversation. */
    method DeliverToNew(q: Request, p: Plan, ghost s: State, ghost n: nat, ghost before: seq<Label>)
      returns (next: Phase, ghost run: seq<Label>)
      requires AttemptRun(s, before, n) && After(s, before).remote == View()
      requires n in After(s, before).attempts && After(s, before).attempts[n] == Attempt(q, Creating)
      modifies this`contacts, this`conversations
      ensures AttemptRun(s, run, n) && After(s, run).remote == View()
      ensures n in After(s, run).attempts && After(s, run).attempts[n] == Attempt(q, next)
      ensures if p.createContact.Ok? && p.createConversation.Ok? then next == Uploading(|old(conversations)|)
              else next.Failed?
    {
      OneMore(s, before, Call(n, p.createContact));
      run := before + [Call(n, p.createContact)];
      var created := CreateContact(q.Owner(), p.createContact);
      if created == None {
        return Failed(p.createContact.err), run;
      }
      OneMore(s, run, Call(n, p.createConversation));
      run := run + [Call(n, p.createConversation)];
      var started := CreateConversation(Conversation(created.value, q.inbox), p.createConversation);
      next := if started == None then Failed(p.createConversation.err) else Uploading(started.value);
    }

    /** The branch for a contact found: look for its conversation, or create one. */
    method DeliverToKnown(q: Request, p: Plan, contact: nat, ghost s: State, ghost n: nat, ghost before: seq<Label>)
      returns (next: Phase, ghost run: seq<Label>)
      requires AttemptRun(s, before, n) && After(s, before).remote == View()
      requires n in After(s, before).attempts && After(s, before).attempts[n] == Attempt(q, Listing(contact))
      modifies this`conversations
      ensures AttemptRun(s, run, n) && After(s, run).remote == View()
      ensures n in After(s, run).attempts && After(s, run).attempts[n] == Attempt(q, next)
      ensures next.Uploading? || next.Failed?
      ensures next.Uploading? <==> FindsConversation(old(conversations), Conversation(contact, q.inbox), p)
    {
      OneMore(s, before, Call(n, p.listConversations));
      run := before + [Call(n, p.listConversations)];
      if p.listConversations.Raised? {
        return Failed(p.listConversations.err), run;
      }
      var known := GetConversationId(Conversation(contact, q.inbox));
      if known == None {
        OneMore(s, run, Call(n, p.createConversation));
        run := run + [Call(n, p.createConversation)];
        known := CreateConversation(Conversation(contact, q.inbox), p.createConversation);
      }
      next := if known == None then Failed(p.createConversation.err) else Uploading(known.value);
    }

    method CreateContact(c: Contact, o: Outcome) returns (id: Option<nat>)
      modifies this`contacts
      ensures contacts == if o.Applied() then old(contacts) + [c] else old(contacts)
      ensures id == if o.Ok? then Some(|old(contacts)|) else None
    {
      id := if o.Ok? then Some(|contacts|) else None;
      if o.Applied() {
        contacts := contacts + [c];
      }
    }

    method CreateConversation(c: Conversation, o: Outcome) returns (id: Option<nat>)
      modifies this`conversations
      ensures conversations == if o.Applied() then old(conversations) + [c] else old(conversations)
      ensures id == if o.Ok? then Some(|old(conversations)|) else None
    {
      id := if o.Ok? then Some(|conversations|) else None;
      if o.Applied() {
        conversations := conversations + [c];
      }
    }

    /** `_get_conversation_id`: scan the contact's conversations for the inbox. */
    method GetConversationId(wanted: Conversation) returns (id: Option<nat>)
      ensures id == Find(conversations, wanted)
    {
      for i := 0 to |conversations|
        invariant wanted !in conversations[..i]
      {
        if conversations[i] == wanted {
          FindFirst(conversations, i, wanted);
          return Some(i);
        }
      }
      assert conversations[..|conversations|] == conversations;
      return None;
    }
  }

  lemma {:induction false} FindFirst<T>(s: seq<T>, i: nat, x: T)
    requires i < |s| && s[i] == x && x !in s[..i]
    ensures Find(s, x) == Some(i)
    decreases i
  {
    if i > 0 {
      assert s[0] == s[..i][0];
      assert s[1..][..i - 1] == s[..i][1..];
      FindFirst(s[1..], i - 1, x);
    }
  }
}
