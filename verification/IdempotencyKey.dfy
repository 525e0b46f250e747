/** The idempotency keys of the envelope factories, with the hash left abstract: any
    function to strings of twelve characters. */
module IdempotencyKey {
  import opened Common

  // ---------------------------------------------------------------- keyword arguments

  /** One keyword argument of a call. */
  datatype Extra = Extra(key: string, value: string)

  /** Python's order on strings. */
  predicate Less(a: string, b: string)
    decreases |a|
  {
    b != "" && (a == "" || a[0] < b[0] || (a[0] == b[0] && Less(a[1..], b[1..])))
  }

  lemma {:induction false} LessTotal(a: string, b: string)
    ensures Less(a, b) || a == b || Less(b, a)
    decreases |a|
  {
    if a != "" && b != "" && a[0] == b[0] {
      LessTotal(a[1..], b[1..]);
      assert a == [a[0]] + a[1..] && b == [b[0]] + b[1..];
    }
  }

  lemma {:induction false} LessTransitive(a: string, b: string, c: string)
    requires Less(a, b) && Less(b, c)
    ensures Less(a, c)
    decreases |a|
  {
    if a != "" && a[0] == b[0] && b[0] == c[0] {
      LessTransitive(a[1..], b[1..], c[1..]);
    }
  }

  lemma {:induction false} LessIrreflexive(a: string)
    ensures !Less(a, a)
    decreases |a|
  {
    if a != "" {
      LessIrreflexive(a[1..]);
    }
  }

  function Insert(e: Extra, s: seq<Extra>): seq<Extra> {
    if s == [] || Less(e.key, s[0].key) then [e] + s else [s[0]] + Insert(e, s[1..])
  }

  /** `sorted(extra.items())`. */
  function Sort(s: seq<Extra>): seq<Extra> {
    if s == [] then [] else Insert(s[0], Sort(s[1..]))
  }

  ghost predicate DistinctKeys(s: seq<Extra>) {
    forall i, j :: 0 <= i < j < |s| ==> s[i].key != s[j].key
  }

  ghost predicate Ascending(s: seq<Extra>)
    decreases |s|
  {
    s == [] || (Ascending(s[1..]) && forall e :: e in s[1..] ==> Less(s[0].key, e.key))
  }

  lemma {:induction false} InsertMembers(e: Extra, s: seq<Extra>)
    ensures forall x :: x in Insert(e, s) <==> x == e || x in s
    decreases |s|
  {
    if s != [] && !Less(e.key, s[0].key) {
      InsertMembers(e, s[1..]);
      assert s == [s[0]] + s[1..];
    }
  }

  lemma {:induction false} InsertAscending(e: Extra, s: seq<Extra>)
    requires Ascending(s) && forall x :: x in s ==> x.key != e.key
    ensures Ascending(Insert(e, s))
    decreases |s|
  {
    if s == [] {
      assert ([e])[1..] == [];
    } else if Less(e.key, s[0].key) {
      assert ([e] + s)[1..] == s;
      forall x | x in s
        ensures Less(e.key, x.key)
      {
        assert s == [s[0]] + s[1..];
        if x != s[0] {
          LessTransitive(e.key, s[0].key, x.key);
        }
      }
    } else {
      assert s[0] in s;
      LessTotal(e.key, s[0].key);
      InsertAscending(e, s[1..]);
      InsertMembers(e, s[1..]);
      assert ([s[0]] + Insert(e, s[1..]))[1..] == Insert(e, s[1..]);
    }
  }

  lemma {:induction false} SortAscends(s: seq<Extra>)
    requires DistinctKeys(s)
    ensures Ascending(Sort(s))
    ensures forall x :: x in Sort(s) <==> x in s
    decreases |s|
  {
    if s != [] {
      SortAscends(s[1..]);
      assert s == [s[0]] + s[1..];
      forall x | x in s[1..]
        ensures x.key != s[0].key
      {
        var i :| 0 <= i < |s[1..]| && s[1..][i] == x;
        assert s[i + 1] == x;
      }
      InsertMembers(s[0], Sort(s[1..]));
      InsertAscending(s[0], Sort(s[1..]));
    }
  }

  /** Two ascending lists with the same members are the same list. */
  lemma {:induction false} AscendingUnique(a: seq<Extra>, b: seq<Extra>)
    requires Ascending(a) && Ascending(b)
    requires forall x :: x in a <==> x in b
    ensures a == b
    decreases |a|
  {
    EmptyTogether(a, b);
    if a != [] {
      assert a == [a[0]] + a[1..] && b == [b[0]] + b[1..];
      assert a[0] in b && b[0] in a;
      if a[0] != b[0] {
        LessTransitive(a[0].key, b[0].key, a[0].key);
        LessIrreflexive(a[0].key);
      }
      NotAgain(a);
      NotAgain(b);
      forall x
        ensures x in a[1..] <==> x in b[1..]
      {
        assert x in a <==> x == a[0] || x in a[1..];
        assert x in b <==> x == b[0] || x in b[1..];
      }
      AscendingUnique(a[1..], b[1..]);
    }
  }

  lemma EmptyTogether(a: seq<Extra>, b: seq<Extra>)
    requires forall x :: x in a <==> x in b
    ensures a == [] <==> b == []
  {
    assert a != [] ==> a[0] in b;
    assert b != [] ==> b[0] in a;
  }

  lemma NotAgain(a: seq<Extra>)
    requires a != [] && Ascending(a)
    ensures a[0] !in a[1..]
  {
    LessIrreflexive(a[0].key);
  }

  /** `":".join(f"{k}={v}" ...)`. */
  function Join(s: seq<Extra>): string {
    if s == [] then ""
    else if |s| == 1 then s[0].key + "=" + s[0].value
    else s[0].key + "=" + s[0].value + ":" + Join(s[1..])
  }

  function ExtraText(extra: seq<Extra>): string {
    Join(Sort(extra))
  }

  /** The text hashed for the keyword arguments does not depend on their order. */
  lemma ExtraOrderIrrelevant(a: seq<Extra>, b: seq<Extra>)
    requires DistinctKeys(a) && DistinctKeys(b)
    requires forall x :: x in a <==> x in b
    ensures ExtraText(a) == ExtraText(b)
  {
    SortAscends(a);
    SortAscends(b);
    AscendingUnique(Sort(a), Sort(b));
  }

  // ---------------------------------------------------------------- the key

  const NO_EXTRA: string := "000000000000"

  function ExtraField(h: string -> string, extra: seq<Extra>): string {
    if extra != [] then h(ExtraText(extra)) else NO_EXTRA
  }

  /** `build_idempotency_key`; `None` where it raises for a missing id. */
  function Build(h: string -> string, direction: string, connector: string, externalId: string,
                 messageId: string, extra: seq<Extra>): Option<string>
  {
    if externalId == "" || messageId == "" then None
    else Some(direction + ":" + connector + ":" + ExtraField(h, extra) + ":"
              + h(externalId) + ":" + h(messageId))
  }

  ghost predicate TwelveWide(h: string -> string) {
    forall x :: |h(x)| == 12
  }

  /** `direction:connector` is read back at its first colon. */
  lemma HeadDecodes(d: string, c: string, d': string, c': string)
    requires ':' !in d && ':' !in d'
    requires d + ":" + c == d' + ":" + c'
    ensures d == d' && c == c'
  {
    var s, s' := d + ":" + c, d' + ":" + c';
    assert s[|d|] == ':' && s'[|d'|] == ':';
    assert forall i :: 0 <= i < |d| ==> s[i] == d[i] != ':';
    assert forall i :: 0 <= i < |d'| ==> s'[i] == d'[i] != ':';
    assert |d| == |d'|;
    assert s[..|d|] == d && s'[..|d|] == d';
    assert s[|d| + 1..] == c && s'[|d| + 1..] == c';
  }

  lemma TailDecodes(head: string, e: string, x: string, m: string,
                    head': string, e': string, x': string, m': string)
    requires |e| == |e'| == |x| == |x'| == |m| == |m'| == 12
    requires head + ":" + e + ":" + x + ":" + m == head' + ":" + e' + ":" + x' + ":" + m'
    ensures head == head' && e == e' && x == x' && m == m'
  {
    var s := head + ":" + e + ":" + x + ":" + m;
    var s' := head' + ":" + e' + ":" + x' + ":" + m';
    var n := |head|;
    assert |head'| == n;
    assert s[..n] == head && s'[..n] == head';
    assert s[n + 1..n + 13] == e && s'[n + 1..n + 13] == e';
    assert s[n + 14..n + 26] == x && s'[n + 14..n + 26] == x';
    assert s[n + 27..] == m && s'[n + 27..] == m';
  }

  /** Keys decode uniquely, colons in the connector included: equal keys come from equal
      directions and connectors and agree in each of the three hash fields. */
  lemma KeyDecodes(h: string -> string,
                   d: string, c: string, x: string, m: string, extra: seq<Extra>,
                   d': string, c': string, x': string, m': string, extra': seq<Extra>)
    requires TwelveWide(h) && ':' !in d && ':' !in d'
    requires Build(h, d, c, x, m, extra).Some?
    requires Build(h, d, c, x, m, extra) == Build(h, d', c', x', m', extra')
    ensures d == d' && c == c'
    ensures ExtraField(h, extra) == ExtraField(h, extra') && h(x) == h(x') && h(m) == h(m')
  {
    var e, e' := ExtraField(h, extra), ExtraField(h, extra');
    assert |NO_EXTRA| == 12;
    assert |h(ExtraText(extra))| == 12 && |h(ExtraText(extra'))| == 12;
    assert |h(x)| == |h(x')| == |h(m)| == |h(m')| == 12;
    TailDecodes(d + ":" + c, e, h(x), h(m), d' + ":" + c', e', h(x'), h(m'));
    HeadDecodes(d, c, d', c');
  }

  /** The two ids are what a key needs. */
  lemma KeyNeedsIds(h: string -> string, d: string, c: string, x: string, m: string, extra: seq<Extra>)
    ensures Build(h, d, c, x, m, extra) == None <==> x == "" || m == ""
  {
  }

  /** The arguments sorted by name, as one text. */
  ghost predicate SortedText(extra: seq<Extra>, text: string) {
    exists s :: Ascending(s) && (forall e :: e in s <==> e in extra) && text == Join(s)
  }

  /** The third field of a key. */
  ghost predicate ExtraPart(h: string -> string, extra: seq<Extra>, field: string) {
    if extra == [] then field == "000000000000"
    else exists text :: SortedText(extra, text) && field == h(text)
  }

  lemma ExtraPartIs(h: string -> string, extra: seq<Extra>, field: string)
    requires DistinctKeys(extra)
    ensures ExtraPart(h, extra, field) <==> field == ExtraField(h, extra)
  {
    SortAscends(extra);
    assert SortedText(extra, ExtraText(extra));
    forall text | SortedText(extra, text)
      ensures text == ExtraText(extra)
    {
      var s :| Ascending(s) && (forall e :: e in s <==> e in extra) && text == Join(s);
      AscendingUnique(s, Sort(extra));
    }
  }

  /** What a key distinguishes: two keys with present ids are equal exactly when direction
      and connector are, and the hashes of the two ids and of the sorted arguments, twelve
      zeros if there are none. */
  lemma KeysEqualIff(h: string -> string,
                     d: string, c: string, x: string, m: string, extra: seq<Extra>, field: string,
                     d': string, c': string, x': string, m': string, extra': seq<Extra>, field': string)
    requires TwelveWide(h) && ':' !in d && ':' !in d' && DistinctKeys(extra) && DistinctKeys(extra')
    requires x != "" && m != "" && x' != "" && m' != ""
    requires ExtraPart(h, extra, field) && ExtraPart(h, extra', field')
    ensures Build(h, d, c, x, m, extra) == Build(h, d', c', x', m', extra')
            <==> d == d' && c == c' && field == field' && h(x) == h(x') && h(m) == h(m')
  {
    ExtraPartIs(h, extra, field);
    ExtraPartIs(h, extra', field');
    if Build(h, d, c, x, m, extra) == Build(h, d', c', x', m', extra') {
      KeyDecodes(h, d, c, x, m, extra, d', c', x', m', extra');
    }
  }

  // ---------------------------------------------------------------- the email fields

  predicate Numeric(s: string) {
    forall i :: 0 <= i < |s| ==> '0' <= s[i] <= '9'
  }

  /** The keyword arguments of the email factory, in its order. */
  function EmailExtra(mailbox: string, uidValidity: string, uid: string): seq<Extra> {
    [Extra("imap_mailbox", mailbox), Extra("uidvalidity", uidValidity), Extra("uid", uid)]
  }

  function EmailText(mailbox: string, uidValidity: string, uid: string): string {
    "imap_mailbox=" + mailbox + ":uid=" + uid + ":uidvalidity=" + uidValidity
  }

  lemma EmailNamesOrdered()
    ensures Less("imap_mailbox", "uid") && Less("imap_mailbox", "uidvalidity") && Less("uid", "uidvalidity")
  {
    assert "uid"[1..] == "id" && "id"[1..] == "d" && "d"[1..] == "";
    assert "uidvalidity"[1..] == "idvalidity" && "idvalidity"[1..] == "dvalidity";
    assert "dvalidity"[1..] == "validity";
    assert Less("", "validity");
    assert Less("d", "dvalidity");
    assert Less("id", "idvalidity");
  }

  lemma SortedThree(a: Extra, u: Extra, v: Extra)
    requires Less(a.key, u.key) && Less(a.key, v.key) && Less(u.key, v.key)
    ensures Sort([a, v, u]) == [a, u, v]
  {
    LessIrreflexive(u.key);
    assert Sort([u]) == [u] by {
      assert [u][1..] == [];
    }
    assert Sort([v, u]) == [u, v] by {
      assert [v, u][1..] == [u] && [u][1..] == [];
      if Less(v.key, u.key) {
        LessTransitive(u.key, v.key, u.key);
      }
      assert Insert(v, [u]) == [u] + Insert(v, []);
    }
    assert [a, v, u][1..] == [v, u];
    assert Insert(a, [u, v]) == [a] + [u, v];
  }

  lemma EmailSorted(mailbox: string, uidValidity: string, uid: string)
    ensures ExtraText(EmailExtra(mailbox, uidValidity, uid)) == EmailText(mailbox, uidValidity, uid)
  {
    var a, v, u := Extra("imap_mailbox", mailbox), Extra("uidvalidity", uidValidity), Extra("uid", uid);
    EmailNamesOrdered();
    SortedThree(a, u, v);
    var want := [a, u, v];
    assert want[1..] == [u, v] && [u, v][1..] == [v];
    var last := "uidvalidity" + "=" + uidValidity;
    var middle := "uid" + "=" + uid + ":" + last;
    assert Join([v]) == last;
    assert Join([u, v]) == middle;
    assert Join(want) == "imap_mailbox" + "=" + mailbox + ":" + middle;
    EmailTextParts(mailbox, uidValidity, uid);
  }

  lemma EmailTextParts(mailbox: string, uidValidity: string, uid: string)
    ensures "imap_mailbox" + "=" + mailbox + ":" + ("uid" + "=" + uid + ":" + ("uidvalidity" + "=" + uidValidity))
            == EmailText(mailbox, uidValidity, uid)
  {
    assert "imap_mailbox" + "=" == "imap_mailbox=";
    assert ":" + ("uid" + "=") == ":uid=";
    assert ":" + ("uidvalidity" + "=") == ":uidvalidity=";
    var tail := ":uidvalidity=" + uidValidity;
    assert ":" + ("uidvalidity" + "=" + uidValidity) == tail;
    assert "uid" + "=" + uid + ":" + ("uidvalidity" + "=" + uidValidity) == "uid" + "=" + uid + tail;
    assert ":" + ("uid" + "=" + uid + tail) == ":uid=" + uid + tail;
  }

  /** A numeric tail after an equals sign is read back from the end. */
  lemma NumericTail(a: string, v: string, a': string, v': string)
    requires Numeric(v) && Numeric(v')
    requires a != "" && a[|a| - 1] == '=' && a' != "" && a'[|a'| - 1] == '='
    requires a + v == a' + v'
    ensures a == a' && v == v'
  {
    var s, s' := a + v, a' + v';
    assert s[|a| - 1] == '=' && s'[|a'| - 1] == '=';
    assert forall i :: |a| <= i < |s| ==> s[i] == v[i - |a|] != '=';
    assert forall i :: |a'| <= i < |s'| ==> s'[i] == v'[i - |a'|] != '=';
    assert |a| == |a'|;
    assert s[..|a|] == a && s'[..|a|] == a';
    assert s[|a|..] == v && s'[|a|..] == v';
  }

  /** The email field text determines the mailbox, whatever it contains, and both numbers. */
  lemma EmailExtraInjective(mailbox: string, v: string, u: string, mailbox': string, v': string, u': string)
    requires Numeric(v) && Numeric(v') && Numeric(u) && Numeric(u')
    requires ExtraText(EmailExtra(mailbox, v, u)) == ExtraText(EmailExtra(mailbox', v', u'))
    ensures mailbox == mailbox' && v == v' && u == u'
  {
    EmailSorted(mailbox, v, u);
    EmailSorted(mailbox', v', u');
    var a, a' := "imap_mailbox=" + mailbox + ":uid=", "imap_mailbox=" + mailbox' + ":uid=";
    var b, b' := a + u + ":uidvalidity=", a' + u' + ":uidvalidity=";
    assert EmailText(mailbox, v, u) == b + v && EmailText(mailbox', v', u') == b' + v';
    NumericTail(b, v, b', v');
    var n := |b| - 13;
    assert b[..n] == a + u && b'[..n] == a' + u';
    NumericTail(a, u, a', u');
    assert a[13..|a| - 5] == mailbox && a'[13..|a| - 5] == mailbox';
  }

  /** Two emails of one mailbox account have different keys whenever they differ in mailbox,
      uid or uidvalidity and the hash tells the two texts apart. */
  lemma EmailKeysDiffer(h: string -> string,
                        d: string, c: string, x: string, m: string, mailbox: string, v: string, u: string,
                        d': string, c': string, x': string, m': string, mailbox': string, v': string, u': string)
    requires TwelveWide(h) && ':' !in d && ':' !in d'
    requires x != "" && m != "" && x' != "" && m' != ""
    requires Numeric(v) && Numeric(v') && Numeric(u) && Numeric(u')
    requires mailbox != mailbox' || v != v' || u != u'
    requires EmailText(mailbox, v, u) != EmailText(mailbox', v', u') ==>
               h(EmailText(mailbox, v, u)) != h(EmailText(mailbox', v', u'))
    ensures Build(h, d, c, x, m, EmailExtra(mailbox, v, u)) != Build(h, d', c', x', m', EmailExtra(mailbox', v', u'))
  {
    var e, e' := EmailExtra(mailbox, v, u), EmailExtra(mailbox', v', u');
    EmailSorted(mailbox, v, u);
    EmailSorted(mailbox', v', u');
    if Build(h, d, c, x, m, e) == Build(h, d', c', x', m', e') {
      KeyDecodes(h, d, c, x, m, e, d', c', x', m', e');
      EmailExtraInjective(mailbox, v, u, mailbox', v', u');
    }
  }
}
