/** Delta Chat account reconciliation: what `_sync_accounts` does to the accounts of the
    core and to the client's indexes, boot after boot. */
module AccountSync {
  import opened Text

  /** An account of the Delta Chat core; its id is its position. */
  datatype Account = Account(addr: string, connector: string, configured: bool)

  /** A configured connector.  `minting`: it has a dcaccount URL, which yields a new
      address each time it is asked. */
  datatype Config = Config(connector: string, address: string, minting: bool)

  /** A way of comparing addresses, such as `Trimmed`, the one of the client. */
  type Normalizer = string -> string

  function Trimmed(addr: string): string {
    Lower(Strip(addr))
  }

  // ---------------------------------------------------------------- the two snapshots

  /** The accounts by address: a later account with the same address replaces an earlier. */
  function ByAddress(norm: Normalizer, accounts: seq<Account>): map<string, nat> {
    if accounts == [] then map[]
    else
      var n := |accounts| - 1;
      var m := ByAddress(norm, accounts[..n]);
      if accounts[n].addr == "" then m else m[norm(accounts[n].addr) := n]
  }

  /** The accounts by the connector recorded in their configuration. */
  function ByConnector(accounts: seq<Account>): map<string, nat> {
    if accounts == [] then map[]
    else
      var n := |accounts| - 1;
      var m := ByConnector(accounts[..n]);
      if accounts[n].connector == "" then m else m[accounts[n].connector := n]
  }

  ghost predicate HasAddress(norm: Normalizer, a: Account, k: string) {
    a.addr != "" && norm(a.addr) == k
  }

  /** The snapshot by address holds the last account with each address. */
  lemma {:induction false} ByAddressIsLast(norm: Normalizer, accounts: seq<Account>, k: string)
    ensures k in ByAddress(norm, accounts) <==>
              exists i :: 0 <= i < |accounts| && HasAddress(norm, accounts[i], k)
    ensures k in ByAddress(norm, accounts) ==>
              var id := ByAddress(norm, accounts)[k];
              && id < |accounts| && HasAddress(norm, accounts[id], k)
              && forall i :: id < i < |accounts| ==> !HasAddress(norm, accounts[i], k)
    decreases |accounts|
  {
    if accounts != [] {
      var n := |accounts| - 1;
      ByAddressIsLast(norm, accounts[..n], k);
      assert forall i :: 0 <= i < n ==> accounts[..n][i] == accounts[i];
    }
  }

  /** And the snapshot by connector the last account with each connector. */
  lemma {:induction false} ByConnectorIsLast(accounts: seq<Account>, k: string)
    ensures k in ByConnector(accounts) <==>
              k != "" && exists i :: 0 <= i < |accounts| && accounts[i].connector == k
    ensures k in ByConnector(accounts) ==>
              var id := ByConnector(accounts)[k];
              && id < |accounts| && accounts[id].connector == k
              && forall i :: id < i < |accounts| ==> accounts[i].connector != k
    decreases |accounts|
  {
    if accounts != [] {
      var n := |accounts| - 1;
      ByConnectorIsLast(accounts[..n], k);
      assert forall i :: 0 <= i < n ==> accounts[..n][i] == accounts[i];
    }
  }

  // ---------------------------------------------------------------- one boot

  /** Accounts, connector to account, account to connector, and how often a dcaccount URL
      was asked for an address. */
  datatype Boot = Boot(
    accounts: seq<Account>, byConnector: map<string, nat>, byAccount: map<nat, string>, minted: nat)

  /** The account recorded for the connector, if it is configured by now. */
  predicate Reuses(start: seq<Account>, accounts: seq<Account>, c: Config) {
    c.minting && c.connector in ByConnector(start) &&
    var id := ByConnector(start)[c.connector];
    id < |accounts| && accounts[id].configured
  }

  function Index(b: Boot, c: Config, id: nat): Boot {
    b.(byConnector := b.byConnector[c.connector := id], byAccount := b.byAccount[id := c.connector])
  }

  /** The account a connector gets: reused, found by address, or the next free id. */
  function Choose(norm: Normalizer, start: seq<Account>, accounts: seq<Account>, c: Config, mint: string): nat {
    if Reuses(start, accounts, c) then ByConnector(start)[c.connector]
    else
      var key := norm(Address(c, mint));
      if key in ByAddress(norm, start) then ByAddress(norm, start)[key] else |accounts|
  }

  function Address(c: Config, mint: string): string {
    if c.minting then mint else c.address
  }

  /** One configured connector: choose or add its account, index it, and write its
      transport (not for a reused account) and its connector. */
  function SyncOne(norm: Normalizer, start: seq<Account>, b: Boot, c: Config, mint: string): Boot {
    var id := Choose(norm, start, b.accounts, c, mint);
    if Reuses(start, b.accounts, c) then
      Index(b, c, id).(accounts := b.accounts[id := b.accounts[id].(connector := c.connector)])
    else
      var account := Account(Address(c, mint), c.connector, true);
      Index(b, c, id).(
        accounts := if id < |b.accounts| then b.accounts[id := account] else b.accounts + [account],
        minted := if c.minting then b.minted + 1 else b.minted)
  }

  /** The first `n` connectors of a boot over the accounts `start`; `mints[i]` is what the
      URL of connector `i` would yield. */
  function Synced(norm: Normalizer, start: seq<Account>, configs: seq<Config>, mints: seq<string>, n: nat): Boot
    requires n <= |configs| == |mints|
  {
    if n == 0 then Boot(start, map[], map[], 0)
    else SyncOne(norm, start, Synced(norm, start, configs, mints, n - 1), configs[n - 1], mints[n - 1])
  }

  // ---------------------------------------------------------------- what a boot needs

  /** The connectors can be told apart and can be found again. */
  ghost predicate Nameable(c: Config, mint: string) {
    Address(c, mint) != "" && (c.minting ==> c.connector != "")
  }

  ghost predicate OtherAddress(norm: Normalizer, a: Account, c: Config) {
    a.addr == "" || norm(a.addr) != norm(c.address)
  }

  /** The account recorded for a minting connector does not bear another's address. */
  ghost predicate NotRecorded(norm: Normalizer, start: seq<Account>, c: Config, d: Config) {
    c.connector in ByConnector(start) && ByConnector(start)[c.connector] < |start| ==>
      OtherAddress(norm, start[ByConnector(start)[c.connector]], d)
  }

  /** Distinct connectors, no address shared between connectors, and minted addresses
      that no account has. */
  ghost predicate Separate(norm: Normalizer, start: seq<Account>, configs: seq<Config>, mints: seq<string>)
    requires |configs| == |mints|
  {
    && (forall i :: 0 <= i < |configs| ==> Nameable(configs[i], mints[i]))
    && (forall i, j :: 0 <= i < |configs| && 0 <= j < |configs| && i != j ==>
          configs[i].connector != configs[j].connector
          && norm(Address(configs[i], mints[i])) != norm(Address(configs[j], mints[j])))
    && (forall i :: 0 <= i < |configs| && configs[i].minting ==>
          norm(mints[i]) !in ByAddress(norm, start))
    && (forall i, j :: 0 <= i < |configs| && 0 <= j < |configs| ==>
          (configs[i].minting && !configs[j].minting ==> NotRecorded(norm, start, configs[i], configs[j])))
  }

  /** What holds of a connector once it is synced to account `id`: an account it did not
      add is the one its snapshot names, and a minting connector that added one had no
      configured account on record. */
  ghost predicate Placed(norm: Normalizer, start: seq<Account>, accounts: seq<Account>, c: Config, mint: string,
                         id: nat) {
    && |start| <= |accounts| && id < |accounts|
    && accounts[id].connector == c.connector && accounts[id].configured
    && (if c.minting && id < |start| then
          && c.connector in ByConnector(start) && id == ByConnector(start)[c.connector]
          && accounts[id].addr == start[id].addr
        else
          accounts[id].addr == Address(c, mint))
    && (!c.minting && id < |start| ==>
          norm(c.address) in ByAddress(norm, start) && id == ByAddress(norm, start)[norm(c.address)])
  }

  /** The two indexes are each other's inverse. */
  ghost predicate Mutual(byConnector: map<string, nat>, byAccount: map<nat, string>) {
    && (forall c :: c in byConnector ==> byConnector[c] in byAccount && byAccount[byConnector[c]] == c)
    && (forall a :: a in byAccount ==> byAccount[a] in byConnector && byConnector[byAccount[a]] == a)
  }

  ghost predicate Listed(configs: seq<Config>, n: nat, c: string)
    requires n <= |configs|
  {
    exists i :: 0 <= i < n && configs[i].connector == c
  }

  /** Indexed connectors are those synced so far. */
  ghost predicate Indexed(configs: seq<Config>, n: nat, b: Boot)
    requires n <= |configs|
  {
    && Mutual(b.byConnector, b.byAccount)
    && (forall c :: c in b.byConnector <==> Listed(configs, n, c))
  }

  ghost predicate PlacedAt(norm: Normalizer, start: seq<Account>, b: Boot, c: Config, mint: string) {
    c.connector in b.byConnector && Placed(norm, start, b.accounts, c, mint, b.byConnector[c.connector])
  }

  ghost predicate AllPlaced(norm: Normalizer, start: seq<Account>, configs: seq<Config>, mints: seq<string>, n: nat,
                            b: Boot)
    requires n <= |configs| == |mints|
  {
    forall i :: 0 <= i < n ==> PlacedAt(norm, start, b, configs[i], mints[i])
  }

  /** Accounts no connector has are as they were. */
  ghost predicate Untouched(start: seq<Account>, b: Boot) {
    && |start| <= |b.accounts|
    && (forall a :: 0 <= a < |b.accounts| && a !in b.byAccount ==> a < |start| && b.accounts[a] == start[a])
    && (forall a :: a in b.byAccount ==> a < |b.accounts|)
  }

  ghost predicate Inv(norm: Normalizer, start: seq<Account>, configs: seq<Config>, mints: seq<string>, n: nat, b: Boot)
    requires n <= |configs| == |mints|
  {
    Indexed(configs, n, b) && AllPlaced(norm, start, configs, mints, n, b) && Untouched(start, b)
  }

  // ---------------------------------------------------------------- one step

  /** Who owns an indexed account. */
  lemma Owner(norm: Normalizer, start: seq<Account>, configs: seq<Config>, mints: seq<string>, n: nat, b: Boot, a: nat)
    returns (i: nat)
    requires n <= |configs| == |mints| && Inv(norm, start, configs, mints, n, b) && a in b.byAccount
    ensures i < n && configs[i].connector == b.byAccount[a] && b.byConnector[configs[i].connector] == a
    ensures Placed(norm, start, b.accounts, configs[i], mints[i], a)
  {
    assert Listed(configs, n, b.byAccount[a]);
    i :| 0 <= i < n && configs[i].connector == b.byAccount[a];
    assert PlacedAt(norm, start, b, configs[i], mints[i]);
  }

  /** The account on record for a minting connector is nobody else's. */
  lemma RecordedIsFree(norm: Normalizer, start: seq<Account>, configs: seq<Config>, mints: seq<string>, n: nat, b: Boot)
    requires n < |configs| == |mints| && Separate(norm, start, configs, mints)
    requires Inv(norm, start, configs, mints, n, b)
    requires configs[n].minting && configs[n].connector in ByConnector(start)
    ensures ByConnector(start)[configs[n].connector] < |start|
    ensures ByConnector(start)[configs[n].connector] !in b.byAccount
  {
    var c := configs[n].connector;
    var id := ByConnector(start)[c];
    ByConnectorIsLast(start, c);
    if id in b.byAccount {
      var i := Owner(norm, start, configs, mints, n, b, id);
      ByConnectorIsLast(start, configs[i].connector);
      ByAddressIsLast(norm, start, norm(configs[i].address));
      assert false;
    }
  }

  /** The account with a configured address is nobody else's. */
  lemma AddressedIsFree(norm: Normalizer, start: seq<Account>, configs: seq<Config>, mints: seq<string>, n: nat,
                        b: Boot)
    requires n < |configs| == |mints| && Separate(norm, start, configs, mints)
    requires Inv(norm, start, configs, mints, n, b)
    requires !configs[n].minting && norm(configs[n].address) in ByAddress(norm, start)
    ensures ByAddress(norm, start)[norm(configs[n].address)] < |start|
    ensures ByAddress(norm, start)[norm(configs[n].address)] !in b.byAccount
  {
    var id := ByAddress(norm, start)[norm(configs[n].address)];
    ByAddressIsLast(norm, start, norm(configs[n].address));
    if id in b.byAccount {
      var i := Owner(norm, start, configs, mints, n, b, id);
      ByAddressIsLast(norm, start, norm(configs[i].address));
      assert false;
    }
  }

  /** The step for connector `n`, seen from outside: a free account `id` is written, or
      added at the end. */
  ghost predicate Writes(b: Boot, b': Boot, c: Config, id: nat) {
    && id !in b.byAccount && id < |b'.accounts|
    && b'.byConnector == b.byConnector[c.connector := id]
    && b'.byAccount == b.byAccount[id := c.connector]
    && (|b'.accounts| == |b.accounts| || (|b'.accounts| == |b.accounts| + 1 && id == |b.accounts|))
    && (forall a :: 0 <= a < |b.accounts| && a != id ==> b'.accounts[a] == b.accounts[a])
  }

  lemma WriteIndexed(configs: seq<Config>, n: nat, b: Boot, b': Boot, id: nat)
    requires n < |configs| && Indexed(configs, n, b) && Writes(b, b', configs[n], id)
    requires forall i :: 0 <= i < n ==> configs[i].connector != configs[n].connector
    ensures Indexed(configs, n + 1, b')
  {
    var c := configs[n].connector;
    assert !Listed(configs, n, c);
    forall d
      ensures Listed(configs, n + 1, d) <==> Listed(configs, n, d) || d == c
    {
      if d == c {
        assert configs[n].connector == d;
      }
    }
  }

  lemma WritePlaced(norm: Normalizer, start: seq<Account>, configs: seq<Config>, mints: seq<string>, n: nat, b: Boot,
                    b': Boot, id: nat)
    requires n < |configs| == |mints| && Inv(norm, start, configs, mints, n, b)
    requires Writes(b, b', configs[n], id)
    requires forall i :: 0 <= i < n ==> configs[i].connector != configs[n].connector
    requires Placed(norm, start, b'.accounts, configs[n], mints[n], id)
    ensures AllPlaced(norm, start, configs, mints, n + 1, b')
  {
    forall i | 0 <= i < n
      ensures PlacedAt(norm, start, b', configs[i], mints[i])
    {
      assert PlacedAt(norm, start, b, configs[i], mints[i]);
      var a := b.byConnector[configs[i].connector];
      assert a in b.byAccount && a != id;
      assert b'.accounts[a] == b.accounts[a];
    }
  }

  lemma WriteUntouched(start: seq<Account>, b: Boot, b': Boot, c: Config, id: nat)
    requires Untouched(start, b) && Writes(b, b', c, id)
    ensures Untouched(start, b')
  {
  }

  lemma SyncOneInv(norm: Normalizer, start: seq<Account>, configs: seq<Config>, mints: seq<string>, n: nat, b: Boot)
    requires n < |configs| == |mints| && Separate(norm, start, configs, mints)
    requires Inv(norm, start, configs, mints, n, b)
    ensures Inv(norm, start, configs, mints, n + 1, SyncOne(norm, start, b, configs[n], mints[n]))
  {
    ChooseFree(norm, start, configs, mints, n, b);
    ChosenPlaced(norm, start, configs, mints, n, b);
    var id := Choose(norm, start, b.accounts, configs[n], mints[n]);
    WriteInv(norm, start, configs, mints, n, b, SyncOne(norm, start, b, configs[n], mints[n]), id);
  }

  lemma WriteInv(norm: Normalizer, start: seq<Account>, configs: seq<Config>, mints: seq<string>, n: nat, b: Boot,
                 b': Boot, id: nat)
    requires n < |configs| == |mints| && Separate(norm, start, configs, mints)
    requires Inv(norm, start, configs, mints, n, b)
    requires Writes(b, b', configs[n], id)
    requires Placed(norm, start, b'.accounts, configs[n], mints[n], id)
    ensures Inv(norm, start, configs, mints, n + 1, b')
  {
    WriteIndexed(configs, n, b, b', id);
    WritePlaced(norm, start, configs, mints, n, b, b', id);
    WriteUntouched(start, b, b', configs[n], id);
  }

  lemma ChooseFree(norm: Normalizer, start: seq<Account>, configs: seq<Config>, mints: seq<string>, n: nat, b: Boot)
    requires n < |configs| == |mints| && Separate(norm, start, configs, mints)
    requires Inv(norm, start, configs, mints, n, b)
    ensures var id := Choose(norm, start, b.accounts, configs[n], mints[n]);
            && id <= |b.accounts|
            && (id < |start| || id == |b.accounts|)
            && Writes(b, SyncOne(norm, start, b, configs[n], mints[n]), configs[n], id)
  {
    var c := configs[n];
    if c.minting && c.connector in ByConnector(start) {
      RecordedIsFree(norm, start, configs, mints, n, b);
    }
    if !c.minting && norm(c.address) in ByAddress(norm, start) {
      AddressedIsFree(norm, start, configs, mints, n, b);
    }
  }

  lemma ChosenPlaced(norm: Normalizer, start: seq<Account>, configs: seq<Config>, mints: seq<string>, n: nat, b: Boot)
    requires n < |configs| == |mints| && Separate(norm, start, configs, mints)
    requires Inv(norm, start, configs, mints, n, b)
    ensures Placed(norm, start, SyncOne(norm, start, b, configs[n], mints[n]).accounts, configs[n], mints[n],
                   Choose(norm, start, b.accounts, configs[n], mints[n]))
  {
    var c := configs[n];
    ChooseFree(norm, start, configs, mints, n, b);
    var id := Choose(norm, start, b.accounts, c, mints[n]);
    assert id < |start| ==> b.accounts[id] == start[id];
  }

  lemma StartInv(norm: Normalizer, start: seq<Account>, configs: seq<Config>, mints: seq<string>)
    requires |configs| == |mints|
    ensures Inv(norm, start, configs, mints, 0, Boot(start, map[], map[], 0))
  {
  }

  lemma SyncedStep(norm: Normalizer, start: seq<Account>, configs: seq<Config>, mints: seq<string>, n: nat, b: Boot)
    requires n < |configs| == |mints|
    requires b == Synced(norm, start, configs, mints, n)
    ensures SyncOne(norm, start, b, configs[n], mints[n]) == Synced(norm, start, configs, mints, n + 1)
  {
  }

  lemma NextState(norm: Normalizer, start: seq<Account>, configs: seq<Config>, mints: seq<string>, n: nat, b: Boot)
    returns (b': Boot)
    requires n < |configs| == |mints| && Separate(norm, start, configs, mints)
    requires b == Synced(norm, start, configs, mints, n)
    requires Inv(norm, start, configs, mints, n, b)
    ensures b' == Synced(norm, start, configs, mints, n + 1)
    ensures Inv(norm, start, configs, mints, n + 1, b')
  {
    SyncedStep(norm, start, configs, mints, n, b);
    SyncOneInv(norm, start, configs, mints, n, b);
    b' := SyncOne(norm, start, b, configs[n], mints[n]);
  }

  /** What holds after `n` connectors. */
  ghost predicate Sound(norm: Normalizer, start: seq<Account>, configs: seq<Config>, mints: seq<string>, n: nat,
                        b: Boot)
    requires n <= |configs| == |mints|
  {
    b == Synced(norm, start, configs, mints, n) && Inv(norm, start, configs, mints, n, b)
  }

  lemma StartSound(norm: Normalizer, start: seq<Account>, configs: seq<Config>, mints: seq<string>)
    requires |configs| == |mints|
    ensures Sound(norm, start, configs, mints, 0, Boot(start, map[], map[], 0))
  {
    StartInv(norm, start, configs, mints);
  }

  lemma NextSound(norm: Normalizer, start: seq<Account>, configs: seq<Config>, mints: seq<string>, n: nat, b: Boot)
    returns (b': Boot)
    requires n < |configs| == |mints| && Separate(norm, start, configs, mints)
    requires Sound(norm, start, configs, mints, n, b)
    ensures Sound(norm, start, configs, mints, n + 1, b')
  {
    b' := NextState(norm, start, configs, mints, n, b);
  }

  lemma {:induction false} SyncedSound(norm: Normalizer, start: seq<Account>, configs: seq<Config>,
                                       mints: seq<string>, n: nat)
    returns (b: Boot)
    requires n <= |configs| == |mints| && Separate(norm, start, configs, mints)
    ensures Sound(norm, start, configs, mints, n, b)
  {
    b := Boot(start, map[], map[], 0);
    StartSound(norm, start, configs, mints);
    for i := 0 to n
      invariant Sound(norm, start, configs, mints, i, b)
    {
      b := NextSound(norm, start, configs, mints, i, b);
    }
  }

  lemma SyncedInv(norm: Normalizer, start: seq<Account>, configs: seq<Config>, mints: seq<string>, n: nat)
    requires n <= |configs| == |mints| && Separate(norm, start, configs, mints)
    ensures Inv(norm, start, configs, mints, n, Synced(norm, start, configs, mints, n))
  {
    var b := SyncedSound(norm, start, configs, mints, n);
  }

  // ---------------------------------------------------------------- the second boot

  /** In the state a boot left, a minting connector is found again by its connector. */
  lemma FoundByConnector(norm: Normalizer, start: seq<Account>, configs: seq<Config>, mints: seq<string>, b: Boot,
                         i: nat)
    requires |configs| == |mints| && Separate(norm, start, configs, mints)
    requires Inv(norm, start, configs, mints, |configs|, b)
    requires i < |configs| && configs[i].minting
    ensures PlacedAt(norm, start, b, configs[i], mints[i])
    ensures configs[i].connector in ByConnector(b.accounts)
    ensures ByConnector(b.accounts)[configs[i].connector] == b.byConnector[configs[i].connector]
  {
    var c := configs[i].connector;
    assert PlacedAt(norm, start, b, configs[i], mints[i]);
    var id := b.byConnector[c];
    ByConnectorIsLast(start, c);
    ByConnectorIsLast(b.accounts, c);
    assert Nameable(configs[i], mints[i]);
    forall a | id < a < |b.accounts|
      ensures b.accounts[a].connector != c
    {
      if a in b.byAccount {
        var k := Owner(norm, start, configs, mints, |configs|, b, a);
      }
    }
  }

  /** And the others by their address. */
  lemma FoundByAddress(norm: Normalizer, start: seq<Account>, configs: seq<Config>, mints: seq<string>, b: Boot, i: nat)
    requires |configs| == |mints| && Separate(norm, start, configs, mints)
    requires Inv(norm, start, configs, mints, |configs|, b)
    requires i < |configs| && !configs[i].minting
    ensures PlacedAt(norm, start, b, configs[i], mints[i])
    ensures norm(configs[i].address) in ByAddress(norm, b.accounts)
    ensures ByAddress(norm, b.accounts)[norm(configs[i].address)] == b.byConnector[configs[i].connector]
  {
    var key := norm(configs[i].address);
    assert PlacedAt(norm, start, b, configs[i], mints[i]);
    var id := b.byConnector[configs[i].connector];
    ByAddressIsLast(norm, start, key);
    ByAddressIsLast(norm, b.accounts, key);
    assert Nameable(configs[i], mints[i]);
    assert HasAddress(norm, b.accounts[id], key);
    forall a | id < a < |b.accounts|
      ensures !HasAddress(norm, b.accounts[a], key)
    {
      if a in b.byAccount {
        var k := Owner(norm, start, configs, mints, |configs|, b, a);
        OthersAddress(norm, start, configs, mints, b, i, k, a);
      } else {
        assert b.accounts[a] == start[a];
      }
    }
  }

  lemma OthersAddress(norm: Normalizer, start: seq<Account>, configs: seq<Config>, mints: seq<string>, b: Boot,
                      i: nat, k: nat, a: nat)
    requires |configs| == |mints| && Separate(norm, start, configs, mints)
    requires i < |configs| && k < |configs| && i != k && !configs[i].minting
    requires Placed(norm, start, b.accounts, configs[k], mints[k], a)
    ensures !HasAddress(norm, b.accounts[a], norm(configs[i].address))
  {
    assert norm(Address(configs[i], mints[i])) != norm(Address(configs[k], mints[k]));
    if configs[k].minting && a < |start| {
      assert NotRecorded(norm, start, configs[k], configs[i]);
    }
  }

  /** A step of the second boot changes nothing but the indexes. */
  lemma SecondSyncOne(norm: Normalizer, start: seq<Account>, configs: seq<Config>, mints: seq<string>, first: Boot,
                      b: Boot, i: nat, mint: string)
    requires |configs| == |mints| && Separate(norm, start, configs, mints)
    requires Inv(norm, start, configs, mints, |configs|, first)
    requires i < |configs| && b.accounts == first.accounts
    ensures configs[i].connector in first.byConnector
    ensures SyncOne(norm, first.accounts, b, configs[i], mint)
              == Index(b, configs[i], first.byConnector[configs[i].connector])
  {
    var c := configs[i];
    if c.minting {
      FoundByConnector(norm, start, configs, mints, first, i);
      var id := first.byConnector[c.connector];
      assert b.accounts[id := b.accounts[id].(connector := c.connector)] == b.accounts;
    } else {
      FoundByAddress(norm, start, configs, mints, first, i);
      var id := first.byConnector[c.connector];
      assert b.accounts[id := Account(c.address, c.connector, true)] == b.accounts;
    }
  }

  /** The part of the first boot's indexes a second boot has rebuilt after `n` connectors. */
  ghost predicate Rebuilt(configs: seq<Config>, n: nat, first: Boot, b: Boot)
    requires n <= |configs|
  {
    && b.accounts == first.accounts && b.minted == 0
    && (forall c :: c in b.byConnector <==> Listed(configs, n, c))
    && (forall c :: c in b.byConnector ==>
          c in first.byConnector && b.byConnector[c] == first.byConnector[c] && b.byConnector[c] in b.byAccount)
    && (forall a :: a in b.byAccount ==> a in first.byAccount && b.byAccount[a] == first.byAccount[a])
  }

  lemma {:induction false} SecondSynced(norm: Normalizer, start: seq<Account>, configs: seq<Config>, mints: seq<string>,
                                        first: Boot, mints': seq<string>, n: nat)
    requires |configs| == |mints| == |mints'| && Separate(norm, start, configs, mints)
    requires Inv(norm, start, configs, mints, |configs|, first) && n <= |configs|
    ensures Rebuilt(configs, n, first, Synced(norm, first.accounts, configs, mints', n))
    decreases n
  {
    var b := Boot(first.accounts, map[], map[], 0);
    for i := 0 to n
      invariant b == Synced(norm, first.accounts, configs, mints', i)
      invariant Rebuilt(configs, i, first, b)
    {
      SyncedStep(norm, first.accounts, configs, mints', i, b);
      b := SecondStep(norm, start, configs, mints, first, b, i, mints'[i]);
    }
  }

  lemma SecondStep(norm: Normalizer, start: seq<Account>, configs: seq<Config>, mints: seq<string>, first: Boot,
                   b: Boot, i: nat, mint: string) returns (b': Boot)
    requires |configs| == |mints| && Separate(norm, start, configs, mints)
    requires Inv(norm, start, configs, mints, |configs|, first)
    requires i < |configs| && Rebuilt(configs, i, first, b)
    ensures b' == SyncOne(norm, first.accounts, b, configs[i], mint)
    ensures Rebuilt(configs, i + 1, first, b')
  {
    SecondSyncOne(norm, start, configs, mints, first, b, i, mint);
    b' := Index(b, configs[i], first.byConnector[configs[i].connector]);
    RebuildOne(configs, i, first, b, b');
  }

  lemma RebuildOne(configs: seq<Config>, n: nat, first: Boot, b: Boot, b': Boot)
    requires n < |configs| && Rebuilt(configs, n, first, b)
    requires Mutual(first.byConnector, first.byAccount) && configs[n].connector in first.byConnector
    requires b' == Index(b, configs[n], first.byConnector[configs[n].connector])
    ensures Rebuilt(configs, n + 1, first, b')
  {
    var c := configs[n].connector;
    forall d
      ensures Listed(configs, n + 1, d) <==> Listed(configs, n, d) || d == c
    {
      if d == c {
        assert configs[n].connector == d;
      }
    }
  }

  lemma AllRebuilt(configs: seq<Config>, first: Boot, b: Boot)
    requires Rebuilt(configs, |configs|, first, b) && Indexed(configs, |configs|, first)
    ensures b.byConnector == first.byConnector && b.byAccount == first.byAccount
  {
    assert forall c :: c in first.byConnector ==> c in b.byConnector;
    forall a | a in first.byAccount
      ensures a in b.byAccount
    {
      assert b.byConnector[first.byAccount[a]] == a;
    }
  }

  /** Account sync is idempotent: a second boot over what the first one left, whatever the
      dcaccount URLs would yield by then, finds every connector's account again, changes
      no account, adds none and asks no URL; and the connector and account indexes of
      either boot are each other's inverse. */
  lemma SecondBootChangesNothing(norm: Normalizer, start: seq<Account>, configs: seq<Config>,
                                 mints: seq<string>, mints': seq<string>)
    requires |configs| == |mints| == |mints'| && Separate(norm, start, configs, mints)
    ensures var first := Synced(norm, start, configs, mints, |configs|);
            var second := Synced(norm, first.accounts, configs, mints', |configs|);
            && second.accounts == first.accounts
            && second.byConnector == first.byConnector
            && second.byAccount == first.byAccount
            && second.minted == 0
            && Mutual(first.byConnector, first.byAccount)
            && forall i :: 0 <= i < |configs| ==> configs[i].connector in first.byConnector
  {
    var first := Synced(norm, start, configs, mints, |configs|);
    SyncedInv(norm, start, configs, mints, |configs|);
    SecondSynced(norm, start, configs, mints, first, mints', |configs|);
    AllRebuilt(configs, first, Synced(norm, first.accounts, configs, mints', |configs|));
    forall i | 0 <= i < |configs|
      ensures configs[i].connector in first.byConnector
    {
      assert PlacedAt(norm, start, first, configs[i], mints[i]);
    }
  }
}
