/** When Delta Chat account sync converges: what connectors that share an address do to it. */
module SharedAddresses {
  import opened AccountSync

  ghost predicate DistinctConnectors(configs: seq<Config>) {
    forall i, j :: 0 <= i < j < |configs| ==> configs[i].connector != configs[j].connector
  }

  /** Connectors with an address in their configuration, all of them usable. */
  ghost predicate Addressed(configs: seq<Config>) {
    forall i :: 0 <= i < |configs| ==> !configs[i].minting && configs[i].address != ""
  }

  ghost predicate Known(norm: Normalizer, start: seq<Account>, c: Config) {
    norm(c.address) in ByAddress(norm, start)
  }

  ghost predicate Share(norm: Normalizer, configs: seq<Config>, i: nat, j: nat)
    requires i < |configs| && j < |configs|
  {
    i != j && !configs[i].minting && !configs[j].minting
    && norm(configs[i].address) == norm(configs[j].address)
  }

  // ---------------------------------------------------------------- one boot

  /** A boot writes stored accounts and appends; what it appended it does not touch again. */
  lemma StepTail(norm: Normalizer, start: seq<Account>, b: Boot, c: Config, mint: string)
    requires |start| <= |b.accounts|
    ensures var b' := SyncOne(norm, start, b, c, mint);
            && |b.accounts| <= |b'.accounts|
            && forall a :: |start| <= a < |b.accounts| ==> b'.accounts[a] == b.accounts[a]
  {
    ByConnectorIsLast(start, c.connector);
    ByAddressIsLast(norm, start, norm(Address(c, mint)));
  }

  lemma {:induction false} RunTail(norm: Normalizer, start: seq<Account>, configs: seq<Config>, mints: seq<string>,
                                   m: nat, n: nat)
    requires m <= n <= |configs| == |mints|
    ensures var b, b' := Synced(norm, start, configs, mints, m), Synced(norm, start, configs, mints, n);
            && |start| <= |b.accounts| <= |b'.accounts|
            && forall a :: |start| <= a < |b.accounts| ==> b'.accounts[a] == b.accounts[a]
    decreases n
  {
    if n > 0 {
      RunTail(norm, start, configs, mints, if m < n then m else n - 1, n - 1);
      StepTail(norm, start, Synced(norm, start, configs, mints, n - 1), configs[n - 1], mints[n - 1]);
    }
  }

  /** The account a connector is given in its turn. */
  ghost function Chosen(norm: Normalizer, start: seq<Account>, configs: seq<Config>, mints: seq<string>, i: nat): nat
    requires i < |configs| == |mints|
  {
    Choose(norm, start, Synced(norm, start, configs, mints, i).accounts, configs[i], mints[i])
  }

  /** It keeps that account to the end of the boot. */
  lemma {:induction false} IndexStays(norm: Normalizer, start: seq<Account>, configs: seq<Config>, mints: seq<string>,
                                      i: nat, n: nat)
    requires i < n <= |configs| == |mints| && DistinctConnectors(configs)
    ensures var byConnector := Synced(norm, start, configs, mints, n).byConnector;
            configs[i].connector in byConnector
            && byConnector[configs[i].connector] == Chosen(norm, start, configs, mints, i)
    decreases n
  {
    if i < n - 1 {
      IndexStays(norm, start, configs, mints, i, n - 1);
    }
  }

  lemma {:induction false} IndexedKeys(norm: Normalizer, start: seq<Account>, configs: seq<Config>,
                                       mints: seq<string>, n: nat)
    requires n <= |configs| == |mints|
    ensures forall c :: c in Synced(norm, start, configs, mints, n).byConnector ==> Listed(configs, n, c)
    decreases n
  {
    if n > 0 {
      IndexedKeys(norm, start, configs, mints, n - 1);
      assert configs[n - 1].connector == configs[n - 1].connector;
    }
  }

  /** A connector with an unknown address is given a new account with that address. */
  lemma NewAccount(norm: Normalizer, start: seq<Account>, configs: seq<Config>, mints: seq<string>, i: nat, n: nat)
    requires i < n <= |configs| == |mints|
    requires !configs[i].minting && !Known(norm, start, configs[i])
    ensures var id := Chosen(norm, start, configs, mints, i);
            && |start| <= id == |Synced(norm, start, configs, mints, i).accounts|
            && id < |Synced(norm, start, configs, mints, n).accounts|
            && Synced(norm, start, configs, mints, n).accounts[id].addr == configs[i].address
  {
    RunTail(norm, start, configs, mints, i, i);
    var b := Synced(norm, start, configs, mints, i);
    Adds(norm, start, b, configs[i], mints[i]);
    SyncedStep(norm, start, configs, mints, i, b);
    RunTail(norm, start, configs, mints, i + 1, n);
  }

  lemma Adds(norm: Normalizer, start: seq<Account>, b: Boot, c: Config, mint: string)
    requires !c.minting && !Known(norm, start, c)
    ensures Choose(norm, start, b.accounts, c, mint) == |b.accounts|
    ensures SyncOne(norm, start, b, c, mint).accounts == b.accounts + [Account(c.address, c.connector, true)]
  {
  }

  // ---------------------------------------------------------------- a shared address moves

  /** The first boot over `start` and a second one over what it left. */
  function First(norm: Normalizer, start: seq<Account>, configs: seq<Config>, mints: seq<string>): Boot
    requires |configs| == |mints|
  {
    Synced(norm, start, configs, mints, |configs|)
  }

  function Second(norm: Normalizer, start: seq<Account>, configs: seq<Config>, mints: seq<string>,
                  mints': seq<string>): Boot
    requires |configs| == |mints| == |mints'|
  {
    Synced(norm, First(norm, start, configs, mints).accounts, configs, mints', |configs|)
  }

  /** Two connectors that share an address unknown before: the second boot gives the first
      of them another account than the first boot did. */
  lemma SharedMoves(norm: Normalizer, start: seq<Account>, configs: seq<Config>, mints: seq<string>,
                    mints': seq<string>,
                    i: nat, j: nat)
    requires i < j < |configs| == |mints| == |mints'| && DistinctConnectors(configs)
    requires Share(norm, configs, i, j) && configs[j].address != "" && !Known(norm, start, configs[i])
    ensures var c := configs[i].connector;
            var first, second := First(norm, start, configs, mints), Second(norm, start, configs, mints, mints');
            c in first.byConnector && c in second.byConnector && second.byConnector[c] != first.byConnector[c]
  {
    var accounts := First(norm, start, configs, mints).accounts;
    IndexStays(norm, start, configs, mints, i, |configs|);
    IndexStays(norm, accounts, configs, mints', i, |configs|);
    var id := LaterAccount(norm, start, configs, mints, i, j);
    FoundNoEarlier(norm, accounts, configs[i], Synced(norm, accounts, configs, mints', i).accounts, mints'[i], id);
  }

  /** The account of the later connector comes after that of the earlier. */
  lemma LaterAccount(norm: Normalizer, start: seq<Account>, configs: seq<Config>, mints: seq<string>, i: nat, j: nat)
    returns (id: nat)
    requires i < j < |configs| == |mints|
    requires Share(norm, configs, i, j) && configs[j].address != "" && !Known(norm, start, configs[i])
    ensures Chosen(norm, start, configs, mints, i) < id < |First(norm, start, configs, mints).accounts|
    ensures HasAddress(norm, First(norm, start, configs, mints).accounts[id], norm(configs[i].address))
  {
    ChosenInOrder(norm, start, configs, mints, i, j);
    NewAccount(norm, start, configs, mints, j, |configs|);
    id := Chosen(norm, start, configs, mints, j);
  }

  lemma ChosenInOrder(norm: Normalizer, start: seq<Account>, configs: seq<Config>, mints: seq<string>, i: nat, j: nat)
    requires i < j < |configs| == |mints|
    requires Share(norm, configs, i, j) && !Known(norm, start, configs[i])
    ensures Chosen(norm, start, configs, mints, i) < Chosen(norm, start, configs, mints, j)
  {
    NewAccount(norm, start, configs, mints, i, j);
    NewAccount(norm, start, configs, mints, j, j + 1);
  }

  lemma FoundNoEarlier(norm: Normalizer, stored: seq<Account>, c: Config, accounts: seq<Account>, mint: string, id: nat)
    requires !c.minting && id < |stored| && HasAddress(norm, stored[id], norm(c.address))
    ensures Choose(norm, stored, accounts, c, mint) >= id
  {
    ByAddressIsLast(norm, stored, norm(c.address));
  }

  /** Two that share an address some account has are given that account both. */
  lemma SharedAccount(norm: Normalizer, start: seq<Account>, configs: seq<Config>, mints: seq<string>, i: nat, j: nat)
    requires i < j < |configs| == |mints| && DistinctConnectors(configs)
    requires Share(norm, configs, i, j) && Known(norm, start, configs[i])
    ensures var first := First(norm, start, configs, mints);
            !Mutual(first.byConnector, first.byAccount)
  {
    IndexStays(norm, start, configs, mints, i, |configs|);
    IndexStays(norm, start, configs, mints, j, |configs|);
  }

  // ---------------------------------------------------------------- exactly when it converges

  /** Everything `Separate` asks for but that configured addresses differ. */
  ghost predicate Distinguishable(norm: Normalizer, start: seq<Account>, configs: seq<Config>, mints: seq<string>)
    requires |configs| == |mints|
  {
    && DistinctConnectors(configs)
    && (forall i :: 0 <= i < |configs| ==> Nameable(configs[i], mints[i]))
    && (forall i, j :: 0 <= i < |configs| && 0 <= j < |configs| && i != j && configs[i].minting ==>
          norm(mints[i]) != norm(Address(configs[j], mints[j])))
    && (forall i :: 0 <= i < |configs| && configs[i].minting ==> norm(mints[i]) !in ByAddress(norm, start))
    && (forall i, j :: 0 <= i < |configs| && 0 <= j < |configs| ==>
          (configs[i].minting && !configs[j].minting ==> NotRecorded(norm, start, configs[i], configs[j])))
  }

  ghost predicate AddressesDiffer(norm: Normalizer, configs: seq<Config>) {
    forall i, j :: 0 <= i < j < |configs| ==> !Share(norm, configs, i, j)
  }

  /** The second boot finds every account again and changes nothing, and every connector
      has an account of its own. */
  ghost predicate Converges(first: Boot, second: Boot) {
    && second.accounts == first.accounts && second.minted == 0
    && second.byConnector == first.byConnector && second.byAccount == first.byAccount
    && Mutual(first.byConnector, first.byAccount)
  }

  lemma DifferSeparates(norm: Normalizer, start: seq<Account>, configs: seq<Config>, mints: seq<string>)
    requires |configs| == |mints| && Distinguishable(norm, start, configs, mints) && AddressesDiffer(norm, configs)
    ensures Separate(norm, start, configs, mints)
  {
    forall i, j | 0 <= i < |configs| && 0 <= j < |configs| && i != j
      ensures configs[i].connector != configs[j].connector
      ensures norm(Address(configs[i], mints[i])) != norm(Address(configs[j], mints[j]))
    {
      if i < j {
        assert !Share(norm, configs, i, j);
      } else {
        assert !Share(norm, configs, j, i);
      }
    }
  }

  /** Over any stored accounts, boots converge exactly when no two connectors are
      configured with the same address. */
  lemma ConvergesIff(norm: Normalizer, start: seq<Account>, configs: seq<Config>, mints: seq<string>,
                     mints': seq<string>)
    requires |configs| == |mints| == |mints'| && Distinguishable(norm, start, configs, mints)
    ensures Converges(First(norm, start, configs, mints), Second(norm, start, configs, mints, mints'))
            <==> AddressesDiffer(norm, configs)
  {
    if AddressesDiffer(norm, configs) {
      DifferSeparates(norm, start, configs, mints);
      SecondBootChangesNothing(norm, start, configs, mints, mints');
    } else {
      var i, j :| 0 <= i < j < |configs| && Share(norm, configs, i, j);
      assert Nameable(configs[j], mints[j]);
      if Known(norm, start, configs[i]) {
        SharedAccount(norm, start, configs, mints, i, j);
      } else {
        SharedMoves(norm, start, configs, mints, mints', i, j);
      }
    }
  }

  // ---------------------------------------------------------------- exactly when an account moves

  ghost predicate SameKey(norm: Normalizer, a: Account, b: Account) {
    forall k :: HasAddress(norm, a, k) <==> HasAddress(norm, b, k)
  }

  /** A stored account may be written, but only with an address equal to its own. */
  lemma {:induction false} KeysStay(norm: Normalizer, start: seq<Account>, configs: seq<Config>, mints: seq<string>,
                                    n: nat, a: nat)
    requires n <= |configs| == |mints| && Addressed(configs) && a < |start|
    ensures a < |Synced(norm, start, configs, mints, n).accounts|
    ensures SameKey(norm, start[a], Synced(norm, start, configs, mints, n).accounts[a])
    decreases n
  {
    if n > 0 {
      KeysStay(norm, start, configs, mints, n - 1, a);
      ByAddressIsLast(norm, start, norm(configs[n - 1].address));
    }
  }

  /** The connector an appended account was added for. */
  lemma {:induction false} Appended(norm: Normalizer, start: seq<Account>, configs: seq<Config>, mints: seq<string>,
                                    n: nat, a: nat) returns (i: nat)
    requires n <= |configs| == |mints| && Addressed(configs)
    requires |start| <= a < |Synced(norm, start, configs, mints, n).accounts|
    ensures i < n && !Known(norm, start, configs[i]) && Chosen(norm, start, configs, mints, i) == a
    ensures Synced(norm, start, configs, mints, n).accounts[a].addr == configs[i].address
    decreases n
  {
    RunTail(norm, start, configs, mints, n - 1, n);
    if a < |Synced(norm, start, configs, mints, n - 1).accounts| {
      i := Appended(norm, start, configs, mints, n - 1, a);
    } else {
      i := n - 1;
      ByAddressIsLast(norm, start, norm(configs[i].address));
    }
  }

  /** The account the first boot gave the connector is the last one with its address. */
  lemma LastIsChosen(norm: Normalizer, start: seq<Account>, configs: seq<Config>, mints: seq<string>, i: nat)
    requires i < |configs| == |mints| && Addressed(configs)
    requires forall j :: 0 <= j < |configs| && Share(norm, configs, i, j) ==> Known(norm, start, configs[i])
    ensures var accounts, key := First(norm, start, configs, mints).accounts, norm(configs[i].address);
            key in ByAddress(norm, accounts) && ByAddress(norm, accounts)[key] == Chosen(norm, start, configs, mints, i)
  {
    var accounts, key := First(norm, start, configs, mints).accounts, norm(configs[i].address);
    var id := Chosen(norm, start, configs, mints, i);
    ByAddressIsLast(norm, start, key);
    ByAddressIsLast(norm, accounts, key);
    if Known(norm, start, configs[i]) {
      KeysStay(norm, start, configs, mints, |configs|, id);
    } else {
      NewAccount(norm, start, configs, mints, i, |configs|);
    }
    assert HasAddress(norm, accounts[id], key);
    forall a | id < a < |accounts|
      ensures !HasAddress(norm, accounts[a], key)
    {
      LaterHasOther(norm, start, configs, mints, i, a);
    }
  }

  lemma LaterHasOther(norm: Normalizer, start: seq<Account>, configs: seq<Config>, mints: seq<string>, i: nat, a: nat)
    requires i < |configs| == |mints| && Addressed(configs)
    requires forall j :: 0 <= j < |configs| && Share(norm, configs, i, j) ==> Known(norm, start, configs[i])
    requires Chosen(norm, start, configs, mints, i) < a < |First(norm, start, configs, mints).accounts|
    ensures !HasAddress(norm, First(norm, start, configs, mints).accounts[a], norm(configs[i].address))
  {
    if a < |start| {
      KeysStay(norm, start, configs, mints, |configs|, a);
      ByAddressIsLast(norm, start, norm(configs[i].address));
      RunTail(norm, start, configs, mints, i, i);
    } else {
      var j := Appended(norm, start, configs, mints, |configs|, a);
      assert i != j && !Share(norm, configs, i, j);
    }
  }

  /** Over any stored accounts, the second boot gives every connector the account the first
      one did exactly when connectors that share an address share one that an account
      had before. */
  lemma AccountsStayIff(norm: Normalizer, start: seq<Account>, configs: seq<Config>, mints: seq<string>,
                        mints': seq<string>)
    requires |configs| == |mints| == |mints'| && DistinctConnectors(configs) && Addressed(configs)
    ensures Second(norm, start, configs, mints, mints').byConnector == First(norm, start, configs, mints).byConnector
            <==> forall i, j :: 0 <= i < j < |configs| && Share(norm, configs, i, j) ==> Known(norm, start, configs[i])
  {
    if i, j :| 0 <= i < j < |configs| && Share(norm, configs, i, j) && !Known(norm, start, configs[i]) {
      SharedMoves(norm, start, configs, mints, mints', i, j);
    } else {
      SharedStay(norm, start, configs, mints, mints');
    }
  }

  lemma SharedStay(norm: Normalizer, start: seq<Account>, configs: seq<Config>, mints: seq<string>, mints': seq<string>)
    requires |configs| == |mints| == |mints'| && DistinctConnectors(configs) && Addressed(configs)
    requires forall i, j :: 0 <= i < j < |configs| && Share(norm, configs, i, j) ==> Known(norm, start, configs[i])
    ensures Second(norm, start, configs, mints, mints').byConnector == First(norm, start, configs, mints).byConnector
  {
    var first, second := First(norm, start, configs, mints), Second(norm, start, configs, mints, mints');
    IndexedKeys(norm, start, configs, mints, |configs|);
    IndexedKeys(norm, first.accounts, configs, mints', |configs|);
    forall i | 0 <= i < |configs|
      ensures var c := configs[i].connector;
              c in first.byConnector && c in second.byConnector && second.byConnector[c] == first.byConnector[c]
    {
      IndexStays(norm, start, configs, mints, i, |configs|);
      IndexStays(norm, first.accounts, configs, mints', i, |configs|);
      forall j | 0 <= j < |configs| && Share(norm, configs, i, j)
        ensures Known(norm, start, configs[i])
      {
        assert if i < j then Share(norm, configs, i, j) else Share(norm, configs, j, i);
      }
      LastIsChosen(norm, start, configs, mints, i);
    }
    assert forall c :: c in first.byConnector <==> c in second.byConnector;
  }

  /** An instance: two connectors with one address and no accounts yet. */
  lemma SharedAddressMoves(norm: Normalizer, addr: string, mints: seq<string>)
    requires addr != "" && |mints| == 2
    ensures var configs := [Config("a", addr, false), Config("b", addr, false)];
            Second(norm, [], configs, mints, mints).byConnector != First(norm, [], configs, mints).byConnector
  {
    var configs := [Config("a", addr, false), Config("b", addr, false)];
    AccountsStayIff(norm, [], configs, mints, mints);
    assert Share(norm, configs, 0, 1);
  }

  // ---------------------------------------------------------------- how often an address is minted

  ghost function Minting(configs: seq<Config>, n: nat): set<nat>
    requires n <= |configs|
  {
    set i | 0 <= i < n && configs[i].minting
  }

  /** Where no stored account is recorded for a connector, the boot asks each dcaccount URL
      for one address and nobody else for any; with the second boot, which asks none, each
      connector is provisioned once. */
  lemma {:induction false} FirstBootMints(norm: Normalizer, start: seq<Account>, configs: seq<Config>,
                                          mints: seq<string>, n: nat)
    requires n <= |configs| == |mints|
    requires forall i :: 0 <= i < |configs| ==> Unrecorded(start, configs[i])
    ensures Synced(norm, start, configs, mints, n).minted == |Minting(configs, n)|
    decreases n
  {
    if n > 0 {
      FirstBootMints(norm, start, configs, mints, n - 1);
      MintsOne(norm, start, Synced(norm, start, configs, mints, n - 1), configs[n - 1], mints[n - 1]);
      MintingOne(configs, n - 1);
    }
  }

  ghost predicate Unrecorded(start: seq<Account>, c: Config) {
    forall a :: 0 <= a < |start| ==> start[a].connector != c.connector
  }

  lemma MintsOne(norm: Normalizer, start: seq<Account>, b: Boot, c: Config, mint: string)
    requires Unrecorded(start, c)
    ensures SyncOne(norm, start, b, c, mint).minted == b.minted + if c.minting then 1 else 0
  {
    ByConnectorIsLast(start, c.connector);
  }

  lemma MintingOne(configs: seq<Config>, n: nat)
    requires n < |configs|
    ensures |Minting(configs, n + 1)| == |Minting(configs, n)| + if configs[n].minting then 1 else 0
  {
    assert Minting(configs, n + 1) == Minting(configs, n) + if configs[n].minting then {n} else {};
  }
}
