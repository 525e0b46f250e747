/** The Delta Chat client: its account indexes and its event threads over start and stop. */
module DeltaChat {
  import opened AccountSync

  /** The connectors, in order and each once, for which a thread is started when `known`
      already count as having one. */
  function Spawned(known: set<string>, configs: seq<Config>, n: nat): seq<string>
    requires n <= |configs|
  {
    if n == 0 then []
    else
      var earlier := Spawned(known, configs, n - 1);
      var c := configs[n - 1].connector;
      if c in known || c in earlier then earlier else earlier + [c]
  }

  function Connectors(configs: seq<Config>, n: nat): set<string>
    requires n <= |configs|
  {
    set i | 0 <= i < n :: configs[i].connector
  }

  lemma {:induction false} SpawnedExactly(known: set<string>, configs: seq<Config>, n: nat)
    requires n <= |configs|
    ensures forall c :: c in Spawned(known, configs, n) <==> c in Connectors(configs, n) - known
    ensures forall i, j :: 0 <= i < j < |Spawned(known, configs, n)| ==>
              Spawned(known, configs, n)[i] != Spawned(known, configs, n)[j]
  {
    if n > 0 {
      SpawnedExactly(known, configs, n - 1);
      assert Connectors(configs, n) == Connectors(configs, n - 1) + {configs[n - 1].connector};
    }
  }

  lemma {:induction false} SameConnectorsSpawnNothing(known: set<string>, configs: seq<Config>, n: nat)
    requires n <= |configs|
    ensures Connectors(configs, n) <= known ==> Spawned(known, configs, n) == []
  {
    if n > 0 {
      SameConnectorsSpawnNothing(known, configs, n - 1);
      assert Connectors(configs, n) == Connectors(configs, n - 1) + {configs[n - 1].connector};
    }
  }

  /** A start after a stop: `stop` leaves the connectors that ever had a thread on record, so
      a connector gets one exactly if no earlier start knew it.  In particular, a client
      that is started again with the same connectors starts none. */
  lemma RestartSpawnsIff(known: set<string>, before: seq<Config>, m: nat, configs: seq<Config>, n: nat)
    requires m <= |before| && n <= |configs|
    ensures var threads := Spawned(known + Connectors(before, m), configs, n);
            && (forall c :: c in threads
                  <==> c in Connectors(configs, n) && c !in known && c !in Connectors(before, m))
            && (before == configs && n <= m ==> threads == [])
  {
    SpawnedExactly(known + Connectors(before, m), configs, n);
    SameConnectorsSpawnNothing(known + Connectors(before, m), configs, n);
  }

  /** Connector `c` cannot get an address: its URL is asked and yields none. */
  predicate Fails(start: seq<Account>, accounts: seq<Account>, c: Config, mint: string) {
    !Reuses(start, accounts, c) && c.minting && mint == ""
  }

  /** None of the first `n` connectors fails when its turn comes. */
  predicate NoneFails(start: seq<Account>, configs: seq<Config>, mints: seq<string>, n: nat)
    requires n <= |configs| == |mints|
  {
    n == 0 ||
    (NoneFails(start, configs, mints, n - 1) &&
     !Fails(start, Synced(Trimmed, start, configs, mints, n - 1).accounts, configs[n - 1], mints[n - 1]))
  }

  /** A sync gets past a connector whose URL yields no address only if an account is recorded
      for it, and stops only at one whose URL yields none. */
  lemma {:induction false} FailsMeans(start: seq<Account>, configs: seq<Config>, mints: seq<string>, n: nat)
    requires n <= |configs| == |mints| && NoneFails(start, configs, mints, n)
    ensures forall i :: 0 <= i < n ==> Excused(start, configs[i], mints[i])
    decreases n
  {
    if n > 0 {
      FailsMeans(start, configs, mints, n - 1);
      ByConnectorIsLast(start, configs[n - 1].connector);
    }
  }

  ghost predicate Excused(start: seq<Account>, c: Config, mint: string) {
    c.minting && mint == "" ==> exists a :: 0 <= a < |start| && start[a].connector == c.connector
  }

  /** What one more connector adds. */
  lemma SpawnOne(known: set<string>, configs: seq<Config>, n: nat)
    requires n < |configs|
    ensures Connectors(configs, n + 1) == Connectors(configs, n) + {configs[n].connector}
    ensures Spawned(known, configs, n + 1)
              == Spawned(known, configs, n)
                 + if configs[n].connector in known + Connectors(configs, n) then [] else [configs[n].connector]
  {
    SpawnedExactly(known, configs, n);
  }

  /** What a sync that has done `n` connectors has made of the client. */
  ghost predicate Progress(start: seq<Account>, known: set<string>, configs: seq<Config>, mints: seq<string>, n: nat,
                           b: Boot, threads: seq<string>, threadConnectors: set<string>)
    requires n <= |configs| == |mints|
  {
    && b == Synced(Trimmed, start, configs, mints, n) && NoneFails(start, configs, mints, n)
    && threads == Spawned(known, configs, n) && threadConnectors == known + Connectors(configs, n)
  }

  lemma NoProgress(start: seq<Account>, known: set<string>, configs: seq<Config>, mints: seq<string>)
    requires |configs| == |mints|
    ensures Progress(start, known, configs, mints, 0, Boot(start, map[], map[], 0), [], known)
  {
    assert Connectors(configs, 0) == {};
  }

  lemma ProgressOne(start: seq<Account>, known: set<string>, configs: seq<Config>, mints: seq<string>, n: nat,
                    b: Boot, threads: seq<string>, threadConnectors: set<string>)
    requires n < |configs| == |mints|
    requires Progress(start, known, configs, mints, n, b, threads, threadConnectors)
    requires !Fails(start, b.accounts, configs[n], mints[n])
    ensures Progress(start, known, configs, mints, n + 1,
                     SyncOne(Trimmed, start, b, configs[n], mints[n]),
                     threads + (if configs[n].connector !in threadConnectors then [configs[n].connector] else []),
                     threadConnectors + {configs[n].connector})
  {
    SpawnOne(known, configs, n);
    SyncedStep(Trimmed, start, configs, mints, n, b);
  }

  /** The state once account `id`, which exists, is indexed, gets its transport unless it is
      reused, and carries the connector. */
  function Installed(b: Boot, id: nat, reuse: bool, c: Config, address: string): Boot
    requires id < |b.accounts|
  {
    var account := if reuse then b.accounts[id].(connector := c.connector) else Account(address, c.connector, true);
    Index(b, c, id).(accounts := b.accounts[id := account])
  }

  /** The state once the account was chosen, and added if it is new. */
  function Chosen(b: Boot, id: nat, counted: bool): Boot {
    b.(accounts := if id < |b.accounts| then b.accounts else b.accounts + [Account("", "", false)],
       minted := if counted then b.minted + 1 else b.minted)
  }

  lemma SyncOneInstalls(start: seq<Account>, b: Boot, c: Config, mint: string)
    requires |start| <= |b.accounts|
    ensures var id, reuse := Choose(Trimmed, start, b.accounts, c, mint), Reuses(start, b.accounts, c);
            && id <= |b.accounts|
            && Installed(Chosen(b, id, c.minting && !reuse), id, reuse, c, Address(c, mint))
                 == SyncOne(Trimmed, start, b, c, mint)
  {
    ByAddressIsLast(Trimmed, start, Trimmed(Address(c, mint)));
  }

  class DeltaChatClient {
    /** The core's accounts, kept on disk. */
    var accounts: seq<Account>
    var running: bool
    var byConnector: map<string, nat>
    var byAccount: map<nat, string>
    var minted: nat
    var threadConnectors: set<string>
    var threads: seq<string>

    constructor (stored: seq<Account>)
      ensures Valid() && !running && accounts == stored && minted == 0 && threadConnectors == {}
    {
      accounts, running, minted := stored, false, 0;
      byConnector, byAccount := map[], map[];
      threadConnectors, threads := {}, [];
    }

    /** A client that is not running has no account indexed and no thread listed. */
    ghost predicate Valid()
      reads this
    {
      && (!running ==> byConnector == map[] && byAccount == map[] && threads == [])
      && (forall c :: c in threads ==> c in threadConnectors)
    }

    ghost function View(): Boot
      reads this
    {
      Boot(accounts, byConnector, byAccount, minted)
    }

    method AccountsByAddress(existing: seq<Account>) returns (found: map<string, nat>)
      ensures found == ByAddress(Trimmed, existing)
    {
      found := map[];
      for i := 0 to |existing|
        invariant found == ByAddress(Trimmed, existing[..i])
      {
        assert existing[..i + 1][..i] == existing[..i];
        if existing[i].addr != "" {
          found := found[Trimmed(existing[i].addr) := i];
        }
      }
      assert existing[..|existing|] == existing;
    }

    method AccountsByConnector(existing: seq<Account>) returns (found: map<string, nat>)
      ensures found == ByConnector(existing)
    {
      found := map[];
      for i := 0 to |existing|
        invariant found == ByConnector(existing[..i])
      {
        assert existing[..i + 1][..i] == existing[..i];
        if existing[i].connector != "" {
          found := found[existing[i].connector := i];
        }
      }
      assert existing[..|existing|] == existing;
    }

    method StartEventThread(connector: string)
      requires Valid() && running
      modifies this`threads, this`threadConnectors
      ensures Valid()
      ensures threadConnectors == old(threadConnectors) + {connector}
      ensures threads == if connector in old(threadConnectors) then old(threads) else old(threads) + [connector]
    {
      if connector in threadConnectors {
        return;
      }
      threadConnectors := threadConnectors + {connector};
      threads := threads + [connector];
    }

    /** The account for a connector, added if need be; `false` is the error of an account
        URL that yields no address. */
    method ChooseAccount(start: seq<Account>, byAddress: map<string, nat>, recorded: map<string, nat>,
                         c: Config, mint: string) returns (ok: bool, reuse: bool, id: nat)
      requires |start| <= |accounts|
      requires byAddress == ByAddress(Trimmed, start) && recorded == ByConnector(start)
      modifies this`accounts, this`minted
      ensures ok <==> !Fails(start, old(accounts), c, mint)
      ensures !ok ==> accounts == old(accounts) && minted == old(minted)
      ensures ok ==>
                && reuse == Reuses(start, old(accounts), c)
                && id == Choose(Trimmed, start, old(accounts), c, mint)
                && id < |accounts|
                && View() == Chosen(old(View()), id, c.minting && !reuse)
    {
      ok, id := true, 0;
      ByConnectorIsLast(start, c.connector);
      reuse := c.minting && c.connector in recorded && accounts[recorded[c.connector]].configured;
      if reuse {
        id := recorded[c.connector];
        return;
      }
      if c.minting && mint == "" {
        ok := false;
        return;
      }
      if c.minting {
        minted := minted + 1;
      }
      var key := Trimmed(Address(c, mint));
      ByAddressIsLast(Trimmed, start, key);
      if key in byAddress {
        id := byAddress[key];
      } else {
        id := |accounts|;
        accounts := accounts + [Account("", "", false)];
      }
    }

    /** Syncs one connector. */
    method SyncAccount(start: seq<Account>, byAddress: map<string, nat>, recorded: map<string, nat>,
                       c: Config, mint: string) returns (ok: bool)
      requires Valid() && running && |start| <= |accounts|
      requires byAddress == ByAddress(Trimmed, start) && recorded == ByConnector(start)
      modifies this
      ensures Valid() && running && |start| <= |accounts|
      ensures ok <==> !Fails(start, old(accounts), c, mint)
      ensures View() == if ok then SyncOne(Trimmed, start, old(View()), c, mint) else old(View())
      ensures threadConnectors == old(threadConnectors) + if ok then {c.connector} else {}
      ensures threads == old(threads) + if ok && c.connector !in old(threadConnectors) then [c.connector] else []
    {
      SyncOneInstalls(start, View(), c, mint);
      var reuse, id;
      ok, reuse, id := ChooseAccount(start, byAddress, recorded, c, mint);
      if ok {
        InstallAccount(id, reuse, c, Address(c, mint));
      }
    }

    /** Index the account, start its event thread, then write to it. */
    method InstallAccount(id: nat, reuse: bool, c: Config, address: string)
      requires Valid() && running && id < |accounts|
      modifies this
      ensures Valid() && running
      ensures View() == Installed(old(View()), id, reuse, c, address)
      ensures threadConnectors == old(threadConnectors) + {c.connector}
      ensures threads == old(threads) + if c.connector !in old(threadConnectors) then [c.connector] else []
    {
      byConnector := byConnector[c.connector := id];
      byAccount := byAccount[id := c.connector];
      StartEventThread(c.connector);
      if !reuse {
        AddOrUpdateTransport(id, address);
      }
      RefreshMetadata(id, c.connector);
    }

    method AddOrUpdateTransport(id: nat, address: string)
      requires id < |accounts|
      modifies this`accounts
      ensures accounts == old(accounts)[id := old(accounts)[id].(addr := address, configured := true)]
    {
      accounts := accounts[id := accounts[id].(addr := address, configured := true)];
    }

    method RefreshMetadata(id: nat, connector: string)
      requires id < |accounts|
      modifies this`accounts
      ensures accounts == old(accounts)[id := old(accounts)[id].(connector := connector)]
    {
      accounts := accounts[id := accounts[id].(connector := connector)];
    }

    /** Reconciles the accounts with the configured connectors, up to the first that fails. */
    method SyncAccounts(configs: seq<Config>, mints: seq<string>) returns (done: nat)
      requires Valid() && running && byConnector == map[] && byAccount == map[] && minted == 0 && threads == []
      requires |configs| == |mints|
      modifies this
      ensures Valid() && running && done <= |configs|
      ensures Progress(old(accounts), old(threadConnectors), configs, mints, done, View(), threads, threadConnectors)
      ensures done < |configs| ==> Fails(old(accounts), accounts, configs[done], mints[done])
      ensures done < |configs| ==> configs[done].minting && mints[done] == ""
      ensures forall i :: 0 <= i < done ==> Excused(old(accounts), configs[i], mints[i])
    {
      var start := accounts;
      var byAddress := AccountsByAddress(start);
      var recorded := AccountsByConnector(start);
      done := 0;
      NoProgress(start, threadConnectors, configs, mints);
      assert View() == Boot(start, map[], map[], 0);
      while done < |configs|
        invariant Valid() && running && done <= |configs| && |start| <= |accounts|
        invariant start == old(accounts)
        invariant Progress(start, old(threadConnectors), configs, mints, done, View(), threads, threadConnectors)
      {
        var ok := SyncNext(start, byAddress, recorded, configs, mints, done, old(threadConnectors));
        if !ok {
          break;
        }
        done := done + 1;
      }
      FailsMeans(start, configs, mints, done);
    }

    /** The body of that loop. */
    method SyncNext(start: seq<Account>, byAddress: map<string, nat>, recorded: map<string, nat>,
                    configs: seq<Config>, mints: seq<string>, i: nat, ghost known: set<string>) returns (ok: bool)
      requires Valid() && running && |start| <= |accounts| && i < |configs| == |mints|
      requires byAddress == ByAddress(Trimmed, start) && recorded == ByConnector(start)
      requires Progress(start, known, configs, mints, i, View(), threads, threadConnectors)
      modifies this
      ensures Valid() && running && |start| <= |accounts|
      ensures ok ==> Progress(start, known, configs, mints, i + 1, View(), threads, threadConnectors)
      ensures !ok ==> Progress(start, known, configs, mints, i, View(), threads, threadConnectors)
                      && Fails(start, accounts, configs[i], mints[i])
    {
      ghost var was, wasThreads, wasConnectors := View(), threads, threadConnectors;
      ok := SyncAccount(start, byAddress, recorded, configs[i], mints[i]);
      if ok {
        ProgressOne(start, known, configs, mints, i, was, wasThreads, wasConnectors);
      }
    }

    method Start(configs: seq<Config>, mints: seq<string>) returns (done: nat)
      requires Valid() && |configs| == |mints|
      modifies this
      ensures Valid() && running
      ensures old(running) ==> View() == old(View()) && threads == old(threads)
      ensures !old(running) ==>
                && done <= |configs|
                && Progress(old(accounts), old(threadConnectors), configs, mints, done,
                            View(), threads, threadConnectors)
                && (done < |configs| ==> Fails(old(accounts), accounts, configs[done], mints[done]))
    {
      done := 0;
      if running {
        return;
      }
      running, minted := true, 0;
      done := SyncAccounts(configs, mints);
    }

    method Stop()
      requires Valid()
      modifies this
      ensures Valid() && !running
      ensures accounts == old(accounts) && threadConnectors == old(threadConnectors)
    {
      running := false;
      byConnector, byAccount, threads := map[], map[], [];
    }
  }

  /** Start, stop and start a client: what threads it has then. */
  method Restart(client: DeltaChatClient, before: seq<Config>, mints: seq<string>, configs: seq<Config>,
                 mints': seq<string>)
    returns (m: nat, n: nat)
    requires client.Valid() && !client.running && |before| == |mints| && |configs| == |mints'|
    modifies client
    ensures m <= |before| && n <= |configs|
    ensures forall c :: c in client.threads <==>
                          (c in Connectors(configs, n) - old(client.threadConnectors) - Connectors(before, m))
    ensures before == configs && n <= m ==> client.threads == []
  {
    ghost var known := client.threadConnectors;
    m := client.Start(before, mints);
    client.Stop();
    n := client.Start(configs, mints');
    RestartSpawnsIff(known, before, m, configs, n);
  }
}
