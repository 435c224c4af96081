/** Where the cached coins come from, and that what the wallet owns is searched again. */
module WalletOrigins {
  import opened WalletTypes
  import opened Collections
  import opened CacheModel
  import opened ChainScan
  import opened GapLimit
  import opened AssetMerge
  import opened CoinSelection
  import opened TransferModel
  import opened WalletModel
  import opened WalletInvariants
  import opened WalletRuns
  import opened WalletProgress

  // ----- bitcoin coins repeat the server's lines -----

  /** Nothing is invented: when the node does not report bitcoin, every bitcoin coin cached
      by a synchronization repeats one line of the server's answers to it. */
  lemma CachedIsListed(env: Env, s: State, id: ContractId, depth: nat, w: SyncWorld, u: Utxo)
    requires depth >= 1 && Sync(env, s, id, depth, w).1.SyncedAssets? && NoBitcoinAsset(w.node)
    requires var unspent := Entry(Sync(env, s, id, depth, w).0.cache, id).unspent;
      BITCOIN in unspent && u in unspent[BITCOIN]
    ensures exists p, item :: p in Flatten(Queries(env, s, id, depth, w.server.value, w.tweakOrder)) &&
                              AsListed(u, w.server.value, p, item, env.readAddress)
  {
    SyncEffect(env, s, id, depth, w);
    var l := Discovered(env, s, id, depth, w.server.value, w.tweakOrder);
    CoherentPairs(l);
    MergeShape(l.unspent, SortedOutpoints(l.outpoints), w.node, |l.unspent|, BITCOIN);
    FoundAsListed(w.server.value, Queries(env, s, id, depth, w.server.value, w.tweakOrder), env.readAddress, u);
  }

  // ----- coins belong to their contract -----

  /** The coin was found at the contract's own script for its index. */
  ghost predicate AtOwnScript(env: Env, policy: Policy, u: Utxo) {
    u.address == env.readAddress(env.scriptOf(policy, u.index))
  }

  /** The coin was found at the script of this tweak. */
  predicate AtTweak(env: Env, t: TweakedOutput, u: Utxo) {
    u.tweak == Some((t.tweak, t.pubkey)) && u.index == t.index && u.address == env.readAddress(t.script)
  }

  ghost predicate AtSomeTweak(env: Env, tweaks: set<TweakedOutput>, u: Utxo) {
    exists t :: t in tweaks && AtTweak(env, t, u)
  }

  lemma QueriedProbes(env: Env, s: State, id: ContractId, depth: nat, server: Server,
                      order: seq<TweakedOutput>, p: Probe)
    requires id in s.contracts && depth >= 1
    requires p in Flatten(Queries(env, s, id, depth, server, order))
    ensures match p.tweak
            case None => p.script == env.scriptOf(s.contracts[id].policy, p.index)
            case Some(t) => t in order && p.script == t.script && p.index == t.index
  {
    BatchesPartition(server, ScriptsOf(env, s.contracts[id].policy), depth, LastUsed(UsedBy(s, id)), 0,
                     TweakProbes(order));
  }

  /** Every coin a synchronization caches was found at the contract's own script for its
      index, or at the script of one of its tweaks. */
  lemma CachedIsOwn(env: Env, s: State, id: ContractId, depth: nat, w: SyncWorld, a: AssetId, u: Utxo)
    requires Possible(s, SyncContract(id, depth, w)) && Sync(env, s, id, depth, w).1.SyncedAssets?
    requires var unspent := Entry(Sync(env, s, id, depth, w).0.cache, id).unspent;
      a in unspent && u in unspent[a]
    ensures id in s.contracts
    ensures if u.tweak.None? then AtOwnScript(env, s.contracts[id].policy, u)
            else AtSomeTweak(env, s.contracts[id].tweaks, u)
  {
    SyncEffect(env, s, id, depth, w);
    var l := Discovered(env, s, id, depth, w.server.value, w.tweakOrder);
    var batches := Queries(env, s, id, depth, w.server.value, w.tweakOrder);
    MergedAreCopies(l, w.node, a, u);
    var i :| 0 <= i < |l.unspent| && u == l.unspent[i].(value := u.value);
    FoundAsListed(w.server.value, batches, env.readAddress, l.unspent[i]);
    var p, item :| p in Flatten(batches) && AsListed(l.unspent[i], w.server.value, p, item, env.readAddress);
    QueriedProbes(env, s, id, depth, w.server.value, w.tweakOrder, p);
    if p.tweak.Some? {
      assert p.tweak.value in Elements(w.tweakOrder);
      assert AtTweak(env, p.tweak.value, u);
    }
  }

  /** An untweaked coin was found at the script, for its index, of some policy filed under
      the contract's id. */
  ghost predicate Owned(env: Env, id: ContractId, u: Utxo) {
    u.tweak.None? ==> exists policy :: env.policyId(policy) == id && AtOwnScript(env, policy, u)
  }

  ghost predicate AllOwned(env: Env, cache: Cache) {
    forall id, a, u | a in Entry(cache, id).unspent && u in Entry(cache, id).unspent[a] :: Owned(env, id, u)
  }

  lemma StepKeepsOwned(env: Env, s: State, e: Event)
    requires Sound(env, s) && AllOwned(env, s.cache) && Possible(s, e)
    ensures AllOwned(env, Step(env, s, e).0.cache)
  {
    var after := Step(env, s, e).0.cache;
    forall id, a, u | a in Entry(after, id).unspent && u in Entry(after, id).unspent[a]
      ensures Owned(env, id, u)
    {
      if e.SyncContract? && e.id == id && Sync(env, s, id, e.depth, e.sync).1.SyncedAssets? {
        CachedIsOwn(env, s, id, e.depth, e.sync, a, u);
        assert SoundContract(env, id, s.contracts[id]);
      } else {
        KeepsReading(env, s, e, id);
      }
    }
  }

  lemma KeepsReading(env: Env, s: State, e: Event, id: ContractId)
    requires Possible(s, e)
    requires e.SyncContract? && e.id == id ==> !Sync(env, s, id, e.depth, e.sync).1.SyncedAssets?
    ensures SameReading(s.cache, Step(env, s, e).0.cache, id)
  {
    if e.SyncContract? && e.id == id {
      SyncEffect(env, s, id, e.depth, e.sync);
    } else {
      ReadingStep(env, s, e, id);
    }
  }

  lemma {:induction false} RunKeepsOwned(env: Env, s: State, events: seq<Event>)
    requires Sound(env, s) && AllOwned(env, s.cache) && PossibleRun(env, s, events)
    ensures AllOwned(env, Run(env, s, events).cache)
    decreases |events|
  {
    if events != [] {
      StepKeepsSound(env, s, events[0]);
      StepKeepsOwned(env, s, events[0]);
      RunKeepsOwned(env, Step(env, s, events[0]).0, events[1..]);
    }
  }

  /** In every run, whatever servers and nodes answer, each untweaked cached coin of a
      stored contract was found at that contract's own script for the coin's index. */
  lemma CoinsAreOwn(env: Env, s: State, id: ContractId, a: AssetId, u: Utxo)
    requires Injective(env) && Reachable(env, s) && id in s.contracts
    requires a in Entry(s.cache, id).unspent && u in Entry(s.cache, id).unspent[a] && u.tweak.None?
    ensures AtOwnScript(env, s.contracts[id].policy, u)
  {
    ReachableIsSound(env, s);
    var events :| PossibleRun(env, INITIAL, events) && s == Run(env, INITIAL, events);
    RunKeepsOwned(env, INITIAL, events);
    assert Owned(env, id, u) && SoundContract(env, id, s.contracts[id]);
  }

  /** Each tweaked coin stays one of the contract's tweaks until the contract is deleted,
      created again or synchronized anew. */
  lemma TweakedCoinsAreKnown(env: Env, s: State, id: ContractId, depth: nat, w: SyncWorld, events: seq<Event>,
                             a: AssetId, u: Utxo)
    requires Possible(s, SyncContract(id, depth, w)) && Sync(env, s, id, depth, w).1.SyncedAssets?
    requires PossibleRun(env, Sync(env, s, id, depth, w).0, events)
    requires forall e | e in events :: !Restarts(env, e, id) && !(e.SyncContract? && e.id == id)
    requires var unspent := Entry(Run(env, Sync(env, s, id, depth, w).0, events).cache, id).unspent;
      a in unspent && u in unspent[a] && u.tweak.Some?
    ensures var later := Run(env, Sync(env, s, id, depth, w).0, events);
      id in later.contracts && AtSomeTweak(env, later.contracts[id].tweaks, u)
  {
    var synced := Sync(env, s, id, depth, w).0;
    ReadingIsStable(env, synced, events, id);
    CachedIsOwn(env, s, id, depth, w, a, u);
    SyncEffect(env, s, id, depth, w);
    HistoriesOnlyGrow(env, synced, events, id);
    var t :| t in s.contracts[id].tweaks && AtTweak(env, t, u);
    assert t in Run(env, synced, events).contracts[id].tweaks;
  }

  // ----- tweaked scripts are searched again -----

  /** What the wallet knows as a tweak of a contract is a probe of every later
      synchronization, until the contract is deleted or created again. */
  lemma TweaksAreSearched(env: Env, s: State, events: seq<Event>, id: ContractId, t: TweakedOutput,
                          depth: nat, server: Server, order: seq<TweakedOutput>)
    requires id in s.contracts && t in s.contracts[id].tweaks && depth >= 1
    requires PossibleRun(env, s, events) && forall e | e in events :: !Restarts(env, e, id)
    requires var later := Run(env, s, events);
      id in later.contracts ==> Enumerates(order, later.contracts[id].tweaks)
    ensures var later := Run(env, s, events);
      id in later.contracts &&
      Probe(t.index, t.script, Some(t)) in Flatten(Queries(env, later, id, depth, server, order))
  {
    HistoriesOnlyGrow(env, s, events, id);
    var later := Run(env, s, events);
    assert t in Elements(order);
    var i :| 0 <= i < |order| && order[i] == t;
    assert TweakProbes(order)[i] == Probe(t.index, t.script, Some(t));
    BatchesPartition(server, ScriptsOf(env, later.contracts[id].policy), depth, LastUsed(UsedBy(later, id)), 0,
                     TweakProbes(order));
  }

  /** The own outputs of a prepared RGB transfer, whose scripts the node has tweaked, are
      probes of every later synchronization, until the contract is deleted or created
      again: bitcoin change on them is found. */
  lemma TweakedChangeIsSearched(env: Env, s: State, req: TransferRequest, tw: TransferWorld, events: seq<Event>,
                                t: TweakedOutput, depth: nat, server: Server, order: seq<TweakedOutput>)
    requires req.info.Rgb? && Compose(env, s, req, tw).1.PreparedTransfer? && depth >= 1
    requires req.payFrom in s.contracts && PlanFor(env, s, req, tw).Success? && tw.answer.Some?
    requires var d, tx := PlanFor(env, s, req, tw).value, tw.answer.value;
      |tx.outs| <= |d.outputs| && t in NewTweaks(d.outputs, tx.outs, env.txidOf(tx.psbt), |tx.outs|)
    requires PossibleRun(env, Compose(env, s, req, tw).0, events)
    requires forall e | e in events :: !Restarts(env, e, req.payFrom)
    requires var later := Run(env, Compose(env, s, req, tw).0, events);
      req.payFrom in later.contracts ==> Enumerates(order, later.contracts[req.payFrom].tweaks)
    ensures var later := Run(env, Compose(env, s, req, tw).0, events);
      req.payFrom in later.contracts &&
      Probe(t.index, t.script, Some(t)) in Flatten(Queries(env, later, req.payFrom, depth, server, order))
  {
    FinishEffect(env, s, req, PlanFor(env, s, req, tw).value, tw);
    TweaksAreSearched(env, Compose(env, s, req, tw).0, events, req.payFrom, t, depth, server, order);
  }
}
