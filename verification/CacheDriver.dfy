/** The file-backed cache: every change is made in memory and written through. */
module CacheDriver {
  import opened WalletTypes
  import opened CacheModel
  import opened Persistence

  // ----- the effect of each operation -----

  /** A change to one contract entry, which is created first if it is missing. */
  function OnContract<R>(cache: Cache, id: ContractId,
                         change: ContractCache -> (ContractCache, Result<R>)): (Cache, Result<R>) {
    var (entry, r) := change(Entry(cache, id));
    (cache.(descriptors := cache.descriptors[id := entry]), r)
  }

  function UseAddress(address: Address, path: Index): ContractCache -> (ContractCache, Result<bool>) {
    (c: ContractCache) =>
      if address in c.used && c.used[address] != path then (c, Failure(WrongDerivation))
      else (c.(used := c.used[address := path]), Success(address !in c.used))
  }

  function ForgetAddress(address: Address): ContractCache -> (ContractCache, Result<bool>) {
    (c: ContractCache) => (c.(used := c.used - {address}), Success(address in c.used))
  }

  /** Outputs of no value are dropped and lists become hash sets. */
  function Positive(utxos: seq<Utxo>): set<Utxo> {
    set u | u in utxos && u.value > 0
  }

  function Updated(cache: Cache, id: ContractId, mineInfo: map<BlockPos, Txid>,
                   height: u32, utxo: set<OutPoint>, assets: map<AssetId, seq<Utxo>>): Cache {
    var entry := Entry(cache, id).(
      unspent := map a | a in assets :: Positive(assets[a]),
      utxo := utxo,
      updatedHeight := height);
    Cache(height, cache.descriptors[id := entry], cache.mineInfo + mineInfo)
  }

  /** An address clash needs an existing entry, so a failed change leaves the
      cache as it was. */
  lemma FailedChangeChangesNothing(cache: Cache, id: ContractId, address: Address, path: Index)
    requires OnContract(cache, id, UseAddress(address, path)).1.Failure?
    ensures OnContract(cache, id, UseAddress(address, path)).0 == cache
  {
    assert id in cache.descriptors;
    assert cache.descriptors[id := cache.descriptors[id]] == cache.descriptors;
  }

  /** Forgetting an address takes back marking it as used, and nothing else. */
  lemma ForgettingUndoesUse(cache: Cache, id: ContractId, address: Address, path: Index)
    requires address !in Entry(cache, id).used
    ensures var used := OnContract(cache, id, UseAddress(address, path));
            var back := OnContract(used.0, id, ForgetAddress(address));
      && used.1 == Success(true) && back.1 == Success(true)
      && Entry(used.0, id).used == Entry(cache, id).used[address := path]
      && Entry(back.0, id) == Entry(cache, id)
      && back.0 == cache.(descriptors := cache.descriptors[id := Entry(cache, id)])
  {
    var before := Entry(cache, id).used;
    assert before[address := path] - {address} == before;
  }

  // ----- the driver -----

  class FileDriver {
    const codec: Codec<Cache>
    var cache: Cache
    var file: Bytes

    /** The file holds what memory holds. */
    ghost predicate Synced()
      reads this
    {
      file == codec.encode(cache)
    }

    /** A new file, initialized with the empty cache. */
    constructor (codec: Codec<Cache>)
      ensures this.codec == codec
      ensures cache == EMPTY_CACHE && Synced()
    {
      this.codec := codec;
      cache := EMPTY_CACHE;
      file := codec.encode(EMPTY_CACHE);
    }

    /** Reading the file back after a restart restores the cache. */
    method Load() returns (ok: bool)
      modifies this`cache
      ensures old(Synced()) && codec.Invertible() ==> ok && cache == old(cache)
      ensures !ok ==> cache == old(cache)
      ensures ok ==> codec.decode(file) == Some(cache)
    {
      var read := codec.decode(file);
      ok := read.Some?;
      cache := if ok then read.value else cache;
    }

    method Store()
      modifies this`file
      ensures Synced()
    {
      file := codec.encode(cache);
    }

    method WithContract<R>(id: ContractId, change: ContractCache -> (ContractCache, Result<R>))
      returns (r: Result<R>)
      modifies this
      ensures (cache, r) == OnContract(old(cache), id, change)
      ensures r.Success? ==> Synced()
      ensures r.Failure? ==> file == old(file)
    {
      if id !in cache.descriptors {
        cache := cache.(descriptors := cache.descriptors[id := EMPTY_ENTRY]);
      }
      var (entry, outcome) := change(cache.descriptors[id]);
      cache := cache.(descriptors := cache.descriptors[id := entry]);
      assert cache.descriptors == old(cache).descriptors[id := entry];
      r := outcome;
      if r.Success? {
        Store();
      }
    }

    /** Marks an address as used; a clash is refused and leaves file and memory
        in agreement. */
    method UseAddressDerivation(id: ContractId, address: Address, path: Index)
      returns (r: Result<bool>)
      requires Synced()
      modifies this
      ensures (cache, r) == OnContract(old(cache), id, UseAddress(address, path))
      ensures Synced()
      ensures r.Failure? ==> cache == old(cache) && file == old(file)
    {
      r := WithContract(id, UseAddress(address, path));
      if r.Failure? {
        FailedChangeChangesNothing(old(cache), id, address, path);
      }
    }

    method ForgetAddressOf(id: ContractId, address: Address) returns (r: Result<bool>)
      requires Synced()
      modifies this
      ensures (cache, r) == OnContract(old(cache), id, ForgetAddress(address))
      ensures Synced() && r.Success?
    {
      r := WithContract(id, ForgetAddress(address));
    }

    method Update(id: ContractId, mineInfo: map<BlockPos, Txid>, height: u32,
                  utxo: set<OutPoint>, assets: map<AssetId, seq<Utxo>>)
      modifies this
      ensures cache == Updated(old(cache), id, mineInfo, height, utxo, assets)
      ensures Synced()
    {
      cache := cache.(mineInfo := cache.mineInfo + mineInfo);
      var entry := Entry(cache, id);
      entry := entry.(unspent := map a | a in assets :: Positive(assets[a]));
      entry := entry.(utxo := utxo);
      entry := entry.(updatedHeight := height);
      cache := cache.(knownHeight := height, descriptors := cache.descriptors[id := entry]);
      Store();
    }

    function Unspent(id: ContractId): Unspent
      reads this
    {
      Entry(cache, id).unspent
    }
  }
}
