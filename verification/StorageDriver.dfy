/** The file-backed storage of contracts. */
module StorageDriver {
  import opened WalletTypes
  import opened Persistence
  import opened StorageModel

  class FileDriver {
    const codec: Codec<Contracts>
    var data: Contracts
    var file: Bytes

    /** The file holds what memory holds. */
    ghost predicate Synced()
      reads this
    {
      file == codec.encode(data)
    }

    constructor (codec: Codec<Contracts>)
      ensures this.codec == codec
      ensures data == map[] && Synced()
    {
      this.codec := codec;
      data := map[];
      file := codec.encode(map[]);
    }

    /** Reading the file back after a restart restores the contracts. */
    method Load() returns (ok: bool)
      modifies this`data
      ensures old(Synced()) && codec.Invertible() ==> ok && data == old(data)
      ensures !ok ==> data == old(data)
      ensures ok ==> codec.decode(file) == Some(data)
    {
      var read := codec.decode(file);
      ok := read.Some?;
      data := if ok then read.value else data;
    }

    method Store()
      modifies this`file
      ensures Synced()
    {
      file := codec.encode(data);
    }

    /** Storing a contract replaces whatever was filed under its id. */
    method AddContract(contract: Contract)
      modifies this
      ensures data == old(data)[contract.id := contract] && Synced()
    {
      data := data[contract.id := contract];
      Store();
    }

    method RenameContract(id: ContractId, name: string) returns (r: Result<()>)
      requires Synced()
      modifies this
      ensures r == if id in old(data) then Success(()) else Failure(ContractNotFound)
      ensures data == if id in old(data) then old(data)[id := old(data)[id].(name := name)] else old(data)
      ensures Synced()
    {
      if id !in data {
        return Failure(ContractNotFound);
      }
      data := data[id := data[id].(name := name)];
      Store();
      return Success(());
    }

    method DeleteContract(id: ContractId) returns (r: Result<()>)
      requires Synced()
      modifies this
      ensures r == if id in old(data) then Success(()) else Failure(ContractNotFound)
      ensures data == old(data) - {id} && Synced()
    {
      if id !in data {
        return Failure(ContractNotFound);
      }
      data := data - {id};
      Store();
      return Success(());
    }

    method AddInvoiceTo(id: ContractId, invoice: Invoice, openings: seq<OutpointReveal>, conceal: Concealer)
      returns (r: Result<()>)
      requires Synced()
      modifies this
      ensures r == if id in old(data) then Success(()) else Failure(ContractNotFound)
      ensures data == InvoiceOne(old(data), id, invoice, openings, conceal)
      ensures Synced()
    {
      if id !in data {
        return Failure(ContractNotFound);
      }
      var contract := AddInvoice(data[id], invoice);
      for i := 0 to |openings|
        invariant contract == AddBlindings(AddInvoice(old(data)[id], invoice), openings[..i], conceal)
        invariant data == old(data) && file == old(file)
      {
        assert openings[..i + 1][..i] == openings[..i];
        contract := AddBlinding(contract, openings[i], conceal);
      }
      assert openings[..|openings|] == openings;
      data := data[id := contract];
      Store();
      return Success(());
    }

    method AddP2cTweak(id: ContractId, tweak: TweakedOutput) returns (r: Result<()>)
      requires Synced()
      modifies this
      ensures r == if id in old(data) then Success(()) else Failure(ContractNotFound)
      ensures data == if id in old(data)
                      then old(data)[id := old(data)[id].(tweaks := old(data)[id].tweaks + {tweak})]
                      else old(data)
      ensures Synced()
    {
      if id !in data {
        return Failure(ContractNotFound);
      }
      data := data[id := data[id].(tweaks := data[id].tweaks + {tweak})];
      Store();
      return Success(());
    }

    method RegisterOperation(id: ContractId, op: Operation) returns (r: Result<()>)
      requires Synced()
      modifies this
      ensures r == if id in old(data) then Success(()) else Failure(ContractNotFound)
      ensures data == if id in old(data)
                      then old(data)[id := old(data)[id].(operations := old(data)[id].operations + [op])]
                      else old(data)
      ensures Synced()
    {
      if id !in data {
        return Failure(ContractNotFound);
      }
      data := data[id := data[id].(operations := data[id].operations + [op])];
      Store();
      return Success(());
    }
  }
}
