/** Machine integers, identifiers and records shared by the whole wallet model. */
module WalletTypes {

  const U16_LIMIT: int := 0x1_0000
  const U32_LIMIT: int := 0x1_0000_0000
  const U64_LIMIT: int := 0x1_0000_0000_0000_0000

  /** Largest normal child index of BIP-32, section "Extended keys". */
  const LARGEST_INDEX: int := 0x7FFF_FFFF

  /** One more than the largest 256-bit hash. */
  const HASH_LIMIT: int :=
    0x1_0000_0000_0000_0000_0000_0000_0000_0000_0000_0000_0000_0000_0000_0000_0000_0000

  type u16 = n: int | 0 <= n < 0x1_0000
  type u32 = n: int | 0 <= n < 0x1_0000_0000
  type u64 = n: int | 0 <= n < 0x1_0000_0000_0000_0000
  type Index = n: int | 0 <= n <= 0x7FFF_FFFF

  /** A transaction id, read as the big-endian number of its 32 stored bytes, so
      that the numeric order is the byte order the source sorts by. */
  type Txid = n: int | 0 <= n <
    0x1_0000_0000_0000_0000_0000_0000_0000_0000_0000_0000_0000_0000_0000_0000_0000_0000

  datatype Option<+T> = None | Some(value: T)

  datatype Result<+T> = Success(value: T) | Failure(error: Error)

  /** Overflow stands for the panic of a checked u64 addition, UnsupportedReceiver
      for the unfinished branch that pays to a PSBT, MalformedWitness for the
      out-of-range panic on a witness with more outputs than were drafted. */
  datatype Error =
    | ContractNotFound
    | WrongDerivation
    | InsufficientFunds
    | CacheInconsistency
    | NoChangeAddress
    | NoChangeSeal
    | NoAddress
    | UnsupportedReceiver
    | MalformedWitness
    | Overflow
    | ElectrumFailure
    | RgbNodeFailure

  datatype ContractId = ContractId(digest: nat)
  datatype AssetId = AssetId(digest: nat)
  datatype Script = Script(text: string)
  datatype Address = Address(text: string)
  datatype Policy = Policy(descriptor: string)
  datatype Invoice = Invoice(text: string)
  datatype PublicKey = PublicKey(text: string)

  /** The default RGB contract id, under which bitcoin itself is filed. */
  const BITCOIN := AssetId(0)

  datatype OutPoint = OutPoint(txid: Txid, vout: u32)
  datatype BlockPos = BlockPos(height: u32, offset: u16)

  datatype Utxo = Utxo(
    value: u64,
    height: u32,
    offset: u16,
    txid: Txid,
    vout: u16,
    index: Index,
    tweak: Option<(nat, PublicKey)>,
    address: Option<Address>)
  {
    function Outpoint(): OutPoint {
      OutPoint(txid, vout)
    }

    function Position(): BlockPos {
      BlockPos(height, offset)
    }
  }

  datatype TweakedOutput = TweakedOutput(
    outpoint: OutPoint,
    script: Script,
    tweak: nat,
    pubkey: PublicKey,
    index: Index)

  /** Checked addition on normal child indexes. */
  function CheckedAdd(index: Index, step: nat): Option<Index> {
    if index + step <= LARGEST_INDEX then Some(index + step) else None
  }

  function ValueOf(utxo: Utxo): nat {
    utxo.value
  }

  function OutpointsOf(utxos: set<Utxo>): set<OutPoint> {
    set u | u in utxos :: u.Outpoint()
  }

  ghost predicate UniqueOutpoints(utxos: set<Utxo>) {
    forall u, v | u in utxos && v in utxos && u.Outpoint() == v.Outpoint() :: u == v
  }

  /** The order of outpoints: by transaction id, and then by output number. */
  predicate OutpointBefore(o: OutPoint, p: OutPoint) {
    o.txid < p.txid || (o.txid == p.txid && o.vout < p.vout)
  }

  ghost predicate InOutpointOrder(s: seq<OutPoint>) {
    forall i, j | 0 <= i < j < |s| :: OutpointBefore(s[i], s[j])
  }

  /** The same as a number, by which a sorted set is walked. */
  function OutpointRank(o: OutPoint): int {
    o.txid * 0x1_0000_0000 + o.vout
  }
}
