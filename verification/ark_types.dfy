/**
 * Data model of the Ark client's reconciliation core: the values the
 * coordinator and the blockchain explorer report, the records the client
 * builds from them, and the collaborators it calls (as plain functions, so
 * that every response is an input of the model).
 */
module ArkTypes {

  /** Integers of the widths the client works with. */
  newtype U64 = x: int | 0 <= x < 0x1_0000_0000_0000_0000
  newtype I64 = x: int | -0x8000_0000_0000_0000 <= x < 0x8000_0000_0000_0000

  /** An amount in satoshis (see Left out: the u64 overflow panic is not modelled). */
  type Amount = nat

  type Txid = seq<bv8>
  type XOnlyPublicKey = seq<bv8>
  /** An on-chain address. */
  type Address = string
  /** An off-chain (Ark) address. */
  type ArkAddress = string

  datatype Network = Bitcoin | Testnet | Signet | Regtest

  datatype OutPoint = OutPoint(txid: Txid, vout: nat)

  datatype Option<+T> = None | Some(value: T)

  /** The error kinds the client reports; collaborator errors are passed on unchanged. */
  datatype Error =
    | Transport(reason: string)
    | Explorer(reason: string)
    | Wallet(reason: string)
    | Core(reason: string)
    | AdHoc(reason: string)

  /** Rust's `Result<T, Error>`; failure-compatible, so `:-` plays the part of `?`. */
  datatype Result<+T> = Success(value: T) | Failure(error: Error) {
    predicate IsFailure() {
      Failure?
    }

    function PropagateFailure<U>(): Result<U>
      requires Failure?
    {
      Failure(error)
    }

    function Extract(): T
      requires Success?
    {
      value
    }
  }

  /**
   * An off-chain output as the coordinator lists it. The coordinator reports
   * further fields that only the history generators read; they are not part of
   * this model.
   */
  datatype VtxoOutPoint = VtxoOutPoint(outpoint: OutPoint, amount: Amount, isPending: bool)

  /** The coordinator's answer to `list_vtxos` for one address. */
  datatype ListVtxo = ListVtxo(spendable: seq<VtxoOutPoint>, spent: seq<VtxoOutPoint>)

  /** An output as the blockchain explorer reports it. */
  datatype ExplorerUtxo = ExplorerUtxo(
    outpoint: OutPoint,
    amount: Amount,
    confirmationBlocktime: Option<U64>,
    isSpent: bool)

  datatype SpendStatus = SpendStatus(spendTxid: Option<Txid>)

  /** What the handshake with the coordinator returned. */
  datatype ServerInfo = ServerInfo(
    pk: XOnlyPublicKey,
    unilateralExitDelay: nat,
    network: Network,
    boardingDescriptorTemplate: string)

  /**
   * The default VTXO template: determined by the coordinator's key, the
   * owner's key, the exit delay and the network.
   */
  datatype DefaultVtxo = DefaultVtxo(
    server: XOnlyPublicKey,
    owner: XOnlyPublicKey,
    exitDelay: nat,
    network: Network)

  /**
   * One record of the transaction history. The off-chain records are built by
   * the history generators of `ark_core` and are opaque here: a txid plus a
   * payload the generators choose, standing for the variant, amount and
   * timestamps, so two records with the same txid may differ. The sort key of
   * every record is `ark_core`'s `created_at`, the `ArkCore.createdAt` field
   * below, not a field of the record.
   */
  datatype ArkTransaction =
    | Boarding(txid: Txid, amount: Amount, confirmedAt: Option<I64>)
    | Offchain(txid: Txid, detail: nat)

  /** Taproot and key derivations computed outside the client. */
  datatype VtxoScripts = VtxoScripts(
    arkAddress: DefaultVtxo -> ArkAddress,
    scriptAddress: DefaultVtxo -> Address,
    // (template, now, confirmation blocktime), both times as seconds since the epoch
    canBeClaimedUnilaterallyByOwner: (DefaultVtxo, nat, nat) -> bool)

  /** The coordinator transport. */
  datatype ArkServer = ArkServer(listVtxos: ArkAddress -> Result<ListVtxo>)

  /** The blockchain source. */
  datatype Blockchain = Blockchain(
    findOutpoints: Address -> Result<seq<ExplorerUtxo>>,
    getOutputStatus: (Txid, nat) -> Result<SpendStatus>)

  /** The boarding wallet; the result is the address of the new boarding output. */
  datatype BoardingWallet = BoardingWallet(
    newBoardingOutput: (XOnlyPublicKey, nat, string, Network) -> Result<Address>)

  /** The history functions of `ark_core`, and the sort key of a history record. */
  datatype ArkCore = ArkCore(
    // (spent, spendable, boarding round txids)
    generateIncoming: (seq<VtxoOutPoint>, seq<VtxoOutPoint>, seq<Txid>) -> Result<seq<ArkTransaction>>,
    // (spent, spendable)
    generateOutgoing: (seq<VtxoOutPoint>, seq<VtxoOutPoint>) -> Result<seq<ArkTransaction>>,
    createdAt: ArkTransaction -> int)

  /** A connected client: session parameters plus its collaborators. */
  datatype Client = Client(
    name: string,
    owner: XOnlyPublicKey,
    serverInfo: ServerInfo,
    server: ArkServer,
    blockchain: Blockchain,
    wallet: BoardingWallet,
    scripts: VtxoScripts,
    core: ArkCore)
}
