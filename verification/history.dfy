/**
 * `transaction_history`: one boarding record per explorer output at each
 * boarding address, the round transactions that spent those outputs, the
 * incoming and outgoing records of `ark_core`'s generators, all merged and
 * stably sorted by creation time.
 */
module History {
  import opened ArkTypes
  import opened Addresses
  import opened Listing
  import opened StableSort

  const I64_MAX: int := 0x7FFF_FFFF_FFFF_FFFF

  /**
   * `t as i64` for a u64 `t`: the same bits read as two's complement, so the
   * value is unchanged up to `i64::MAX` and wraps to a negative one above it.
   */
  function CastToI64(t: U64): (r: I64)
    ensures (r as int - t as int) % 0x1_0000_0000_0000_0000 == 0
    ensures t as int <= I64_MAX ==> r as int == t as int
    ensures t as int > I64_MAX ==> r < 0
  {
    if t as int <= I64_MAX then t as int as I64 else (t as int - 0x1_0000_0000_0000_0000) as I64
  }

  /** The boarding record of one explorer output at a boarding address. */
  function BoardingRecord(u: ExplorerUtxo): (t: ArkTransaction)
    ensures t.Boarding? && t.txid == u.outpoint.txid && t.amount == u.amount
    ensures t.confirmedAt.None? <==> u.confirmationBlocktime.None?
    ensures t.confirmedAt.Some? ==> t.confirmedAt.value == CastToI64(u.confirmationBlocktime.value)
  {
    var confirmedAt := match u.confirmationBlocktime
      case Some(blocktime) => Some(CastToI64(blocktime))
      case None => None;
    Boarding(u.outpoint.txid, u.amount, confirmedAt)
  }

  /** The boarding records of `us`, one per output, in order. */
  ghost function BoardingRecords(us: seq<ExplorerUtxo>): (r: seq<ArkTransaction>)
    ensures |r| == |us| && forall k :: 0 <= k < |us| ==> r[k] == BoardingRecord(us[k])
  {
    seq(|us|, k requires 0 <= k < |us| => BoardingRecord(us[k]))
  }

  /** The spending txid a status reports, if any. */
  function SpendTxids(status: SpendStatus): seq<Txid>
  {
    match status.spendTxid
    case Some(txid) => [txid]
    case None => []
  }

  /** The round txids the explorer reports as having spent outputs of `us`, in order. */
  ghost function RoundTxids(chain: Blockchain, us: seq<ExplorerUtxo>): seq<Txid>
  {
    if us == [] then []
    else
      var tail := RoundTxids(chain, us[1..]);
      match chain.getOutputStatus(us[0].outpoint.txid, us[0].outpoint.vout)
      case Success(status) => SpendTxids(status) + tail
      case Failure(_) => tail
  }

  /** What the boarding loop collects. */
  datatype BoardingScan = BoardingScan(transactions: seq<ArkTransaction>, roundTxids: seq<Txid>)

  const NoScan := BoardingScan([], [])

  /** Appends `more` to `acc` unless `more` failed. */
  function Merge(acc: BoardingScan, more: Result<BoardingScan>): Result<BoardingScan>
  {
    var m :- more;
    Success(BoardingScan(acc.transactions + m.transactions, acc.roundTxids + m.roundTxids))
  }

  /** `first`, then `next` appended, the first error aborting. */
  function Chain(first: Result<BoardingScan>, next: Result<BoardingScan>): Result<BoardingScan>
  {
    var f :- first;
    Merge(f, next)
  }

  lemma MergeMerge(a: BoardingScan, b: BoardingScan, more: Result<BoardingScan>)
    ensures Merge(a, Merge(b, more))
            == Merge(BoardingScan(a.transactions + b.transactions, a.roundTxids + b.roundTxids), more)
  {
    if more.Success? {
      assert a.transactions + (b.transactions + more.value.transactions)
             == (a.transactions + b.transactions) + more.value.transactions;
      assert a.roundTxids + (b.roundTxids + more.value.roundTxids) == (a.roundTxids + b.roundTxids) + more.value.roundTxids;
    }
  }

  lemma MergeEmpty(more: Result<BoardingScan>)
    ensures Merge(NoScan, more) == more
  {
    if more.Success? {
      assert [] + more.value.transactions == more.value.transactions;
      assert [] + more.value.roundTxids == more.value.roundTxids;
    }
  }

  lemma ChainMerge(a: BoardingScan, more: Result<BoardingScan>, next: Result<BoardingScan>)
    ensures Chain(Merge(a, more), next) == Merge(a, Chain(more, next))
  {
    if more.Success? {
      MergeMerge(a, more.value, next);
    }
  }

  /** The inner loop: per output, its record and, from its spend status, a round txid. */
  function ScanOutputs(chain: Blockchain, us: seq<ExplorerUtxo>): Result<BoardingScan>
  {
    if us == [] then Success(NoScan)
    else
      var status :- chain.getOutputStatus(us[0].outpoint.txid, us[0].outpoint.vout);
      Merge(BoardingScan([BoardingRecord(us[0])], SpendTxids(status)), ScanOutputs(chain, us[1..]))
  }

  /** The outer loop: per boarding address, its explorer outputs, scanned. */
  function ScanAddresses(chain: Blockchain, addrs: seq<Address>): Result<BoardingScan>
  {
    if addrs == [] then Success(NoScan)
    else
      var outpoints :- chain.findOutpoints(addrs[0]);
      Chain(ScanOutputs(chain, outpoints), ScanAddresses(chain, addrs[1..]))
  }

  /** Every spend-status call for `us` succeeds. */
  ghost predicate StatusesKnown(chain: Blockchain, us: seq<ExplorerUtxo>)
  {
    forall k :: 0 <= k < |us| ==> chain.getOutputStatus(us[k].outpoint.txid, us[k].outpoint.vout).Success?
  }

  /**
   * Scanning the outputs of one address succeeds exactly when every status
   * call does; it then yields one boarding record per output, in order, and a
   * round txid for exactly the outputs whose status names a spending txid.
   */
  lemma {:induction false} ScanOutputsRecords(chain: Blockchain, us: seq<ExplorerUtxo>)
    ensures ScanOutputs(chain, us).Success? <==> StatusesKnown(chain, us)
    ensures ScanOutputs(chain, us).Success? ==>
              && ScanOutputs(chain, us).value.transactions == BoardingRecords(us)
              && ScanOutputs(chain, us).value.roundTxids == RoundTxids(chain, us)
    ensures ScanOutputs(chain, us).Success? ==>
              forall t :: t in ScanOutputs(chain, us).value.roundTxids <==>
                            exists k :: 0 <= k < |us| &&
                                        chain.getOutputStatus(us[k].outpoint.txid, us[k].outpoint.vout)
                                        == Success(SpendStatus(Some(t)))
  {
    if us != [] {
      ScanOutputsRecords(chain, us[1..]);
      assert forall k :: 1 <= k < |us| ==> us[k] == us[1..][k - 1];
      var status := chain.getOutputStatus(us[0].outpoint.txid, us[0].outpoint.vout);
      if status.Success? && ScanOutputs(chain, us[1..]).Success? {
        assert BoardingRecords(us) == [BoardingRecord(us[0])] + BoardingRecords(us[1..]);
        var s := ScanOutputs(chain, us).value;
        forall t
          ensures t in s.roundTxids <==>
                  exists k :: 0 <= k < |us| && chain.getOutputStatus(us[k].outpoint.txid, us[k].outpoint.vout) == Success(SpendStatus(Some(t)))
        {
          if t in s.roundTxids && t !in ScanOutputs(chain, us[1..]).value.roundTxids {
            assert chain.getOutputStatus(us[0].outpoint.txid, us[0].outpoint.vout) == Success(SpendStatus(Some(t)));
          }
        }
      }
    }
  }

  lemma StatusesKnownAppend(chain: Blockchain, a: seq<ExplorerUtxo>, b: seq<ExplorerUtxo>)
    ensures StatusesKnown(chain, a + b) <==> StatusesKnown(chain, a) && StatusesKnown(chain, b)
  {
    assert forall k :: 0 <= k < |a| ==> (a + b)[k] == a[k];
    assert forall k :: 0 <= k < |b| ==> (a + b)[|a| + k] == b[k];
    if StatusesKnown(chain, a) && StatusesKnown(chain, b) {
      forall k | 0 <= k < |a + b|
        ensures chain.getOutputStatus((a + b)[k].outpoint.txid, (a + b)[k].outpoint.vout).Success?
      {
        if k >= |a| { assert (a + b)[k] == b[k - |a|]; }
      }
    }
  }

  /** Every explorer call for `addrs` succeeds. */
  ghost predicate OutputsKnown(chain: Blockchain, addrs: seq<Address>)
  {
    forall i :: 0 <= i < |addrs| ==> chain.findOutpoints(addrs[i]).Success?
  }

  /** The explorer outputs at `addrs`, address after address. */
  ghost function OutputsAt(chain: Blockchain, addrs: seq<Address>): seq<ExplorerUtxo>
    requires OutputsKnown(chain, addrs)
  {
    if addrs == [] then [] else chain.findOutpoints(addrs[0]).value + OutputsAt(chain, addrs[1..])
  }

  lemma {:induction false} RoundTxidsAppend(chain: Blockchain, a: seq<ExplorerUtxo>, b: seq<ExplorerUtxo>)
    ensures RoundTxids(chain, a + b) == RoundTxids(chain, a) + RoundTxids(chain, b)
  {
    if a == [] {
      assert a + b == b;
    } else {
      var ab := a + b;
      assert ab[0] == a[0] && ab[1..] == a[1..] + b;
      RoundTxidsAppend(chain, a[1..], b);
      var head := match chain.getOutputStatus(a[0].outpoint.txid, a[0].outpoint.vout)
        case Success(status) => SpendTxids(status)
        case Failure(_) => [];
      assert RoundTxids(chain, a) == head + RoundTxids(chain, a[1..]);
      assert RoundTxids(chain, ab) == head + RoundTxids(chain, ab[1..]);
    }
  }

  /**
   * The boarding scan succeeds exactly when every explorer and status call
   * does; it then holds one record per output found at the boarding
   * addresses, in order, and the round txids of those outputs.
   */
  lemma {:induction false} ScanAddressesRecords(chain: Blockchain, addrs: seq<Address>)
    ensures ScanAddresses(chain, addrs).Success? <==>
              OutputsKnown(chain, addrs) && StatusesKnown(chain, OutputsAt(chain, addrs))
    ensures ScanAddresses(chain, addrs).Success? ==>
              && ScanAddresses(chain, addrs).value.transactions == BoardingRecords(OutputsAt(chain, addrs))
              && ScanAddresses(chain, addrs).value.roundTxids == RoundTxids(chain, OutputsAt(chain, addrs))
  {
    if addrs != [] {
      ScanAddressesRecords(chain, addrs[1..]);
      OutputsKnownCons(chain, addrs);
      var found := chain.findOutpoints(addrs[0]);
      if found.Success? {
        ScanOutputsRecords(chain, found.value);
        if OutputsKnown(chain, addrs[1..]) {
          var head, tail := found.value, OutputsAt(chain, addrs[1..]);
          assert OutputsAt(chain, addrs) == head + tail;
          StatusesKnownAppend(chain, head, tail);
          BoardingRecordsAppend(head, tail);
          RoundTxidsAppend(chain, head, tail);
        }
      }
    }
  }

  lemma OutputsKnownCons(chain: Blockchain, addrs: seq<Address>)
    requires addrs != []
    ensures OutputsKnown(chain, addrs) <==> chain.findOutpoints(addrs[0]).Success? && OutputsKnown(chain, addrs[1..])
  {
    assert forall i :: 1 <= i < |addrs| ==> addrs[i] == addrs[1..][i - 1];
  }

  lemma BoardingRecordsAppend(a: seq<ExplorerUtxo>, b: seq<ExplorerUtxo>)
    ensures BoardingRecords(a + b) == BoardingRecords(a) + BoardingRecords(b)
  {
  }

  /** The three record sets that are merged. */
  datatype HistoryParts = HistoryParts(
    boarding: seq<ArkTransaction>,
    incoming: seq<ArkTransaction>,
    outgoing: seq<ArkTransaction>)

  /** Every collaborator call of `transaction_history`, in order, the first error aborting. */
  function Parts(c: Client): Result<HistoryParts>
  {
    var boardingAddresses :- GetBoardingAddresses(c);
    var scan :- ScanAddresses(c.blockchain, boardingAddresses);
    var vtxos :- ListAll(c.server, GetOffchainAddresses(c));
    var incoming :- c.core.generateIncoming(vtxos.spent, vtxos.spendable, scan.roundTxids);
    var outgoing :- c.core.generateOutgoing(vtxos.spent, vtxos.spendable);
    Success(HistoryParts(scan.transactions, incoming, outgoing))
  }

  /** The history: boarding, incoming and outgoing records, stably sorted by creation time. */
  function HistoryOf(c: Client): Result<seq<ArkTransaction>>
  {
    var parts :- Parts(c);
    Success(SortByKey(parts.boarding + parts.incoming + parts.outgoing, c.core.createdAt))
  }

  /** Records of equal creation time keep the order boarding, incoming, outgoing. */
  ghost predicate MergedInOrder(h: seq<ArkTransaction>, p: HistoryParts, key: ArkTransaction -> int)
  {
    forall k :: WithKey(h, key, k) == WithKey(p.boarding, key, k) + WithKey(p.incoming, key, k) + WithKey(p.outgoing, key, k)
  }

  /**
   * The history exists exactly when every part does; it is then a permutation
   * of boarding ++ incoming ++ outgoing, sorted by creation time, with equal
   * times in the order boarding, incoming, outgoing.
   */
  lemma HistoryIsStableMerge(c: Client)
    ensures HistoryOf(c).Success? <==> Parts(c).Success?
    ensures HistoryOf(c).Success? ==>
              var h, p := HistoryOf(c).value, Parts(c).value;
              && SortedBy(h, c.core.createdAt)
              && multiset(h) == multiset(p.boarding + p.incoming + p.outgoing)
              && MergedInOrder(h, p, c.core.createdAt)
  {
    if Parts(c).Success? {
      var p, key := Parts(c).value, c.core.createdAt;
      forall k ensures WithKey(p.boarding + p.incoming + p.outgoing, key, k)
                       == WithKey(p.boarding, key, k) + WithKey(p.incoming, key, k) + WithKey(p.outgoing, key, k)
      {
        WithKeyAppend(p.boarding + p.incoming, p.outgoing, key, k);
        WithKeyAppend(p.boarding, p.incoming, key, k);
      }
    }
  }

  /**
   * These properties determine the history: any sequence sorted by creation
   * time that merges the parts in that order is the history.
   */
  lemma HistoryIsDetermined(c: Client, h: seq<ArkTransaction>)
    requires Parts(c).Success?
    requires SortedBy(h, c.core.createdAt) && MergedInOrder(h, Parts(c).value, c.core.createdAt)
    ensures HistoryOf(c) == Success(h)
  {
    HistoryIsStableMerge(c);
    StableSortIsUnique(h, HistoryOf(c).value, c.core.createdAt);
  }

  /**
   * What the parts are made of, for the session's single boarding address:
   * one boarding record per explorer output there, and the generators fed
   * with the coordinator's listing and the round txids of those outputs.
   */
  lemma PartsInputs(c: Client)
    requires Parts(c).Success?
    ensures GetBoardingAddress(c).Success?
    ensures var found := c.blockchain.findOutpoints(GetBoardingAddress(c).value);
            var listing := c.server.listVtxos(GetOffchainAddress(c).0);
            var p := Parts(c).value;
            && found.Success? && listing.Success?
            && p.boarding == BoardingRecords(found.value)
            && c.core.generateIncoming(listing.value.spent, listing.value.spendable, RoundTxids(c.blockchain, found.value))
               == Success(p.incoming)
            && c.core.generateOutgoing(listing.value.spent, listing.value.spendable) == Success(p.outgoing)
  {
    var addrs := GetBoardingAddresses(c).value;
    ScanAddressesRecords(c.blockchain, addrs);
    assert addrs[1..] == [];
    var found := c.blockchain.findOutpoints(addrs[0]).value;
    assert OutputsAt(c.blockchain, addrs) == found + [] == found;
    var scan := ScanAddresses(c.blockchain, addrs).value;
    assert scan.roundTxids == RoundTxids(c.blockchain, found);
    assert GetOffchainAddresses(c) == [GetOffchainAddress(c)];
    ListAllSingle(c.server, GetOffchainAddress(c));
    var vtxos := ListAll(c.server, GetOffchainAddresses(c)).value;
    assert c.core.generateIncoming(vtxos.spent, vtxos.spendable, scan.roundTxids) == Success(Parts(c).value.incoming);
  }

  /**
   * `Client::transaction_history`: the boarding loop, the coordinator's
   * listing, the two generators, then the stable sort by creation time; any
   * collaborator error aborts the whole call.
   */
  method TransactionHistory(c: Client) returns (r: Result<seq<ArkTransaction>>)
    ensures r == HistoryOf(c)
  {
    var boardingTransactions: seq<ArkTransaction> := [];
    var boardingRoundTransactions: seq<Txid> := [];
    var boardingAddresses :- GetBoardingAddresses(c);
    MergeEmpty(ScanAddresses(c.blockchain, boardingAddresses));
    for i := 0 to |boardingAddresses|
      invariant ScanAddresses(c.blockchain, boardingAddresses)
                == Merge(BoardingScan(boardingTransactions, boardingRoundTransactions),
                         ScanAddresses(c.blockchain, boardingAddresses[i..]))
    {
      assert boardingAddresses[i..][0] == boardingAddresses[i];
      assert boardingAddresses[i..][1..] == boardingAddresses[i + 1..];
      ghost var rest := ScanAddresses(c.blockchain, boardingAddresses[i + 1..]);
      var outpoints :- c.blockchain.findOutpoints(boardingAddresses[i]);
      for k := 0 to |outpoints|
        invariant ScanAddresses(c.blockchain, boardingAddresses)
                  == Merge(BoardingScan(boardingTransactions, boardingRoundTransactions),
                           Chain(ScanOutputs(c.blockchain, outpoints[k..]), rest))
      {
        assert outpoints[k..][0] == outpoints[k] && outpoints[k..][1..] == outpoints[k + 1..];
        var utxo := outpoints[k];
        ghost var before := BoardingScan(boardingTransactions, boardingRoundTransactions);
        boardingTransactions := boardingTransactions + [BoardingRecord(utxo)];
        var status :- c.blockchain.getOutputStatus(utxo.outpoint.txid, utxo.outpoint.vout);
        if status.spendTxid.Some? {
          boardingRoundTransactions := boardingRoundTransactions + [status.spendTxid.value];
        }
        ghost var step := BoardingScan([BoardingRecord(utxo)], SpendTxids(status));
        assert boardingRoundTransactions == before.roundTxids + step.roundTxids;
        ChainMerge(step, ScanOutputs(c.blockchain, outpoints[k + 1..]), rest);
        MergeMerge(before, step, Chain(ScanOutputs(c.blockchain, outpoints[k + 1..]), rest));
      }
      assert outpoints[|outpoints|..] == [];
      MergeEmpty(rest);
    }
    assert boardingAddresses[|boardingAddresses|..] == [];
    assert boardingTransactions + [] == boardingTransactions;
    assert boardingRoundTransactions + [] == boardingRoundTransactions;
    var vtxos :- ListVtxos(c);
    var incomingTransactions :- c.core.generateIncoming(vtxos.spent, vtxos.spendable, boardingRoundTransactions);
    var outgoingTransactions :- c.core.generateOutgoing(vtxos.spent, vtxos.spendable);
    var txs := boardingTransactions + incomingTransactions + outgoingTransactions;
    txs := SortByKey(txs, c.core.createdAt);
    r := Success(txs);
  }
}
