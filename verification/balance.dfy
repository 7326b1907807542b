/**
 * `offchain_balance`: the spendable VTXOs folded into a pending and a
 * confirmed bucket, chosen by each VTXO's `is_pending` flag alone.
 */
module Balance {
  import opened ArkTypes
  import opened Addresses
  import opened Spendable

  datatype OffChainBalance = OffChainBalance(pending: Amount, confirmed: Amount) {
    function Total(): Amount {
      pending + confirmed
    }
  }

  /** `OffChainBalance::default()`. */
  const Zero := OffChainBalance(0, 0)

  /** `flat_map(|(vtxos, _)| vtxos)`: the VTXOs of every entry, in order. */
  function Flatten(entries: seq<Entry>): seq<VtxoOutPoint>
  {
    if entries == [] then [] else entries[0].0 + Flatten(entries[1..])
  }

  /** One step of the fold: the amount goes to the bucket its flag selects. */
  function Add(acc: OffChainBalance, x: VtxoOutPoint): OffChainBalance
  {
    match x.isPending
    case true => acc.(pending := acc.pending + x.amount)
    case false => acc.(confirmed := acc.confirmed + x.amount)
  }

  /** `Iterator::fold`, from the left. */
  function Fold(acc: OffChainBalance, xs: seq<VtxoOutPoint>): OffChainBalance
    decreases xs
  {
    if xs == [] then acc else Fold(Add(acc, xs[0]), xs[1..])
  }

  /** The sum of the amounts of `xs`. */
  function SumAmounts(xs: seq<VtxoOutPoint>): nat
  {
    if xs == [] then 0 else xs[0].amount + SumAmounts(xs[1..])
  }

  /** The VTXOs of `xs` still awaiting a round, in order. */
  function PendingOnly(xs: seq<VtxoOutPoint>): seq<VtxoOutPoint>
  {
    if xs == [] then [] else (if xs[0].isPending then [xs[0]] else []) + PendingOnly(xs[1..])
  }

  /** The finalized VTXOs of `xs`, in order. */
  function ConfirmedOnly(xs: seq<VtxoOutPoint>): seq<VtxoOutPoint>
  {
    if xs == [] then [] else (if xs[0].isPending then [] else [xs[0]]) + ConfirmedOnly(xs[1..])
  }

  lemma SumAmountsAppend(a: seq<VtxoOutPoint>, b: seq<VtxoOutPoint>)
    ensures SumAmounts(a + b) == SumAmounts(a) + SumAmounts(b)
  {
    if a != [] {
      assert (a + b)[1..] == a[1..] + b;
    } else {
      assert a + b == b;
    }
  }

  /** The fold adds the pending amounts to one bucket and the others to the other. */
  lemma {:induction false} FoldSplitsByFlag(acc: OffChainBalance, xs: seq<VtxoOutPoint>)
    ensures Fold(acc, xs).pending == acc.pending + SumAmounts(PendingOnly(xs))
    ensures Fold(acc, xs).confirmed == acc.confirmed + SumAmounts(ConfirmedOnly(xs))
    decreases xs
  {
    if xs != [] {
      FoldSplitsByFlag(Add(acc, xs[0]), xs[1..]);
      var head := xs[0];
      SumAmountsAppend(if head.isPending then [head] else [], PendingOnly(xs[1..]));
      SumAmountsAppend(if head.isPending then [] else [head], ConfirmedOnly(xs[1..]));
    }
  }

  /** Every VTXO lands in exactly one bucket: together the buckets hold the VTXOs of `xs`. */
  lemma {:induction false} BucketsPartition(xs: seq<VtxoOutPoint>)
    ensures multiset(PendingOnly(xs)) + multiset(ConfirmedOnly(xs)) == multiset(xs)
  {
    if xs != [] {
      var head, tail := xs[0], xs[1..];
      BucketsPartition(tail);
      assert xs == [head] + tail;
      if head.isPending {
        assert PendingOnly(xs) == [head] + PendingOnly(tail);
        assert ConfirmedOnly(xs) == ConfirmedOnly(tail);
      } else {
        assert ConfirmedOnly(xs) == [head] + ConfirmedOnly(tail);
        assert PendingOnly(xs) == PendingOnly(tail);
      }
    }
  }

  /** The bucket sums add up to the sum of all amounts. */
  lemma {:induction false} BucketSumsAddUp(xs: seq<VtxoOutPoint>)
    ensures SumAmounts(PendingOnly(xs)) + SumAmounts(ConfirmedOnly(xs)) == SumAmounts(xs)
  {
    if xs != [] {
      var head, tail := xs[0], xs[1..];
      BucketSumsAddUp(tail);
      if head.isPending {
        assert PendingOnly(xs) == [head] + PendingOnly(tail);
        assert ConfirmedOnly(xs) == ConfirmedOnly(tail);
        SumAmountsAppend([head], PendingOnly(tail));
      } else {
        assert ConfirmedOnly(xs) == [head] + ConfirmedOnly(tail);
        assert PendingOnly(xs) == PendingOnly(tail);
        SumAmountsAppend([head], ConfirmedOnly(tail));
      }
    }
  }

  /** Each bucket holds only VTXOs with the flag it stands for. */
  lemma {:induction false} BucketsHonourFlag(xs: seq<VtxoOutPoint>)
    ensures forall v :: v in PendingOnly(xs) ==> v.isPending
    ensures forall v :: v in ConfirmedOnly(xs) ==> !v.isPending
  {
    if xs != [] {
      BucketsHonourFlag(xs[1..]);
    }
  }

  /**
   * The balance of a list of entries: pending is the sum over the pending
   * VTXOs, confirmed the sum over the others, total the sum over all.
   */
  function BalanceOf(entries: seq<Entry>): (b: OffChainBalance)
    ensures b.pending == SumAmounts(PendingOnly(Flatten(entries)))
    ensures b.confirmed == SumAmounts(ConfirmedOnly(Flatten(entries)))
    ensures b.Total() == SumAmounts(Flatten(entries))
  {
    FoldSplitsByFlag(Zero, Flatten(entries));
    BucketSumsAddUp(Flatten(entries));
    Fold(Zero, Flatten(entries))
  }

  lemma FlattenSingle(e: Entry)
    ensures Flatten([e]) == e.0
  {
    assert [e][1..] == [];
    assert e.0 + [] == e.0;
  }

  /**
   * `Client::offchain_balance`: the balance of what `spendable_vtxos` returns,
   * which is every VTXO the coordinator lists as spendable; its error otherwise.
   */
  method OffchainBalance(c: Client, now: int) returns (r: Result<OffChainBalance>)
    ensures r.Success? <==> SpendableAll(c, now, GetOffchainAddresses(c)).Success?
    ensures r.Failure? ==> r.error == SpendableAll(c, now, GetOffchainAddresses(c)).error
    ensures r.Success? ==>
              var listed := c.server.listVtxos(GetOffchainAddress(c).0).value.spendable;
              && r.value.pending == SumAmounts(PendingOnly(listed))
              && r.value.confirmed == SumAmounts(ConfirmedOnly(listed))
              && r.value.Total() == SumAmounts(listed)
  {
    var list :- SpendableVtxos(c, now);
    SpendableAllShape(c, now, GetOffchainAddresses(c));
    FlattenSingle(list[0]);
    assert list == [list[0]];
    r := Success(BalanceOf(list));
  }
}
