/**
 * `spendable_vtxos`: the coordinator's spendable VTXOs of every off-chain
 * address, cross-checked against the explorer's outputs at the VTXO script
 * address. As written, every VTXO the coordinator reports as spendable is
 * kept: both arms of the match push it; the only effect of the lookup is the
 * error the conversion of `now` can raise when a confirmed match exists.
 */
module Spendable {
  import opened ArkTypes
  import opened Addresses

  /** `explorer_utxos.iter().find(..)`: the first explorer output at `outpoint`. */
  function FindOutpoint(utxos: seq<ExplorerUtxo>, outpoint: OutPoint): (r: Option<ExplorerUtxo>)
    ensures r.None? <==> forall i :: 0 <= i < |utxos| ==> utxos[i].outpoint != outpoint
    ensures r.Some? ==> exists i :: 0 <= i < |utxos| && utxos[i] == r.value && r.value.outpoint == outpoint
                                    && forall j :: 0 <= j < i ==> utxos[j].outpoint != outpoint
  {
    if utxos == [] then None
    else if utxos[0].outpoint == outpoint then Some(utxos[0])
    else
      var r := FindOutpoint(utxos[1..], outpoint);
      assert forall i :: 1 <= i < |utxos| ==> utxos[i] == utxos[1..][i - 1];
      r
  }

  /**
   * `now.as_duration().try_into()`: a signed duration since the epoch becomes
   * an unsigned one; an instant before the epoch fails as an ad-hoc error.
   */
  function NowAsDuration(now: int): (r: Result<nat>)
    ensures r.Success? <==> now >= 0
    ensures r.Success? ==> r.value == now
    ensures r.Failure? ==> r.error == NegativeDuration
  {
    if now < 0 then Failure(NegativeDuration) else Success(now)
  }

  /** The ad-hoc error of a failed time conversion. */
  const NegativeDuration := AdHoc("negative duration")

  /** The explorer's first output at `outpoint` exists and is confirmed. */
  predicate ConfirmedMatch(utxos: seq<ExplorerUtxo>, outpoint: OutPoint)
  {
    var found := FindOutpoint(utxos, outpoint);
    found.Some? && found.value.confirmationBlocktime.Some?
  }

  /** The match on one spendable VTXO, as written: both arms push it. */
  function CheckVtxo(c: Client, vtxo: DefaultVtxo, utxos: seq<ExplorerUtxo>, now: int, v: VtxoOutPoint)
    : Result<seq<VtxoOutPoint>>
  {
    match FindOutpoint(utxos, v.outpoint)
    case Some(ExplorerUtxo(_, _, Some(blocktime), _)) =>
      var duration :- NowAsDuration(now);
      if !c.scripts.canBeClaimedUnilaterallyByOwner(vtxo, duration, blocktime as nat) then
        Success([v])
      else
        // the guard failed: the catch-all arm pushes it too
        Success([v])
    case _ => Success([v])
  }

  /** Prepends `acc` to `more` unless `more` failed. */
  function Then<T>(acc: seq<T>, more: Result<seq<T>>): Result<seq<T>>
  {
    var m :- more;
    Success(acc + m)
  }

  lemma ThenThen<T>(a: seq<T>, b: seq<T>, more: Result<seq<T>>)
    ensures Then(a, Then(b, more)) == Then(a + b, more)
  {
    if more.Success? {
      assert a + (b + more.value) == (a + b) + more.value;
    }
  }

  lemma ThenEmpty<T>(more: Result<seq<T>>)
    ensures Then([], more) == more
  {
    if more.Success? {
      assert [] + more.value == more.value;
    }
  }

  /** The kept VTXOs of one address: every check in order, the first error aborting. */
  function KeepSpendable(c: Client, vtxo: DefaultVtxo, utxos: seq<ExplorerUtxo>, now: int, vs: seq<VtxoOutPoint>)
    : Result<seq<VtxoOutPoint>>
  {
    if vs == [] then Success([])
    else
      var head :- CheckVtxo(c, vtxo, utxos, now, vs[0]);
      Then(head, KeepSpendable(c, vtxo, utxos, now, vs[1..]))
  }

  /** The checks of `vs` never need `now`, or `now` converts. */
  predicate ConvertsFor(utxos: seq<ExplorerUtxo>, now: int, vs: seq<VtxoOutPoint>)
  {
    now >= 0 || forall k :: 0 <= k < |vs| ==> !ConfirmedMatch(utxos, vs[k].outpoint)
  }

  /**
   * Every VTXO is kept, in order, whatever the explorer and the claim predicate
   * say; the only failure is the conversion of a pre-epoch `now`, raised when
   * some VTXO has a confirmed match.
   */
  lemma {:induction false} KeepSpendableKeepsAll(c: Client, vtxo: DefaultVtxo, utxos: seq<ExplorerUtxo>, now: int,
                                                 vs: seq<VtxoOutPoint>)
    ensures KeepSpendable(c, vtxo, utxos, now, vs).Success? <==> ConvertsFor(utxos, now, vs)
    ensures KeepSpendable(c, vtxo, utxos, now, vs).Success? ==> KeepSpendable(c, vtxo, utxos, now, vs).value == vs
    ensures KeepSpendable(c, vtxo, utxos, now, vs).Failure? ==> KeepSpendable(c, vtxo, utxos, now, vs).error == NegativeDuration
  {
    if vs != [] {
      KeepSpendableKeepsAll(c, vtxo, utxos, now, vs[1..]);
      assert forall k :: 1 <= k < |vs| ==> vs[k] == vs[1..][k - 1];
      assert vs == [vs[0]] + vs[1..];
    }
  }

  /** What `spendable_vtxos` returns: each address's kept VTXOs with its template. */
  type Entry = (seq<VtxoOutPoint>, DefaultVtxo)

  /** One address: list, look up the explorer outputs, check each spendable VTXO. */
  function SpendableFor(c: Client, now: int, addr: (ArkAddress, DefaultVtxo)): Result<Entry>
  {
    var vtxos :- c.server.listVtxos(addr.0);
    var explorerUtxos :- c.blockchain.findOutpoints(c.scripts.scriptAddress(addr.1));
    var kept :- KeepSpendable(c, addr.1, explorerUtxos, now, vtxos.spendable);
    Success((kept, addr.1))
  }

  /** All addresses, in order, the first error aborting. */
  function SpendableAll(c: Client, now: int, addrs: seq<(ArkAddress, DefaultVtxo)>): Result<seq<Entry>>
  {
    if addrs == [] then Success([])
    else
      var entry :- SpendableFor(c, now, addrs[0]);
      Then([entry], SpendableAll(c, now, addrs[1..]))
  }

  /** Every call for `addr` succeeds and `now` converts where it is needed. */
  ghost predicate AddressOk(c: Client, now: int, addr: (ArkAddress, DefaultVtxo))
  {
    && c.server.listVtxos(addr.0).Success?
    && c.blockchain.findOutpoints(c.scripts.scriptAddress(addr.1)).Success?
    && ConvertsFor(c.blockchain.findOutpoints(c.scripts.scriptAddress(addr.1)).value, now,
                   c.server.listVtxos(addr.0).value.spendable)
  }

  lemma SpendableForKeepsAll(c: Client, now: int, addr: (ArkAddress, DefaultVtxo))
    ensures SpendableFor(c, now, addr).Success? <==> AddressOk(c, now, addr)
    ensures SpendableFor(c, now, addr).Success? ==>
              SpendableFor(c, now, addr).value == (c.server.listVtxos(addr.0).value.spendable, addr.1)
  {
    var vtxos := c.server.listVtxos(addr.0);
    var found := c.blockchain.findOutpoints(c.scripts.scriptAddress(addr.1));
    if vtxos.Success? && found.Success? {
      KeepSpendableKeepsAll(c, addr.1, found.value, now, vtxos.value.spendable);
    }
  }

  /**
   * One entry per address, in address order, each holding the template and
   * exactly the coordinator's spendable list; success exactly when every
   * address's calls succeed and `now` converts where it is needed.
   */
  lemma {:induction false} SpendableAllShape(c: Client, now: int, addrs: seq<(ArkAddress, DefaultVtxo)>)
    ensures SpendableAll(c, now, addrs).Success? <==> forall i :: 0 <= i < |addrs| ==> AddressOk(c, now, addrs[i])
    ensures SpendableAll(c, now, addrs).Success? ==>
              var entries := SpendableAll(c, now, addrs).value;
              && |entries| == |addrs|
              && forall i :: 0 <= i < |addrs| ==>
                   entries[i] == (c.server.listVtxos(addrs[i].0).value.spendable, addrs[i].1)
  {
    if addrs != [] {
      SpendableForKeepsAll(c, now, addrs[0]);
      SpendableAllShape(c, now, addrs[1..]);
      assert forall i :: 1 <= i < |addrs| ==> addrs[i] == addrs[1..][i - 1];
    }
  }

  /**
   * The claim predicate has no effect on the result: replacing it by any other
   * predicate gives the same entries and the same errors.
   */
  lemma {:induction false} SpendableIgnoresClaimPredicate(c: Client, now: int, addrs: seq<(ArkAddress, DefaultVtxo)>,
                                                          claim: (DefaultVtxo, nat, nat) -> bool)
    ensures SpendableAll(c, now, addrs)
            == SpendableAll(c.(scripts := c.scripts.(canBeClaimedUnilaterallyByOwner := claim)), now, addrs)
  {
    var c' := c.(scripts := c.scripts.(canBeClaimedUnilaterallyByOwner := claim));
    if addrs != [] {
      SpendableIgnoresClaimPredicate(c, now, addrs[1..], claim);
      var vtxos := c.server.listVtxos(addrs[0].0);
      var found := c.blockchain.findOutpoints(c.scripts.scriptAddress(addrs[0].1));
      if vtxos.Success? && found.Success? {
        KeepSpendableKeepsAll(c, addrs[0].1, found.value, now, vtxos.value.spendable);
        KeepSpendableKeepsAll(c', addrs[0].1, found.value, now, vtxos.value.spendable);
        assert c'.server.listVtxos(addrs[0].0) == vtxos;
        assert c'.blockchain.findOutpoints(c'.scripts.scriptAddress(addrs[0].1)) == found;
      }
      assert SpendableFor(c, now, addrs[0]) == SpendableFor(c', now, addrs[0]);
    }
  }

  /**
   * The VTXO's first explorer match is confirmed and the claim predicate says
   * its owner could exit unilaterally at `now`.
   */
  ghost predicate Claimable(c: Client, vtxo: DefaultVtxo, utxos: seq<ExplorerUtxo>, now: int, v: VtxoOutPoint)
  {
    && now >= 0
    && ConfirmedMatch(utxos, v.outpoint)
    && c.scripts.canBeClaimedUnilaterallyByOwner(
         vtxo, now, FindOutpoint(utxos, v.outpoint).value.confirmationBlocktime.value as nat)
  }

  /**
   * The match as its comments describe it: a VTXO confirmed on chain is kept
   * only while its exit path is inactive.
   */
  function CheckVtxoIntended(c: Client, vtxo: DefaultVtxo, utxos: seq<ExplorerUtxo>, now: int, v: VtxoOutPoint)
    : Result<seq<VtxoOutPoint>>
  {
    match FindOutpoint(utxos, v.outpoint)
    case Some(ExplorerUtxo(_, _, Some(blocktime), _)) =>
      var duration :- NowAsDuration(now);
      if !c.scripts.canBeClaimedUnilaterallyByOwner(vtxo, duration, blocktime as nat) then
        Success([v])
      else
        Success([])
    case _ => Success([v])
  }

  /** The intended walk over one address's spendable VTXOs. */
  function KeepSpendableIntended(c: Client, vtxo: DefaultVtxo, utxos: seq<ExplorerUtxo>, now: int,
                                 vs: seq<VtxoOutPoint>): Result<seq<VtxoOutPoint>>
  {
    if vs == [] then Success([])
    else
      var head :- CheckVtxoIntended(c, vtxo, utxos, now, vs[0]);
      Then(head, KeepSpendableIntended(c, vtxo, utxos, now, vs[1..]))
  }

  /** The VTXOs of `vs` that are not claimable, in their order. */
  ghost function Unclaimable(c: Client, vtxo: DefaultVtxo, utxos: seq<ExplorerUtxo>, now: int,
                             vs: seq<VtxoOutPoint>): seq<VtxoOutPoint>
  {
    if vs == [] then []
    else (if Claimable(c, vtxo, utxos, now, vs[0]) then [] else [vs[0]]) + Unclaimable(c, vtxo, utxos, now, vs[1..])
  }

  /**
   * The corrected walk keeps exactly the VTXOs that are not yet claimable, in
   * order, and fails exactly where the walk as written does.
   */
  lemma {:induction false} IntendedExcludesClaimable(c: Client, vtxo: DefaultVtxo, utxos: seq<ExplorerUtxo>, now: int,
                                                     vs: seq<VtxoOutPoint>)
    ensures KeepSpendableIntended(c, vtxo, utxos, now, vs).Success? <==> ConvertsFor(utxos, now, vs)
    ensures KeepSpendableIntended(c, vtxo, utxos, now, vs).Success? ==>
              && KeepSpendableIntended(c, vtxo, utxos, now, vs).value == Unclaimable(c, vtxo, utxos, now, vs)
              && forall v :: v in KeepSpendableIntended(c, vtxo, utxos, now, vs).value <==>
                               v in vs && !Claimable(c, vtxo, utxos, now, v)
  {
    if vs != [] {
      IntendedExcludesClaimable(c, vtxo, utxos, now, vs[1..]);
      assert forall k :: 1 <= k < |vs| ==> vs[k] == vs[1..][k - 1];
      assert vs == [vs[0]] + vs[1..];
    }
  }

  /**
   * The discrepancy: a VTXO whose exit path is already active is kept by the
   * code as written and left out by the corrected walk.
   */
  lemma ClaimableVtxoIsKept(c: Client, vtxo: DefaultVtxo, utxos: seq<ExplorerUtxo>, now: int, v: VtxoOutPoint)
    requires Claimable(c, vtxo, utxos, now, v)
    ensures KeepSpendable(c, vtxo, utxos, now, [v]) == Success([v])
    ensures KeepSpendableIntended(c, vtxo, utxos, now, [v]) == Success([])
  {
    assert [v][1..] == [];
    assert [v] + [] == [v];
    var blocktime := FindOutpoint(utxos, v.outpoint).value.confirmationBlocktime.value;
    assert CheckVtxoIntended(c, vtxo, utxos, now, v) == Success([]);
    ThenEmpty(KeepSpendableIntended(c, vtxo, utxos, now, []));
  }

  /**
   * `Client::spendable_vtxos`: for each off-chain address, list its VTXOs,
   * fetch the explorer's outputs at its script address and walk the spendable
   * list; `now` stands for `Timestamp::now()`.
   */
  method SpendableVtxos(c: Client, now: int) returns (r: Result<seq<Entry>>)
    ensures r == SpendableAll(c, now, GetOffchainAddresses(c))
  {
    var addresses := GetOffchainAddresses(c);
    var spendable: seq<Entry> := [];
    ThenEmpty(SpendableAll(c, now, addresses));
    for i := 0 to |addresses|
      invariant SpendableAll(c, now, addresses) == Then(spendable, SpendableAll(c, now, addresses[i..]))
    {
      assert addresses[i..][0] == addresses[i] && addresses[i..][1..] == addresses[i + 1..];
      var (address, vtxo) := addresses[i];
      var vtxos :- c.server.listVtxos(address);
      var explorerUtxos :- c.blockchain.findOutpoints(c.scripts.scriptAddress(vtxo));
      var vtxoOutpoints: seq<VtxoOutPoint> := [];
      ThenEmpty(KeepSpendable(c, vtxo, explorerUtxos, now, vtxos.spendable));
      for k := 0 to |vtxos.spendable|
        invariant KeepSpendable(c, vtxo, explorerUtxos, now, vtxos.spendable)
                  == Then(vtxoOutpoints, KeepSpendable(c, vtxo, explorerUtxos, now, vtxos.spendable[k..]))
      {
        var rest := vtxos.spendable[k..];
        assert rest[0] == vtxos.spendable[k] && rest[1..] == vtxos.spendable[k + 1..];
        var vtxoOutpoint := vtxos.spendable[k];
        ThenThen(vtxoOutpoints, [vtxoOutpoint], KeepSpendable(c, vtxo, explorerUtxos, now, vtxos.spendable[k + 1..]));
        match FindOutpoint(explorerUtxos, vtxoOutpoint.outpoint)
        case Some(ExplorerUtxo(_, _, Some(blocktime), _)) =>
          var duration :- NowAsDuration(now);
          if !c.scripts.canBeClaimedUnilaterallyByOwner(vtxo, duration, blocktime as nat) {
            vtxoOutpoints := vtxoOutpoints + [vtxoOutpoint];
          } else {
            vtxoOutpoints := vtxoOutpoints + [vtxoOutpoint];
          }
        case _ =>
          vtxoOutpoints := vtxoOutpoints + [vtxoOutpoint];
      }
      assert vtxos.spendable[|vtxos.spendable|..] == [] && vtxoOutpoints + [] == vtxoOutpoints;
      ThenThen(spendable, [(vtxoOutpoints, vtxo)], SpendableAll(c, now, addresses[i + 1..]));
      spendable := spendable + [(vtxoOutpoints, vtxo)];
    }
    assert addresses[|addresses|..] == [] && spendable + [] == spendable;
    r := Success(spendable);
  }
}
