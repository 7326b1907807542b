/**
 * `list_vtxos`: the coordinator's spendable and spent VTXOs of every off-chain
 * address, merged in address order.
 */
module Listing {
  import opened ArkTypes
  import opened Addresses

  /** Appends `more` to `acc` unless `more` failed. */
  function Join(acc: ListVtxo, more: Result<ListVtxo>): Result<ListVtxo>
  {
    var m :- more;
    Success(ListVtxo(acc.spendable + m.spendable, acc.spent + m.spent))
  }

  lemma JoinJoin(a: ListVtxo, b: ListVtxo, more: Result<ListVtxo>)
    ensures Join(a, Join(b, more)) == Join(ListVtxo(a.spendable + b.spendable, a.spent + b.spent), more)
  {
    if more.Success? {
      assert a.spendable + (b.spendable + more.value.spendable) == (a.spendable + b.spendable) + more.value.spendable;
      assert a.spent + (b.spent + more.value.spent) == (a.spent + b.spent) + more.value.spent;
    }
  }

  lemma JoinEmpty(more: Result<ListVtxo>)
    ensures Join(ListVtxo([], []), more) == more
  {
    if more.Success? {
      assert [] + more.value.spendable == more.value.spendable;
      assert [] + more.value.spent == more.value.spent;
    }
  }

  /** The merged listing of `addrs`: every call in order, the first error aborting. */
  function ListAll(server: ArkServer, addrs: seq<(ArkAddress, DefaultVtxo)>): Result<ListVtxo>
  {
    if addrs == [] then Success(ListVtxo([], []))
    else
      var list :- server.listVtxos(addrs[0].0);
      Join(list, ListAll(server, addrs[1..]))
  }

  /** All the coordinator's calls for `addrs` succeed. */
  ghost predicate AllListed(server: ArkServer, addrs: seq<(ArkAddress, DefaultVtxo)>)
  {
    forall i :: 0 <= i < |addrs| ==> server.listVtxos(addrs[i].0).Success?
  }

  /** The in-order concatenation of the spendable lists. */
  ghost function ConcatSpendable(server: ArkServer, addrs: seq<(ArkAddress, DefaultVtxo)>): seq<VtxoOutPoint>
    requires AllListed(server, addrs)
  {
    if addrs == [] then [] else server.listVtxos(addrs[0].0).value.spendable + ConcatSpendable(server, addrs[1..])
  }

  /** The in-order concatenation of the spent lists. */
  ghost function ConcatSpent(server: ArkServer, addrs: seq<(ArkAddress, DefaultVtxo)>): seq<VtxoOutPoint>
    requires AllListed(server, addrs)
  {
    if addrs == [] then [] else server.listVtxos(addrs[0].0).value.spent + ConcatSpent(server, addrs[1..])
  }

  /**
   * The merge succeeds exactly when every call does; it then holds the
   * concatenations, and otherwise the error of the first call that failed.
   */
  lemma {:induction false} ListAllMerges(server: ArkServer, addrs: seq<(ArkAddress, DefaultVtxo)>)
    ensures ListAll(server, addrs).Success? <==> AllListed(server, addrs)
    ensures ListAll(server, addrs).Success? ==>
              ListAll(server, addrs).value == ListVtxo(ConcatSpendable(server, addrs), ConcatSpent(server, addrs))
    ensures ListAll(server, addrs).Failure? ==>
              exists i :: 0 <= i < |addrs| && server.listVtxos(addrs[i].0) == Failure(ListAll(server, addrs).error)
                          && forall j :: 0 <= j < i ==> server.listVtxos(addrs[j].0).Success?
  {
    if addrs != [] {
      ListAllMerges(server, addrs[1..]);
      var head := server.listVtxos(addrs[0].0);
      if head.Success? {
        if AllListed(server, addrs[1..]) {
          assert AllListed(server, addrs) by {
            forall i | 0 <= i < |addrs| ensures server.listVtxos(addrs[i].0).Success? {
              if i > 0 { assert addrs[i] == addrs[1..][i - 1]; }
            }
          }
        } else {
          var rest := ListAll(server, addrs[1..]);
          var i :| 0 <= i < |addrs[1..]| && server.listVtxos(addrs[1..][i].0) == Failure(rest.error)
                   && forall j :: 0 <= j < i ==> server.listVtxos(addrs[1..][j].0).Success?;
          assert addrs[i + 1] == addrs[1..][i];
          forall j | 0 <= j < i + 1 ensures server.listVtxos(addrs[j].0).Success? {
            if j > 0 { assert addrs[j] == addrs[1..][j - 1]; }
          }
        }
      }
    }
  }

  /** With a single address, the merged listing is the coordinator's answer unchanged. */
  lemma ListAllSingle(server: ArkServer, addr: (ArkAddress, DefaultVtxo))
    ensures ListAll(server, [addr]) == server.listVtxos(addr.0)
  {
    assert [addr][1..] == [];
    var head := server.listVtxos(addr.0);
    if head.Success? {
      assert head.value.spendable + [] == head.value.spendable;
      assert head.value.spent + [] == head.value.spent;
    }
  }

  /**
   * `Client::list_vtxos`: appends each address's spendable and spent lists to
   * one accumulator, starting from empty lists; any coordinator error aborts.
   */
  method ListVtxos(c: Client) returns (r: Result<ListVtxo>)
    ensures r == ListAll(c.server, GetOffchainAddresses(c))
    ensures r == c.server.listVtxos(GetOffchainAddress(c).0)
  {
    var addresses := GetOffchainAddresses(c);
    var vtxos := ListVtxo([], []);
    JoinEmpty(ListAll(c.server, addresses));
    for i := 0 to |addresses|
      invariant ListAll(c.server, addresses) == Join(vtxos, ListAll(c.server, addresses[i..]))
    {
      assert addresses[i..][0] == addresses[i] && addresses[i..][1..] == addresses[i + 1..];
      var list :- c.server.listVtxos(addresses[i].0);
      JoinJoin(vtxos, list, ListAll(c.server, addresses[i + 1..]));
      vtxos := ListVtxo(vtxos.spendable + list.spendable, vtxos.spent + list.spent);
    }
    assert addresses[|addresses|..] == [];
    assert vtxos.spendable + [] == vtxos.spendable && vtxos.spent + [] == vtxos.spent;
    ListAllSingle(c.server, GetOffchainAddress(c));
    r := Success(vtxos);
  }
}
