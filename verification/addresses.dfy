/**
 * The client's identities: one off-chain address and one boarding address per
 * session, both derived from the session parameters.
 */
module Addresses {
  import opened ArkTypes

  /** The default VTXO template of the session. */
  function SessionVtxo(c: Client): (v: DefaultVtxo)
    ensures v.server == c.serverInfo.pk && v.owner == c.owner
    ensures v.exitDelay == c.serverInfo.unilateralExitDelay && v.network == c.serverInfo.network
  {
    DefaultVtxo(c.serverInfo.pk, c.owner, c.serverInfo.unilateralExitDelay, c.serverInfo.network)
  }

  /** The single off-chain identity: the session's template and the Ark address it encodes. */
  function GetOffchainAddress(c: Client): (r: (ArkAddress, DefaultVtxo))
    ensures r.1 == SessionVtxo(c)
    ensures r.0 == c.scripts.arkAddress(r.1)
  {
    var vtxo := SessionVtxo(c);
    (c.scripts.arkAddress(vtxo), vtxo)
  }

  /** Every off-chain identity of the session: always exactly one. */
  function GetOffchainAddresses(c: Client): (r: seq<(ArkAddress, DefaultVtxo)>)
    ensures |r| == 1 && r[0] == GetOffchainAddress(c)
  {
    [GetOffchainAddress(c)]
  }

  /** The boarding address: the wallet's failure is passed on unchanged. */
  function GetBoardingAddress(c: Client): (r: Result<Address>)
    ensures var w := c.wallet.newBoardingOutput(c.serverInfo.pk, c.serverInfo.unilateralExitDelay,
                                                c.serverInfo.boardingDescriptorTemplate, c.serverInfo.network);
            r == w
  {
    var address :- c.wallet.newBoardingOutput(c.serverInfo.pk, c.serverInfo.unilateralExitDelay,
                                              c.serverInfo.boardingDescriptorTemplate, c.serverInfo.network);
    Success(address)
  }

  /** Every boarding address of the session: exactly one, or the wallet's error. */
  function GetBoardingAddresses(c: Client): (r: Result<seq<Address>>)
    ensures r.Success? <==> GetBoardingAddress(c).Success?
    ensures r.Success? ==> r.value == [GetBoardingAddress(c).value]
    ensures r.Failure? ==> r.error == GetBoardingAddress(c).error
  {
    var address :- GetBoardingAddress(c);
    Success([address])
  }
}
