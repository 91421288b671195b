/**
 * The System pallet, of which the runtime uses only its contract: a current
 * block number and a per-account nonce, each advanced by one on request.
 * Its internals are not part of this model.
 */
module System {
  import opened Types

  type Nonces = map<AccountId, Nonce>

  /** The nonce of `who`, zero when the account has none yet. */
  function NonceOf(nonces: Nonces, who: AccountId): (r: Nonce)
    ensures who !in nonces ==> r == 0
    ensures who in nonces ==> r == nonces[who]
  {
    if who in nonces then nonces[who] else 0
  }

  /** `inc_nonce` on values: the nonce of `who` goes up by one, no other changes. */
  function IncNonceOf(nonces: Nonces, who: AccountId): (r: Nonces)
    ensures NonceOf(r, who) == NonceOf(nonces, who) + 1
    ensures forall other :: other != who ==> NonceOf(r, other) == NonceOf(nonces, other)
  {
    nonces[who := NonceOf(nonces, who) + 1]
  }

  class Pallet {
    var blockNumber: BlockNumber
    var nonces: Nonces

    /** A fresh system pallet: block zero, no nonces. */
    constructor ()
      ensures blockNumber == 0 && nonces == map[]
    {
      blockNumber := 0;
      nonces := map[];
    }

    /** `block_number`: the current block number. */
    function BlockNumber(): (r: Types.BlockNumber)
      reads this
      ensures r == blockNumber
    {
      blockNumber
    }

    /** `inc_block_number`: advances the block number by one. */
    method IncBlockNumber()
      modifies this
      ensures blockNumber == old(blockNumber) + 1
      ensures nonces == old(nonces)
    {
      blockNumber := blockNumber + 1;
    }

    /** `inc_nonce`: advances the nonce of `who` by one. */
    method IncNonce(who: AccountId)
      modifies this
      ensures nonces == IncNonceOf(old(nonces), who)
      ensures blockNumber == old(blockNumber)
    {
      nonces := nonces[who := NonceOf(nonces, who) + 1];
    }
  }
}
