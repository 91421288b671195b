/**
 * The dispatch framework shared by all pallets: the result of a dispatchable
 * call, the fixed error texts, and the generic shapes of a block.
 */
module Support {
  import opened Types

  /** `DispatchResult = Result<(), &'static str>`. */
  datatype DispatchResult = Ok | Err(message: string)

  const NOT_ENOUGH_FUNDS: string := "Not enough funds."
  const OVERFLOW: string := "Overflow"
  const ALREADY_CLAIMED: string := "this content is already claimed"
  const NOT_OWNER: string := "this content is owned by someone else"
  const CLAIM_NOT_FOUND: string := "claim does not exist"
  const BLOCK_NUMBER_MISMATCH: string := "block number does not match what is expected"

  /** A block header: only the declared block number. */
  datatype Header = Header(blockNumber: BlockNumber)

  /** One caller-attributed call. */
  datatype Extrinsic<Call> = Extrinsic(caller: AccountId, call: Call)

  /** A header and the extrinsics, in execution order. */
  datatype Block<Call> = Block(header: Header, extrinsics: seq<Extrinsic<Call>>)
}
