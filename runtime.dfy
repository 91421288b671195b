/**
 * The runtime: one instance of each pallet, the union of their calls, the
 * routing of a call to its pallet, and the execution of a block.
 */
module Runtime {
  import opened Types
  import opened Support
  import System
  import Balances
  import ProofOfExistence

  /** `RuntimeCall`: one variant per pallet, wrapping that pallet's own calls. */
  datatype RuntimeCall =
    | BalancesCall(balancesCall: Balances.Call)
    | ProofOfExistenceCall(proofOfExistenceCall: ProofOfExistence.Call)

  /** The state of all three pallets together. */
  datatype RuntimeState = RuntimeState(
    blockNumber: BlockNumber,
    nonces: System.Nonces,
    ledger: Balances.Ledger,
    claims: ProofOfExistence.Claims)

  /** The diagnostic recorded for an extrinsic whose dispatch failed. */
  datatype ExtrinsicError = ExtrinsicError(blockNumber: BlockNumber, index: nat, error: string)

  /** The state after some extrinsics, with the diagnostics recorded so far. */
  datatype Trace = Trace(state: RuntimeState, log: seq<ExtrinsicError>)

  /** What executing a block yields: the new state, its result and its diagnostics. */
  datatype BlockOutcome = BlockOutcome(state: RuntimeState, result: DispatchResult, log: seq<ExtrinsicError>)

  /**
   * `Runtime::dispatch`: routes the call to the pallet it names, which alone
   * may change, and passes that pallet's result back unchanged.
   */
  function DispatchStep(s: RuntimeState, caller: AccountId, call: RuntimeCall): (r: (RuntimeState, DispatchResult))
    ensures r.0.blockNumber == s.blockNumber && r.0.nonces == s.nonces
    ensures call.BalancesCall? ==>
              r.0.claims == s.claims &&
              (r.0.ledger, r.1) == Balances.DispatchStep(s.ledger, caller, call.balancesCall)
    ensures call.ProofOfExistenceCall? ==>
              r.0.ledger == s.ledger &&
              (r.0.claims, r.1) == ProofOfExistence.DispatchStep(s.claims, caller, call.proofOfExistenceCall)
  {
    match call
    case BalancesCall(c) =>
      var (ledger, result) := Balances.DispatchStep(s.ledger, caller, c);
      (s.(ledger := ledger), result)
    case ProofOfExistenceCall(c) =>
      var (claims, result) := ProofOfExistence.DispatchStep(s.claims, caller, c);
      (s.(claims := claims), result)
  }

  /**
   * One iteration of the block loop: the caller's nonce is advanced whatever
   * happens next, then the call is dispatched. A failed call changes nothing
   * but that nonce.
   */
  function ApplyExtrinsic(s: RuntimeState, ext: Extrinsic<RuntimeCall>): (r: (RuntimeState, DispatchResult))
    ensures r.0.blockNumber == s.blockNumber
    ensures r.0.nonces == System.IncNonceOf(s.nonces, ext.caller)
    ensures r.1.Err? ==> r.0.ledger == s.ledger && r.0.claims == s.claims
    // The call is dispatched, and the nonce bump has no bearing on its outcome.
    ensures r.1 == DispatchStep(s, ext.caller, ext.call).1
    ensures r.0.ledger == DispatchStep(s, ext.caller, ext.call).0.ledger
    ensures r.0.claims == DispatchStep(s, ext.caller, ext.call).0.claims
  {
    var bumped := s.(nonces := System.IncNonceOf(s.nonces, ext.caller));
    DispatchStep(bumped, ext.caller, ext.call)
  }

  /**
   * The extrinsics applied in list order. A failure is recorded, with the
   * block number and the extrinsic's index, and execution goes on.
   */
  function Run(s: RuntimeState, blockNumber: BlockNumber, exts: seq<Extrinsic<RuntimeCall>>): (r: Trace)
    ensures r.state.blockNumber == s.blockNumber
    ensures |r.log| <= |exts|
    ensures forall i :: 0 <= i < |r.log| ==> r.log[i].blockNumber == blockNumber && r.log[i].index < |exts|
    ensures forall i, j :: 0 <= i < j < |r.log| ==> r.log[i].index < r.log[j].index
    decreases |exts|
  {
    if exts == [] then Trace(s, [])
    else
      var last := |exts| - 1;
      var before := Run(s, blockNumber, exts[..last]);
      var (after, result) := ApplyExtrinsic(before.state, exts[last]);
      Trace(after, if result.Err? then before.log + [ExtrinsicError(blockNumber, last, result.message)] else before.log)
  }

  /**
   * `execute_block`: the block number is advanced first, then compared with
   * the header; on a mismatch no extrinsic runs, otherwise all run and the
   * block succeeds however many of them fail.
   */
  function ExecuteBlockStep(s: RuntimeState, block: Block<RuntimeCall>): (r: BlockOutcome)
    ensures r.state.blockNumber == s.blockNumber + 1
    ensures r.result.Err? <==> block.header.blockNumber != s.blockNumber + 1
    ensures r.result.Err? ==>
              r.result == Err(BLOCK_NUMBER_MISMATCH) && r.log == [] &&
              r.state == s.(blockNumber := s.blockNumber + 1)
    ensures r.result.Ok? ==> |r.log| <= |block.extrinsics|
  {
    var advanced := s.(blockNumber := s.blockNumber + 1);
    if block.header.blockNumber != advanced.blockNumber then
      BlockOutcome(advanced, Err(BLOCK_NUMBER_MISMATCH), [])
    else
      var trace := Run(advanced, block.header.blockNumber, block.extrinsics);
      BlockOutcome(trace.state, Ok, trace.log)
  }

  /** The number of extrinsics in `exts` whose caller is `who`. */
  function CallsBy(exts: seq<Extrinsic<RuntimeCall>>, who: AccountId): nat
    decreases |exts|
  {
    if exts == [] then 0
    else CallsBy(exts[..|exts| - 1], who) + (if exts[|exts| - 1].caller == who then 1 else 0)
  }

  /** A transfer whose receiver is its own caller. */
  predicate IsSelfTransfer(ext: Extrinsic<RuntimeCall>)
  {
    ext.call.BalancesCall? && ext.call.balancesCall.to == ext.caller
  }

  /** Every account's nonce goes up by the number of extrinsics it sent, failed or not. */
  lemma {:induction false} RunNonces(s: RuntimeState, blockNumber: BlockNumber, exts: seq<Extrinsic<RuntimeCall>>, who: AccountId)
    ensures System.NonceOf(Run(s, blockNumber, exts).state.nonces, who) == System.NonceOf(s.nonces, who) + CallsBy(exts, who)
    decreases |exts|
  {
    if exts != [] {
      RunNonces(s, blockNumber, exts[..|exts| - 1], who);
    }
  }

  /**
   * Running `xs` then `ys` is running `xs + ys`: a failure in `xs` neither
   * stops `ys` nor undoes what `xs` did before it.
   */
  lemma {:induction false} RunAppend(s: RuntimeState, blockNumber: BlockNumber, xs: seq<Extrinsic<RuntimeCall>>, ys: seq<Extrinsic<RuntimeCall>>)
    ensures Run(s, blockNumber, xs + ys).state == Run(Run(s, blockNumber, xs).state, blockNumber, ys).state
    decreases |ys|
  {
    if ys == [] {
      assert xs + ys == xs;
    } else {
      var last := |ys| - 1;
      assert (xs + ys)[..|xs + ys| - 1] == xs + ys[..last];
      assert (xs + ys)[|xs + ys| - 1] == ys[last];
      RunAppend(s, blockNumber, xs, ys[..last]);
    }
  }

  /** Some diagnostic in `log` is about the extrinsic at `index`. */
  predicate Logged(log: seq<ExtrinsicError>, index: nat)
  {
    exists k :: 0 <= k < |log| && log[k].index == index
  }

  /** The i-th extrinsic is recorded as failed exactly when its dispatch failed. */
  lemma {:induction false} RunLogsFailures(s: RuntimeState, blockNumber: BlockNumber, exts: seq<Extrinsic<RuntimeCall>>, i: nat)
    requires i < |exts|
    ensures Logged(Run(s, blockNumber, exts).log, i) <==>
            ApplyExtrinsic(Run(s, blockNumber, exts[..i]).state, exts[i]).1.Err?
    decreases |exts|
  {
    var last := |exts| - 1;
    var prefix := exts[..last];
    var before := Run(s, blockNumber, prefix);
    var result := ApplyExtrinsic(before.state, exts[last]).1;
    var log := Run(s, blockNumber, exts).log;
    assert log == if result.Err? then before.log + [ExtrinsicError(blockNumber, last, result.message)] else before.log;
    if i < last {
      RunLogsFailures(s, blockNumber, prefix, i);
      assert prefix[..i] == exts[..i];
      if Logged(log, i) {
        var k :| 0 <= k < |log| && log[k].index == i;
        assert before.log[k] == log[k];
      }
      if Logged(before.log, i) {
        var k :| 0 <= k < |before.log| && before.log[k].index == i;
        assert log[k] == before.log[k];
      }
    } else {
      assert prefix == exts[..i];
      if result.Err? {
        assert log[|before.log|].index == i;
      } else {
        assert !Logged(before.log, i);
      }
    }
  }

  /** The diagnostic recorded for the k-th failure carries the error its dispatch returned. */
  lemma {:induction false} RunLogsMessages(s: RuntimeState, blockNumber: BlockNumber, exts: seq<Extrinsic<RuntimeCall>>, k: nat)
    requires k < |Run(s, blockNumber, exts).log|
    ensures var e := Run(s, blockNumber, exts).log[k];
            e.index < |exts| &&
            ApplyExtrinsic(Run(s, blockNumber, exts[..e.index]).state, exts[e.index]).1 == Err(e.error)
    decreases |exts|
  {
    var last := |exts| - 1;
    var prefix := exts[..last];
    var before := Run(s, blockNumber, prefix);
    var result := ApplyExtrinsic(before.state, exts[last]).1;
    var log := Run(s, blockNumber, exts).log;
    assert log == if result.Err? then before.log + [ExtrinsicError(blockNumber, last, result.message)] else before.log;
    if k < |before.log| {
      RunLogsMessages(s, blockNumber, prefix, k);
      var i := before.log[k].index;
      assert log[k] == before.log[k];
      assert prefix[..i] == exts[..i];
      assert prefix[i] == exts[i];
    } else {
      assert log[k] == ExtrinsicError(blockNumber, last, result.message);
      assert prefix == exts[..last];
    }
  }

  /**
   * The sum of all balances never falls across the extrinsics, and does not
   * change when none of them is a transfer to its own caller.
   */
  lemma {:induction false} RunTotal(s: RuntimeState, blockNumber: BlockNumber, exts: seq<Extrinsic<RuntimeCall>>)
    ensures Balances.Total(Run(s, blockNumber, exts).state.ledger) >= Balances.Total(s.ledger)
    ensures (forall i :: 0 <= i < |exts| ==> !IsSelfTransfer(exts[i])) ==>
              Balances.Total(Run(s, blockNumber, exts).state.ledger) == Balances.Total(s.ledger)
    decreases |exts|
  {
    if exts != [] {
      var last := |exts| - 1;
      RunTotal(s, blockNumber, exts[..last]);
      var before := Run(s, blockNumber, exts[..last]).state;
      var ext := exts[last];
      if ext.call.BalancesCall? {
        Balances.TransferTotal(before.ledger, ext.caller, ext.call.balancesCall.to, ext.call.balancesCall.amount);
      }
    }
  }

  /**
   * A block whose header matches: each account's nonce goes up by the number
   * of extrinsics it sent, and the ledger total does not fall.
   */
  lemma ExecuteBlockNoncesAndTotal(s: RuntimeState, block: Block<RuntimeCall>, who: AccountId)
    requires block.header.blockNumber == s.blockNumber + 1
    ensures ExecuteBlockStep(s, block).result == Ok
    ensures System.NonceOf(ExecuteBlockStep(s, block).state.nonces, who) ==
            System.NonceOf(s.nonces, who) + CallsBy(block.extrinsics, who)
    ensures Balances.Total(ExecuteBlockStep(s, block).state.ledger) >= Balances.Total(s.ledger)
  {
    var advanced := s.(blockNumber := s.blockNumber + 1);
    RunNonces(advanced, block.header.blockNumber, block.extrinsics, who);
    RunTotal(advanced, block.header.blockNumber, block.extrinsics);
  }

  class Runtime {
    const system: System.Pallet
    const balances: Balances.Pallet
    const proofOfExistence: ProofOfExistence.Pallet

    /** `Runtime::new`: fresh, empty pallets. */
    constructor ()
      ensures fresh(system) && fresh(balances) && fresh(proofOfExistence)
      ensures State() == RuntimeState(0, map[], map[], map[])
    {
      system := new System.Pallet();
      balances := new Balances.Pallet();
      proofOfExistence := new ProofOfExistence.Pallet();
    }

    /** The values held by the three pallets. */
    function State(): RuntimeState
      reads system, balances, proofOfExistence
    {
      RuntimeState(system.blockNumber, system.nonces, balances.balances, proofOfExistence.claims)
    }

    /** `Dispatch::dispatch` of the runtime. */
    method Dispatch(caller: AccountId, call: RuntimeCall) returns (r: DispatchResult)
      modifies balances, proofOfExistence
      ensures (State(), r) == DispatchStep(old(State()), caller, call)
    {
      match call
      case BalancesCall(c) =>
        r := balances.Dispatch(caller, c);
      case ProofOfExistenceCall(c) =>
        r := proofOfExistence.Dispatch(caller, c);
    }

    /**
     * `execute_block`. The diagnostics the source writes to standard error
     * are returned as `log`.
     */
    method ExecuteBlock(block: Block<RuntimeCall>) returns (r: DispatchResult, log: seq<ExtrinsicError>)
      modifies system, balances, proofOfExistence
      ensures BlockOutcome(State(), r, log) == ExecuteBlockStep(old(State()), block)
    {
      system.IncBlockNumber();
      if block.header.blockNumber != system.BlockNumber() {
        return Err(BLOCK_NUMBER_MISMATCH), [];
      }
      ghost var start := State();
      var exts := block.extrinsics;
      var blockNumber := block.header.blockNumber;
      log := [];
      var i := 0;
      while i < |exts|
        invariant 0 <= i <= |exts|
        invariant Run(start, blockNumber, exts[..i]) == Trace(State(), log)
      {
        var ext := exts[i];
        ghost var before := State();
        system.IncNonce(ext.caller);
        var result := Dispatch(ext.caller, ext.call);
        assert (State(), result) == ApplyExtrinsic(before, ext);
        if result.Err? {
          log := log + [ExtrinsicError(blockNumber, i, result.message)];
        }
        assert exts[..i + 1][..i] == exts[..i];
        i := i + 1;
      }
      assert exts[..|exts|] == exts;
      r := Ok;
    }
  }
}
