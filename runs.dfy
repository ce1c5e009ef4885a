/**
 * What one fetch does, as a value: the files it writes, in order, and how it
 * ends. Rust's `?` stops a function at its first error, so a sequence of steps
 * stops at the first step that does not finish.
 */
module Runs {

  /** The `anyhow` errors the core raises, plus the failures of the collaborators it calls. */
  datatype Error =
    | InvalidChain         // chain name not in the registry
    | ResultNotArray       // status-gated explorers: `result` is not an array
    | SourceCodeMissing    // Mode: `source_code` missing or not a string
    | ContractInfoMissing  // Tenderly: `data.contract_info` is not an array
    | InvalidCsv           // a batch record without an address or a chain column
    | Transport            // the HTTP request failed or its body was not JSON
    | Decode               // `serde_json::from_str` rejected a `SourceCode` text
  {
    /** The message the core attaches; Transport and Decode carry the libraries' own messages. */
    function Message(): (r: string)
      requires !Transport? && !Decode?
      ensures r == "Invalid chain" <==> this == InvalidChain
      ensures r == "Result is not an array" <==> this == ResultNotArray
      ensures r == "Source code is missing or not a string" <==> this == SourceCodeMissing
      ensures r == "Failed to extract contract_info array from API response" <==> this == ContractInfoMissing
      ensures r == "Invalid CSV file" <==> this == InvalidCsv
    {
      match this
      case InvalidChain => "Invalid chain"
      case ResultNotArray => "Result is not an array"
      case SourceCodeMissing => "Source code is missing or not a string"
      case ContractInfoMissing => "Failed to extract contract_info array from API response"
      case InvalidCsv => "Invalid CSV file"
    }
  }

  /** How a run ends: normally, with an error propagated by `?`, or with an `unwrap` panic on a field. */
  datatype Outcome = Done | Failed(error: Error) | Panicked(field: string)

  /** One `save_code` call, relative to the base directory: the chain directory, the relative path and the text. */
  datatype Write = Write(chain: string, path: string, content: string)

  datatype Run = Run(writes: seq<Write>, outcome: Outcome)

  /** `next` runs only if `prev` finished normally. */
  function Then(prev: Run, next: Run): (r: Run)
    ensures prev.outcome.Done? ==> r.writes == prev.writes + next.writes && r.outcome == next.outcome
    ensures !prev.outcome.Done? ==> r == prev
  {
    if prev.outcome.Done? then Run(prev.writes + next.writes, next.outcome) else prev
  }

  /** The steps run one after the other, stopping after the first that does not finish. */
  function Sequence(steps: seq<Run>): Run
    decreases |steps|
  {
    if |steps| == 0 then Run([], Done)
    else Then(Sequence(steps[..|steps| - 1]), steps[|steps| - 1])
  }

  /** All the writes of the steps, in order. */
  function Flatten(steps: seq<Run>): seq<Write>
    decreases |steps|
  {
    if |steps| == 0 then [] else Flatten(steps[..|steps| - 1]) + steps[|steps| - 1].writes
  }

  /** The loop step: running one more step extends the sequence by `Then`. */
  lemma SequenceStep(steps: seq<Run>, i: nat)
    requires i < |steps|
    ensures Sequence(steps[..i + 1]) == Then(Sequence(steps[..i]), steps[i])
  {
    assert steps[..i + 1][..i] == steps[..i];
  }

  /** A finishing step after a finishing prefix extends the prefix's writes. */
  lemma SequenceContinue(steps: seq<Run>, i: nat)
    requires i < |steps| && Sequence(steps[..i]).outcome.Done? && steps[i].outcome.Done?
    ensures Sequence(steps[..i + 1]) == Run(Sequence(steps[..i]).writes + steps[i].writes, Done)
  {
    SequenceStep(steps, i);
  }

  /** A step that stops after a finishing prefix ends the whole sequence with its outcome. */
  lemma SequenceHalt(steps: seq<Run>, i: nat)
    requires i < |steps| && Sequence(steps[..i]).outcome.Done? && !steps[i].outcome.Done?
    ensures Sequence(steps) == Run(Sequence(steps[..i]).writes + steps[i].writes, steps[i].outcome)
  {
    SequenceStep(steps, i);
    SequenceStopped(steps, i + 1);
  }

  /** When every step finishes, the sequence finishes with all their writes in order. */
  lemma {:induction false} SequenceAllDone(steps: seq<Run>)
    requires forall i :: 0 <= i < |steps| ==> steps[i].outcome.Done?
    ensures Sequence(steps) == Run(Flatten(steps), Done)
    decreases |steps|
  {
    if |steps| > 0 {
      SequenceAllDone(steps[..|steps| - 1]);
    }
  }

  /** Once a prefix has stopped, the later steps change nothing. */
  lemma {:induction false} SequenceStopped(steps: seq<Run>, k: nat)
    requires k <= |steps| && !Sequence(steps[..k]).outcome.Done?
    ensures Sequence(steps) == Sequence(steps[..k])
    decreases |steps|
  {
    if k < |steps| {
      var n := |steps| - 1;
      assert steps[..n][..k] == steps[..k];
      SequenceStopped(steps[..n], k);
    } else {
      assert steps[..k] == steps;
    }
  }

  /**
   * Fail-fast: if step k is the first that does not finish, the sequence ends
   * as step k ends, after the writes of steps 0..k, and no later step runs.
   */
  lemma SequenceFirstStop(steps: seq<Run>, k: nat)
    requires k < |steps| && !steps[k].outcome.Done?
    requires forall i :: 0 <= i < k ==> steps[i].outcome.Done?
    ensures Sequence(steps) == Run(Flatten(steps[..k + 1]), steps[k].outcome)
  {
    SequenceAllDone(steps[..k]);
    SequenceStep(steps, k);
    assert steps[..k + 1][..k] == steps[..k];
    SequenceStopped(steps, k + 1);
  }

  /** Every write lands in the `chain` directory, under the `address` directory. */
  predicate Under(writes: seq<Write>, chain: string, address: string) {
    forall i :: 0 <= i < |writes| ==>
      writes[i].chain == chain && |address| + 1 <= |writes[i].path|
      && writes[i].path[..|address| + 1] == address + "/"
  }

  lemma UnderAppend(a: seq<Write>, b: seq<Write>, chain: string, address: string)
    requires Under(a, chain, address) && Under(b, chain, address)
    ensures Under(a + b, chain, address)
  {
    forall i | 0 <= i < |a + b|
      ensures (a + b)[i] == if i < |a| then a[i] else b[i - |a|]
    {
    }
  }

  /** A sequence of steps writes only where its steps write. */
  lemma {:induction false} SequenceUnder(steps: seq<Run>, chain: string, address: string)
    requires forall i :: 0 <= i < |steps| ==> Under(steps[i].writes, chain, address)
    ensures Under(Sequence(steps).writes, chain, address)
    decreases |steps|
  {
    if |steps| > 0 {
      var n := |steps| - 1;
      SequenceUnder(steps[..n], chain, address);
      if Sequence(steps[..n]).outcome.Done? {
        UnderAppend(Sequence(steps[..n]).writes, steps[n].writes, chain, address);
      }
    }
  }

  /** Steps that each write exactly one file contribute those files, one per step, in order. */
  lemma {:induction false} FlattenSingles(steps: seq<Run>)
    requires forall i :: 0 <= i < |steps| ==> |steps[i].writes| == 1
    ensures |Flatten(steps)| == |steps|
    ensures forall i :: 0 <= i < |steps| ==> Flatten(steps)[i] == steps[i].writes[0]
    decreases |steps|
  {
    if |steps| > 0 {
      FlattenSingles(steps[..|steps| - 1]);
    }
  }
}
