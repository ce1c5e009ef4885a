/**
 * `get_code` and the batch driver: resolve the chain name, route its id to
 * an adapter, and run jobs one after the other until the first failure.
 */
module Dispatch {
  import opened Wrappers
  import opened Runs
  import opened Output
  import opened Adapters
  import Chains

  /** The adapter variants: a status-gated explorer, Mode, or the Tenderly default. */
  datatype Adapter = Gated(explorer: Explorer) | ModeExplorer | TenderlyDefault

  /**
   * The `match` on the chain id. Mode's arm is commented out in the source,
   * so no id reaches the Mode adapter.
   */
  function Route(id: nat): (a: Adapter)
    ensures a != ModeExplorer
    ensures a.Gated? <==> id in {Chains.ScrollId, Chains.MerlinId, Chains.BitlayerId}
    ensures a == Gated(Scroll) <==> id == Chains.ScrollId
    ensures a == Gated(Merlin) <==> id == Chains.MerlinId
    ensures a == Gated(Bitlayer) <==> id == Chains.BitlayerId
  {
    if id == Chains.ScrollId then Gated(Scroll)
    else if id == Chains.MerlinId then Gated(Merlin)
    else if id == Chains.BitlayerId then Gated(Bitlayer)
    else TenderlyDefault
  }

  /** What `get_code(basepath, address, chain)` does. */
  function CodeRun(address: string, chain: string, api: Api, parse: Parser): Run {
    match Chains.Resolve(chain)
    case None => Run([], Failed(InvalidChain))
    case Some(id) =>
      match Route(id)
      case Gated(e) => GatedRun(e, address, api, parse)
      case ModeExplorer => ModeRun(address, api)
      case TenderlyDefault => TenderlyRun(address, chain, api)
  }

  /** `get_code`. */
  method GetCode(sink: Sink, basepath: string, address: string, chain: string, api: Api, parse: Parser)
    returns (r: Outcome)
    modifies sink
    ensures sink.files == Saved(old(sink.files), basepath, CodeRun(address, chain, api, parse).writes)
    ensures r == CodeRun(address, chain, api, parse).outcome
  {
    var chainId := Chains.Resolve(chain);
    if chainId.None? {
      return Failed(InvalidChain);
    }
    match Route(chainId.value)
    case Gated(Scroll) =>
      r := GetCodeFromScroll(sink, basepath, address, api, parse);
    case Gated(Merlin) =>
      r := GetCodeFromMerlin(sink, basepath, address, api, parse);
    case Gated(Bitlayer) =>
      r := GetCodeFromBitlayer(sink, basepath, address, api, parse);
    case ModeExplorer =>
      // the Mode arm is commented out in the source: Route never yields it
      assert false;
    case TenderlyDefault =>
      r := GetCodeFromTenderly(sink, basepath, address, chain, api);
  }

  /**
   * One batch record: column 0 is the address, column 1 the chain name. A
   * missing column 0 or column 1 is the same "Invalid CSV file" error, so
   * one length test covers both lookups.
   */
  function RecordStep(record: seq<string>, api: Api, parse: Parser): Run {
    if |record| < 2 then Run([], Failed(InvalidCsv))
    else CodeRun(record[0], record[1], api, parse)
  }

  function RecordSteps(records: seq<seq<string>>, api: Api, parse: Parser): (steps: seq<Run>)
    ensures |steps| == |records|
    ensures forall i :: 0 <= i < |records| ==> steps[i] == RecordStep(records[i], api, parse)
  {
    seq(|records|, i requires 0 <= i < |records| => RecordStep(records[i], api, parse))
  }

  /** The batch: the records in order, stopping after the first that does not finish. */
  function BatchRun(records: seq<seq<string>>, api: Api, parse: Parser): Run {
    Sequence(RecordSteps(records, api, parse))
  }

  /** The batch loop of `main`, over the records the CSV reader yields. */
  method RunBatch(sink: Sink, basepath: string, records: seq<seq<string>>, api: Api, parse: Parser)
    returns (r: Outcome)
    modifies sink
    ensures sink.files == Saved(old(sink.files), basepath, BatchRun(records, api, parse).writes)
    ensures r == BatchRun(records, api, parse).outcome
  {
    ghost var steps := RecordSteps(records, api, parse);
    var i := 0;
    while i < |records|
      invariant 0 <= i <= |records|
      invariant Sequence(steps[..i]).outcome == Done
      invariant sink.files == Saved(old(sink.files), basepath, Sequence(steps[..i]).writes)
    {
      SequenceStep(steps, i);
      ghost var before := Sequence(steps[..i]).writes;
      var record := records[i];
      if |record| < 2 {
        assert steps[i] == Run([], Failed(InvalidCsv));
        SequenceStopped(steps, i + 1);
        assert before + [] == before;
        return Failed(InvalidCsv);
      }
      var address, chain := record[0], record[1];
      var outcome := GetCode(sink, basepath, address, chain, api, parse);
      SavedAppend(old(sink.files), basepath, before, steps[i].writes);
      if !outcome.Done? {
        SequenceStopped(steps, i + 1);
        return outcome;
      }
      i := i + 1;
    }
    assert steps[..i] == steps;
    r := Done;
  }

  // ---------------------------------------------------------------- properties

  /** Every registered chain is routed by its name: the three explorers by theirs, all others to Tenderly. */
  lemma RouteRegistered(name: string)
    requires Chains.Registered(name)
    ensures Route(Chains.Resolve(name).value)
            == if name == "scroll" then Gated(Scroll)
               else if name == "merlin" then Gated(Merlin)
               else if name == "bitlayer" then Gated(Bitlayer)
               else TenderlyDefault
  {
    Chains.ResolveSpecialIds(name);
  }

  /** In particular Mode's chain, 34443, goes to Tenderly. */
  lemma ModeChainGoesToTenderly()
    ensures Chains.Resolve("mode") == Some(Chains.ModeId)
    ensures Route(Chains.ModeId) == TenderlyDefault
  {
    Chains.ResolveSpecialIds("mode");
  }

  /**
   * An unregistered chain name, such as "doesnotexist", fails with
   * "Invalid chain" before any request is made: the result is the same for
   * every API and parser, and nothing is written.
   */
  lemma UnknownChainRejected(address: string, chain: string, api: Api, parse: Parser, api': Api, parse': Parser)
    requires !Chains.Registered(chain)
    ensures CodeRun(address, chain, api, parse) == Run([], Failed(InvalidChain))
    ensures CodeRun(address, chain, api, parse) == CodeRun(address, chain, api', parse')
  {
  }

  /**
   * Every file `get_code` writes lands at `basepath/chain/address/...`: the
   * three explorers' fixed directory names coincide with their registry
   * names, and Tenderly writes under the caller's chain name.
   */
  lemma WritesUnderChainAndAddress(address: string, chain: string, api: Api, parse: Parser)
    ensures Under(CodeRun(address, chain, api, parse).writes, chain, address)
  {
    if Chains.Registered(chain) {
      RouteRegistered(chain);
      match Route(Chains.Resolve(chain).value)
      case Gated(e) =>
        var reply := api(e.RequestFor(address));
        if reply.Some? {
          GatedWritesUnder(e, address, parse, reply.value);
        }
      case ModeExplorer =>
      case TenderlyDefault =>
        var reply := api(TenderlyApi(Chains.Resolve(chain).value, address));
        if reply.Some? {
          TenderlyWritesUnder(chain, address, reply.value);
        }
    }
  }

  /**
   * Fail-fast batches: if record k is the first that does not finish, the
   * batch ends as that record ends, with the files of records 0..k written in
   * record order, and no later record is fetched.
   */
  lemma BatchStopsAtFirstFailure(records: seq<seq<string>>, api: Api, parse: Parser, k: nat)
    requires k < |records| && !RecordStep(records[k], api, parse).outcome.Done?
    requires forall i :: 0 <= i < k ==> RecordStep(records[i], api, parse).outcome.Done?
    ensures BatchRun(records, api, parse) == BatchRun(records[..k + 1], api, parse)
    ensures BatchRun(records, api, parse).outcome == RecordStep(records[k], api, parse).outcome
  {
    var steps := RecordSteps(records, api, parse);
    SequenceFirstStop(steps, k);
    assert RecordSteps(records[..k + 1], api, parse) == steps[..k + 1];
    SequenceFirstStop(steps[..k + 1], k);
    assert steps[..k + 1][..k + 1] == steps[..k + 1];
  }

  /**
   * When every record finishes, the file tree is the one obtained by running
   * the records' jobs one after the other, in record order.
   */
  lemma BatchInRecordOrder(files: map<Location, string>, base: string, records: seq<seq<string>>,
                           api: Api, parse: Parser)
    requires forall i :: 0 <= i < |records| ==> RecordStep(records[i], api, parse).outcome.Done?
    requires |records| > 0
    ensures BatchRun(records, api, parse).outcome == Done
    ensures Saved(files, base, BatchRun(records, api, parse).writes)
            == Saved(Saved(files, base, BatchRun(records[..|records| - 1], api, parse).writes),
                     base, RecordStep(records[|records| - 1], api, parse).writes)
  {
    var steps := RecordSteps(records, api, parse);
    var n := |records| - 1;
    SequenceAllDone(steps);
    assert RecordSteps(records[..n], api, parse) == steps[..n];
    SequenceAllDone(steps[..n]);
    SavedAppend(files, base, Sequence(steps[..n]).writes, steps[n].writes);
  }
}
