/**
 * The explorer adapters: each fetches one JSON document for an address and
 * turns it into `save_code` calls. Every method is proved against a function
 * that gives the writes it performs and how it ends.
 */
module Adapters {
  import opened Wrappers
  import opened Json
  import opened Runs
  import opened Output
  import Braces
  import Chains
  import Assoc

  /** The API a request goes to; URL text and API keys are not modelled. */
  datatype Request =
    | ScrollApi(address: string)
    | MerlinApi(address: string)
    | BitlayerApi(address: string)
    | ModeApi(address: string)
    | TenderlyApi(chainId: nat, address: string)

  /** The HTTP GET and `.json()`: the response document, or None when either fails. */
  type Api = Request -> Option<Json>

  /** `serde_json::from_str`: the parsed document, or None for text it rejects. */
  type Parser = string -> Option<Json>

  const NoContent: string := "Error: No content"
  const NoMainPath: string := "Error: No main file path"
  const NoExtraCode: string := "Error: No additional_sources code"
  const NoExtraPath: string := "Error: No additional_sources file path"

  /** The three explorers that gate on `status` and list `result[*].SourceCode`. */
  datatype Explorer = Scroll | Merlin | Bitlayer {

    /** The fixed chain directory the explorer writes into. */
    function Label(): string {
      match this
      case Scroll => "scroll"
      case Merlin => "merlin"
      case Bitlayer => "bitlayer"
    }

    function RequestFor(address: string): Request {
      match this
      case Scroll => ScrollApi(address)
      case Merlin => MerlinApi(address)
      case Bitlayer => BitlayerApi(address)
    }

    /** `resp["status"] == "1"`, except on Bitlayer, which compares with the number 1. */
    predicate StatusOk(resp: Json) {
      match this
      case Bitlayer => EqInt(Index(resp, "status"), 1)
      case _ => EqStr(Index(resp, "status"), "1")
    }

    /** The text handed to the parser for one `result` item. */
    /**
     * The text handed to `serde_json::from_str`: `SourceCode`, or a fallback
     * when it is missing or not a string; Scroll also un-doubles braces.
     */
    function SourceText(item: Json): (r: string)
      ensures !Index(item, "SourceCode").Str? ==> r == if this == Scroll then "" else "Error serde_json"
      ensures Index(item, "SourceCode").Str? && this != Scroll ==> r == Index(item, "SourceCode").s
      ensures Index(item, "SourceCode").Str? && this == Scroll ==>
                |r| <= |Index(item, "SourceCode").s|
                && Braces.NonBraces(r) == Braces.NonBraces(Index(item, "SourceCode").s)
    {
      match this
      case Scroll =>
        var code := StrOr(Index(item, "SourceCode"), "");
        Braces.UnbraceKeepsNonBraces(code);
        Braces.Unbrace(code)
      case _ => StrOr(Index(item, "SourceCode"), "Error serde_json")
    }
  }

  /** The file for one member `(p, c)` of a `sources` object. */
  function SourceFile(chain: string, address: string, member: (string, Json)): Write {
    Write(chain, address + "/" + member.0, StrOr(Index(member.1, "content"), NoContent))
  }

  function SourceWrites(chain: string, address: string, sources: seq<(string, Json)>): (ws: seq<Write>)
    ensures |ws| == |sources|
    ensures forall i :: 0 <= i < |sources| ==> ws[i] == SourceFile(chain, address, sources[i])
  {
    seq(|sources|, i requires 0 <= i < |sources| => SourceFile(chain, address, sources[i]))
  }

  // ---------------------------------------------------------------- status-gated explorers

  /** One `result` item: parse its source text (`?` on failure), then write its `sources`, if an object. */
  function ItemStep(e: Explorer, address: string, parse: Parser, item: Json): Run {
    match parse(e.SourceText(item))
    case None => Run([], Failed(Decode))
    case Some(doc) =>
      match AsObject(Index(doc, "sources"))
      case None => Run([], Done)
      case Some(sources) => Run(SourceWrites(e.Label(), address, sources), Done)
  }

  function ItemSteps(e: Explorer, address: string, parse: Parser, items: seq<Json>): (steps: seq<Run>)
    ensures |steps| == |items|
    ensures forall i :: 0 <= i < |items| ==> steps[i] == ItemStep(e, address, parse, items[i])
  {
    seq(|items|, i requires 0 <= i < |items| => ItemStep(e, address, parse, items[i]))
  }

  /** What a status-gated explorer does with the response document `resp`. */
  function GatedDecode(e: Explorer, address: string, parse: Parser, resp: Json): Run {
    if !e.StatusOk(resp) then Run([], Done)
    else
      match AsArray(Index(resp, "result"))
      case None => Run([], Failed(ResultNotArray))
      case Some(items) => Sequence(ItemSteps(e, address, parse, items))
  }

  function GatedRun(e: Explorer, address: string, api: Api, parse: Parser): Run {
    match api(e.RequestFor(address))
    case None => Run([], Failed(Transport))
    case Some(resp) => GatedDecode(e, address, parse, resp)
  }

  /** The inner `for (p, c) in sources` loop. */
  method SaveSources(sink: Sink, basepath: string, chain: string, address: string,
                     sources: seq<(string, Json)>)
    modifies sink
    ensures sink.files == Saved(old(sink.files), basepath, SourceWrites(chain, address, sources))
  {
    ghost var ws := SourceWrites(chain, address, sources);
    var i := 0;
    while i < |sources|
      invariant 0 <= i <= |sources|
      invariant sink.files == Saved(old(sink.files), basepath, ws[..i])
    {
      var (p, c) := sources[i];
      var path := address + "/" + p;
      var code := StrOr(Index(c, "content"), NoContent);
      sink.SaveCode(basepath, chain, path, code);
      assert ws[..i + 1][..i] == ws[..i];
      i := i + 1;
    }
    assert ws[..i] == ws;
  }

  /** The `for item in result` loop: stops at the first item whose source text does not parse. */
  method SaveItems(sink: Sink, e: Explorer, basepath: string, address: string, parse: Parser,
                   items: seq<Json>) returns (r: Outcome)
    modifies sink
    ensures sink.files == Saved(old(sink.files), basepath, Sequence(ItemSteps(e, address, parse, items)).writes)
    ensures r == Sequence(ItemSteps(e, address, parse, items)).outcome
  {
    ghost var steps := ItemSteps(e, address, parse, items);
    var i := 0;
    while i < |items|
      invariant 0 <= i <= |items|
      invariant Sequence(steps[..i]).outcome == Done
      invariant sink.files == Saved(old(sink.files), basepath, Sequence(steps[..i]).writes)
    {
      ghost var before := Sequence(steps[..i]).writes;
      var doc := parse(e.SourceText(items[i]));
      if doc.None? {
        assert steps[i] == Run([], Failed(Decode));
        SequenceHalt(steps, i);
        assert before + [] == before;
        return Failed(Decode);
      }
      var sources := AsObject(Index(doc.value, "sources"));
      if sources.Some? {
        assert steps[i] == Run(SourceWrites(e.Label(), address, sources.value), Done);
        SequenceContinue(steps, i);
        SaveSources(sink, basepath, e.Label(), address, sources.value);
        SavedAppend(old(sink.files), basepath, before, steps[i].writes);
      } else {
        assert steps[i] == Run([], Done);
        SequenceContinue(steps, i);
        assert before + [] == before;
      }
      i := i + 1;
    }
    assert steps[..i] == steps;
    r := Done;
  }

  /** The body shared by `get_code_from_scroll`, `get_code_from_merlin` and `get_code_from_bitlayer`. */
  method FetchGated(sink: Sink, e: Explorer, basepath: string, address: string, api: Api, parse: Parser)
    returns (r: Outcome)
    modifies sink
    ensures sink.files == Saved(old(sink.files), basepath, GatedRun(e, address, api, parse).writes)
    ensures r == GatedRun(e, address, api, parse).outcome
  {
    var reply := api(e.RequestFor(address));
    if reply.None? {
      return Failed(Transport);
    }
    var resp := reply.value;
    assert GatedRun(e, address, api, parse) == GatedDecode(e, address, parse, resp);
    if !e.StatusOk(resp) {
      return Done;
    }
    var result := AsArray(Index(resp, "result"));
    if result.None? {
      return Failed(ResultNotArray);
    }
    r := SaveItems(sink, e, basepath, address, parse, result.value);
  }

  /** `get_code_from_scroll`. */
  method GetCodeFromScroll(sink: Sink, basepath: string, address: string, api: Api, parse: Parser)
    returns (r: Outcome)
    modifies sink
    ensures sink.files == Saved(old(sink.files), basepath, GatedRun(Scroll, address, api, parse).writes)
    ensures r == GatedRun(Scroll, address, api, parse).outcome
  {
    r := FetchGated(sink, Scroll, basepath, address, api, parse);
  }

  /** `get_code_from_merlin`. */
  method GetCodeFromMerlin(sink: Sink, basepath: string, address: string, api: Api, parse: Parser)
    returns (r: Outcome)
    modifies sink
    ensures sink.files == Saved(old(sink.files), basepath, GatedRun(Merlin, address, api, parse).writes)
    ensures r == GatedRun(Merlin, address, api, parse).outcome
  {
    r := FetchGated(sink, Merlin, basepath, address, api, parse);
  }

  /** `get_code_from_bitlayer`. */
  method GetCodeFromBitlayer(sink: Sink, basepath: string, address: string, api: Api, parse: Parser)
    returns (r: Outcome)
    modifies sink
    ensures sink.files == Saved(old(sink.files), basepath, GatedRun(Bitlayer, address, api, parse).writes)
    ensures r == GatedRun(Bitlayer, address, api, parse).outcome
  {
    r := FetchGated(sink, Bitlayer, basepath, address, api, parse);
  }

  /**
   * Status gating: Scroll and Merlin go on only for the JSON string "1",
   * Bitlayer only for the integer 1; otherwise nothing is written and the
   * adapter succeeds. Past the gate, a `result` that is not an array is an
   * error, with nothing written.
   */
  lemma GatedStatusGate(e: Explorer, address: string, parse: Parser, resp: Json)
    ensures e.StatusOk(resp) <==>
              if e == Bitlayer then Index(resp, "status") == Num(Int(1))
              else Index(resp, "status") == Str("1")
    ensures !e.StatusOk(resp) ==> GatedDecode(e, address, parse, resp) == Run([], Done)
    ensures e.StatusOk(resp) && !Index(resp, "result").Array? ==>
              GatedDecode(e, address, parse, resp) == Run([], Failed(ResultNotArray))
  {
  }

  /** Two relative paths under the same address are equal only if the paths are. */
  lemma JoinInjective(address: string, p: string, q: string)
    ensures address + "/" + p == address + "/" + q <==> p == q
  {
    if address + "/" + p == address + "/" + q {
      assert p == (address + "/" + p)[|address| + 1..];
      assert q == (address + "/" + q)[|address| + 1..];
    }
  }

  lemma {:induction false} SourceTargetsAt(base: string, chain: string, address: string,
                                           sources: seq<(string, Json)>, p: string)
    ensures Assoc.Get(Targets(base, SourceWrites(chain, address, sources)), Location(base, chain, address + "/" + p))
            == match Assoc.Get(sources, p)
               case None => None
               case Some(c) => Some(StrOr(Index(c, "content"), NoContent))
    decreases |sources|
  {
    if |sources| > 0 {
      var n := |sources| - 1;
      var ws := SourceWrites(chain, address, sources);
      assert ws[..n] == SourceWrites(chain, address, sources[..n]);
      assert Targets(base, ws)[..n] == Targets(base, ws[..n]);
      SourceTargetsAt(base, chain, address, sources[..n], p);
      JoinInjective(address, sources[n].0, p);
    }
  }

  /**
   * After the `sources` loop, the file for each key p sits at
   * `address/p` and holds that member's `content` string, or the placeholder
   * when it has none; the location of a path that is not a key keeps what it
   * had. This holds whatever order the members are visited in.
   */
  lemma SourcesSavedAt(files: map<Location, string>, base: string, chain: string, address: string,
                       sources: seq<(string, Json)>, p: string)
    ensures Assoc.MapGet(Saved(files, base, SourceWrites(chain, address, sources)),
                         Location(base, chain, address + "/" + p))
            == match Assoc.Get(sources, p)
               case None => Assoc.MapGet(files, Location(base, chain, address + "/" + p))
               case Some(c) => Some(StrOr(Index(c, "content"), NoContent))
  {
    SavedAt(files, base, SourceWrites(chain, address, sources), Location(base, chain, address + "/" + p));
    SourceTargetsAt(base, chain, address, sources, p);
  }

  /** The `sources` loop adds exactly one location per key, `address/p`, and no other. */
  lemma SourcesSavedKeys(files: map<Location, string>, base: string, chain: string, address: string,
                         sources: seq<(string, Json)>)
    ensures Saved(files, base, SourceWrites(chain, address, sources)).Keys
            == files.Keys + set i | 0 <= i < |sources| :: Location(base, chain, address + "/" + sources[i].0)
  {
    var ws := SourceWrites(chain, address, sources);
    SavedKeys(files, base, ws);
    assert (set i | 0 <= i < |ws| :: Place(base, ws[i]))
        == (set i | 0 <= i < |sources| :: Location(base, chain, address + "/" + sources[i].0));
  }

  lemma SourceWritesUnder(chain: string, address: string, sources: seq<(string, Json)>)
    ensures Under(SourceWrites(chain, address, sources), chain, address)
  {
    forall i | 0 <= i < |sources|
      ensures (address + "/" + sources[i].0)[..|address| + 1] == address + "/"
    {
    }
  }

  /** A status-gated explorer writes only under its own chain directory and the address. */
  lemma GatedWritesUnder(e: Explorer, address: string, parse: Parser, resp: Json)
    ensures Under(GatedDecode(e, address, parse, resp).writes, e.Label(), address)
  {
    if e.StatusOk(resp) && Index(resp, "result").Array? {
      var steps := ItemSteps(e, address, parse, Index(resp, "result").elems);
      forall i | 0 <= i < |steps|
        ensures Under(steps[i].writes, e.Label(), address)
      {
        var doc := parse(e.SourceText(Index(resp, "result").elems[i]));
        if doc.Some? && AsObject(Index(doc.value, "sources")).Some? {
          SourceWritesUnder(e.Label(), address, AsObject(Index(doc.value, "sources")).value);
        }
      }
      SequenceUnder(steps, e.Label(), address);
    }
  }

  /**
   * The first `result` item whose source text does not parse ends the adapter
   * with that error: the files of the items before it stay written, and no
   * later item is looked at.
   */
  lemma GatedFirstDecodeError(e: Explorer, address: string, parse: Parser, items: seq<Json>, k: nat)
    requires k < |items| && parse(e.SourceText(items[k])).None?
    requires forall i :: 0 <= i < k ==> parse(e.SourceText(items[i])).Some?
    ensures Sequence(ItemSteps(e, address, parse, items))
            == Run(Flatten(ItemSteps(e, address, parse, items[..k])), Failed(Decode))
  {
    var steps := ItemSteps(e, address, parse, items);
    SequenceFirstStop(steps, k);
    assert steps[..k + 1][..k] == steps[..k] == ItemSteps(e, address, parse, items[..k]);
    assert Flatten(steps[..k + 1]) == Flatten(steps[..k]) + [];
  }

  /** An item whose parsed document has no `sources` object writes nothing and lets the loop go on. */
  lemma ItemWithoutSources(e: Explorer, address: string, parse: Parser, item: Json, doc: Json)
    requires parse(e.SourceText(item)) == Some(doc) && !Index(doc, "sources").Object?
    ensures ItemStep(e, address, parse, item) == Run([], Done)
  {
  }

  /**
   * When every item's text parses, the loop finishes, and its writes are the
   * items' `sources` files concatenated in `result` order; an item without a
   * `sources` object contributes none.
   */
  lemma GatedAllParse(e: Explorer, address: string, parse: Parser, items: seq<Json>)
    requires forall i :: 0 <= i < |items| ==> parse(e.SourceText(items[i])).Some?
    ensures Sequence(ItemSteps(e, address, parse, items)) == Run(Flatten(ItemSteps(e, address, parse, items)), Done)
    ensures forall i :: 0 <= i < |items| ==>
              var doc := parse(e.SourceText(items[i])).value;
              ItemSteps(e, address, parse, items)[i].writes
              == if Index(doc, "sources").Object? then SourceWrites(e.Label(), address, Index(doc, "sources").members)
                 else []
  {
    SequenceAllDone(ItemSteps(e, address, parse, items));
  }

  // ---------------------------------------------------------------- Mode

  /** The file for one `additional_sources` entry. */
  function ExtraFile(address: string, source: Json): Write {
    Write("mode", address + "/" + StrOr(Index(source, "file_path"), NoExtraPath),
          StrOr(Index(source, "source_code"), NoExtraCode))
  }

  function ExtraWrites(address: string, sources: seq<Json>): (ws: seq<Write>)
    ensures |ws| == |sources|
    ensures forall i :: 0 <= i < |sources| ==> ws[i] == ExtraFile(address, sources[i])
  {
    seq(|sources|, i requires 0 <= i < |sources| => ExtraFile(address, sources[i]))
  }

  /** What the Mode adapter does with the response document `resp`. */
  function ModeDecode(address: string, resp: Json): Run {
    match AsStr(Index(resp, "source_code"))
    case None => Run([], Failed(SourceCodeMissing))
    case Some(main) =>
      var mainFile := Write("mode", address + "/" + StrOr(Index(resp, "file_path"), NoMainPath), main);
      match AsArray(Index(resp, "additional_sources"))
      case None => Run([mainFile], Done)
      case Some(extra) => Run([mainFile] + ExtraWrites(address, extra), Done)
  }

  function ModeRun(address: string, api: Api): Run {
    match api(ModeApi(address))
    case None => Run([], Failed(Transport))
    case Some(resp) => ModeDecode(address, resp)
  }

  /** `get_code_from_mode`. */
  method GetCodeFromMode(sink: Sink, basepath: string, address: string, api: Api) returns (r: Outcome)
    modifies sink
    ensures sink.files == Saved(old(sink.files), basepath, ModeRun(address, api).writes)
    ensures r == ModeRun(address, api).outcome
  {
    var reply := api(ModeApi(address));
    if reply.None? {
      return Failed(Transport);
    }
    var resp := reply.value;
    var mainSol := AsStr(Index(resp, "source_code"));
    if mainSol.None? {
      return Failed(SourceCodeMissing);
    }
    var mainPath := address + "/" + StrOr(Index(resp, "file_path"), NoMainPath);
    sink.SaveCode(basepath, "mode", mainPath, mainSol.value);
    ghost var done := [Write("mode", mainPath, mainSol.value)];
    assert sink.files == Saved(old(sink.files), basepath, done);
    var additional := AsArray(Index(resp, "additional_sources"));
    if additional.Some? {
      var sources := additional.value;
      ghost var ws := ExtraWrites(address, sources);
      var i := 0;
      while i < |sources|
        invariant 0 <= i <= |sources|
        invariant sink.files == Saved(old(sink.files), basepath, done + ws[..i])
      {
        var code := StrOr(Index(sources[i], "source_code"), NoExtraCode);
        var path := address + "/" + StrOr(Index(sources[i], "file_path"), NoExtraPath);
        sink.SaveCode(basepath, "mode", path, code);
        assert (done + ws[..i + 1])[..|done| + i] == done + ws[..i];
        i := i + 1;
      }
      assert ws[..i] == ws;
    }
    r := Done;
  }

  /**
   * Mode: a missing or non-string `source_code` is an error before any
   * write; otherwise the main file is written first, at `address/file_path`
   * (or the placeholder path), followed by one file per `additional_sources`
   * entry in array order.
   */
  lemma ModeDecodeOrder(address: string, resp: Json)
    ensures !Index(resp, "source_code").Str? ==> ModeDecode(address, resp) == Run([], Failed(SourceCodeMissing))
    ensures Index(resp, "source_code").Str? ==>
              var run := ModeDecode(address, resp);
              var extra := if Index(resp, "additional_sources").Array? then Index(resp, "additional_sources").elems else [];
              && run.outcome == Done
              && |run.writes| == 1 + |extra|
              && run.writes[0] == Write("mode", address + "/" + StrOr(Index(resp, "file_path"), NoMainPath),
                                        Index(resp, "source_code").s)
              && forall i :: 0 <= i < |extra| ==> run.writes[i + 1] == ExtraFile(address, extra[i])
  {
    var main := AsStr(Index(resp, "source_code"));
    if main.Some? {
      var mainFile := Write("mode", address + "/" + StrOr(Index(resp, "file_path"), NoMainPath), main.value);
      var extra := AsArray(Index(resp, "additional_sources"));
      if extra.Some? {
        var ws := ExtraWrites(address, extra.value);
        assert ModeDecode(address, resp) == Run([mainFile] + ws, Done);
        assert forall i :: 0 <= i < |ws| ==> ([mainFile] + ws)[i + 1] == ws[i];
      } else {
        assert ModeDecode(address, resp) == Run([mainFile], Done);
      }
    }
  }

  /** The main file keeps its `source_code` unless an additional source names the same path. */
  lemma ModeMainFileKept(files: map<Location, string>, base: string, address: string, resp: Json)
    requires Index(resp, "source_code").Str?
    requires Index(resp, "additional_sources").Array? ==>
               forall s :: s in Index(resp, "additional_sources").elems ==>
                 StrOr(Index(s, "file_path"), NoExtraPath) != StrOr(Index(resp, "file_path"), NoMainPath)
    ensures var loc := Location(base, "mode", address + "/" + StrOr(Index(resp, "file_path"), NoMainPath));
            Assoc.MapGet(Saved(files, base, ModeDecode(address, resp).writes), loc)
            == Some(Index(resp, "source_code").s)
  {
    var ws := ModeDecode(address, resp).writes;
    var loc := Location(base, "mode", address + "/" + StrOr(Index(resp, "file_path"), NoMainPath));
    ModeDecodeOrder(address, resp);
    SavedAt(files, base, ws, loc);
    var t := Targets(base, ws);
    forall j | 0 < j < |ws|
      ensures t[j].0 != loc
    {
      var extra := Index(resp, "additional_sources").elems;
      assert ws[j] == ExtraFile(address, extra[j - 1]);
      assert extra[j - 1] in extra;
      JoinInjective(address, StrOr(Index(extra[j - 1], "file_path"), NoExtraPath),
                    StrOr(Index(resp, "file_path"), NoMainPath));
    }
    assert t[0] == (loc, Index(resp, "source_code").s);
  }

  lemma ModeWritesUnder(address: string, resp: Json)
    ensures Under(ModeDecode(address, resp).writes, "mode", address)
  {
    ModeDecodeOrder(address, resp);
  }

  // ---------------------------------------------------------------- Tenderly

  /** One `contract_info` entry: `path` and `source` are unwrapped, in that order. */
  function InfoStep(chain: string, address: string, info: Json): Run {
    match AsStr(Index(info, "path"))
    case None => Run([], Panicked("path"))
    case Some(p) =>
      match AsStr(Index(info, "source"))
      case None => Run([], Panicked("source"))
      case Some(code) => Run([Write(chain, address + "/" + p, code)], Done)
  }

  function InfoSteps(chain: string, address: string, infos: seq<Json>): (steps: seq<Run>)
    ensures |steps| == |infos|
    ensures forall i :: 0 <= i < |infos| ==> steps[i] == InfoStep(chain, address, infos[i])
  {
    seq(|infos|, i requires 0 <= i < |infos| => InfoStep(chain, address, infos[i]))
  }

  /** What the Tenderly adapter does with the response document `resp`. */
  function TenderlyDecode(chain: string, address: string, resp: Json): Run {
    match AsArray(Index(Index(resp, "data"), "contract_info"))
    case None => Run([], Failed(ContractInfoMissing))
    case Some(infos) => Sequence(InfoSteps(chain, address, infos))
  }

  function TenderlyRun(address: string, chain: string, api: Api): Run {
    match Chains.Resolve(chain)
    case None => Run([], Failed(InvalidChain))
    case Some(id) =>
      match api(TenderlyApi(id, address))
      case None => Run([], Failed(Transport))
      case Some(resp) => TenderlyDecode(chain, address, resp)
  }

  /** The `for info in contract_info` loop: stops at the first entry whose `path` or `source` is not a string. */
  method SaveContractInfo(sink: Sink, basepath: string, address: string, chain: string, infos: seq<Json>)
    returns (r: Outcome)
    modifies sink
    ensures sink.files == Saved(old(sink.files), basepath, Sequence(InfoSteps(chain, address, infos)).writes)
    ensures r == Sequence(InfoSteps(chain, address, infos)).outcome
  {
    ghost var steps := InfoSteps(chain, address, infos);
    var i := 0;
    while i < |infos|
      invariant 0 <= i <= |infos|
      invariant Sequence(steps[..i]).outcome == Done
      invariant sink.files == Saved(old(sink.files), basepath, Sequence(steps[..i]).writes)
    {
      SequenceStep(steps, i);
      ghost var before := Sequence(steps[..i]).writes;
      var p := AsStr(Index(infos[i], "path"));
      if p.None? {
        assert steps[i] == Run([], Panicked("path"));
        SequenceStopped(steps, i + 1);
        assert before + [] == before;
        assert Sequence(steps).writes == before;
        return Panicked("path");
      }
      var path := address + "/" + p.value;
      var codeContent := AsStr(Index(infos[i], "source"));
      if codeContent.None? {
        assert steps[i] == Run([], Panicked("source"));
        SequenceStopped(steps, i + 1);
        assert before + [] == before;
        assert Sequence(steps).writes == before;
        return Panicked("source");
      }
      sink.SaveCode(basepath, chain, path, codeContent.value);
      assert steps[i] == Run([Write(chain, path, codeContent.value)], Done);
      assert before + steps[i].writes == before + [Write(chain, path, codeContent.value)];
      assert (before + steps[i].writes)[..|before|] == before;
      i := i + 1;
    }
    assert steps[..i] == steps;
    assert Sequence(steps) == Sequence(steps[..i]);
    r := Done;
  }

  /** `get_code_from_tenderly`. */
  method GetCodeFromTenderly(sink: Sink, basepath: string, address: string, chain: string, api: Api)
    returns (r: Outcome)
    modifies sink
    ensures sink.files == Saved(old(sink.files), basepath, TenderlyRun(address, chain, api).writes)
    ensures r == TenderlyRun(address, chain, api).outcome
  {
    var chainId := Chains.Resolve(chain);
    if chainId.None? {
      return Failed(InvalidChain);
    }
    var reply := api(TenderlyApi(chainId.value, address));
    if reply.None? {
      return Failed(Transport);
    }
    var contractInfo := AsArray(Index(Index(reply.value, "data"), "contract_info"));
    if contractInfo.None? {
      return Failed(ContractInfoMissing);
    }
    r := SaveContractInfo(sink, basepath, address, chain, contractInfo.value);
  }

  /** Tenderly: a `data.contract_info` that is not an array is an error, with nothing written. */
  lemma TenderlyNoArray(chain: string, address: string, resp: Json)
    requires !Index(Index(resp, "data"), "contract_info").Array?
    ensures TenderlyDecode(chain, address, resp) == Run([], Failed(ContractInfoMissing))
  {
  }

  /** When every entry has a string `path` and `source`, entry i becomes file i, at `address/path`, under the caller's chain name. */
  lemma TenderlyAllStrings(chain: string, address: string, infos: seq<Json>)
    requires forall i :: 0 <= i < |infos| ==> Index(infos[i], "path").Str? && Index(infos[i], "source").Str?
    ensures var run := Sequence(InfoSteps(chain, address, infos));
            && run.outcome == Done
            && |run.writes| == |infos|
            && forall i :: 0 <= i < |infos| ==>
                 run.writes[i] == Write(chain, address + "/" + Index(infos[i], "path").s, Index(infos[i], "source").s)
  {
    var steps := InfoSteps(chain, address, infos);
    SequenceAllDone(steps);
    FlattenSingles(steps);
  }

  /**
   * The first entry without a string `path` (checked first) or `source`
   * stops the adapter with a panic; the files of the entries before it stay
   * written.
   */
  lemma TenderlyPanicsAt(chain: string, address: string, infos: seq<Json>, k: nat)
    requires k < |infos| && !(Index(infos[k], "path").Str? && Index(infos[k], "source").Str?)
    requires forall i :: 0 <= i < k ==> Index(infos[i], "path").Str? && Index(infos[i], "source").Str?
    ensures var run := Sequence(InfoSteps(chain, address, infos));
            && run.outcome == Panicked(if Index(infos[k], "path").Str? then "source" else "path")
            && |run.writes| == k
            && forall i :: 0 <= i < k ==>
                 run.writes[i] == Write(chain, address + "/" + Index(infos[i], "path").s, Index(infos[i], "source").s)
  {
    var steps := InfoSteps(chain, address, infos);
    SequenceFirstStop(steps, k);
    assert steps[..k + 1][..k] == steps[..k];
    assert Flatten(steps[..k + 1]) == Flatten(steps[..k]) + [];
    FlattenSingles(steps[..k]);
  }

  lemma TenderlyWritesUnder(chain: string, address: string, resp: Json)
    ensures Under(TenderlyDecode(chain, address, resp).writes, chain, address)
  {
    if Index(Index(resp, "data"), "contract_info").Array? {
      var steps := InfoSteps(chain, address, Index(Index(resp, "data"), "contract_info").elems);
      forall i | 0 <= i < |steps|
        ensures Under(steps[i].writes, chain, address)
      {
        if |steps[i].writes| == 1 {
          assert (steps[i].writes[0].path)[..|address| + 1] == address + "/";
        }
      }
      SequenceUnder(steps, chain, address);
    }
  }
}
