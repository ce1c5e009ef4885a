# get-source-code: routing and decoding of explorer replies, in Dafny

This project models the core of a command-line tool that fetches verified
smart-contract source code from blockchain explorers and writes it under
`basepath/<chain>/<address>/<path>`. The modelled core is in `src/main.rs`:

- the chain registry (`CHAINS`): 25 chain names with their numeric ids;
- the dispatcher (`get_code`): it resolves the chain name and routes the id.
  534352 goes to Scroll, 4200 to Merlin and 200901 to Bitlayer. Every other
  id goes to Tenderly, Mode's 34443 included;
- the brace un-doubling applied to Scroll's `SourceCode` (`{{`→`{`, then `}}`→`}`);
- the five adapters (`get_code_from_scroll`, `_merlin`, `_bitlayer`, `_mode`,
  `_tenderly`). Each one turns a JSON reply into `save_code` calls;
- the location formula of `save_code` and the batch loop of `main`.

Layout, one module per file:

| file | module | what |
|---|---|---|
| wrappers.dfy | Wrappers | `Option` with Rust's `unwrap_or` |
| assoc.dfy | Assoc | lookup in a key/value sequence where a later entry shadows an earlier one |
| json.dfy | Json | serde_json's `Value`, `v[key]`, `as_str`, `as_array`, `as_object`, `as_i64`, `==` |
| braces.dfy | Braces | `str::replace` and the un-doubling |
| chains.dfy | Chains | the registry table, `CHAINS.get`, the map construction |
| runs.dfy | Runs | errors, outcomes, writes, and the fail-fast sequencing of `?` |
| output.dfy | Output | the sink class (`save_code`) and last-write-wins lemmas |
| adapters.dfy | Adapters | the five adapters, each a method proved against a run function |
| dispatch.dfy | Dispatch | `get_code`, the batch loop, routing and location lemmas |

How the model is built:

- The file tree is a `Sink` object. Its field `files` maps a location
  (base, chain, path) to content.
- Every adapter, `get_code` and the batch loop is a method over the sink.
  Each one is proved against a function that returns a `Run`: the writes it
  performs, in order, and how it ends (`Done`, `Failed(error)`, or
  `Panicked(field)` for an `unwrap` on a missing field). The method's
  postcondition is `sink.files == Saved(old(sink.files), basepath, run.writes)`
  together with `r == run.outcome`.
- The lemmas state what these runs promise.
- The HTTP reply is a parameter `api: Request -> Option<Json>`, where None
  means the request or the body failed. Because `api` is a function, a
  request repeated within one batch is assumed to get the same reply.
  `serde_json::from_str` is a parameter `parse: string -> Option<Json>`.

Each method's run function is defined as follows:

- `Adapters.GatedRun`, with `GatedDecode` and the per-item `ItemStep`, covers
  the three status-gated explorers (src/main.rs:47-72, 76-99 and 103-126;
  the item loop is lines 54-66).
- `Adapters.ModeRun`, with `ModeDecode`, covers Mode (src/main.rs:130-149).
- `Adapters.TenderlyRun`, with `TenderlyDecode` and the per-entry
  `InfoStep`, covers Tenderly (src/main.rs:152-166).
- `Dispatch.CodeRun` covers `get_code` (src/main.rs:170-183).
- `Dispatch.BatchRun`, with the per-record `RecordStep`, covers the batch
  loop (src/main.rs:246-253).

## Model

| member | source | states |
|---|---|---|
| Assoc.Get | src/main.rs:171 | the value of the last entry with the key; None exactly when no entry has the key |
| Assoc.FromEntries | src/main.rs:14-42 | inserting entries one by one gives the map whose lookups equal the last-entry lookup, with one key per entry when keys are distinct |
| Json.Index | src/main.rs:52 | `v[key]` is the member's value, and Null when `v` is not an object or lacks the key |
| Json.AsStr | src/main.rs:63 | `as_str` is Some exactly for JSON strings, with their text |
| Json.StrOr | src/main.rs:63 | `as_str().unwrap_or(d)` is the string's text, or `d` for every other kind of value |
| Json.AsArray | src/main.rs:53 | `as_array` is Some exactly for arrays, with their elements |
| Json.AsObject | src/main.rs:60 | `as_object` is Some exactly for objects, with their members |
| Json.EqStr | src/main.rs:52 | `v == "1"` holds exactly when `v` is the JSON string "1"; a number never matches |
| Json.EqInt | src/main.rs:109 | `v == 1` holds exactly when `v` is the integer 1 (in the i64 range); a float or a string never matches |
| Json.AsI64 | src/main.rs:109 | `as_i64` is Some only for an integer in the i64 range; floats never match |
| Braces.ReplaceAll | src/main.rs:57-58 | `str::replace` with a replacement no longer than the pattern never lengthens the text |
| Braces.Unbrace | src/main.rs:55-58 | the un-doubled text is never longer than the input |
| Braces.UnbraceKeepsNonBraces | src/main.rs:55-58 | every character that is not a brace is kept, in order |
| Braces.UnbraceUnchanged | src/main.rs:55-58 | a text with no `{{` and no `}}` is returned unchanged |
| Braces.UnbraceWrapped | src/main.rs:55-58 | `{{` + x + `}}` becomes `{` + x + `}` when x has no `{{` and no `}}` |
| Braces.UnbraceNestedClose | src/main.rs:55-58 | `{{` + y + `}}}}` becomes `{` + y + `}}`, one closing brace short of stripping one layer |
| Chains.Resolve | src/main.rs:171 | `CHAINS.get(name)` is Some exactly for a listed name, and the pair is in the table |
| Chains.TableDistinct | src/main.rs:14-42 | the registry has 25 entries; names and ids are pairwise distinct |
| Chains.ResolveListed | src/main.rs:16-40 | every listed name resolves to the id inserted with it |
| Chains.ResolveSpecialIds | src/main.rs:36-40 | the ids 534352, 4200, 200901 and 34443 belong to "scroll", "merlin", "bitlayer" and "mode" only |
| Chains.BuildChains | src/main.rs:14-42 | the successive inserts give a 25-key map that agrees with `Resolve` on every name |
| Runs.Error.Message | src/main.rs:53 | each error the core raises has its own message (lines 53, 135, 158, 171, 248), and each message identifies its error |
| Runs.SequenceAllDone | src/main.rs:54-66 | steps that all finish give all their writes in order and finish |
| Runs.SequenceStopped | src/main.rs:59 | once a prefix of steps has failed, later steps change nothing |
| Runs.SequenceFirstStop | src/main.rs:59 | the first failing step ends the run after the writes of the steps before it and its own |
| Runs.SequenceUnder | src/main.rs:64 | a sequence of steps writes only where its steps write |
| Runs.FlattenSingles | src/main.rs:159-164 | steps of one write each contribute those writes one per step, in order |
| Output.Sink.SaveCode | src/main.rs:186-192 | `save_code` sets `basepath/chain/path` to the data and leaves every other file as it was |
| Output.SavedAt | src/main.rs:186-192 | after a sequence of writes a location holds the last content written to it, or its old content if no write targets it |
| Output.SavedKeys | src/main.rs:186-192 | the writes add exactly the locations they target |
| Output.SavedAppend | src/main.rs:186-192 | writing `a` then `b` is writing `a + b` |
| Output.ReplayIdempotent | src/main.rs:186-192 | performing the same writes twice gives the same tree as once |
| Adapters.Explorer.SourceText | src/main.rs:55-58 | the text handed to the parser: `SourceCode` when it is a string, else "" on Scroll and "Error serde_json" on Merlin and Bitlayer (lines 85-86, 112-113); Scroll's text is never longer and keeps every non-brace character in order |
| Adapters.SaveSources | src/main.rs:60-65 | the `sources` loop leaves the tree as `Saved` of one write per member, at `address/p`, in member order |
| Adapters.SaveItems | src/main.rs:54-67 | the `result` loop performs each item's writes in order and stops at the first source text that does not parse |
| Adapters.FetchGated | src/main.rs:51-71 | the status-gated adapters' body: a failed fetch is an error; a failed status writes nothing; a non-array `result` is an error; otherwise the item loop runs |
| Adapters.GetCodeFromScroll | src/main.rs:47-72 | the Scroll adapter equals its run: status string "1", un-doubled `SourceCode` or "", label "scroll" |
| Adapters.GetCodeFromMerlin | src/main.rs:76-99 | the Merlin adapter equals its run: status string "1", `SourceCode` or "Error serde_json", label "merlin" |
| Adapters.GetCodeFromBitlayer | src/main.rs:103-126 | the Bitlayer adapter equals its run: status integer 1, `SourceCode` or "Error serde_json", label "bitlayer" |
| Adapters.GatedStatusGate | src/main.rs:52-71 | Scroll and Merlin continue only on the string "1" and Bitlayer only on the integer 1 (lines 82, 109); otherwise Ok with no write; past the gate a non-array `result` is "Result is not an array" with no write (lines 83, 110) |
| Adapters.SourcesSavedAt | src/main.rs:60-65 | whatever the member order, `address/p` holds key p's `content` or "Error: No content"; paths that are not keys keep their old content |
| Adapters.SourcesSavedKeys | src/main.rs:60-65 | the `sources` loop adds exactly one location per key, `address/p` |
| Adapters.JoinInjective | src/main.rs:62 | `address/p` and `address/q` coincide only when p and q do |
| Adapters.GatedWritesUnder | src/main.rs:62-64 | the status-gated adapters write only under their fixed label and `address/` |
| Adapters.GatedFirstDecodeError | src/main.rs:54-59 | the first item whose text does not parse ends the adapter with the parse error; the earlier items' files stay written; later items are not read |
| Adapters.ItemWithoutSources | src/main.rs:60 | an item whose parsed document has no `sources` object writes nothing and the loop goes on |
| Adapters.GatedAllParse | src/main.rs:54-66 | when every item parses, the adapter finishes, and its writes are each item's `sources` files (none when there is no object) concatenated in `result` order |
| Adapters.GetCodeFromMode | src/main.rs:130-149 | the Mode adapter equals its run |
| Adapters.ModeDecodeOrder | src/main.rs:134-147 | a missing or non-string `source_code` fails before any write; otherwise the main file comes first, at `address/file_path` or the placeholder path, then one file per `additional_sources` entry in array order, with their placeholders |
| Adapters.ModeMainFileKept | src/main.rs:136-145 | the main file keeps `source_code` unless an additional source names the same path |
| Adapters.ModeWritesUnder | src/main.rs:136-145 | Mode writes only under "mode" and `address/` |
| Adapters.SaveContractInfo | src/main.rs:159-164 | the `contract_info` loop performs one write per entry in order and stops at the first entry whose `path` or `source` is not a string |
| Adapters.GetCodeFromTenderly | src/main.rs:152-166 | the Tenderly adapter equals its run: resolve the chain ("Invalid chain"), fetch by chain id, read `data.contract_info` |
| Adapters.TenderlyNoArray | src/main.rs:156-158 | a `data.contract_info` that is not an array fails with no write |
| Adapters.TenderlyAllStrings | src/main.rs:159-164 | with string fields everywhere, entry i becomes file i at `address/path` with `source`, under the caller's chain name |
| Adapters.TenderlyPanicsAt | src/main.rs:160-161 | the first entry lacking a string `path` (checked first) or `source` panics; only the entries before it are written |
| Adapters.TenderlyWritesUnder | src/main.rs:160-163 | Tenderly writes only under the caller's chain name and `address/` |
| Dispatch.Route | src/main.rs:173-181 | no id is routed to Mode; 534352 goes to Scroll, 4200 to Merlin and 200901 to Bitlayer, and exactly these ids; every other id goes to Tenderly |
| Dispatch.RouteRegistered | src/main.rs:173-181 | a registered name routes to Scroll, Merlin or Bitlayer exactly when it is that name; every other name goes to Tenderly |
| Dispatch.ModeChainGoesToTenderly | src/main.rs:177 | "mode" resolves to 34443, which goes to Tenderly |
| Dispatch.GetCode | src/main.rs:170-183 | `get_code` equals its run: "Invalid chain" for an unknown name, otherwise the routed adapter |
| Dispatch.UnknownChainRejected | src/main.rs:171 | an unknown name fails with "Invalid chain" and no write, whatever the API and parser |
| Dispatch.WritesUnderChainAndAddress | src/main.rs:187 | every file `get_code` writes lands at `basepath/chain/address/...` |
| Dispatch.RunBatch | src/main.rs:246-254 | the batch loop equals the record-by-record run; a record without two columns is "Invalid CSV file" |
| Dispatch.BatchStopsAtFirstFailure | src/main.rs:246-253 | the first failing record ends the batch with its outcome; later records are never fetched |
| Dispatch.BatchInRecordOrder | src/main.rs:246-253 | when all records finish, the final tree is the previous records' tree with the last record's writes applied after it |

## Left out

- HTTP requests, URL formatting and API keys (`reqwest::get`, `.json()`)
  are left out. The reply is the `api` parameter; None stands for a
  transport or body error. Error texts from reqwest and serde are not
  modelled.
- `serde_json::from_str` is the uninterpreted `parse` parameter. The
  fallback texts `""` (Scroll) and `"Error serde_json"` (Merlin, Bitlayer)
  are passed to it like any other text.
- Floating-point JSON numbers are kept abstract. serde's
  `arbitrary_precision` feature is not modelled.
- The iteration order of a `sources` object depends on serde_json's map
  feature. Members are a sequence in the model, and the properties about
  them (`SourcesSavedAt`, `SourcesSavedKeys`) do not depend on that order.
- `fs::create_dir_all` and `fs::write` are left out, and so are their
  failures: `save_code` always succeeds here. `Path::join` normalisation is
  left out too: a location is the triple (base, chain, path).
- The `println!` confirmations and the "status error" messages are left out.
- Argument parsing with clap, the `--list` printing and single-job mode are
  plumbing. Single-job mode is one `GetCode` call.
- Reading the CSV file is left out. `RunBatch` takes the records the reader
  yields. The reader's default configuration consumes the file's first line
  as a header. Its own errors (`result?`) are left out.
- The 200 ms sleep between jobs and the async runtime are left out: they are
  timing only.
- The network test in `mod tests` is not modelled.
- Braces.ReplaceAll: requires a non-empty pattern. Rust's `replace("")`
  behaviour is not modelled, because the source only replaces `{{` and `}}`.
- Adapters.GetCodeFromTenderly: an `unwrap` panic is modelled as a
  `Panicked` outcome, not as a precondition. The run stops there, and the
  files written before the panic stay written.

## Behaviour worth knowing

- The tool has no single-brace-stripped variant and no mixed adapter. It has
  no `<ContractName>.sol` fallback for flat sources, and it does not skip an
  empty `SourceCode`. Such a text goes to the parser like any other.
- Mode has an adapter, but its arm in `get_code` is commented out. 34443
  therefore goes to Tenderly, and the Mode adapter is unreachable
  (`Dispatch.Route`, `Dispatch.ModeChainGoesToTenderly`).
- Only Scroll, Merlin and Bitlayer check a status flag. Bitlayer compares it
  with the number 1; a string "1" fails there.
- Missing fields are not always harmless. Mode fails on a missing
  `source_code`, and Tenderly panics on a missing `path` or `source`.
- Un-doubling is lossy for nested objects. A multi-file body such as
  `{{"sources":{"A.sol":{"content":"X"}}}}` also has its inner `}}}}`
  halved. The result is `{"sources":{"A.sol":{"content":"X"}}`: three opening
  braces and two closing ones, which the parser rejects as JSON.
  `Braces.UnbraceNestedClose` proves this for every such body (here
  y = `"sources":{"A.sol":{"content":"X"`).
