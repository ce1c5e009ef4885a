/** The chain registry: the fixed table of supported chain names and their numeric ids. */
module Chains {
  import opened Wrappers
  import Assoc

  /** The registry's entries, in the order the table inserts them. */
  const Table: seq<(string, nat)> := [
    ("eth", 1),
    ("bsc", 56),
    ("ftm", 250),
    ("mumbai", 80001),
    ("pg", 137),
    ("avax", 43114),
    ("rinkeby", 4),
    ("goerli", 5),
    ("arb", 42161),
    ("op", 10),
    ("sepolia", 11155111),
    ("base", 8453),
    ("boba-ethereum", 288),
    ("boba-bnb", 56288),
    ("boba-avax", 43288),
    ("moonbeam", 1284),
    ("moonriver", 1285),
    ("cro", 25),
    ("rsk", 30),
    ("zora", 7777777),
    ("merlin", 4200),
    ("pg-amoy", 80002),
    ("bitlayer", 200901),
    ("mode", 34443),
    ("scroll", 534352)
  ]

  const ScrollId: nat := 534352
  const MerlinId: nat := 4200
  const BitlayerId: nat := 200901
  const ModeId: nat := 34443

  predicate Registered(name: string) {
    exists i :: 0 <= i < |Table| && Table[i].0 == name
  }

  /** `CHAINS.get(name)`. */
  function Resolve(name: string): (r: Option<nat>)
    ensures r.Some? <==> Registered(name)
    ensures r.Some? ==> (name, r.value) in Table
  {
    Assoc.Get(Table, name)
  }

  /** The table has 25 entries, and no name and no id appears twice. */
  lemma TableDistinct()
    ensures |Table| == 25
    ensures forall i, j :: 0 <= i < j < |Table| ==> Table[i].0 != Table[j].0
    ensures forall i, j :: 0 <= i < j < |Table| ==> Table[i].1 != Table[j].1
  {
  }

  /** Every registered name resolves to the id listed with it. */
  lemma ResolveListed(i: nat)
    requires i < |Table|
    ensures Resolve(Table[i].0) == Some(Table[i].1)
  {
    TableDistinct();
    Assoc.GetDistinct(Table, i);
  }

  /** The ids the dispatcher singles out belong to exactly these names. */
  lemma ResolveSpecialIds(name: string)
    ensures Resolve(name) == Some(ScrollId) <==> name == "scroll"
    ensures Resolve(name) == Some(MerlinId) <==> name == "merlin"
    ensures Resolve(name) == Some(BitlayerId) <==> name == "bitlayer"
    ensures Resolve(name) == Some(ModeId) <==> name == "mode"
  {
    TableDistinct();
    ResolveListed(24);
    ResolveListed(20);
    ResolveListed(22);
    ResolveListed(23);
    var r := Resolve(name);
    if r.Some? {
      var k :| 0 <= k < |Table| && Table[k] == (name, r.value);
    }
  }

  /**
   * Builds the registry map by inserting the table's entries one after the
   * other, as the lazily initialised `CHAINS` map is built.
   */
  method BuildChains() returns (m: map<string, nat>)
    ensures |m| == 25
    ensures forall name :: Assoc.MapGet(m, name) == Resolve(name)
    ensures forall i :: 0 <= i < |Table| ==> Table[i].0 in m && m[Table[i].0] == Table[i].1
  {
    TableDistinct();
    m := Assoc.FromEntries(Table);
    forall k | 0 <= k < |Table|
      ensures Table[k].0 in m && m[Table[k].0] == Table[k].1
    {
      ResolveListed(k);
      assert Assoc.MapGet(m, Table[k].0) == Resolve(Table[k].0);
    }
  }
}
