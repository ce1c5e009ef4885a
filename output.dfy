/**
 * The persistence sink: `save_code` writes `content` to `basepath/chain/path`,
 * replacing whatever was there. The file tree is a map from location to
 * content, so a later write to the same location wins.
 */
module Output {
  import opened Wrappers
  import opened Runs
  import Assoc

  datatype Location = Location(base: string, chain: string, path: string)

  /** Where a write lands under the base directory. */
  function Place(base: string, w: Write): Location {
    Location(base, w.chain, w.path)
  }

  /** The writes as (location, content) entries, in order. */
  function Targets(base: string, writes: seq<Write>): (t: seq<(Location, string)>)
    ensures |t| == |writes|
    ensures forall i :: 0 <= i < |writes| ==> t[i] == (Place(base, writes[i]), writes[i].content)
  {
    seq(|writes|, i requires 0 <= i < |writes| => (Place(base, writes[i]), writes[i].content))
  }

  /** The file tree after performing `writes` in order on `files`. */
  function Saved(files: map<Location, string>, base: string, writes: seq<Write>): map<Location, string>
    decreases |writes|
  {
    if |writes| == 0 then files
    else
      var last := writes[|writes| - 1];
      Saved(files, base, writes[..|writes| - 1])[Place(base, last) := last.content]
  }

  /**
   * Last write wins: a location holds the content of the last write aimed at
   * it, and a location no write aims at keeps what it had.
   */
  lemma {:induction false} SavedAt(files: map<Location, string>, base: string, writes: seq<Write>, loc: Location)
    ensures Assoc.MapGet(Saved(files, base, writes), loc)
            == if Assoc.Get(Targets(base, writes), loc).Some?
               then Assoc.Get(Targets(base, writes), loc)
               else Assoc.MapGet(files, loc)
    decreases |writes|
  {
    if |writes| > 0 {
      var n := |writes| - 1;
      assert Targets(base, writes)[..n] == Targets(base, writes[..n]);
      SavedAt(files, base, writes[..n], loc);
    }
  }

  /** Only the locations the writes aim at are added. */
  lemma SavedKeys(files: map<Location, string>, base: string, writes: seq<Write>)
    ensures Saved(files, base, writes).Keys
            == files.Keys + set i | 0 <= i < |writes| :: Place(base, writes[i])
  {
    var after := Saved(files, base, writes);
    var aimed := set i | 0 <= i < |writes| :: Place(base, writes[i]);
    forall loc | loc in after
      ensures loc in files || loc in aimed
    {
      SavedAt(files, base, writes, loc);
      var g := Assoc.Get(Targets(base, writes), loc);
      if g.Some? {
        var k :| 0 <= k < |writes| && Targets(base, writes)[k].0 == loc;
        assert Place(base, writes[k]) == loc;
      }
    }
    forall loc | loc in files || loc in aimed
      ensures loc in after
    {
      SavedAt(files, base, writes, loc);
      if loc in aimed {
        var k :| 0 <= k < |writes| && Place(base, writes[k]) == loc;
        assert Targets(base, writes)[k].0 == loc;
      }
    }
  }

  /** Performing the same writes again leaves the file tree as it is. */
  lemma ReplayIdempotent(files: map<Location, string>, base: string, writes: seq<Write>)
    ensures Saved(Saved(files, base, writes), base, writes) == Saved(files, base, writes)
  {
    var once := Saved(files, base, writes);
    var twice := Saved(once, base, writes);
    forall loc
      ensures Assoc.MapGet(twice, loc) == Assoc.MapGet(once, loc)
    {
      SavedAt(once, base, writes, loc);
      SavedAt(files, base, writes, loc);
    }
    forall loc | loc in twice || loc in once
      ensures loc in twice && loc in once && twice[loc] == once[loc]
    {
      assert Assoc.MapGet(twice, loc) == Assoc.MapGet(once, loc);
    }
  }

  /** Performing `a` then `b` is performing `a + b`. */
  lemma {:induction false} SavedAppend(files: map<Location, string>, base: string, a: seq<Write>, b: seq<Write>)
    ensures Saved(files, base, a + b) == Saved(Saved(files, base, a), base, b)
    decreases |b|
  {
    if |b| == 0 {
      assert a + b == a;
    } else {
      var n := |b| - 1;
      assert (a + b)[..|a + b| - 1] == a + b[..n];
      SavedAppend(files, base, a, b[..n]);
    }
  }

  /** The directory tree the sink writes into. */
  class Sink {
    var files: map<Location, string>

    constructor (initial: map<Location, string>)
      ensures files == initial
    {
      files := initial;
    }

    /** `save_code(basepath, chain, path, data)`: create the file or replace its content. */
    method SaveCode(basepath: string, chain: string, path: string, data: string)
      modifies this
      ensures files == old(files)[Location(basepath, chain, path) := data]
    {
      files := files[Location(basepath, chain, path) := data];
    }
  }
}
