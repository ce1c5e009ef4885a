/**
 * The brace un-doubling applied to a Scroll `SourceCode` string before it is
 * parsed: every `{{` becomes `{`, then every `}}` becomes `}`, each pass being
 * Rust's `str::replace` (left to right, non-overlapping).
 */
module Braces {

  /** `s.replace(pat, rep)` for a non-empty pattern. */
  function ReplaceAll(s: string, pat: string, rep: string): (r: string)
    requires |pat| > 0
    ensures |rep| <= |pat| ==> |r| <= |s|
    decreases |s|
  {
    if |s| < |pat| then s
    else if s[..|pat|] == pat then rep + ReplaceAll(s[|pat|..], pat, rep)
    else [s[0]] + ReplaceAll(s[1..], pat, rep)
  }

  /** `pat` occurs somewhere in `s`. */
  predicate Occurs(s: string, pat: string)
    requires |pat| > 0
    decreases |s|
  {
    |pat| <= |s| && (s[..|pat|] == pat || Occurs(s[1..], pat))
  }

  /** `.replace("{{", "{").replace("}}", "}")`. */
  function Unbrace(code: string): (r: string)
    ensures |r| <= |code|
  {
    ReplaceAll(ReplaceAll(code, "{{", "{"), "}}", "}")
  }

  predicate IsBrace(c: char) {
    c == '{' || c == '}'
  }

  /** The characters of `s` that are not braces, in order. */
  function NonBraces(s: string): (r: string)
    ensures |r| <= |s|
    decreases |s|
  {
    if |s| == 0 then []
    else if IsBrace(s[0]) then NonBraces(s[1..])
    else [s[0]] + NonBraces(s[1..])
  }

  lemma {:induction false} NonBracesAppend(a: string, b: string)
    ensures NonBraces(a + b) == NonBraces(a) + NonBraces(b)
    decreases |a|
  {
    if |a| == 0 {
      assert a + b == b;
    } else {
      assert (a + b)[1..] == a[1..] + b;
      NonBracesAppend(a[1..], b);
    }
  }

  /** Replacing a pattern by text with the same non-brace characters keeps every other character. */
  lemma {:induction false} ReplaceAllKeepsNonBraces(s: string, pat: string, rep: string)
    requires |pat| > 0 && NonBraces(pat) == NonBraces(rep)
    ensures NonBraces(ReplaceAll(s, pat, rep)) == NonBraces(s)
    decreases |s|
  {
    if |s| < |pat| {
    } else if s[..|pat|] == pat {
      ReplaceAllKeepsNonBraces(s[|pat|..], pat, rep);
      NonBracesAppend(rep, ReplaceAll(s[|pat|..], pat, rep));
      assert s == pat + s[|pat|..];
      NonBracesAppend(pat, s[|pat|..]);
    } else {
      ReplaceAllKeepsNonBraces(s[1..], pat, rep);
      NonBracesAppend([s[0]], ReplaceAll(s[1..], pat, rep));
      assert s == [s[0]] + s[1..];
      NonBracesAppend([s[0]], s[1..]);
    }
  }

  /** Un-doubling only ever drops braces: every other character survives, in order. */
  lemma UnbraceKeepsNonBraces(code: string)
    ensures NonBraces(Unbrace(code)) == NonBraces(code)
  {
    assert NonBraces("{{") == [] == NonBraces("{");
    assert NonBraces("}}") == [] == NonBraces("}");
    ReplaceAllKeepsNonBraces(code, "{{", "{");
    ReplaceAllKeepsNonBraces(ReplaceAll(code, "{{", "{"), "}}", "}");
  }

  /** Where the pattern does not occur, `replace` returns its input. */
  lemma {:induction false} ReplaceAllAbsent(s: string, pat: string, rep: string)
    requires |pat| > 0 && !Occurs(s, pat)
    ensures ReplaceAll(s, pat, rep) == s
    decreases |s|
  {
    if |s| >= |pat| {
      ReplaceAllAbsent(s[1..], pat, rep);
      assert s == [s[0]] + s[1..];
    }
  }

  /** No two equal braces stand next to each other: `s` contains neither `{{` nor `}}`. */
  predicate FreeOfDoubles(s: string) {
    forall i :: 0 <= i < |s| - 1 ==> !(IsBrace(s[i]) && s[i + 1] == s[i])
  }

  lemma {:induction false} FreeOfDoublesHasNoPairs(s: string)
    requires FreeOfDoubles(s)
    ensures !Occurs(s, "{{") && !Occurs(s, "}}")
    decreases |s|
  {
    if |s| >= 2 {
      assert !(IsBrace(s[0]) && s[1] == s[0]);
      assert s[..2] == [s[0], s[1]];
      FreeOfDoublesHasNoPairs(s[1..]);
    }
  }

  /** A string with no `{{` and no `}}` is passed through unchanged. */
  lemma UnbraceUnchanged(code: string)
    requires FreeOfDoubles(code)
    ensures Unbrace(code) == code
  {
    FreeOfDoublesHasNoPairs(code);
    ReplaceAllAbsent(code, "{{", "{");
    ReplaceAllAbsent(code, "}}", "}");
  }

  /** Appending `}}` to a string free of `{{` creates no `{{`. */
  lemma {:induction false} NoOpenPairAfterClosing(x: string)
    requires !Occurs(x, "{{")
    ensures !Occurs(x + "}}", "{{")
    decreases |x|
  {
    var t := x + "}}";
    if |x| == 0 {
      assert t[..2] == "}}" && t[1..] == "}";
    } else {
      assert |x| == 1 ==> t[..2] == [x[0], '}'];
      assert |x| >= 2 ==> t[..2] == x[..2];
      assert t[1..] == x[1..] + "}}";
      NoOpenPairAfterClosing(x[1..]);
    }
  }

  /** The closing pass on `x + "}}"` with `x` free of `}}` leaves `x + "}"`. */
  lemma {:induction false} CloseOnce(x: string)
    requires !Occurs(x, "}}")
    ensures ReplaceAll(x + "}}", "}}", "}") == x + "}"
    decreases |x|
  {
    var t := x + "}}";
    if |x| == 0 {
      assert t[2..] == [];
    } else if |x| == 1 {
      if x == "}" {
        assert t[..2] == "}}" && t[2..] == "}";
      } else {
        assert x == [x[0]] && x[0] != '}';
        assert t[..2] == [x[0], '}'];
        assert t[1..] == "}}" && t[1..][..2] == "}}" && t[1..][2..] == [];
      }
    } else {
      assert t[..2] == x[..2];
      assert t[1..] == x[1..] + "}}";
      CloseOnce(x[1..]);
    }
  }

  /** The pattern at the front is replaced, and the rest is handled after it. */
  lemma ReplaceAllAtFront(rest: string, pat: string, rep: string)
    requires |pat| > 0
    ensures ReplaceAll(pat + rest, pat, rep) == rep + ReplaceAll(rest, pat, rep)
  {
    assert (pat + rest)[..|pat|] == pat && (pat + rest)[|pat|..] == rest;
  }

  /** A front character that cannot start the pattern is kept. */
  lemma ReplaceAllKeepsFront(c: char, rest: string, pat: string, rep: string)
    requires |pat| > 0 && c != pat[0]
    ensures ReplaceAll([c] + rest, pat, rep) == [c] + ReplaceAll(rest, pat, rep)
  {
    var s := [c] + rest;
    assert |s| >= |pat| ==> s[..|pat|][0] == c;
    assert s[1..] == rest;
  }

  /**
   * One layer of doubled braces around a body free of `{{` and `}}` is
   * removed exactly: `{{x}}` becomes `{x}`.
   */
  lemma UnbraceWrapped(x: string)
    requires FreeOfDoubles(x)
    ensures Unbrace("{{" + x + "}}") == "{" + x + "}"
  {
    FreeOfDoublesHasNoPairs(x);
    var body := x + "}}";
    assert "{{" + x + "}}" == "{{" + body;
    ReplaceAllAtFront(body, "{{", "{");
    NoOpenPairAfterClosing(x);
    ReplaceAllAbsent(body, "{{", "{");
    assert ReplaceAll("{{" + body, "{{", "{") == "{" + body;
    ReplaceAllKeepsFront('{', body, "}}", "}");
    CloseOnce(x);
    assert "{" + (x + "}") == "{" + x + "}";
  }

  /** A front that does not start the pattern is kept. */
  lemma ReplaceAllMissAtFront(s: string, pat: string, rep: string)
    requires |pat| > 0 && |s| > 0
    requires |s| >= |pat| ==> s[..|pat|] != pat
    ensures ReplaceAll(s, pat, rep) == [s[0]] + ReplaceAll(s[1..], pat, rep)
  {
    if |s| < |pat| {
      ReplaceAllAbsent(s[1..], pat, rep);
      assert s == [s[0]] + s[1..];
    }
  }

  /**
   * A text free of a two-character pattern, and not ending in the pattern's
   * first character, passes a replacement untouched whatever follows it.
   */
  lemma {:induction false} ReplaceAllSkips(y: string, tail: string, pat: string, rep: string)
    requires |pat| == 2 && !Occurs(y, pat) && (|y| == 0 || y[|y| - 1] != pat[0])
    ensures ReplaceAll(y + tail, pat, rep) == y + ReplaceAll(tail, pat, rep)
    decreases |y|
  {
    if |y| == 0 {
      assert y + tail == tail;
    } else {
      var t := y + tail;
      assert t[0] == y[0] && t[1..] == y[1..] + tail;
      if |y| >= 2 {
        assert t[..2] == y[..2];
      } else if |t| >= 2 {
        assert t[..2][0] == y[0];
      }
      ReplaceAllMissAtFront(t, pat, rep);
      ReplaceAllSkips(y[1..], tail, pat, rep);
      assert y == [y[0]] + y[1..];
    }
  }

  /** The opening pass on `{{` + y + `}}}}`: only the leading pair is merged. */
  lemma OpeningPassNestedClose(y: string)
    requires !Occurs(y, "{{")
    ensures ReplaceAll("{{" + y + "}}}}", "{{", "{") == "{" + y + "}}}}"
  {
    var body := y + "}}}}";
    assert "{{" + y + "}}}}" == "{{" + body;
    ReplaceAllAtFront(body, "{{", "{");
    NoOpenPairAfterClosing(y);
    assert body == (y + "}}") + "}}";
    NoOpenPairAfterClosing(y + "}}");
    ReplaceAllAbsent(body, "{{", "{");
    assert "{" + body == "{" + y + "}}}}";
  }

  lemma FourClosingHalved()
    ensures ReplaceAll("}}}}", "}}", "}") == "}}"
  {
    ReplaceAllAtFront("}}", "}}", "}");
    ReplaceAllAtFront([], "}}", "}");
    assert "}}}}" == "}}" + "}}" && "}}" == "}}" + [];
  }

  /** The closing pass on `{` + y + `}}}}`: the four closing braces become two. */
  lemma ClosingPassNestedClose(y: string)
    requires !Occurs(y, "}}") && (|y| == 0 || y[|y| - 1] != '}')
    ensures ReplaceAll("{" + y + "}}}}", "}}", "}") == "{" + y + "}}"
  {
    var body := y + "}}}}";
    assert "{" + y + "}}}}" == ['{'] + body;
    ReplaceAllKeepsFront('{', body, "}}", "}");
    ReplaceAllSkips(y, "}}}}", "}}", "}");
    FourClosingHalved();
    assert ['{'] + (y + "}}") == "{" + y + "}}";
  }

  /**
   * A run of four closing braces is halved, not shortened by one: when the
   * wrapped body `y` itself ends an object (its text is `y + "}}"`), wrapping
   * it as `{{` + body + `}}` and un-doubling leaves one closing brace fewer
   * than the body needs.
   */
  lemma UnbraceNestedClose(y: string)
    requires FreeOfDoubles(y) && (|y| == 0 || y[|y| - 1] != '}')
    ensures Unbrace("{{" + y + "}}}}") == "{" + y + "}}"
    ensures Unbrace("{{" + y + "}}}}") != "{" + y + "}}}"
  {
    FreeOfDoublesHasNoPairs(y);
    OpeningPassNestedClose(y);
    ClosingPassNestedClose(y);
    assert |"{" + y + "}}"| != |"{" + y + "}}}"|;
  }
}
