/** The few Python `str` operations the batch helpers rely on, with Python's
    semantics: `replace` (every non-overlapping occurrence, scanning left to
    right), `split`/`join` (its reference definition), and `rstrip`, which
    strips a trailing run of characters drawn from a SET, not a suffix. */
module PyStr {

  /** `pat` occurs in `s` starting at index `i`. */
  predicate OccursAt(s: string, pat: string, i: int) {
    0 <= i && i + |pat| <= |s| && s[i..i + |pat|] == pat
  }

  /** `pat` occurs nowhere in `s`. */
  predicate Free(s: string, pat: string) {
    forall i :: 0 <= i <= |s| - |pat| ==> !OccursAt(s, pat, i)
  }

  /** `sep.join(parts)`. */
  function Join(sep: string, parts: seq<string>): string {
    if |parts| == 0 then ""
    else if |parts| == 1 then parts[0]
    else parts[0] + sep + Join(sep, parts[1..])
  }

  /** `s.split(sep)` for a non-empty separator: the pieces between the
      non-overlapping occurrences of `sep`, found left to right. */
  function Split(s: string, sep: string): (parts: seq<string>)
    requires sep != ""
    ensures |parts| >= 1
    decreases |s|
  {
    if |s| < |sep| then [s]
    else if s[..|sep|] == sep then [""] + Split(s[|sep|..], sep)
    else
      var rest := Split(s[1..], sep);
      [[s[0]] + rest[0]] + rest[1..]
  }

  /** `s.replace(pat, repl)` for a non-empty `pat`: one left-to-right scan. */
  function ReplaceScan(s: string, pat: string, repl: string): string
    requires pat != ""
    decreases |s|
  {
    if |s| < |pat| then s
    else if s[..|pat|] == pat then repl + ReplaceScan(s[|pat|..], pat, repl)
    else [s[0]] + ReplaceScan(s[1..], pat, repl)
  }

  /** `s.replace("", repl)`: Python inserts `repl` before every character and
      once more at the end. */
  function Interleave(s: string, repl: string): string {
    if s == "" then repl else repl + [s[0]] + Interleave(s[1..], repl)
  }

  /** `s.rstrip(chars)`: the longest prefix of `s` whose last character, if
      any, is not one of `chars`; everything cut off is made of `chars`. */
  function RStrip(s: string, chars: string): (r: string)
    ensures |r| <= |s| && r == s[..|r|]
    ensures r == "" || r[|r| - 1] !in chars
    ensures forall k :: |r| <= k < |s| ==> s[k] in chars
    decreases |s|
  {
    if |s| > 0 && s[|s| - 1] in chars then RStrip(s[..|s| - 1], chars) else s
  }

  // ---------------------------------------------------------------------
  // replace is join-of-split, split pieces hold no occurrence, round trip

  lemma {:induction false} JoinConsFirst(sep: string, c: string, parts: seq<string>)
    requires |parts| >= 1
    ensures Join(sep, [c + parts[0]] + parts[1..]) == c + Join(sep, parts)
  {
    var ps := [c + parts[0]] + parts[1..];
    if |parts| > 1 {
      assert ps[1..] == parts[1..];
    }
  }

  /** The left-to-right scan replaces exactly what the split cuts out:
      `s.replace(pat, repl) == repl.join(s.split(pat))`. */
  lemma {:induction false} ScanIsJoinOfSplit(s: string, pat: string, repl: string)
    requires pat != ""
    ensures ReplaceScan(s, pat, repl) == Join(repl, Split(s, pat))
    decreases |s|
  {
    if |s| >= |pat| {
      if s[..|pat|] == pat {
        var tail := s[|pat|..];
        ScanIsJoinOfSplit(tail, pat, repl);
        JoinConsEmpty(repl, Split(tail, pat));
      } else {
        var tail := s[1..];
        ScanIsJoinOfSplit(tail, pat, repl);
        JoinConsFirst(repl, [s[0]], Split(tail, pat));
      }
    }
  }

  /** `s.replace(pat, repl)`: for a non-empty pattern, the pieces of
      `s.split(pat)` joined with `repl`. */
  function Replace(s: string, pat: string, repl: string): (r: string)
    ensures pat != "" ==> r == Join(repl, Split(s, pat))
  {
    if pat == "" then Interleave(s, repl)
    else
      ScanIsJoinOfSplit(s, pat, repl);
      ReplaceScan(s, pat, repl)
  }

  lemma JoinConsEmpty(sep: string, parts: seq<string>)
    requires |parts| >= 1
    ensures Join(sep, [""] + parts) == sep + Join(sep, parts)
  {
    assert ([""] + parts)[1..] == parts;
  }

  /** Joining the pieces of a split with the separator gives the string back. */
  lemma {:induction false} SplitJoinRoundTrip(s: string, sep: string)
    requires sep != ""
    ensures Join(sep, Split(s, sep)) == s
    decreases |s|
  {
    if |s| >= |sep| {
      if s[..|sep|] == sep {
        var tail := s[|sep|..];
        SplitJoinRoundTrip(tail, sep);
        JoinConsEmpty(sep, Split(tail, sep));
        assert s == sep + tail;
      } else {
        var tail := s[1..];
        SplitJoinRoundTrip(tail, sep);
        JoinConsFirst(sep, [s[0]], Split(tail, sep));
        assert s == [s[0]] + tail;
      }
    }
  }

  /** Replacing a pattern by itself changes nothing. */
  lemma ReplaceBySelf(s: string, pat: string)
    ensures Replace(s, pat, pat) == s
  {
    if pat != "" {
      SplitJoinRoundTrip(s, pat);
    } else {
      InterleaveEmpty(s);
    }
  }

  lemma {:induction false} InterleaveEmpty(s: string)
    ensures Interleave(s, "") == s
    decreases |s|
  {
    if s != "" {
      InterleaveEmpty(s[1..]);
      assert s == [s[0]] + s[1..];
    }
  }

  /** The first piece of a split is a prefix of the string. */
  lemma {:induction false} SplitFirstIsPrefix(s: string, sep: string)
    requires sep != ""
    ensures |Split(s, sep)[0]| <= |s| && Split(s, sep)[0] == s[..|Split(s, sep)[0]|]
    decreases |s|
  {
    if |s| >= |sep| && s[..|sep|] != sep {
      var rest := Split(s[1..], sep);
      SplitFirstIsPrefix(s[1..], sep);
      var first := [s[0]] + rest[0];
      assert Split(s, sep)[0] == first;
      assert first == s[..|first|];
    }
  }

  /** Every occurrence is consumed by the split: no piece contains `sep`. */
  lemma {:induction false} SplitPiecesFree(s: string, sep: string)
    requires sep != ""
    ensures forall k :: 0 <= k < |Split(s, sep)| ==> Free(Split(s, sep)[k], sep)
    decreases |s|
  {
    var parts := Split(s, sep);
    if |s| < |sep| {
      forall i ensures !OccursAt(s, sep, i) { }
    } else if s[..|sep|] == sep {
      SplitPiecesFree(s[|sep|..], sep);
      var rest := Split(s[|sep|..], sep);
      assert parts == [""] + rest;
      forall i ensures !OccursAt("", sep, i) { }
      forall k | 1 <= k < |parts| ensures Free(parts[k], sep) {
        assert parts[k] == rest[k - 1];
      }
    } else {
      var rest := Split(s[1..], sep);
      SplitPiecesFree(s[1..], sep);
      SplitFirstIsPrefix(s[1..], sep);
      var first := [s[0]] + rest[0];
      assert parts == [first] + rest[1..];
      assert first == s[..|first|];
      forall i ensures !OccursAt(first, sep, i) {
        if i > 0 && OccursAt(first, sep, i) {
          assert first[i..i + |sep|] == rest[0][i - 1..i - 1 + |sep|];
          assert OccursAt(rest[0], sep, i - 1);
          assert false;
        }
      }
      forall k | 1 <= k < |parts| ensures Free(parts[k], sep) {
        assert parts[k] == rest[k];
      }
    }
  }

  /** A string that does not contain the pattern is left unchanged. */
  lemma {:induction false} ReplaceAbsent(s: string, pat: string, repl: string)
    requires pat != "" && Free(s, pat)
    ensures Replace(s, pat, repl) == s
    decreases |s|
  {
    if |s| >= |pat| {
      assert !OccursAt(s, pat, 0);
      forall i ensures !OccursAt(s[1..], pat, i) {
        if OccursAt(s[1..], pat, i) {
          OccursAtTail(s, pat, i);
        }
      }
      ReplaceAbsent(s[1..], pat, repl);
      assert s == [s[0]] + s[1..];
    }
  }

  /** When `pat` occurs in `p + pat` only at its end, replacing turns
      `p + pat` into `p + repl`: how a metric name `"<label> <col>"` is
      renamed. */
  lemma ReplaceTrailing(p: string, pat: string, repl: string)
    requires pat != ""
    requires forall i :: 0 <= i < |p| ==> !OccursAt(p + pat, pat, i)
    ensures Replace(p + pat, pat, repl) == p + repl
  {
    ScanTrailing(p, pat, repl);
  }

  lemma {:induction false} ScanTrailing(p: string, pat: string, repl: string)
    requires pat != ""
    requires forall i :: 0 <= i < |p| ==> !OccursAt(p + pat, pat, i)
    ensures ReplaceScan(p + pat, pat, repl) == p + repl
    decreases |p|
  {
    var s := p + pat;
    if p == "" {
      assert s == pat && s[..|pat|] == pat && s[|pat|..] == "";
      assert ReplaceScan(s[|pat|..], pat, repl) == "";
    } else {
      assert !OccursAt(s, pat, 0);
      assert ReplaceScan(s, pat, repl) == [s[0]] + ReplaceScan(s[1..], pat, repl);
      assert s[1..] == p[1..] + pat;
      forall i | 0 <= i < |p| - 1 ensures !OccursAt(s[1..], pat, i) {
        if OccursAt(s[1..], pat, i) {
          OccursAtTail(s, pat, i);
        }
      }
      ScanTrailing(p[1..], pat, repl);
      assert p == [p[0]] + p[1..];
    }
  }

  /** An occurrence in the tail of `s` is an occurrence in `s`, one further on. */
  lemma OccursAtTail(s: string, pat: string, i: int)
    requires |s| > 0 && OccursAt(s[1..], pat, i)
    ensures OccursAt(s, pat, i + 1)
  {
    assert s[1..][i..i + |pat|] == s[i + 1..i + 1 + |pat|];
  }

  // ---------------------------------------------------------------------
  // rstrip

  /** The three facts in RStrip's contract determine its result. */
  lemma RStripUnique(s: string, chars: string, r: string)
    requires |r| <= |s| && r == s[..|r|]
    requires r == "" || r[|r| - 1] !in chars
    requires forall k :: |r| <= k < |s| ==> s[k] in chars
    ensures RStrip(s, chars) == r
  {
  }

  /** Stripping twice is stripping once. */
  lemma RStripIdempotent(s: string, chars: string)
    ensures RStrip(RStrip(s, chars), chars) == RStrip(s, chars)
  {
    var r := RStrip(s, chars);
    RStripUnique(r, chars, r);
  }

  /** `(p + " " + col).rstrip(" " + col) == p` exactly when `p` is empty or
      ends in a character outside `" " + col`. */
  lemma StripTrailingColumn(p: string, col: string)
    ensures RStrip(p + " " + col, " " + col) == p <==> (p == "" || p[|p| - 1] !in " " + col)
  {
    var chars := " " + col;
    var s := p + chars;
    assert p + " " + col == s;
    if p == "" || p[|p| - 1] !in chars {
      assert s[..|p|] == p;
      forall k | |p| <= k < |s| ensures s[k] in chars {
        assert s[k] == chars[k - |p|];
      }
      RStripUnique(s, chars, p);
    }
  }

  /** "Mean seeingFwhmEff".rstrip(" seeingFwhmEff") is "Mea", not "Mean":
      the 'n' of "Mean" is itself one of the stripped characters. */
  lemma StripEatsIntoLabel()
    ensures RStrip("Mean seeingFwhmEff", " seeingFwhmEff") == "Mea"
  {
    var s := "Mean seeingFwhmEff";
    var chars := " seeingFwhmEff";
    assert s[..3] == "Mea";
    assert 'a' !in chars;
    forall k | 3 <= k < |s| ensures s[k] in chars {
      assert s[k] in "n seeingFwhmEff";
    }
    RStripUnique(s, chars, "Mea");
  }

  /** "Mean airmass".rstrip(" airmass") is "Mean", as the docstring expects. */
  lemma StripAirmass()
    ensures RStrip("Mean airmass", " airmass") == "Mean"
  {
    assert "Mean" + " " + "airmass" == "Mean airmass";
    assert 'n' !in " airmass";
    StripTrailingColumn("Mean", "airmass");
  }
}
