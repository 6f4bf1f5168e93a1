/** The line matcher every grep in kgrep shares: number the lines from 1 and
    keep those that contain the pattern, either matching case (Java Grep.run,
    Kgrep) or after lowercasing both sides (the Go resource and log searches). */
module LineMatch {
  import opened Text

  /** One matching line: its 1-based number and its unmodified text. */
  datatype Hit = Hit(lineNumber: int, text: string)

  predicate Keeps(line: string, pattern: string, ignoreCase: bool) {
    if ignoreCase then Contains(Lower(line), Lower(pattern)) else Contains(line, pattern)
  }

  /** The matching lines of `lines`, in order, each with its 1-based number. */
  function Hits(lines: seq<string>, pattern: string, ignoreCase: bool): seq<Hit>
    decreases |lines|
  {
    if |lines| == 0 then []
    else
      var n := |lines|;
      var init := Hits(lines[..n - 1], pattern, ignoreCase);
      if Keeps(lines[n - 1], pattern, ignoreCase) then init + [Hit(n, lines[n - 1])] else init
  }

  /** A hit is exactly a numbered line that matches (sound and complete). */
  lemma {:induction false} HitsExactly(lines: seq<string>, pattern: string, ignoreCase: bool)
    ensures forall h :: h in Hits(lines, pattern, ignoreCase) <==>
      1 <= h.lineNumber <= |lines| && h.text == lines[h.lineNumber - 1] && Keeps(h.text, pattern, ignoreCase)
    decreases |lines|
  {
    if |lines| > 0 {
      var n := |lines|;
      HitsExactly(lines[..n - 1], pattern, ignoreCase);
      forall h ensures h in Hits(lines, pattern, ignoreCase) <==>
        1 <= h.lineNumber <= n && h.text == lines[h.lineNumber - 1] && Keeps(h.text, pattern, ignoreCase)
      {
        if 1 <= h.lineNumber < n {
          assert lines[..n - 1][h.lineNumber - 1] == lines[h.lineNumber - 1];
        }
      }
    }
  }

  /** Hits follow the input order: line numbers strictly increase, stay within
      1..|lines|, and there are never more hits than lines. */
  lemma {:induction false} HitsOrdered(lines: seq<string>, pattern: string, ignoreCase: bool)
    ensures var r := Hits(lines, pattern, ignoreCase);
      |r| <= |lines|
      && (forall k :: 0 <= k < |r| ==> 1 <= r[k].lineNumber <= |lines|)
      && (forall i, j :: 0 <= i < j < |r| ==> r[i].lineNumber < r[j].lineNumber)
    decreases |lines|
  {
    if |lines| > 0 {
      HitsOrdered(lines[..|lines| - 1], pattern, ignoreCase);
    }
  }

  /** When every line matches, the hits are all the lines, numbered 1..N. */
  lemma {:induction false} HitsEveryLine(lines: seq<string>, pattern: string, ignoreCase: bool)
    requires forall k :: 0 <= k < |lines| ==> Keeps(lines[k], pattern, ignoreCase)
    ensures |Hits(lines, pattern, ignoreCase)| == |lines|
    ensures forall k :: 0 <= k < |lines| ==> Hits(lines, pattern, ignoreCase)[k] == Hit(k + 1, lines[k])
    decreases |lines|
  {
    if |lines| > 0 {
      var n := |lines|;
      HitsEveryLine(lines[..n - 1], pattern, ignoreCase);
    }
  }

  /** The empty pattern matches every line, in either mode. */
  lemma EmptyPatternKeeps(line: string, ignoreCase: bool)
    ensures Keeps(line, "", ignoreCase)
  {
    ContainsEmpty(line);
    ContainsEmpty(Lower(line));
  }

  /** With the empty pattern every line is a hit. */
  lemma EmptyPatternHitsAll(lines: seq<string>, ignoreCase: bool)
    ensures |Hits(lines, "", ignoreCase)| == |lines|
    ensures forall k :: 0 <= k < |lines| ==> Hits(lines, "", ignoreCase)[k] == Hit(k + 1, lines[k])
  {
    forall k | 0 <= k < |lines| ensures Keeps(lines[k], "", ignoreCase) {
      EmptyPatternKeeps(lines[k], ignoreCase);
    }
    HitsEveryLine(lines, "", ignoreCase);
  }

  /** Extending the scanned prefix by one line extends the hits by at most that line. */
  lemma HitsStep(lines: seq<string>, i: nat, pattern: string, ignoreCase: bool)
    requires i < |lines|
    ensures Hits(lines[..i + 1], pattern, ignoreCase) ==
      Hits(lines[..i], pattern, ignoreCase)
      + (if Keeps(lines[i], pattern, ignoreCase) then [Hit(i + 1, lines[i])] else [])
  {
    assert lines[..i + 1][..i] == lines[..i];
  }
}
