/** Java Grep.run. The class exists twice, in java/src/.../grep/Grep.java and
    in src/main/java/.../Grep.java, with the same body; both are this method.
    Its Occurrence record (lineNumber, text) is LineMatch.Hit. */
module JavaGrep {
  import opened Text
  import opened LineMatch

  /** Keep the lines that contain `pattern` (matching case), numbered from 1. */
  method Run(lines: seq<string>, pattern: string) returns (list: seq<Hit>)
    ensures list == Hits(lines, pattern, false)
  {
    list := [];
    var i := 0;
    while i < |lines|
      invariant 0 <= i <= |lines|
      invariant list == Hits(lines[..i], pattern, false)
    {
      var line := lines[i];
      HitsStep(lines, i, pattern, false);
      if Contains(line, pattern) {
        list := list + [Hit(i + 1, line)];
      }
      i := i + 1;
    }
    assert lines[..|lines|] == lines;
  }
}
