/**
 Text as the chunker sees it: lines joined by newlines and split again.  The newline is the only
 line break; a line is a string without one.
 */
module Text {

  /** The characters `str.strip` removes and `\s` matches. */
  predicate IsSpace(c: char) {
    var n := c as int;
    || 0x09 <= n <= 0x0D
    || 0x1C <= n <= 0x20
    || n in {0x85, 0xA0, 0x1680, 0x2028, 0x2029, 0x202F, 0x205F, 0x3000}
    || 0x2000 <= n <= 0x200A
  }

  /** True of a text that `str.strip` empties. */
  predicate IsBlank(s: string) {
    forall i :: 0 <= i < |s| ==> IsSpace(s[i])
  }

  predicate IsLine(s: string) {
    '\n' !in s
  }

  predicate AreLines(lines: seq<string>) {
    forall i :: 0 <= i < |lines| ==> IsLine(lines[i])
  }

  /** `"\n".join(lines)` */
  function Join(lines: seq<string>): string {
    if |lines| == 0 then ""
    else if |lines| == 1 then lines[0]
    else lines[0] + "\n" + Join(lines[1..])
  }

  /** The index of the first line break, or the length of a text that has none. */
  function FirstBreak(s: string): (i: nat)
    ensures i <= |s|
    ensures forall k :: 0 <= k < i ==> s[k] != '\n'
    ensures i < |s| ==> s[i] == '\n'
  {
    if s == "" || s[0] == '\n' then 0 else 1 + FirstBreak(s[1..])
  }

  /** `s.splitlines()`: a final line break ends the last line and starts no new one. */
  function SplitLines(s: string): seq<string>
  {
    if s == "" then []
    else
      var i := FirstBreak(s);
      if i == |s| then [s] else [s[..i]] + SplitLines(s[i + 1..])
  }

  /** Splitting yields lines. */
  lemma {:induction false} SplitLinesAreLines(s: string)
    ensures AreLines(SplitLines(s))
  {
    if s != "" {
      var i := FirstBreak(s);
      if i < |s| {
        SplitLinesAreLines(s[i + 1..]);
      }
    }
  }

  /** The lines that survive a join followed by a split. */
  function Kept(lines: seq<string>): seq<string>
  {
    if lines != [] && lines[|lines| - 1] == "" then lines[..|lines| - 1] else lines
  }

  lemma FirstBreakAt(line: string, rest: string)
    requires IsLine(line)
    ensures FirstBreak(line + "\n" + rest) == |line|
    ensures FirstBreak(line) == |line|
  {
    var s := line + "\n" + rest;
    assert s[|line|] == '\n';
    assert forall k :: 0 <= k < |line| ==> s[k] == line[k];
  }

  lemma SplitCons(line: string, rest: string)
    requires IsLine(line)
    ensures SplitLines(line + "\n" + rest) == [line] + SplitLines(rest)
  {
    var s := line + "\n" + rest;
    FirstBreakAt(line, rest);
    assert s[..|line|] == line;
    assert s[|line| + 1..] == rest;
  }

  /** Joining and splitting loses one trailing empty line and nothing else. */
  lemma {:induction false} SplitJoin(lines: seq<string>)
    requires AreLines(lines)
    ensures SplitLines(Join(lines)) == Kept(lines)
  {
    if |lines| == 1 {
      FirstBreakAt(lines[0], "");
    } else if |lines| > 1 {
      SplitCons(lines[0], Join(lines[1..]));
      SplitJoin(lines[1..]);
      KeptCons(lines);
    }
  }

  lemma KeptCons(lines: seq<string>)
    requires |lines| > 1
    ensures Kept(lines) == [lines[0]] + Kept(lines[1..])
  {
    assert lines[1..][|lines| - 2] == lines[|lines| - 1];
  }

  /** A non-blank line makes the joined text non-blank. */
  lemma {:induction false} JoinNonBlank(lines: seq<string>, k: nat)
    requires k < |lines| && !IsBlank(lines[k])
    ensures !IsBlank(Join(lines))
  {
    if |lines| > 1 {
      var rest := Join(lines[1..]);
      var s := lines[0] + "\n" + rest;
      if k == 0 {
        var i :| 0 <= i < |lines[0]| && !IsSpace(lines[0][i]);
        assert s[i] == lines[0][i];
      } else {
        JoinNonBlank(lines[1..], k - 1);
        var i :| 0 <= i < |rest| && !IsSpace(rest[i]);
        assert s[|lines[0]| + 1 + i] == rest[i];
      }
    }
  }

  /** The length of `lines[a..b]` once joined. */
  function Width(lines: seq<string>, a: nat, b: nat): (w: nat)
    requires b <= |lines|
    decreases b
  {
    if b <= a then 0
    else if b == a + 1 then |lines[a]|
    else Width(lines, a, b - 1) + 1 + |lines[b - 1]|
  }

  lemma {:induction false} JoinSnoc(lines: seq<string>, last: string)
    requires lines != []
    ensures Join(lines + [last]) == Join(lines) + "\n" + last
  {
    var all := lines + [last];
    if |lines| == 1 {
      assert all[1..] == [last];
    } else {
      JoinSnoc(lines[1..], last);
      assert all[1..] == lines[1..] + [last];
      assert lines[0] + "\n" + (Join(lines[1..]) + "\n" + last)
          == (lines[0] + "\n" + Join(lines[1..])) + "\n" + last;
    }
  }

  /** Width is the length of the joined lines. */
  lemma {:induction false} WidthIsLength(lines: seq<string>, a: nat, b: nat)
    requires a <= b <= |lines|
    ensures Width(lines, a, b) == |Join(lines[a..b])|
    decreases b
  {
    if b > a + 1 {
      WidthIsLength(lines, a, b - 1);
      JoinSnoc(lines[a..b - 1], lines[b - 1]);
      assert lines[a..b] == lines[a..b - 1] + [lines[b - 1]];
    }
  }

  /** A piece is no wider than a piece that contains it. */
  lemma {:induction false} WidthMonotone(lines: seq<string>, a: nat, b: nat, c: nat, d: nat)
    requires a <= b <= c <= d <= |lines|
    ensures Width(lines, b, c) <= Width(lines, a, d)
    decreases d
  {
    if c < d {
      WidthMonotone(lines, a, b, c, d - 1);
    } else if a < b < d {
      if b < d - 1 {
        WidthMonotone(lines, a, b, d - 1, d - 1);
      }
    }
  }
}
