/**
 The document chunker: line spans by heading, paragraph or Python symbol, each cut greedily into
 chunks of bounded length.
 */
module Chunking {
  import opened Text
  import opened Wrappers

  /** An inclusive range of one-based line numbers. */
  datatype Span = Span(lineStart: int, lineEnd: int, symbol: Option<string>)

  /** A statement of a parsed Python module; only definitions matter to the chunker. */
  datatype PyNode =
    | Def(isClass: bool, name: string, line: nat, endLine: nat, decorators: seq<nat>, body: seq<PyNode>)
    | OtherStatement

  /** The Python parser's answer for a document. */
  datatype Syntax = SyntaxError | Module(body: seq<PyNode>)

  datatype Language = Python(syntax: Syntax) | OtherLanguage

  datatype Document = Document(id: string, markdown: string, language: Language)

  datatype Chunk = Chunk(documentId: string, text: string, lineStart: int, lineEnd: int, symbol: Option<string>)

  // ---------------------------------------------------------------------------------------------
  // The greedy cut
  // ---------------------------------------------------------------------------------------------

  /**
   What the inner loop lets into one chunk: a joined length within the limit, any single line, and
   an empty line followed by any line, because the size test is skipped while no character has been
   counted.
   */
  predicate Fits(lines: seq<string>, max: nat, a: nat, b: nat)
    requires a < b <= |lines|
  {
    || Width(lines, a, b) <= max
    || b == a + 1
    || (b == a + 2 && lines[a] == "")
  }

  /** The largest end that fits, searched upwards from an end that does. */
  function NextCut(lines: seq<string>, max: nat, a: nat, b: nat): (end: nat)
    requires a < b <= |lines|
    ensures b <= end <= |lines|
    decreases |lines| - b
  {
    if b < |lines| && Fits(lines, max, a, b + 1) then NextCut(lines, max, a, b + 1) else b
  }

  /** The ends of the greedy pieces of `lines[a..]`. */
  function GreedyEnds(lines: seq<string>, max: nat, a: nat): (ends: seq<nat>)
    requires a <= |lines|
    decreases |lines| - a
  {
    if a == |lines| then []
    else
      var end := NextCut(lines, max, a, a + 1);
      [end] + GreedyEnds(lines, max, end)
  }

  /** The chunk of `lines[a..b]` in a span that starts at `span.lineStart`. */
  function Piece(id: string, lines: seq<string>, span: Span, a: nat, b: nat): Chunk
    requires a < b <= |lines|
  {
    Chunk(id, Join(lines[a..b]), span.lineStart + a, span.lineStart + b - 1, span.symbol)
  }

  /** `ends` cuts `lines[a..]` into contiguous non-empty pieces. */
  predicate Cuts(lines: seq<string>, a: nat, ends: seq<nat>)
    decreases |ends|
  {
    if ends == [] then a == |lines|
    else a < ends[0] <= |lines| && Cuts(lines, ends[0], ends[1..])
  }

  /** A cut whose pieces all respect the limit. */
  predicate BoundedCuts(lines: seq<string>, max: nat, a: nat, ends: seq<nat>)
    requires Cuts(lines, a, ends)
    decreases |ends|
  {
    ends == [] || (Width(lines, a, ends[0]) <= max && BoundedCuts(lines, max, ends[0], ends[1..]))
  }

  function Pieces(id: string, lines: seq<string>, span: Span, a: nat, ends: seq<nat>): seq<Chunk>
    requires Cuts(lines, a, ends)
    decreases |ends|
  {
    if ends == [] then [] else [Piece(id, lines, span, a, ends[0])] + Pieces(id, lines, span, ends[0], ends[1..])
  }

  lemma {:induction false} GreedyCuts(lines: seq<string>, max: nat, a: nat)
    requires a <= |lines|
    ensures Cuts(lines, a, GreedyEnds(lines, max, a))
    decreases |lines| - a
  {
    if a < |lines| {
      GreedyCuts(lines, max, NextCut(lines, max, a, a + 1));
    }
  }

  /** The chunks of one span's text. */
  function BoundedPieces(id: string, text: string, span: Span, max: nat): seq<Chunk> {
    var lines := SplitLines(text);
    GreedyCuts(lines, max, 0);
    Pieces(id, lines, span, 0, GreedyEnds(lines, max, 0))
  }

  /** Fitting is closed under dropping the last line. */
  lemma FitsShorter(lines: seq<string>, max: nat, a: nat, b: nat, c: nat)
    requires a < b <= c <= |lines| && Fits(lines, max, a, c)
    ensures Fits(lines, max, a, b)
  {
    WidthMonotone(lines, a, a, b, c);
  }

  /** The greedy end is the largest one that fits. */
  lemma {:induction false} NextCutIsLargest(lines: seq<string>, max: nat, a: nat, b: nat)
    requires a < b <= |lines| && Fits(lines, max, a, b)
    ensures var end := NextCut(lines, max, a, b);
      && Fits(lines, max, a, end)
      && forall c :: end < c <= |lines| ==> !Fits(lines, max, a, c)
    decreases |lines| - b
  {
    if b < |lines| {
      if Fits(lines, max, a, b + 1) {
        NextCutIsLargest(lines, max, a, b + 1);
      } else {
        forall c | b < c <= |lines| ensures !Fits(lines, max, a, c) {
          if Fits(lines, max, a, c) {
            FitsShorter(lines, max, a, b + 1, c);
          }
        }
      }
    }
  }

  /** Greedy cutting that starts no earlier than a bounded cut never falls behind it. */
  lemma {:induction false} GreedyStaysAhead(lines: seq<string>, max: nat, from: nat, ends: seq<nat>, a: nat)
    requires from <= a <= |lines|
    requires Cuts(lines, from, ends) && BoundedCuts(lines, max, from, ends)
    ensures |GreedyEnds(lines, max, a)| <= |ends|
    decreases |ends|
  {
    if a < |lines| {
      if ends[0] <= a {
        GreedyStaysAhead(lines, max, ends[0], ends[1..], a);
      } else {
        WidthMonotone(lines, from, a, ends[0], ends[0]);
        NextCutIsLargest(lines, max, a, a + 1);
        var end := NextCut(lines, max, a, a + 1);
        assert Fits(lines, max, a, ends[0]);
        GreedyStaysAhead(lines, max, ends[0], ends[1..], end);
      }
    }
  }

  /**
   Optimality: no split of the kept lines into contiguous pieces within the limit uses fewer pieces
   than the chunker does.
   */
  lemma GreedyIsOptimal(id: string, lines: seq<string>, span: Span, max: nat, ends: seq<nat>)
    requires AreLines(lines)
    requires Cuts(Kept(lines), 0, ends) && BoundedCuts(Kept(lines), max, 0, ends)
    ensures |BoundedPieces(id, Join(lines), span, max)| <= |ends|
  {
    SplitJoin(lines);
    GreedyStaysAhead(Kept(lines), max, 0, ends, 0);
    GreedyCuts(Kept(lines), max, 0);
    PieceCount(id, Kept(lines), span, 0, GreedyEnds(Kept(lines), max, 0));
  }

  lemma {:induction false} PieceCount(id: string, lines: seq<string>, span: Span, a: nat, ends: seq<nat>)
    requires Cuts(lines, a, ends)
    ensures |Pieces(id, lines, span, a, ends)| == |ends|
    decreases |ends|
  {
    if ends != [] {
      PieceCount(id, lines, span, ends[0], ends[1..]);
    }
  }

  /** How a chunk can exceed the limit: one long line, or an empty line and one line that fills it. */
  predicate Oversized(lines: seq<string>, max: nat, a: nat, b: nat)
    requires a < b <= |lines|
  {
    || (b == a + 1 && |lines[a]| > max)
    || (b == a + 2 && lines[a] == "" && |lines[a + 1]| >= max)
  }

  /** `ends` cuts `lines[a..]` into pieces that exceed the limit exactly when they are `Oversized`. */
  predicate SizedCuts(lines: seq<string>, max: nat, a: nat, ends: seq<nat>)
    requires Cuts(lines, a, ends)
    decreases |ends|
  {
    ends == [] ||
    (&& (|Join(lines[a..ends[0]])| > max <==> Oversized(lines, max, a, ends[0]))
     && SizedCuts(lines, max, ends[0], ends[1..]))
  }

  /** Every chunk is within the limit but for the two oversized shapes. */
  lemma {:induction false} GreedySizes(lines: seq<string>, max: nat, a: nat)
    requires a <= |lines|
    ensures Cuts(lines, a, GreedyEnds(lines, max, a))
    ensures SizedCuts(lines, max, a, GreedyEnds(lines, max, a))
    decreases |lines| - a
  {
    GreedyCuts(lines, max, a);
    if a < |lines| {
      var end := NextCut(lines, max, a, a + 1);
      NextCutIsLargest(lines, max, a, a + 1);
      WidthIsLength(lines, a, end);
      GreedySizes(lines, max, end);
    }
  }

  /** One empty leading line lets a full line through: the limit is 128 and the chunk has 129. */
  lemma EmptyLineDefeatsLimit(line: string, span: Span)
    requires IsLine(line) && |line| == 128
    ensures var chunks := BoundedPieces("d", Join(["", line]), span, 128);
      |chunks| == 1 && |chunks[0].text| == 129
  {
    var lines := ["", line];
    SplitJoin(lines);
    assert Kept(lines) == lines;
    assert Fits(lines, 128, 0, 2);
    assert NextCut(lines, 128, 0, 1) == NextCut(lines, 128, 0, 2) == 2;
    assert GreedyEnds(lines, 128, 2) == [];
    assert GreedyEnds(lines, 128, 0) == [2];
    assert lines[0..2] == lines;
    assert Join(lines) == "" + "\n" + line;
    assert Pieces("d", lines, span, 2, []) == [];
  }

  // ---------------------------------------------------------------------------------------------
  // The loop that cuts a span into bounded pieces
  // ---------------------------------------------------------------------------------------------

  /** An end that fits and cannot be extended is the greedy end. */
  lemma CutIsGreedy(lines: seq<string>, max: nat, a: nat, end: nat, chars: nat)
    requires a < end <= |lines| && max >= 128
    requires Fits(lines, max, a, end) && chars == Width(lines, a, end)
    requires end == |lines| || chars >= max || !Fits(lines, max, a, end + 1)
    ensures NextCut(lines, max, a, a + 1) == end
  {
    NextCutIsLargest(lines, max, a, a + 1);
    var cut := NextCut(lines, max, a, a + 1);
    if cut > end {
      FitsShorter(lines, max, a, end + 1, cut);
    }
  }

  /** The inner loop: how many lines from `offset` go into one chunk. */
  method TakeLines(lines: seq<string>, maxChars: nat, offset: nat) returns (end: nat)
    requires maxChars >= 128 && offset < |lines|
    ensures offset < end <= |lines|
    ensures end == NextCut(lines, maxChars, offset, offset + 1)
  {
    end := offset;
    var chars := 0;
    while end < |lines|
      invariant offset <= end <= |lines|
      invariant chars == Width(lines, offset, end)
      invariant end > offset ==> Fits(lines, maxChars, offset, end)
      decreases |lines| - end
    {
      var added := |lines[end]| + if end > offset then 1 else 0;
      if chars > 0 && chars + added > maxChars {
        assert !Fits(lines, maxChars, offset, end + 1);
        break;
      }
      chars := chars + added;
      end := end + 1;
      if chars >= maxChars {
        break;
      }
    }
    // The loop always takes a line, so a piece without lines needs no case of its own.
    assert end > offset;
    CutIsGreedy(lines, maxChars, offset, end, chars);
  }

  method BoundedChunks(id: string, text: string, span: Span, maxChars: nat) returns (result: seq<Chunk>)
    requires maxChars >= 128
    ensures result == BoundedPieces(id, text, span, maxChars)
  {
    var lines := SplitLines(text);
    result := [];
    var offset := 0;
    GreedyCuts(lines, maxChars, 0);
    while offset < |lines|
      invariant 0 <= offset <= |lines|
      invariant Cuts(lines, offset, GreedyEnds(lines, maxChars, offset))
      invariant BoundedPieces(id, text, span, maxChars)
             == result + Pieces(id, lines, span, offset, GreedyEnds(lines, maxChars, offset))
    {
      var end := TakeLines(lines, maxChars, offset);
      result := result + [Piece(id, lines, span, offset, end)];
      offset := end;
    }
  }

  // ---------------------------------------------------------------------------------------------
  // Spans
  // ---------------------------------------------------------------------------------------------

  /** The length of the run of characters from `i` that are spaces, or number signs. */
  function RunLength(line: string, i: nat, spaces: bool): nat
    requires i <= |line|
    decreases |line| - i
  {
    if i < |line| && (if spaces then IsSpace(line[i]) else line[i] == '#')
    then 1 + RunLength(line, i + 1, spaces)
    else 0
  }

  lemma RunLengthBound(line: string, i: nat, spaces: bool)
    requires i <= |line|
    ensures i + RunLength(line, i, spaces) <= |line|
    decreases |line| - i
  {
  }

  /** A Markdown heading: up to three spaces, one to six number signs, a space. */
  predicate IsHeading(line: string) {
    var i := RunLength(line, 0, true);
    RunLengthBound(line, 0, true);
    var h := RunLength(line, i, false);
    i <= 3 && 1 <= h <= 6 && i + h < |line| && IsSpace(line[i + h])
  }

  /** Line `n`, counted from one, is a heading. */
  predicate HeadingAt(lines: seq<string>, n: int) {
    1 <= n <= |lines| && IsHeading(lines[n - 1])
  }

  /** Line `n` exists and is not blank. */
  predicate TextAt(lines: seq<string>, n: int) {
    1 <= n <= |lines| && !IsBlank(lines[n - 1])
  }

  predicate KeptAt(keep: seq<bool>, n: int) {
    1 <= n <= |keep| && keep[n - 1]
  }

  /** The one-based numbers of the heading lines after the first `k` lines. */
  function HeadingLines(lines: seq<string>, k: nat): seq<int>
    requires k <= |lines|
    decreases |lines| - k
  {
    if k == |lines| then []
    else (if IsHeading(lines[k]) then [k + 1] else []) + HeadingLines(lines, k + 1)
  }

  function SpanStarts(lines: seq<string>): seq<int> {
    var starts := HeadingLines(lines, 0);
    if starts != [] && starts[0] != 1 then [1] + starts else starts
  }

  function HeadingSpans(lines: seq<string>): seq<Span> {
    var starts := SpanStarts(lines);
    seq(|starts|, i requires 0 <= i < |starts| =>
      Span(starts[i], if i + 1 < |starts| then starts[i + 1] - 1 else |lines|, None))
  }

  /** Numbers in increasing order between 1 and `n`. */
  predicate Increasing(starts: seq<int>, n: int) {
    && (forall i :: 0 <= i < |starts| ==> 1 <= starts[i] <= n)
    && (forall i, j :: 0 <= i < j < |starts| ==> starts[i] < starts[j])
  }

  lemma {:induction false} HeadingLinesExact(lines: seq<string>, k: nat)
    requires k <= |lines|
    ensures forall n :: n in HeadingLines(lines, k) <==> k < n && HeadingAt(lines, n)
    decreases |lines| - k
  {
    if k < |lines| {
      HeadingLinesExact(lines, k + 1);
    }
  }

  lemma IncreasingCons(first: int, rest: seq<int>, n: int)
    requires Increasing(rest, n) && 1 <= first <= n && forall m :: m in rest ==> first < m
    ensures Increasing([first] + rest, n)
  {
    assert forall i :: 0 <= i < |rest| ==> rest[i] in rest;
  }

  lemma {:induction false} HeadingLinesSorted(lines: seq<string>, k: nat)
    requires k <= |lines|
    ensures Increasing(HeadingLines(lines, k), |lines|)
    decreases |lines| - k
  {
    if k < |lines| {
      var rest := HeadingLines(lines, k + 1);
      HeadingLinesSorted(lines, k + 1);
      HeadingLinesExact(lines, k + 1);
      if IsHeading(lines[k]) {
        assert HeadingLines(lines, k) == [k + 1] + rest;
        IncreasingCons(k + 1, rest, |lines|);
      } else {
        assert HeadingLines(lines, k) == rest;
      }
    }
  }

  /** Consecutive spans that cover the lines 1 to `n` once each. */
  predicate Partition(spans: seq<Span>, n: int) {
    && (spans != [] ==> spans[0].lineStart == 1 && spans[|spans| - 1].lineEnd == n)
    && (forall i :: 0 <= i < |spans| ==> 1 <= spans[i].lineStart <= spans[i].lineEnd <= n)
    && (forall i :: 0 <= i < |spans| - 1 ==> spans[i].lineEnd + 1 == spans[i + 1].lineStart)
  }

  lemma PrependOne(starts: seq<int>, n: int)
    requires Increasing(starts, n) && starts != [] && starts[0] != 1
    ensures Increasing([1] + starts, n)
  {
  }

  lemma SpanStartsIncrease(lines: seq<string>)
    ensures var starts := SpanStarts(lines);
      && Increasing(starts, |lines|)
      && (starts != [] ==> starts[0] == 1)
      && (forall n :: HeadingAt(lines, n) ==> n in starts)
  {
    HeadingLinesSorted(lines, 0);
    HeadingLinesExact(lines, 0);
    var starts := HeadingLines(lines, 0);
    if starts != [] && starts[0] != 1 {
      PrependOne(starts, |lines|);
    }
  }

  /** Heading spans partition the document, and every heading line starts one. */
  lemma HeadingSpansPartition(lines: seq<string>)
    ensures Partition(HeadingSpans(lines), |lines|)
    ensures forall n :: HeadingAt(lines, n) ==>
      exists i :: 0 <= i < |HeadingSpans(lines)| && HeadingSpans(lines)[i].lineStart == n
  {
    SpanStartsIncrease(lines);
    var starts := SpanStarts(lines);
    var spans := HeadingSpans(lines);
    forall n | HeadingAt(lines, n) ensures exists i :: 0 <= i < |spans| && spans[i].lineStart == n {
      var i :| 0 <= i < |starts| && starts[i] == n;
      assert spans[i].lineStart == n;
    }
  }

  /** In a partition every line lies in a span. */
  lemma {:induction false} PartitionCovers(spans: seq<Span>, n: int, k: nat, line: int)
    requires Partition(spans, n) && k < |spans|
    requires spans[k].lineStart <= line <= n
    ensures Covered(spans, line)
    decreases |spans| - k
  {
    if line <= spans[k].lineEnd {
      assert Covers(spans[k], line);
    } else {
      PartitionCovers(spans, n, k + 1, line);
    }
  }

  predicate Covers(span: Span, line: int) {
    span.lineStart <= line <= span.lineEnd
  }

  predicate Covered(spans: seq<Span>, line: int) {
    exists span :: span in spans && Covers(span, line)
  }

  /** The runs of kept lines from line `k + 1` on, where `start` opens a run still in progress. */
  function Runs(keep: seq<bool>, k: nat, start: Option<int>, symbol: Option<string>): seq<Span>
    requires k <= |keep|
    decreases |keep| - k
  {
    if k == |keep| then
      if start.Some? then [Span(start.value, k, symbol)] else []
    else if keep[k] then
      Runs(keep, k + 1, if start.None? then Some(k + 1) else start, symbol)
    else
      (if start.Some? then [Span(start.value, k, symbol)] else []) + Runs(keep, k + 1, None, symbol)
  }

  /** A span of kept lines that no neighbouring kept line could extend. */
  ghost predicate MaximalRun(keep: seq<bool>, span: Span) {
    && 1 <= span.lineStart <= span.lineEnd <= |keep|
    && (forall n :: Covers(span, n) ==> KeptAt(keep, n))
    && !KeptAt(keep, span.lineStart - 1)
    && !KeptAt(keep, span.lineEnd + 1)
  }

  /** `start` is the state the run-collecting loop can be in after `k` lines. */
  predicate OpenRun(keep: seq<bool>, k: nat, start: Option<int>)
    requires k <= |keep|
  {
    match start
    case None => !KeptAt(keep, k)
    case Some(s) => 1 <= s <= k && !KeptAt(keep, s - 1) && forall n :: s <= n <= k ==> KeptAt(keep, n)
  }

  /** In order, with at least one line between neighbours. */
  predicate Separated(spans: seq<Span>) {
    forall i, j :: 0 <= i < j < |spans| ==> spans[i].lineEnd + 1 < spans[j].lineStart
  }

  /** Where the runs that `Runs` returns may start. */
  function FirstOpen(k: nat, start: Option<int>): int {
    if start.Some? then start.value else k + 1
  }

  /** The collected spans are maximal runs of kept lines, in order. */
  lemma {:induction false} RunsAreMaximal(keep: seq<bool>, k: nat, start: Option<int>, symbol: Option<string>)
    requires k <= |keep| && OpenRun(keep, k, start)
    ensures forall span :: span in Runs(keep, k, start, symbol) ==>
      MaximalRun(keep, span) && FirstOpen(k, start) <= span.lineStart
    ensures Separated(Runs(keep, k, start, symbol))
    decreases |keep| - k
  {
    if k < |keep| {
      if keep[k] {
        RunsAreMaximal(keep, k + 1, if start.None? then Some(k + 1) else start, symbol);
      } else {
        RunsAreMaximal(keep, k + 1, None, symbol);
        var rest := Runs(keep, k + 1, None, symbol);
        assert !KeptAt(keep, k + 1);
        assert forall i :: 0 <= i < |rest| ==> rest[i] in rest;
      }
    }
  }

  /** The collected spans miss no kept line. */
  lemma {:induction false} RunsCover(keep: seq<bool>, k: nat, start: Option<int>, symbol: Option<string>, n: int)
    requires k <= |keep| && OpenRun(keep, k, start)
    requires FirstOpen(k, start) <= n && KeptAt(keep, n)
    ensures Covered(Runs(keep, k, start, symbol), n)
    decreases |keep| - k
  {
    if k == |keep| {
      assert Covers(Span(start.value, k, symbol), n);
    } else if keep[k] {
      RunsCover(keep, k + 1, if start.None? then Some(k + 1) else start, symbol, n);
    } else if n <= k {
      assert Covers(Span(start.value, k, symbol), n);
    } else {
      RunsCover(keep, k + 1, None, symbol, n);
    }
  }

  /** The loop over the lines that collects runs; the paragraph and the module-level spans use it. */
  method CollectRuns(keep: seq<bool>, symbol: Option<string>) returns (spans: seq<Span>)
    ensures spans == Runs(keep, 0, None, symbol)
  {
    spans := [];
    var start: Option<int> := None;
    for k := 0 to |keep|
      invariant Runs(keep, 0, None, symbol) == spans + Runs(keep, k, start, symbol)
    {
      if keep[k] && start.None? {
        start := Some(k + 1);
      }
      if !keep[k] && start.Some? {
        spans := spans + [Span(start.value, k, symbol)];
        start := None;
      }
    }
    if start.Some? {
      spans := spans + [Span(start.value, |keep|, symbol)];
    }
  }

  function NonBlank(lines: seq<string>): (keep: seq<bool>)
  {
    seq(|lines|, i requires 0 <= i < |lines| => !IsBlank(lines[i]))
  }

  // ---------------------------------------------------------------------------------------------
  // Python symbols
  // ---------------------------------------------------------------------------------------------

  function Least(first: nat, rest: seq<nat>): (m: nat)
    ensures m <= first && (m == first || m in rest)
  {
    if rest == [] then first else Least(if rest[0] < first then rest[0] else first, rest[1..])
  }

  function LastLine(line: nat, endLine: nat): nat {
    if endLine == 0 then line else endLine
  }

  /** The spans of the definitions of a body, classes before what they contain. */
  function SymbolSpans(body: seq<PyNode>, prefix: string): seq<Span>
    decreases body
  {
    if body == [] then []
    else
      (match body[0]
       case OtherStatement => []
       case Def(isClass, name, line, endLine, decorators, inner) =>
         var qualified := if prefix != "" then prefix + "." + name else name;
         [Span(Least(line, decorators), LastLine(line, endLine), Some(qualified))]
         + (if isClass then SymbolSpans(inner, qualified) else []))
      + SymbolSpans(body[1..], prefix)
  }

  /** What the parser guarantees: definitions lie within the document. */
  predicate TreeFits(body: seq<PyNode>, n: nat)
    decreases body
  {
    body == [] ||
    (&& (match body[0]
         case OtherStatement => true
         case Def(_, _, line, endLine, decorators, inner) =>
           && 1 <= line <= LastLine(line, endLine) <= n
           && (forall d :: d in decorators ==> 1 <= d)
           && TreeFits(inner, n))
     && TreeFits(body[1..], n))
  }

  predicate InRange(spans: seq<Span>, n: int) {
    forall span :: span in spans ==> 1 <= span.lineStart <= span.lineEnd <= n
  }

  lemma {:induction false} SymbolSpansInRange(body: seq<PyNode>, prefix: string, n: nat)
    requires TreeFits(body, n)
    ensures InRange(SymbolSpans(body, prefix), n)
    decreases body
  {
    if body != [] {
      SymbolSpansInRange(body[1..], prefix, n);
      match body[0]
      case OtherStatement =>
      case Def(isClass, name, line, endLine, decorators, inner) =>
        var qualified := if prefix != "" then prefix + "." + name else name;
        SymbolSpansInRange(inner, qualified, n);
    }
  }

  predicate Before(a: Span, b: Span) {
    a.lineStart < b.lineStart || (a.lineStart == b.lineStart && a.lineEnd <= b.lineEnd)
  }

  /** Stable insertion: `span` goes before the first span that must not precede it. */
  function InsertSpan(span: Span, sorted: seq<Span>): seq<Span> {
    if sorted == [] || Before(span, sorted[0]) then [span] + sorted
    else [sorted[0]] + InsertSpan(span, sorted[1..])
  }

  function SortSpans(spans: seq<Span>): seq<Span> {
    if spans == [] then [] else InsertSpan(spans[0], SortSpans(spans[1..]))
  }

  predicate SortedSpans(spans: seq<Span>) {
    forall i, j :: 0 <= i < j < |spans| ==> Before(spans[i], spans[j])
  }

  lemma {:induction false} InsertSpanSorts(span: Span, sorted: seq<Span>)
    requires SortedSpans(sorted)
    ensures SortedSpans(InsertSpan(span, sorted))
    ensures multiset(InsertSpan(span, sorted)) == multiset(sorted) + multiset{span}
  {
    if sorted != [] && !Before(span, sorted[0]) {
      InsertSpanSorts(span, sorted[1..]);
      assert sorted == [sorted[0]] + sorted[1..];
      var rest := InsertSpan(span, sorted[1..]);
      forall i | 0 <= i < |rest| ensures Before(sorted[0], rest[i]) {
        assert rest[i] in multiset(rest);
        assert rest[i] == span || rest[i] in sorted[1..];
      }
    }
  }

  /** Sorting keeps the spans and orders them by start, then end. */
  lemma {:induction false} SortSpansSorts(spans: seq<Span>)
    ensures SortedSpans(SortSpans(spans))
    ensures multiset(SortSpans(spans)) == multiset(spans)
  {
    if spans != [] {
      SortSpansSorts(spans[1..]);
      InsertSpanSorts(spans[0], SortSpans(spans[1..]));
      assert spans == [spans[0]] + spans[1..];
    }
  }

  /** The non-blank lines outside every definition. */
  function ModuleLines(lines: seq<string>, symbols: seq<Span>): seq<bool> {
    seq(|lines|, i requires 0 <= i < |lines| => !IsBlank(lines[i]) && !Covered(symbols, i + 1))
  }

  function PythonSpans(lines: seq<string>, body: seq<PyNode>): seq<Span> {
    var symbols := SymbolSpans(body, "");
    SortSpans(symbols + Runs(ModuleLines(lines, symbols), 0, None, Some("<module>")))
  }

  // ---------------------------------------------------------------------------------------------
  // Whole documents
  // ---------------------------------------------------------------------------------------------

  function SpansOf(document: Document): seq<Span> {
    var lines := SplitLines(document.markdown);
    match document.language
    case Python(SyntaxError) => if lines != [] then [Span(1, |lines|, None)] else []
    case Python(Module(body)) => PythonSpans(lines, body)
    case OtherLanguage =>
      if HeadingLines(lines, 0) == [] then Runs(NonBlank(lines), 0, None, None) else HeadingSpans(lines)
  }

  predicate DocumentFits(document: Document) {
    document.language.Python? && document.language.syntax.Module? ==>
      TreeFits(document.language.syntax.body, |SplitLines(document.markdown)|)
  }

  /** Every span lies within the document and every non-blank line lies in a span. */
  lemma SpansCoverDocument(document: Document)
    requires DocumentFits(document)
    ensures var lines := SplitLines(document.markdown);
      && InRange(SpansOf(document), |lines|)
      && forall n :: TextAt(lines, n) ==> Covered(SpansOf(document), n)
  {
    var lines := SplitLines(document.markdown);
    match document.language
    case Python(SyntaxError) =>
      forall n | TextAt(lines, n) ensures Covered(SpansOf(document), n) {
        assert Covers(SpansOf(document)[0], n);
      }
    case Python(Module(body)) =>
      PythonSpansCover(lines, body);
    case OtherLanguage =>
      if HeadingLines(lines, 0) == [] {
        var keep := NonBlank(lines);
        RunsAreMaximal(keep, 0, None, None);
        forall n | TextAt(lines, n) ensures Covered(Runs(keep, 0, None, None), n) {
          RunsCover(keep, 0, None, None, n);
        }
      } else {
        HeadingSpansPartition(lines);
        forall n | 1 <= n <= |lines| ensures Covered(HeadingSpans(lines), n) {
          PartitionCovers(HeadingSpans(lines), |lines|, 0, n);
        }
      }
  }

  /** Sorting spans changes neither their range nor the lines they cover. */
  lemma SortingCovers(spans: seq<Span>, n: int)
    requires InRange(spans, n)
    ensures InRange(SortSpans(spans), n)
    ensures forall line :: Covered(spans, line) ==> Covered(SortSpans(spans), line)
  {
    SortSpansSorts(spans);
    assert forall span :: span in SortSpans(spans) <==> span in multiset(SortSpans(spans));
    assert forall span :: span in spans <==> span in multiset(spans);
  }

  lemma PythonSpansCover(lines: seq<string>, body: seq<PyNode>)
    requires TreeFits(body, |lines|)
    ensures InRange(PythonSpans(lines, body), |lines|)
    ensures forall n :: TextAt(lines, n) ==> Covered(PythonSpans(lines, body), n)
  {
    var symbols := SymbolSpans(body, "");
    var keep := ModuleLines(lines, symbols);
    var runs := Runs(keep, 0, None, Some("<module>"));
    SymbolSpansInRange(body, "", |lines|);
    RunsAreMaximal(keep, 0, None, Some("<module>"));
    SortingCovers(symbols + runs, |lines|);
    forall n | TextAt(lines, n) ensures Covered(symbols + runs, n) {
      if !Covered(symbols, n) {
        RunsCover(keep, 0, None, Some("<module>"), n);
      }
    }
  }

  /** The text of a span: its lines joined. */
  function SpanText(lines: seq<string>, span: Span): string
    requires 1 <= span.lineStart <= span.lineEnd <= |lines|
  {
    Join(lines[span.lineStart - 1..span.lineEnd])
  }

  function SpanChunks(id: string, lines: seq<string>, span: Span, max: nat): seq<Chunk>
    requires 1 <= span.lineStart <= span.lineEnd <= |lines|
  {
    var text := SpanText(lines, span);
    if IsBlank(text) then [] else BoundedPieces(id, text, span, max)
  }

  function AllChunks(id: string, lines: seq<string>, spans: seq<Span>, max: nat): seq<Chunk>
    requires InRange(spans, |lines|)
  {
    if spans == [] then []
    else SpanChunks(id, lines, spans[0], max) + AllChunks(id, lines, spans[1..], max)
  }

  function ChunksOf(document: Document, max: nat): seq<Chunk>
    requires DocumentFits(document)
  {
    SpansCoverDocument(document);
    AllChunks(document.id, SplitLines(document.markdown), SpansOf(document), max)
  }

  /** The chunk is exactly the document's lines `lineStart..lineEnd`. */
  predicate Exact(lines: seq<string>, chunk: Chunk) {
    && 1 <= chunk.lineStart <= chunk.lineEnd <= |lines|
    && chunk.text == Join(lines[chunk.lineStart - 1..chunk.lineEnd])
  }

  predicate Holds(chunk: Chunk, line: int) {
    chunk.lineStart <= line <= chunk.lineEnd
  }

  predicate InChunk(chunks: seq<Chunk>, line: int) {
    exists chunk :: chunk in chunks && Holds(chunk, line)
  }

  /** The pieces of a span quote its lines. */
  lemma {:induction false} PiecesAreExact(
      id: string, lines: seq<string>, kept: seq<string>, span: Span, a: nat, ends: seq<nat>)
    requires 1 <= span.lineStart && span.lineStart - 1 + |kept| <= |lines|
    requires forall i :: 0 <= i < |kept| ==> kept[i] == lines[span.lineStart - 1 + i]
    requires Cuts(kept, a, ends)
    ensures forall chunk :: chunk in Pieces(id, kept, span, a, ends) ==> Exact(lines, chunk)
    decreases |ends|
  {
    if ends != [] {
      PiecesAreExact(id, lines, kept, span, ends[0], ends[1..]);
      assert kept[a..ends[0]] == lines[span.lineStart - 1 + a..span.lineStart - 1 + ends[0]];
      assert Exact(lines, Piece(id, kept, span, a, ends[0]));
    }
  }

  /** The pieces of a span hold every kept line from `a` on. */
  lemma {:induction false} PiecesHold(
      id: string, kept: seq<string>, span: Span, a: nat, ends: seq<nat>, n: int)
    requires Cuts(kept, a, ends) && span.lineStart + a <= n < span.lineStart + |kept|
    ensures InChunk(Pieces(id, kept, span, a, ends), n)
    decreases |ends|
  {
    if n < span.lineStart + ends[0] {
      assert Holds(Piece(id, kept, span, a, ends[0]), n);
    } else {
      PiecesHold(id, kept, span, ends[0], ends[1..], n);
    }
  }

  /** The chunks of a span that has text are the pieces of its kept lines. */
  lemma SpanChunksArePieces(id: string, lines: seq<string>, span: Span, max: nat)
    requires AreLines(lines) && 1 <= span.lineStart <= span.lineEnd <= |lines|
    ensures var kept := Kept(lines[span.lineStart - 1..span.lineEnd]);
      && Cuts(kept, 0, GreedyEnds(kept, max, 0))
      && (IsBlank(SpanText(lines, span)) ==> SpanChunks(id, lines, span, max) == [])
      && (!IsBlank(SpanText(lines, span)) ==>
            SpanChunks(id, lines, span, max) == Pieces(id, kept, span, 0, GreedyEnds(kept, max, 0)))
  {
    var part := lines[span.lineStart - 1..span.lineEnd];
    SplitJoin(part);
    GreedyCuts(Kept(part), max, 0);
  }

  lemma SpanChunksAreExact(id: string, lines: seq<string>, span: Span, max: nat)
    requires AreLines(lines) && 1 <= span.lineStart <= span.lineEnd <= |lines|
    ensures forall chunk :: chunk in SpanChunks(id, lines, span, max) ==> Exact(lines, chunk)
  {
    var kept := Kept(lines[span.lineStart - 1..span.lineEnd]);
    SpanChunksArePieces(id, lines, span, max);
    PiecesAreExact(id, lines, kept, span, 0, GreedyEnds(kept, max, 0));
  }

  lemma SpanChunksHold(id: string, lines: seq<string>, span: Span, max: nat, n: int)
    requires AreLines(lines) && 1 <= span.lineStart <= span.lineEnd <= |lines|
    requires Covers(span, n) && TextAt(lines, n)
    ensures InChunk(SpanChunks(id, lines, span, max), n)
  {
    var part := lines[span.lineStart - 1..span.lineEnd];
    assert part[n - span.lineStart] == lines[n - 1];
    JoinNonBlank(part, n - span.lineStart);
    SpanChunksArePieces(id, lines, span, max);
    PiecesHold(id, Kept(part), span, 0, GreedyEnds(Kept(part), max, 0), n);
  }

  lemma {:induction false} AllChunksAreExact(id: string, lines: seq<string>, spans: seq<Span>, max: nat)
    requires AreLines(lines) && InRange(spans, |lines|)
    ensures var chunks := AllChunks(id, lines, spans, max);
      && (forall chunk :: chunk in chunks ==> Exact(lines, chunk))
      && (forall n :: Covered(spans, n) && TextAt(lines, n) ==> InChunk(chunks, n))
  {
    if spans != [] {
      SpanChunksAreExact(id, lines, spans[0], max);
      forall n | Covers(spans[0], n) && TextAt(lines, n) ensures InChunk(SpanChunks(id, lines, spans[0], max), n) {
        SpanChunksHold(id, lines, spans[0], max, n);
      }
      AllChunksAreExact(id, lines, spans[1..], max);
      assert spans == [spans[0]] + spans[1..];
    }
  }

  /** No non-blank line is lost, and every chunk quotes the document exactly. */
  lemma NoLineLost(document: Document, max: nat)
    requires DocumentFits(document)
    ensures var lines := SplitLines(document.markdown);
      var chunks := ChunksOf(document, max);
      && (forall chunk :: chunk in chunks ==> Exact(lines, chunk))
      && (forall n :: TextAt(lines, n) ==> InChunk(chunks, n))
  {
    SpansCoverDocument(document);
    SplitLinesAreLines(document.markdown);
    AllChunksAreExact(document.id, SplitLines(document.markdown), SpansOf(document), max);
  }

  method ComputeSpans(document: Document) returns (spans: seq<Span>)
    ensures spans == SpansOf(document)
  {
    var lines := SplitLines(document.markdown);
    match document.language {
      case Python(SyntaxError) =>
        spans := if lines != [] then [Span(1, |lines|, None)] else [];
      case Python(Module(body)) =>
        var symbols := SymbolSpans(body, "");
        var runs := CollectRuns(ModuleLines(lines, symbols), Some("<module>"));
        spans := SortSpans(symbols + runs);
      case OtherLanguage =>
        if HeadingLines(lines, 0) == [] {
          spans := CollectRuns(NonBlank(lines), None);
        } else {
          spans := HeadingSpans(lines);
        }
    }
  }

  method ChunkSpan(id: string, lines: seq<string>, span: Span, maxChars: nat) returns (chunks: seq<Chunk>)
    requires maxChars >= 128 && 1 <= span.lineStart <= span.lineEnd <= |lines|
    ensures chunks == SpanChunks(id, lines, span, maxChars)
  {
    var text := SpanText(lines, span);
    chunks := [];
    if !IsBlank(text) {
      chunks := BoundedChunks(id, text, span, maxChars);
    }
  }

  lemma AllChunksStep(id: string, lines: seq<string>, spans: seq<Span>, k: nat, max: nat)
    requires k < |spans| && InRange(spans, |lines|)
    ensures AllChunks(id, lines, spans[k..], max)
         == SpanChunks(id, lines, spans[k], max) + AllChunks(id, lines, spans[k + 1..], max)
  {
    assert spans[k..][1..] == spans[k + 1..];
  }

  lemma Regroup(a: seq<Chunk>, b: seq<Chunk>, c: seq<Chunk>)
    ensures a + (b + c) == (a + b) + c
  {
  }

  method ChunkSpans(id: string, lines: seq<string>, spans: seq<Span>, maxChars: nat) returns (chunks: seq<Chunk>)
    requires maxChars >= 128 && InRange(spans, |lines|)
    ensures chunks == AllChunks(id, lines, spans, maxChars)
  {
    chunks := [];
    for k := 0 to |spans|
      invariant AllChunks(id, lines, spans, maxChars) == chunks + AllChunks(id, lines, spans[k..], maxChars)
    {
      var pieces := ChunkSpan(id, lines, spans[k], maxChars);
      AllChunksStep(id, lines, spans, k, maxChars);
      Regroup(chunks, pieces, AllChunks(id, lines, spans[k + 1..], maxChars));
      chunks := chunks + pieces;
    }
  }

  method ChunkDocument(document: Document, maxChars: nat) returns (chunks: seq<Chunk>)
    requires maxChars >= 128 && DocumentFits(document)
    ensures chunks == ChunksOf(document, maxChars)
  {
    var spans := ComputeSpans(document);
    SpansCoverDocument(document);
    chunks := ChunkSpans(document.id, SplitLines(document.markdown), spans, maxChars);
  }
}
