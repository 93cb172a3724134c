/** The bounded repository walk: which files are kept, which entries are skipped, and why. */
module RepositoryWalk {
  import opened Wrappers

  datatype Limits = Limits(maxFileBytes: nat, maxIndexBytes: nat, maxFiles: nat) {
    /** What the constructor accepts. */
    predicate Positive() {
      0 < maxFileBytes && 0 < maxIndexBytes && 0 < maxFiles
    }
  }

  /** What the file system says about a subdirectory. */
  datatype DirectoryFacts = Enter | Refuse(reason: string)

  /**
   What the file system says about a file: whether its name is denied, its resolved size unless it
   is unreadable or escapes, and whether its content is binary unless it cannot be read.
   */
  datatype FileFacts = FileFacts(path: string, denial: Option<string>, size: Option<nat>, binary: Option<bool>)

  /** A directory, with its children in name order. */
  datatype Tree = Directory(children: seq<Child>, files: seq<FileFacts>)

  datatype Child = Child(facts: DirectoryFacts, subtree: Tree)

  datatype KeptFile = KeptFile(path: string, size: nat)

  datatype Report = Report(files: seq<KeptFile>, skipped: map<string, nat>, totalBytes: nat)

  /** What becomes of an entry the walk considers. */
  datatype Disposition = Kept | Skipped(reason: string) | Descended

  datatype Entry = DirectoryEntry(directory: DirectoryFacts) | FileEntry(file: FileFacts)

  const EMPTY: Report := Report([], map[], 0)

  function Dispose(report: Report, entry: Entry, limits: Limits): Disposition {
    match entry
    case DirectoryEntry(Enter) => Descended
    case DirectoryEntry(Refuse(reason)) => Skipped(reason)
    case FileEntry(file) =>
      if file.denial.Some? then Skipped(file.denial.value)
      else if file.size.None? then Skipped("unreadable_or_escape")
      else if file.size.value > limits.maxFileBytes then Skipped("oversized_file")
      else if report.totalBytes + file.size.value > limits.maxIndexBytes then Skipped("max_index_bytes")
      else if file.binary.None? then Skipped("unreadable")
      else if file.binary.value then Skipped("binary")
      else if |report.files| >= limits.maxFiles then Skipped("max_files")
      else Kept
  }

  function Tally(skipped: map<string, nat>, reason: string): nat {
    if reason in skipped then skipped[reason] else 0
  }

  /** The report after one entry. */
  function Consider(report: Report, entry: Entry, limits: Limits): Report {
    match Dispose(report, entry, limits)
    case Descended => report
    case Skipped(reason) => report.(skipped := report.skipped[reason := Tally(report.skipped, reason) + 1])
    case Kept =>
      report.(files := report.files + [KeptFile(entry.file.path, entry.file.size.value)],
              totalBytes := report.totalBytes + entry.file.size.value)
  }

  function ConsiderAll(report: Report, entries: seq<Entry>, limits: Limits): Report
    decreases |entries|
  {
    if entries == [] then report else ConsiderAll(Consider(report, entries[0], limits), entries[1..], limits)
  }

  function Dispositions(report: Report, entries: seq<Entry>, limits: Limits): seq<Disposition>
    decreases |entries|
  {
    if entries == [] then []
    else
      [Dispose(report, entries[0], limits)] + Dispositions(Consider(report, entries[0], limits), entries[1..], limits)
  }

  function ChildEntries(children: seq<Child>): seq<Entry> {
    seq(|children|, i requires 0 <= i < |children| => DirectoryEntry(children[i].facts))
  }

  function FileEntries(files: seq<FileFacts>): seq<Entry> {
    seq(|files|, i requires 0 <= i < |files| => FileEntry(files[i]))
  }

  /** Every entry of a tree in the order of a top-down walk that prunes refused directories. */
  function Entries(tree: Tree): seq<Entry>
    decreases tree
  {
    ChildEntries(tree.children) + FileEntries(tree.files) + SubtreeEntries(tree.children)
  }

  function SubtreeEntries(children: seq<Child>): seq<Entry>
    decreases children
  {
    if children == [] then []
    else ChildSubtree(children[0]) + SubtreeEntries(children[1..])
  }

  function ChildSubtree(child: Child): seq<Entry>
    decreases child
  {
    if child.facts.Enter? then Entries(child.subtree) else []
  }

  // ---------------------------------------------------------------------------------------------
  // What every walk satisfies
  // ---------------------------------------------------------------------------------------------

  function SizeSum(files: seq<KeptFile>): nat {
    if files == [] then 0 else SizeSum(files[..|files| - 1]) + files[|files| - 1].size
  }

  /** The totals agree with the kept files and respect the limits. */
  predicate WithinLimits(report: Report, limits: Limits) {
    && report.totalBytes == SizeSum(report.files) <= limits.maxIndexBytes
    && |report.files| <= limits.maxFiles
    && forall file :: file in report.files ==> file.size <= limits.maxFileBytes
  }

  lemma {:induction false} WalkStaysWithinLimits(report: Report, entries: seq<Entry>, limits: Limits)
    requires WithinLimits(report, limits)
    ensures WithinLimits(ConsiderAll(report, entries, limits), limits)
    decreases |entries|
  {
    if entries != [] {
      var next := Consider(report, entries[0], limits);
      if Dispose(report, entries[0], limits).Kept? {
        assert next.files[..|next.files| - 1] == report.files;
      }
      WalkStaysWithinLimits(next, entries[1..], limits);
    }
  }

  /** Each considered entry is counted once: kept, skipped under its reason, or descended into. */
  lemma {:induction false} EveryEntryCounted(report: Report, entries: seq<Entry>, limits: Limits)
    ensures var fates := multiset(Dispositions(report, entries, limits));
      var end := ConsiderAll(report, entries, limits);
      && |Dispositions(report, entries, limits)| == |entries|
      && |end.files| == |report.files| + fates[Kept]
      && (forall reason :: Tally(end.skipped, reason) == Tally(report.skipped, reason) + fates[Skipped(reason)])
    decreases |entries|
  {
    if entries != [] {
      var next := Consider(report, entries[0], limits);
      EveryEntryCounted(next, entries[1..], limits);
      var rest := Dispositions(next, entries[1..], limits);
      assert Dispositions(report, entries, limits) == [Dispose(report, entries[0], limits)] + rest;
    }
  }

  /** Totals only grow. */
  lemma {:induction false} WalkGrows(report: Report, entries: seq<Entry>, limits: Limits)
    ensures var end := ConsiderAll(report, entries, limits);
      report.totalBytes <= end.totalBytes && report.files <= end.files
    decreases |entries|
  {
    if entries != [] {
      WalkGrows(Consider(report, entries[0], limits), entries[1..], limits);
    }
  }

  /** A file the limits on single files and on content allow. */
  predicate Eligible(entry: Entry, limits: Limits) {
    && entry.FileEntry? && entry.file.denial.None?
    && entry.file.size.Some? && entry.file.size.value <= limits.maxFileBytes
    && entry.file.binary == Some(false)
  }

  /** Whether the final result still has room for a file. */
  predicate HasRoom(end: Report, size: nat, limits: Limits) {
    end.totalBytes + size <= limits.maxIndexBytes && |end.files| < limits.maxFiles
  }

  /** The walk is maximal: no eligible file it left out could be added to its result. */
  lemma {:induction false} WalkIsMaximal(report: Report, entries: seq<Entry>, limits: Limits, k: nat)
    requires k < |entries| && Eligible(entries[k], limits)
    ensures |Dispositions(report, entries, limits)| == |entries|
    ensures Dispositions(report, entries, limits)[k] != Kept ==>
      !HasRoom(ConsiderAll(report, entries, limits), entries[k].file.size.value, limits)
    decreases |entries|
  {
    EveryEntryCounted(report, entries, limits);
    var next := Consider(report, entries[0], limits);
    if k == 0 {
      WalkGrows(next, entries[1..], limits);
    } else {
      WalkIsMaximal(next, entries[1..], limits, k - 1);
    }
  }

  lemma {:induction false} ConsiderConcat(report: Report, a: seq<Entry>, b: seq<Entry>, limits: Limits)
    ensures ConsiderAll(report, a + b, limits) == ConsiderAll(ConsiderAll(report, a, limits), b, limits)
    decreases |a|
  {
    if a == [] {
      assert a + b == b;
    } else {
      assert (a + b)[1..] == a[1..] + b;
      ConsiderConcat(Consider(report, a[0], limits), a[1..], b, limits);
    }
  }

  // ---------------------------------------------------------------------------------------------
  // The walk over a directory tree and its report
  // ---------------------------------------------------------------------------------------------

  class WalkReport {
    var files: seq<KeptFile>
    var skipped: map<string, nat>
    var totalBytes: nat

    function Value(): Report
      reads this
    {
      Report(files, skipped, totalBytes)
    }

    constructor ()
      ensures Value() == EMPTY
    {
      files, skipped, totalBytes := [], map[], 0;
    }

    method Skip(reason: string)
      modifies this
      ensures Value() == old(Value()).(skipped := old(skipped)[reason := Tally(old(skipped), reason) + 1])
    {
      skipped := skipped[reason := (if reason in skipped then skipped[reason] else 0) + 1];
    }

    method WalkFile(file: FileFacts, limits: Limits)
      modifies this
      ensures Value() == Consider(old(Value()), FileEntry(file), limits)
    {
      if file.denial.Some? {
        Skip(file.denial.value);
        return;
      }
      if file.size.None? {
        Skip("unreadable_or_escape");
        return;
      }
      var size := file.size.value;
      if size > limits.maxFileBytes {
        Skip("oversized_file");
        return;
      }
      if totalBytes + size > limits.maxIndexBytes {
        Skip("max_index_bytes");
        return;
      }
      if file.binary.None? {
        Skip("unreadable");
        return;
      }
      if file.binary.value {
        Skip("binary");
        return;
      }
      if |files| >= limits.maxFiles {
        Skip("max_files");
        return;
      }
      files := files + [KeptFile(file.path, size)];
      totalBytes := totalBytes + size;
    }

    method WalkDirectory(tree: Tree, limits: Limits)
      modifies this
      ensures Value() == ConsiderAll(old(Value()), Entries(tree), limits)
      decreases tree
    {
      ghost var start := Value();
      ghost var dirs, leaves := ChildEntries(tree.children), FileEntries(tree.files);
      for i := 0 to |tree.children|
        invariant Value() == ConsiderAll(start, dirs[..i], limits)
      {
        assert dirs[..i + 1] == dirs[..i] + [dirs[i]];
        ConsiderConcat(start, dirs[..i], [dirs[i]], limits);
        if tree.children[i].facts.Refuse? {
          Skip(tree.children[i].facts.reason);
        }
      }
      assert dirs[..|dirs|] == dirs;
      ghost var middle := Value();
      for i := 0 to |tree.files|
        invariant Value() == ConsiderAll(middle, leaves[..i], limits)
      {
        assert leaves[..i + 1] == leaves[..i] + [leaves[i]];
        ConsiderConcat(middle, leaves[..i], [leaves[i]], limits);
        WalkFile(tree.files[i], limits);
      }
      assert leaves[..|leaves|] == leaves;
      WalkChildren(tree.children, limits);
      ConsiderConcat(start, dirs, leaves, limits);
      ConsiderConcat(start, dirs + leaves, SubtreeEntries(tree.children), limits);
    }

    method WalkChildren(children: seq<Child>, limits: Limits)
      modifies this
      ensures Value() == ConsiderAll(old(Value()), SubtreeEntries(children), limits)
      decreases children
    {
      if children != [] {
        ghost var start := Value();
        WalkChild(children[0], limits);
        WalkChildren(children[1..], limits);
        ConsiderConcat(start, ChildSubtree(children[0]), SubtreeEntries(children[1..]), limits);
      }
    }

    method WalkChild(child: Child, limits: Limits)
      modifies this
      ensures Value() == ConsiderAll(old(Value()), ChildSubtree(child), limits)
      decreases child
    {
      if child.facts.Enter? {
        WalkDirectory(child.subtree, limits);
      }
    }
  }

  /** One walk of a repository from an empty report. */
  method Walk(tree: Tree, limits: Limits) returns (report: WalkReport)
    requires limits.Positive()
    ensures fresh(report)
    ensures report.Value() == ConsiderAll(EMPTY, Entries(tree), limits)
    ensures WithinLimits(report.Value(), limits)
  {
    report := new WalkReport();
    report.WalkDirectory(tree, limits);
    WalkStaysWithinLimits(EMPTY, Entries(tree), limits);
  }
}
