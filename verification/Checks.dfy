/** The deterministic checks: what each can report, from what its scan of the repository finds. */
module Checks {
  import opened Wrappers
  import opened Contracts

  /** A configured value; `value` is absent unless it is a number. */
  datatype ConfiguredValue = ConfiguredValue(path: string, key: string, matches: bool, value: Option<real>, line: nat)

  datatype CodeMatch = CodeMatch(path: string, line: nat)

  /** The matches found for one material term. */
  datatype TermHits = TermHits(term: string, matches: seq<CodeMatch>)

  datatype TestMatch = TestMatch(path: string, lineStart: nat, lineEnd: nat)

  /**
   What scanning the repository for one specification finds.  `factor` converts the expected value to
   the unit of a key.
   */
  datatype Scan = Scan(
    raises: bool, values: seq<ConfiguredValue>, factor: string -> real, hits: seq<TermHits>, tests: seq<TestMatch>)

  datatype Execution = Execution(result: CheckResult, evidence: seq<Evidence>)

  predicate IsPython(path: string) {
    |path| >= 3 && path[|path| - 3..] == ".py"
  }

  function SourceKind(path: string): EvidenceKind {
    if IsPython(path) then Code else Configuration
  }

  predicate Compare(actual: real, expected: real, operator: Operator) {
    match operator
    case Equals => actual == expected
    case LessOrEqual => actual <= expected
    case GreaterOrEqual => actual >= expected
    case Exists => true
  }

  function Record(
      spec: CheckSpec, run: Id, action: Id, parts: seq<Part>, kind: EvidenceKind, role: Role,
      path: Option<string>, lineStart: Option<nat>, lineEnd: Option<nat>): Evidence
  {
    Evidence(EvidenceId(run, spec.id, parts), run, action, spec.invariantId, kind, role, path, lineStart, lineEnd)
  }

  function Absence(spec: CheckSpec, run: Id, action: Id, detail: Detail): Evidence {
    Record(spec, run, action, [AbsentPart(detail)], Absent, MissingRole, None, None, None)
  }

  function EvidenceIds(evidence: seq<Evidence>): seq<Id> {
    seq(|evidence|, i requires 0 <= i < |evidence| => evidence[i].id)
  }

  function Passing(outcome: Outcome): Option<bool> {
    match outcome
    case Passed => Some(true)
    case FailedCheck => Some(false)
    case NotFound => Some(false)
    case _ => None
  }

  function Report(spec: CheckSpec, run: Id, outcome: Outcome, detail: Detail, evidence: seq<Evidence>): Execution {
    Execution(
      CheckResult(ResultId(run, spec.id), run, spec.invariantId, spec.id, outcome, Passing(outcome), spec.core,
                  detail, EvidenceIds(evidence)),
      evidence)
  }

  // ---------------------------------------------------------------------------------------------
  // Configuration values
  // ---------------------------------------------------------------------------------------------

  /** Whether a matching value meets the threshold, once the threshold is in the key's unit. */
  predicate Satisfies(spec: CheckSpec, scan: Scan, key: string, value: real) {
    spec.expected.Some? && Compare(value, spec.expected.value * scan.factor(key), spec.operator)
  }

  predicate Observed(v: ConfiguredValue) {
    v.matches && v.value.Some?
  }

  function ValueEvidence(spec: CheckSpec, run: Id, action: Id, scan: Scan, v: ConfiguredValue): Evidence
    requires Observed(v)
  {
    Record(spec, run, action, [TextPart(v.path), TextPart(v.key), NumberPart(v.value.value)], SourceKind(v.path),
           if Satisfies(spec, scan, v.key, v.value.value) then Supporting else Contradictory,
           Some(v.path), Some(v.line), Some(v.line))
  }

  function ValuesEvidence(
      spec: CheckSpec, run: Id, action: Id, scan: Scan, values: seq<ConfiguredValue>): seq<Evidence>
  {
    if values == [] then []
    else
      (if Observed(values[0]) then [ValueEvidence(spec, run, action, scan, values[0])] else [])
      + ValuesEvidence(spec, run, action, scan, values[1..])
  }

  predicate AllSatisfy(spec: CheckSpec, scan: Scan, values: seq<ConfiguredValue>) {
    forall v :: v in values && Observed(v) ==> Satisfies(spec, scan, v.key, v.value.value)
  }

  function ConfigurationCheck(spec: CheckSpec, run: Id, action: Id, scan: Scan): Execution {
    var evidence := ValuesEvidence(spec, run, action, scan, scan.values);
    if evidence == [] then
      Report(spec, run, NotFound, NoMatchingValue,
             [Absence(spec, run, action, NoMatchingValue)])
    else if AllSatisfy(spec, scan, scan.values) then
      Report(spec, run, Passed, ThresholdMet, evidence)
    else
      Report(spec, run, FailedCheck, ThresholdContradicted, evidence)
  }

  // ---------------------------------------------------------------------------------------------
  // Static code and test protection
  // ---------------------------------------------------------------------------------------------

  function MatchesEvidence(spec: CheckSpec, run: Id, action: Id, term: string, matches: seq<CodeMatch>): seq<Evidence> {
    seq(|matches|, i requires 0 <= i < |matches| =>
      Record(spec, run, action, [TextPart(term), TextPart(matches[i].path), NumberPart(matches[i].line as real)],
             SourceKind(matches[i].path), Supporting, Some(matches[i].path), Some(matches[i].line),
             Some(matches[i].line)))
  }

  /** At most five matches are cited for a term. */
  function HitsEvidence(spec: CheckSpec, run: Id, action: Id, hits: seq<TermHits>): seq<Evidence> {
    if hits == [] then []
    else
      var matches := hits[0].matches;
      MatchesEvidence(spec, run, action, hits[0].term, if |matches| > 5 then matches[..5] else matches)
      + HitsEvidence(spec, run, action, hits[1..])
  }

  predicate SomeTermMissing(hits: seq<TermHits>) {
    exists h :: h in hits && h.matches == []
  }

  function StaticCodeCheck(spec: CheckSpec, run: Id, action: Id, scan: Scan): Execution {
    var evidence := HitsEvidence(spec, run, action, scan.hits);
    if SomeTermMissing(scan.hits) then
      Report(spec, run, NotFound, TermsMissing,
             evidence + [Absence(spec, run, action, TermsMissing)])
    else
      Report(spec, run, Passed, TermsLocated, evidence)
  }

  function TestsEvidence(spec: CheckSpec, run: Id, action: Id, tests: seq<TestMatch>): seq<Evidence> {
    seq(|tests|, i requires 0 <= i < |tests| =>
      Record(spec, run, action, [TextPart(tests[i].path), NumberPart(tests[i].lineStart as real)], Test, Supporting,
             Some(tests[i].path), Some(tests[i].lineStart), Some(tests[i].lineEnd)))
  }

  function TestProtectionRun(spec: CheckSpec, run: Id, action: Id, scan: Scan): Execution {
    var evidence := TestsEvidence(spec, run, action, scan.tests);
    if scan.tests == [] then
      Report(spec, run, NotFound, NoTestLocated,
             [Absence(spec, run, action, NoTestLocated)])
    else
      Report(spec, run, Passed, TestLocated, evidence)
  }

  // ---------------------------------------------------------------------------------------------
  // Dispatch
  // ---------------------------------------------------------------------------------------------

  function NonAssessable(spec: CheckSpec, run: Id, action: Id, outcome: Outcome): Execution {
    var role := if outcome == UnavailableOutcome then UnavailableRole else MissingRole;
    Report(spec, run, outcome, NotAssessable,
           [Record(spec, run, action, [OutcomePart(outcome)], Absent, role, None, None, None)])
  }

  /** A check whose scan raises, or whose evidence has no proper line range, reports an error. */
  function Guarded(spec: CheckSpec, run: Id, raises: bool, execution: Execution): Execution {
    if raises || exists e :: e in execution.evidence && !LinesOrdered(e.lineStart, e.lineEnd)
    then Report(spec, run, ErrorOutcome, CheckFailedSafely, [])
    else execution
  }

  function RunCheck(spec: CheckSpec, run: Id, action: Id, scan: Scan): Execution {
    if spec.availability != Supported then
      NonAssessable(
        spec, run, action, if spec.availability == Unavailable then UnavailableOutcome else UnsupportedOutcome)
    else
      match spec.checkType
      case ConfigurationValue =>
        Guarded(spec, run, scan.raises || spec.expected.None?, ConfigurationCheck(spec, run, action, scan))
      case StaticCode =>
        Guarded(spec, run, scan.raises || scan.hits == [], StaticCodeCheck(spec, run, action, scan))
      case TestProtectionCheck => Guarded(spec, run, scan.raises, TestProtectionRun(spec, run, action, scan))
      case _ => NonAssessable(spec, run, action, UnsupportedOutcome)
  }

  // ---------------------------------------------------------------------------------------------
  // What every execution satisfies
  // ---------------------------------------------------------------------------------------------

  /** Evidence carries the run, the action and the requirement of its specification, and its name. */
  predicate Owned(spec: CheckSpec, run: Id, action: Id, e: Evidence) {
    && e.id.EvidenceId? && e.id.run == run && e.id.owner == spec.id
    && e.runId == run && e.actionId == action && e.invariantId == spec.invariantId
  }

  predicate Reported(spec: CheckSpec, run: Id, action: Id, x: Execution) {
    && x.result.id == ResultId(run, spec.id) && x.result.runId == run
    && x.result.invariantId == spec.invariantId && x.result.specId == spec.id && x.result.core == spec.core
    && ResultConsistent(x.result)
    && x.result.evidenceIds == EvidenceIds(x.evidence)
    && AllOwned(spec, run, action, x.evidence)
  }

  predicate InOrder(x: Execution) {
    forall e :: e in x.evidence ==> LinesOrdered(e.lineStart, e.lineEnd)
  }

  predicate ShowsImplementation(e: Evidence) {
    e.role == Supporting && (e.kind == Code || e.kind == Configuration)
  }

  predicate ShowsTest(e: Evidence) {
    e.role == Supporting && e.kind == Test
  }

  predicate ShowsGap(e: Evidence) {
    (e.role == MissingRole || e.role == UnavailableRole) && e.kind == Absent
  }

  predicate AllOwned(spec: CheckSpec, run: Id, action: Id, evidence: seq<Evidence>) {
    forall e :: e in evidence ==> Owned(spec, run, action, e)
  }

  predicate AllImplementation(evidence: seq<Evidence>) {
    forall e :: e in evidence ==> ShowsImplementation(e)
  }

  lemma {:induction false} ValuesOwned(
      spec: CheckSpec, run: Id, action: Id, scan: Scan, values: seq<ConfiguredValue>)
    ensures AllOwned(spec, run, action, ValuesEvidence(spec, run, action, scan, values))
  {
    if values != [] {
      ValuesOwned(spec, run, action, scan, values[1..]);
    }
  }

  lemma {:induction false} SatisfiedValuesSupport(
      spec: CheckSpec, run: Id, action: Id, scan: Scan, values: seq<ConfiguredValue>)
    requires AllSatisfy(spec, scan, values)
    ensures AllImplementation(ValuesEvidence(spec, run, action, scan, values))
  {
    if values != [] {
      assert values[0] in values;
      SatisfiedValuesSupport(spec, run, action, scan, values[1..]);
    }
  }

  lemma {:induction false} ValueCited(
      spec: CheckSpec, run: Id, action: Id, scan: Scan, values: seq<ConfiguredValue>, v: ConfiguredValue)
    requires v in values && Observed(v)
    ensures ValueEvidence(spec, run, action, scan, v) in ValuesEvidence(spec, run, action, scan, values)
  {
    if v != values[0] {
      assert values == [values[0]] + values[1..];
      ValueCited(spec, run, action, scan, values[1..], v);
    }
  }

  lemma MatchesOwned(spec: CheckSpec, run: Id, action: Id, term: string, matches: seq<CodeMatch>)
    ensures AllOwned(spec, run, action, MatchesEvidence(spec, run, action, term, matches))
    ensures AllImplementation(MatchesEvidence(spec, run, action, term, matches))
  {
  }

  lemma {:induction false} HitsOwned(spec: CheckSpec, run: Id, action: Id, hits: seq<TermHits>)
    ensures AllOwned(spec, run, action, HitsEvidence(spec, run, action, hits))
    ensures AllImplementation(HitsEvidence(spec, run, action, hits))
  {
    if hits != [] {
      HitsOwned(spec, run, action, hits[1..]);
      var matches := hits[0].matches;
      MatchesOwned(spec, run, action, hits[0].term, if |matches| > 5 then matches[..5] else matches);
    }
  }

  lemma HitsCited(spec: CheckSpec, run: Id, action: Id, hits: seq<TermHits>)
    requires hits != [] && !SomeTermMissing(hits)
    ensures HitsEvidence(spec, run, action, hits) != []
  {
    assert hits[0] in hits;
  }

  /** A guarded report is an error without evidence when the scan raises or a line range is bad, else unchanged. */
  lemma GuardedReported(spec: CheckSpec, run: Id, action: Id, raises: bool, x: Execution)
    requires Reported(spec, run, action, x)
    ensures var g := Guarded(spec, run, raises, x);
      && Reported(spec, run, action, g) && InOrder(g)
      && if raises || !InOrder(x) then g.result.outcome == ErrorOutcome && g.evidence == [] else g == x
  {
  }

  /**
   What a check's outcome says about its evidence: passing evidence supports and is of the check's
   own kind, a failure contradicts, and an unassessed check has only gaps to show.
   */
  predicate OutcomeExplained(spec: CheckSpec, x: Execution) {
    match x.result.outcome
    case Passed =>
      && x.evidence != []
      && forall e :: e in x.evidence ==>
           if spec.checkType == TestProtectionCheck then ShowsTest(e) else ShowsImplementation(e)
    case FailedCheck =>
      spec.checkType == ConfigurationValue && exists e :: e in x.evidence && e.role == Contradictory
    case NotFound =>
      forall e :: e in x.evidence ==> ShowsGap(e) || (spec.checkType == StaticCode && ShowsImplementation(e))
    case _ => forall e :: e in x.evidence ==> ShowsGap(e)
  }

  predicate WellReported(spec: CheckSpec, run: Id, action: Id, x: Execution) {
    Reported(spec, run, action, x) && InOrder(x) && OutcomeExplained(spec, x)
  }

  lemma ReportReported(spec: CheckSpec, run: Id, action: Id, outcome: Outcome, detail: Detail, evidence: seq<Evidence>)
    requires AllOwned(spec, run, action, evidence)
    ensures Reported(spec, run, action, Report(spec, run, outcome, detail, evidence))
  {
  }

  lemma ConfigurationReported(spec: CheckSpec, run: Id, action: Id, scan: Scan)
    ensures Reported(spec, run, action, ConfigurationCheck(spec, run, action, scan))
  {
    var evidence := ValuesEvidence(spec, run, action, scan, scan.values);
    ValuesOwned(spec, run, action, scan, scan.values);
    ReportReported(spec, run, action, NotFound, NoMatchingValue, [Absence(spec, run, action, NoMatchingValue)]);
    ReportReported(spec, run, action, Passed, ThresholdMet, evidence);
    ReportReported(spec, run, action, FailedCheck, ThresholdContradicted, evidence);
  }

  lemma ImplementationExplains(spec: CheckSpec, run: Id, evidence: seq<Evidence>)
    requires spec.checkType == ConfigurationValue && evidence != [] ==> AllImplementation(evidence)
    requires spec.checkType == ConfigurationValue
    ensures evidence != [] ==> OutcomeExplained(spec, Report(spec, run, Passed, ThresholdMet, evidence))
  {
  }

  lemma ContradictionExplains(spec: CheckSpec, run: Id, evidence: seq<Evidence>)
    requires spec.checkType == ConfigurationValue && exists e :: e in evidence && e.role == Contradictory
    ensures evidence != [] && OutcomeExplained(spec, Report(spec, run, FailedCheck, ThresholdContradicted, evidence))
  {
  }

  /** A value that misses the threshold is cited as contradicting. */
  lemma ContradictionCited(spec: CheckSpec, run: Id, action: Id, scan: Scan)
    requires !AllSatisfy(spec, scan, scan.values)
    ensures exists e :: e in ValuesEvidence(spec, run, action, scan, scan.values) && e.role == Contradictory
  {
    var v :| v in scan.values && Observed(v) && !Satisfies(spec, scan, v.key, v.value.value);
    ValueCited(spec, run, action, scan, scan.values, v);
  }

  lemma ConfigurationExplained(spec: CheckSpec, run: Id, action: Id, scan: Scan)
    requires spec.checkType == ConfigurationValue
    ensures OutcomeExplained(spec, ConfigurationCheck(spec, run, action, scan))
  {
    if AllSatisfy(spec, scan, scan.values) {
      SatisfiedValuesSupport(spec, run, action, scan, scan.values);
      ImplementationExplains(spec, run, ValuesEvidence(spec, run, action, scan, scan.values));
    } else {
      ContradictionCited(spec, run, action, scan);
      ContradictionExplains(spec, run, ValuesEvidence(spec, run, action, scan, scan.values));
    }
  }

  /** Evidence of the check that shows where a term is used. */
  predicate Locates(spec: CheckSpec, run: Id, e: Evidence, term: string) {
    ShowsImplementation(e) && e.path.Some? && e.lineStart.Some?
    && e.id == EvidenceId(run, spec.id, [TextPart(term), TextPart(e.path.value), NumberPart(e.lineStart.value as real)])
  }

  predicate Located(spec: CheckSpec, run: Id, evidence: seq<Evidence>, term: string) {
    exists e :: e in evidence && Locates(spec, run, e, term)
  }

  /** Every term with a match is located by the evidence. */
  lemma {:induction false} TermLocated(spec: CheckSpec, run: Id, action: Id, hits: seq<TermHits>, h: TermHits)
    requires h in hits && h.matches != []
    ensures Located(spec, run, HitsEvidence(spec, run, action, hits), h.term)
  {
    var matches := hits[0].matches;
    var first := MatchesEvidence(spec, run, action, hits[0].term, if |matches| > 5 then matches[..5] else matches);
    var rest := HitsEvidence(spec, run, action, hits[1..]);
    if h == hits[0] {
      assert Locates(spec, run, first[0], h.term) && first[0] in first + rest;
    } else {
      TermLocated(spec, run, action, hits[1..], h);
      var e :| e in rest && Locates(spec, run, e, h.term);
      assert e in first + rest;
    }
  }

  /** A code check passes exactly when every term was found, and then its evidence locates each of them. */
  lemma StaticCodeReported(spec: CheckSpec, run: Id, action: Id, scan: Scan)
    requires spec.checkType == StaticCode && scan.hits != []
    ensures var x := StaticCodeCheck(spec, run, action, scan);
      && Reported(spec, run, action, x) && OutcomeExplained(spec, x)
      && (x.result.outcome == Passed <==> !SomeTermMissing(scan.hits))
      && (x.result.outcome == Passed ==> forall h :: h in scan.hits ==> Located(spec, run, x.evidence, h.term))
  {
    HitsOwned(spec, run, action, scan.hits);
    if !SomeTermMissing(scan.hits) {
      HitsCited(spec, run, action, scan.hits);
      forall h | h in scan.hits ensures Located(spec, run, HitsEvidence(spec, run, action, scan.hits), h.term) {
        TermLocated(spec, run, action, scan.hits, h);
      }
    }
  }

  lemma TestsOwned(spec: CheckSpec, run: Id, action: Id, tests: seq<TestMatch>)
    ensures AllOwned(spec, run, action, TestsEvidence(spec, run, action, tests))
    ensures forall e :: e in TestsEvidence(spec, run, action, tests) ==> ShowsTest(e)
  {
  }

  lemma TestProtectionReported(spec: CheckSpec, run: Id, action: Id, scan: Scan)
    requires spec.checkType == TestProtectionCheck
    ensures var x := TestProtectionRun(spec, run, action, scan);
      Reported(spec, run, action, x) && OutcomeExplained(spec, x)
  {
    var evidence := TestsEvidence(spec, run, action, scan.tests);
    TestsOwned(spec, run, action, scan.tests);
    ReportReported(spec, run, action, NotFound, NoTestLocated, [Absence(spec, run, action, NoTestLocated)]);
    ReportReported(spec, run, action, Passed, TestLocated, evidence);
  }

  /** A guarded check is well reported when it is without the guard, or when it certainly raises. */
  lemma GuardedWellReported(spec: CheckSpec, run: Id, action: Id, raises: bool, x: Execution)
    requires raises || (Reported(spec, run, action, x) && OutcomeExplained(spec, x))
    ensures WellReported(spec, run, action, Guarded(spec, run, raises, x))
  {
    if !raises {
      GuardedReported(spec, run, action, raises, x);
    } else {
      ReportReported(spec, run, action, ErrorOutcome, CheckFailedSafely, []);
    }
  }

  lemma NonAssessableWellReported(spec: CheckSpec, run: Id, action: Id, outcome: Outcome)
    requires outcome == UnavailableOutcome || outcome == UnsupportedOutcome
    ensures WellReported(spec, run, action, NonAssessable(spec, run, action, outcome))
  {
    var role := if outcome == UnavailableOutcome then UnavailableRole else MissingRole;
    ReportReported(spec, run, action, outcome, NotAssessable,
      [Record(spec, run, action, [OutcomePart(outcome)], Absent, role, None, None, None)]);
  }

  /** Every execution is well reported, whatever the scan finds. */
  lemma ExecutionsWellReported(spec: CheckSpec, run: Id, action: Id, scan: Scan)
    ensures WellReported(spec, run, action, RunCheck(spec, run, action, scan))
  {
    if spec.availability != Supported {
      NonAssessableWellReported(spec, run, action,
        if spec.availability == Unavailable then UnavailableOutcome else UnsupportedOutcome);
    } else {
      match spec.checkType
      case ConfigurationValue =>
        ConfigurationReported(spec, run, action, scan);
        ConfigurationExplained(spec, run, action, scan);
        GuardedWellReported(
          spec, run, action, scan.raises || spec.expected.None?, ConfigurationCheck(spec, run, action, scan));
      case StaticCode =>
        if scan.hits != [] {
          StaticCodeReported(spec, run, action, scan);
        }
        GuardedWellReported(
          spec, run, action, scan.raises || scan.hits == [], StaticCodeCheck(spec, run, action, scan));
      case TestProtectionCheck =>
        TestProtectionReported(spec, run, action, scan);
        GuardedWellReported(spec, run, action, scan.raises, TestProtectionRun(spec, run, action, scan));
      case _ => NonAssessableWellReported(spec, run, action, UnsupportedOutcome);
    }
  }
}
