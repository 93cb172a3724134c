/** What the verdicts of a run mean: each is decided by the outcomes of its action's checks. */
module PipelineVerdicts {
  import opened Wrappers
  import opened Contracts
  import opened Compiler
  import opened Pipeline
  import opened PipelineValidity
  import opened Verifier
  import opened Checks
  import Snapshot

  // ---------------------------------------------------------------------------------------------
  // Outcomes decide
  // ---------------------------------------------------------------------------------------------

  predicate AllPassed(results: seq<CheckResult>) {
    forall r :: r in results ==> r.outcome == Passed
  }

  /** The required check could not be assessed, and the regression check found no test. */
  predicate Unprotected(results: seq<CheckResult>) {
    && (exists r :: r in results && r.core && NonAssessed(r))
    && (exists r :: r in results && !r.core && r.outcome == NotFound)
  }

  /** The verdict that check outcomes alone give. */
  function Decided(results: seq<CheckResult>): Verdict {
    if AllPassed(results) then Verified
    else if SomeFailing(results) || Unprotected(results) then Missing
    else if AllNonAssessed(results) then Unverifiable
    else Partial
  }

  /** An action has one required check and at most one other, about regression tests. */
  predicate CheckedTwice(specs: seq<CheckSpec>) {
    && 1 <= |specs| <= 2 && specs[0].core
    && (|specs| == 2 ==>
        !specs[1].core && specs[1].checkType == TestProtectionCheck && specs[0].checkType != TestProtectionCheck)
  }

  predicate Explained(specs: seq<CheckSpec>, xs: seq<Execution>) {
    && |xs| == |specs|
    && forall i :: 0 <= i < |specs| ==> OutcomeExplained(specs[i], xs[i]) && xs[i].result.core == specs[i].core
  }

  /** The results are those of the executions, and so is the evidence that is not merely retrieved. */
  predicate Balanced(xs: seq<Execution>, results: seq<CheckResult>, evidence: seq<Evidence>) {
    && (forall i :: 0 <= i < |xs| ==> xs[i].result in results)
    && (forall r :: r in results ==> exists i :: 0 <= i < |xs| && r == xs[i].result)
    && (forall i :: 0 <= i < |xs| ==> forall e :: e in xs[i].evidence ==> e in evidence)
    && (forall e :: e in evidence && e.role != SupportingOnly ==> exists i :: 0 <= i < |xs| && e in xs[i].evidence)
  }

  /** The executions of the specifications of one action, and the evidence that counts for it. */
  predicate Accounted(specs: seq<CheckSpec>, xs: seq<Execution>, results: seq<CheckResult>, evidence: seq<Evidence>) {
    CheckedTwice(specs) && Explained(specs, xs) && Balanced(xs, results, evidence)
  }

  lemma PassedShows(spec: CheckSpec, x: Execution, evidence: seq<Evidence>)
    requires OutcomeExplained(spec, x) && x.result.outcome == Passed
    requires forall e :: e in x.evidence ==> e in evidence
    ensures spec.checkType == TestProtectionCheck ==> Regression(evidence) && Credible(evidence, true)
    ensures spec.checkType != TestProtectionCheck ==> forall testOnly :: Credible(evidence, testOnly)
  {
    var e := x.evidence[0];
    assert e in x.evidence && e in evidence;
    assert spec.checkType == TestProtectionCheck ==> IsCredible(e, true);
    assert spec.checkType != TestProtectionCheck ==> IsCredible(e, true) && IsCredible(e, false);
  }

  lemma BalancedOne(xs: seq<Execution>, results: seq<CheckResult>, evidence: seq<Evidence>)
    requires Balanced(xs, results, evidence) && |xs| == 1
    ensures forall r :: r in results <==> r == xs[0].result
    ensures forall e :: e in evidence && e.role != SupportingOnly ==> e in xs[0].evidence
  {
  }

  lemma BalancedTwo(xs: seq<Execution>, results: seq<CheckResult>, evidence: seq<Evidence>)
    requires Balanced(xs, results, evidence) && |xs| == 2
    ensures forall r :: r in results <==> r == xs[0].result || r == xs[1].result
    ensures forall e :: e in evidence && e.role != SupportingOnly ==> e in xs[0].evidence || e in xs[1].evidence
  {
  }

  /** Evidence of passed checks contradicts nothing. */
  lemma PassedIsUncontradicted(
      specs: seq<CheckSpec>, xs: seq<Execution>, results: seq<CheckResult>, evidence: seq<Evidence>)
    requires Accounted(specs, xs, results, evidence) && AllPassed(results)
    ensures !Contradicted(evidence)
  {
    forall e | e in evidence ensures e.role != Contradictory {
      if e.role != SupportingOnly {
        var i :| 0 <= i < |xs| && e in xs[i].evidence;
        assert xs[i].result in results && OutcomeExplained(specs[i], xs[i]);
      }
    }
  }

  /** One check that is required and about tests, or that cannot pass. */
  lemma SingleDecides(
      testOnly: bool, specs: seq<CheckSpec>, xs: seq<Execution>, results: seq<CheckResult>, evidence: seq<Evidence>)
    requires Accounted(specs, xs, results, evidence) && |specs| == 1
    requires xs[0].result.outcome == Passed ==> testOnly && specs[0].checkType == TestProtectionCheck
    ensures Classify(testOnly, results, evidence) == Decided(results)
  {
    BalancedOne(xs, results, evidence);
    if xs[0].result.outcome == Passed {
      PassedShows(specs[0], xs[0], evidence);
      PassedIsUncontradicted(specs, xs, results, evidence);
    }
  }

  /** A required check and a regression check. */
  lemma PairDecides(
      testOnly: bool, specs: seq<CheckSpec>, xs: seq<Execution>, results: seq<CheckResult>, evidence: seq<Evidence>)
    requires Accounted(specs, xs, results, evidence) && |specs| == 2
    ensures Classify(testOnly, results, evidence) == Decided(results)
  {
    var c, p := xs[0].result, xs[1].result;
    BalancedTwo(xs, results, evidence);
    if c.outcome == Passed {
      PassedShows(specs[0], xs[0], evidence);
      if p.outcome == Passed {
        PassedShows(specs[1], xs[1], evidence);
        PassedIsUncontradicted(specs, xs, results, evidence);
      } else if p.outcome == NotFound {
        assert !Regression(evidence);
      }
    } else if NonAssessed(c) && p.outcome == NotFound {
      assert !Credible(evidence, testOnly);
    }
  }

  // ---------------------------------------------------------------------------------------------
  // Identifiers determine looks
  // ---------------------------------------------------------------------------------------------

  /** What the identifier of a check's evidence says about its kind and role. */
  function LookOf(spec: CheckSpec, scan: Scan, parts: seq<Part>): (EvidenceKind, Role) {
    if |parts| == 2 then (Test, Supporting)
    else if |parts| == 3 && parts[0].TextPart? && parts[1].TextPart? && parts[2].NumberPart? then
      if spec.checkType == ConfigurationValue then
        (SourceKind(parts[0].text),
         if Satisfies(spec, scan, parts[1].text, parts[2].number) then Supporting else Contradictory)
      else (SourceKind(parts[1].text), Supporting)
    else if |parts| == 1 && parts[0].OutcomePart? && parts[0].outcome == UnavailableOutcome then
      (Absent, UnavailableRole)
    else (Absent, MissingRole)
  }

  predicate LooksNamed(spec: CheckSpec, scan: Scan, evidence: seq<Evidence>) {
    forall e :: e in evidence ==> e.id.EvidenceId? && (e.kind, e.role) == LookOf(spec, scan, e.id.parts)
  }

  lemma LooksConcat(spec: CheckSpec, scan: Scan, a: seq<Evidence>, b: seq<Evidence>)
    requires LooksNamed(spec, scan, a) && LooksNamed(spec, scan, b)
    ensures LooksNamed(spec, scan, a + b)
  {
  }

  lemma ValueLookNamed(spec: CheckSpec, run: Id, action: Id, scan: Scan, v: ConfiguredValue)
    requires spec.checkType == ConfigurationValue && Observed(v)
    ensures LooksNamed(spec, scan, [ValueEvidence(spec, run, action, scan, v)])
  {
  }

  lemma {:induction false} ValuesLookNamed(
      spec: CheckSpec, run: Id, action: Id, scan: Scan, values: seq<ConfiguredValue>)
    requires spec.checkType == ConfigurationValue
    ensures LooksNamed(spec, scan, ValuesEvidence(spec, run, action, scan, values))
  {
    if values != [] {
      ValuesLookNamed(spec, run, action, scan, values[1..]);
      var rest := ValuesEvidence(spec, run, action, scan, values[1..]);
      if Observed(values[0]) {
        ValueLookNamed(spec, run, action, scan, values[0]);
        LooksConcat(spec, scan, [ValueEvidence(spec, run, action, scan, values[0])], rest);
      } else {
        LooksConcat(spec, scan, [], rest);
      }
    }
  }

  lemma CodeLookNamed(spec: CheckSpec, scan: Scan, term: string, path: string, line: real)
    requires spec.checkType != ConfigurationValue
    ensures LookOf(spec, scan, [TextPart(term), TextPart(path), NumberPart(line)]) == (SourceKind(path), Supporting)
  {
  }

  lemma MatchesLookNamed(spec: CheckSpec, run: Id, action: Id, scan: Scan, term: string, matches: seq<CodeMatch>)
    requires spec.checkType == StaticCode
    ensures LooksNamed(spec, scan, MatchesEvidence(spec, run, action, term, matches))
  {
    var evidence := MatchesEvidence(spec, run, action, term, matches);
    forall e | e in evidence ensures e.id.EvidenceId? && (e.kind, e.role) == LookOf(spec, scan, e.id.parts) {
      var i :| 0 <= i < |matches| && evidence[i] == e;
      CodeLookNamed(spec, scan, term, matches[i].path, matches[i].line as real);
    }
  }

  lemma {:induction false} HitsLookNamed(spec: CheckSpec, run: Id, action: Id, scan: Scan, hits: seq<TermHits>)
    requires spec.checkType == StaticCode
    ensures LooksNamed(spec, scan, Checks.HitsEvidence(spec, run, action, hits))
  {
    if hits != [] {
      HitsLookNamed(spec, run, action, scan, hits[1..]);
      var matches := if |hits[0].matches| > 5 then hits[0].matches[..5] else hits[0].matches;
      MatchesLookNamed(spec, run, action, scan, hits[0].term, matches);
      LooksConcat(spec, scan, MatchesEvidence(spec, run, action, hits[0].term, matches),
                  Checks.HitsEvidence(spec, run, action, hits[1..]));
    }
  }

  lemma TestsLookNamed(spec: CheckSpec, run: Id, action: Id, scan: Scan, tests: seq<TestMatch>)
    ensures LooksNamed(spec, scan, TestsEvidence(spec, run, action, tests))
  {
  }

  lemma AbsenceLookNamed(spec: CheckSpec, run: Id, action: Id, scan: Scan, detail: Detail)
    ensures LooksNamed(spec, scan, [Absence(spec, run, action, detail)])
  {
  }

  lemma NonAssessableLookNamed(spec: CheckSpec, run: Id, action: Id, scan: Scan, outcome: Outcome)
    ensures LooksNamed(spec, scan, NonAssessable(spec, run, action, outcome).evidence)
  {
  }

  lemma GuardedLookNamed(spec: CheckSpec, run: Id, scan: Scan, raises: bool, x: Execution)
    requires LooksNamed(spec, scan, x.evidence)
    ensures LooksNamed(spec, scan, Guarded(spec, run, raises, x).evidence)
  {
  }

  lemma ConfigurationLookNamed(spec: CheckSpec, run: Id, action: Id, scan: Scan)
    requires spec.checkType == ConfigurationValue
    ensures LooksNamed(spec, scan, ConfigurationCheck(spec, run, action, scan).evidence)
  {
    ValuesLookNamed(spec, run, action, scan, scan.values);
    AbsenceLookNamed(spec, run, action, scan, NoMatchingValue);
  }

  lemma StaticCodeLookNamed(spec: CheckSpec, run: Id, action: Id, scan: Scan)
    requires spec.checkType == StaticCode
    ensures LooksNamed(spec, scan, StaticCodeCheck(spec, run, action, scan).evidence)
  {
    HitsLookNamed(spec, run, action, scan, scan.hits);
    AbsenceLookNamed(spec, run, action, scan, TermsMissing);
    LooksConcat(spec, scan, Checks.HitsEvidence(spec, run, action, scan.hits),
                [Absence(spec, run, action, TermsMissing)]);
  }

  lemma TestRunLookNamed(spec: CheckSpec, run: Id, action: Id, scan: Scan)
    ensures LooksNamed(spec, scan, TestProtectionRun(spec, run, action, scan).evidence)
  {
    TestsLookNamed(spec, run, action, scan, scan.tests);
    AbsenceLookNamed(spec, run, action, scan, NoTestLocated);
  }

  /** The identifier of a check's evidence determines its kind and role. */
  lemma RunLooksNamed(spec: CheckSpec, run: Id, action: Id, scan: Scan)
    ensures LooksNamed(spec, scan, RunCheck(spec, run, action, scan).evidence)
  {
    var x := RunCheck(spec, run, action, scan);
    if spec.availability != Supported {
      NonAssessableLookNamed(spec, run, action, scan, x.result.outcome);
    } else {
      match spec.checkType
      case ConfigurationValue =>
        ConfigurationLookNamed(spec, run, action, scan);
        GuardedLookNamed(
          spec, run, scan, scan.raises || spec.expected.None?, ConfigurationCheck(spec, run, action, scan));
      case StaticCode =>
        StaticCodeLookNamed(spec, run, action, scan);
        GuardedLookNamed(spec, run, scan, scan.raises || scan.hits == [], StaticCodeCheck(spec, run, action, scan));
      case TestProtectionCheck =>
        TestRunLookNamed(spec, run, action, scan);
        GuardedLookNamed(spec, run, scan, scan.raises, TestProtectionRun(spec, run, action, scan));
      case _ => NonAssessableLookNamed(spec, run, action, scan, UnsupportedOutcome);
    }
  }

  /** Records of a run with one identifier look the same. */
  lemma CollectedLooks(s: AuditState, classify: Classifier, scan: CheckSpec -> Scan, a: Evidence, b: Evidence)
    requires CompiledFrom(s, classify) && FromRetrieval(s)
    requires a in Collected(s, scan) && b in Collected(s, scan) && a.id == b.id
    ensures a.invariantId == b.invariantId && a.kind == b.kind && a.role == b.role
  {
    if a in s.evidence && b in s.evidence {
      var i :| 0 <= i < |s.evidence| && s.evidence[i] == a;
      var j :| 0 <= j < |s.evidence| && s.evidence[j] == b;
    } else {
      CheckEvidenceOrigin(s, classify, scan, a);
      CheckEvidenceOrigin(s, classify, scan, b);
      var x := CheckedBy(s, classify, scan, a);
      var y := CheckedBy(s, classify, scan, b);
      SameSpec(s, classify, x, y);
      RunLooksNamed(x, s.summary.id, ActionFor(s.invariants, x.invariantId), scan(x));
    }
  }

  lemma CheckEvidenceOrigin(s: AuditState, classify: Classifier, scan: CheckSpec -> Scan, e: Evidence)
    requires CompiledFrom(s, classify) && FromRetrieval(s) && e in Collected(s, scan)
    ensures e.id.EvidenceId?
    ensures e in s.evidence <==> !e.id.owner.CheckId?
    ensures !(e in s.evidence) <==> e in CheckEvidence(s, scan, s.specs)
  {
    if e in CheckEvidence(s, scan, s.specs) {
      CheckEvidenceMembers(s, scan, s.specs, e);
      var spec :| spec in s.specs && e in ExecutionOf(s, scan, spec).evidence;
      OwnedByCheck(s, classify, scan, spec, e);
    }
  }

  lemma OwnedByCheck(s: AuditState, classify: Classifier, scan: CheckSpec -> Scan, spec: CheckSpec, e: Evidence)
    requires CompiledFrom(s, classify) && spec in s.specs && e in ExecutionOf(s, scan, spec).evidence
    ensures e.id.EvidenceId? && e.id.owner == spec.id && spec.id.CheckId?
    ensures e.invariantId == spec.invariantId
  {
    var action := ActionFor(s.invariants, spec.invariantId);
    ExecutionsWellReported(spec, s.summary.id, action, scan(spec));
    assert Owned(spec, s.summary.id, action, e);
    SpecNamed(s, classify, spec);
  }

  /** The specification whose check produced the evidence. */
  lemma CheckedBy(s: AuditState, classify: Classifier, scan: CheckSpec -> Scan, e: Evidence) returns (spec: CheckSpec)
    requires CompiledFrom(s, classify) && e in CheckEvidence(s, scan, s.specs)
    ensures spec in s.specs && e in ExecutionOf(s, scan, spec).evidence
    ensures e.id.EvidenceId? && e.id.owner == spec.id && e.invariantId == spec.invariantId
  {
    CheckEvidenceMembers(s, scan, s.specs, e);
    spec :| spec in s.specs && e in ExecutionOf(s, scan, spec).evidence;
    OwnedByCheck(s, classify, scan, spec, e);
  }

  lemma SameSpec(s: AuditState, classify: Classifier, x: CheckSpec, y: CheckSpec)
    requires CompiledFrom(s, classify) && x in s.specs && y in s.specs && x.id == y.id
    ensures x == y
  {
    CompiledSpecs(s, classify);
    var i :| 0 <= i < |s.specs| && s.specs[i] == x;
    var j :| 0 <= j < |s.specs| && s.specs[j] == y;
  }

  lemma CollectedSameLook(s: AuditState, classify: Classifier, scan: CheckSpec -> Scan)
    requires CompiledFrom(s, classify) && FromRetrieval(s)
    ensures SameLook(Collected(s, scan))
  {
    forall a, b | a in Collected(s, scan) && b in Collected(s, scan) && a.id == b.id
      ensures a.invariantId == b.invariantId && a.kind == b.kind && a.role == b.role
    {
      CollectedLooks(s, classify, scan, a, b);
    }
  }

  // ---------------------------------------------------------------------------------------------
  // The records of one action
  // ---------------------------------------------------------------------------------------------

  /** The only requirement of an action is the one compiled from it. */
  lemma OwnRequirement(s: AuditState, classify: Classifier, k: nat)
    requires CompiledFrom(s, classify) && k < |s.actions|
    ensures var own := RequirementsFor(s.invariants, s.actions[k].id);
      && (forall id :: HasRequirement(own, id) <==> id == s.invariants[k].id)
      && (TestOnly(own) <==> s.invariants[k].kind == TestProtection)
  {
    var own := RequirementsFor(s.invariants, s.actions[k].id);
    RequirementsForMembers(s.invariants, s.actions[k].id);
    RequirementsDistinct(s.actions, classify);
    forall i | i in own ensures i == s.invariants[k] {
      var j :| 0 <= j < |s.invariants| && s.invariants[j] == i;
      assert s.actions[j].id == s.actions[k].id;
    }
    assert s.invariants[k] in own;
  }

  /** A specification of the action's requirement is one of the action's own. */
  lemma OwnSpec(s: AuditState, classify: Classifier, k: nat, spec: CheckSpec)
    requires CompiledFrom(s, classify) && k < |s.actions|
    ensures spec in s.specs && spec.invariantId == s.invariants[k].id <==> spec in SpecsOf(s.actions[k], classify)
  {
    var action := s.actions[k];
    SpecShape(action, classify(action));
    if spec in SpecsOf(action, classify) {
      SpecsIncluded(s.actions, classify, action, spec);
    }
    if spec in s.specs && spec.invariantId == s.invariants[k].id {
      var owner := SpecOwner(s.actions, classify, spec);
      SpecShape(owner, classify(owner));
      var j :| 0 <= j < |s.actions| && s.actions[j] == owner;
    }
  }

  function ExecutionsOf(s: AuditState, scan: CheckSpec -> Scan, specs: seq<CheckSpec>): seq<Execution> {
    seq(|specs|, i requires 0 <= i < |specs| => ExecutionOf(s, scan, specs[i]))
  }

  function ActionResults(s: AuditState, scan: CheckSpec -> Scan, action: Id): seq<CheckResult> {
    RelevantResults(ResultsOf(s, scan, s.specs), RequirementsFor(s.invariants, action))
  }

  function ActionEvidence(s: AuditState, scan: CheckSpec -> Scan, action: Id): seq<Evidence> {
    RelevantEvidence(Collected(s, scan), RequirementsFor(s.invariants, action))
  }

  /** The results that count for an action are those of its specifications. */
  lemma ActionResultsOwn(s: AuditState, classify: Classifier, scan: CheckSpec -> Scan, k: nat, r: CheckResult)
    requires CompiledFrom(s, classify) && k < |s.actions|
    ensures r in ActionResults(s, scan, s.actions[k].id) <==>
      exists spec :: spec in SpecsOf(s.actions[k], classify) && r == ExecutionOf(s, scan, spec).result
  {
    var results, own := ResultsOf(s, scan, s.specs), RequirementsFor(s.invariants, s.actions[k].id);
    RelevantResultsMembers(results, own);
    OwnRequirement(s, classify, k);
    if r in results && HasRequirement(own, r.invariantId) {
      var j :| 0 <= j < |s.specs| && results[j] == r;
      ExecutionSound(s, classify, scan, s.specs[j]);
      OwnSpec(s, classify, k, s.specs[j]);
    }
    if spec :| spec in SpecsOf(s.actions[k], classify) && r == ExecutionOf(s, scan, spec).result {
      OwnSpec(s, classify, k, spec);
      ExecutionSound(s, classify, scan, spec);
      var j :| 0 <= j < |s.specs| && s.specs[j] == spec;
      assert results[j] == r;
    }
  }

  /** The evidence that counts for an action comes from its checks or is retrieved. */
  lemma ActionEvidenceOwn(s: AuditState, classify: Classifier, scan: CheckSpec -> Scan, k: nat, e: Evidence)
    requires CompiledFrom(s, classify) && FromRetrieval(s) && k < |s.actions|
    ensures e in ActionEvidence(s, scan, s.actions[k].id) && e.role != SupportingOnly ==>
      exists spec :: spec in SpecsOf(s.actions[k], classify) && e in ExecutionOf(s, scan, spec).evidence
    ensures (exists spec :: spec in SpecsOf(s.actions[k], classify) && e in ExecutionOf(s, scan, spec).evidence) ==>
      e in ActionEvidence(s, scan, s.actions[k].id)
  {
    var own := RequirementsFor(s.invariants, s.actions[k].id);
    RelevantEvidenceMembers(Collected(s, scan), own);
    OwnRequirement(s, classify, k);
    if e in ActionEvidence(s, scan, s.actions[k].id) && e.role != SupportingOnly {
      var spec := CheckedBy(s, classify, scan, e);
      OwnSpec(s, classify, k, spec);
    }
    if spec :| spec in SpecsOf(s.actions[k], classify) && e in ExecutionOf(s, scan, spec).evidence {
      OwnSpec(s, classify, k, spec);
      CheckEvidenceMembers(s, scan, s.specs, e);
      OwnedByCheck(s, classify, scan, spec, e);
    }
  }

  lemma SpecExplained(s: AuditState, scan: CheckSpec -> Scan, spec: CheckSpec)
    ensures OutcomeExplained(spec, ExecutionOf(s, scan, spec))
    ensures ExecutionOf(s, scan, spec).result.core == spec.core
    ensures spec.availability != Supported ==> ExecutionOf(s, scan, spec).result.outcome != Passed
  {
    ExecutionsWellReported(spec, s.summary.id, ActionFor(s.invariants, spec.invariantId), scan(spec));
  }

  /** The result and the evidence of an action's own check count for it. */
  lemma SpecCounts(s: AuditState, classify: Classifier, scan: CheckSpec -> Scan, k: nat, spec: CheckSpec)
    requires CompiledFrom(s, classify) && FromRetrieval(s) && k < |s.actions|
    requires spec in SpecsOf(s.actions[k], classify)
    ensures var x, id := ExecutionOf(s, scan, spec), s.actions[k].id;
      && OutcomeExplained(spec, x) && x.result.core == spec.core
      && x.result in ActionResults(s, scan, id)
      && forall e :: e in x.evidence ==> e in ActionEvidence(s, scan, id)
  {
    var x := ExecutionOf(s, scan, spec);
    SpecExplained(s, scan, spec);
    ActionResultsOwn(s, classify, scan, k, x.result);
    forall e | e in x.evidence ensures e in ActionEvidence(s, scan, s.actions[k].id) {
      ActionEvidenceOwn(s, classify, scan, k, e);
    }
  }

  /** Nothing else counts for an action. */
  lemma OnlyOwnCounts(s: AuditState, classify: Classifier, scan: CheckSpec -> Scan, k: nat)
    requires CompiledFrom(s, classify) && FromRetrieval(s) && k < |s.actions|
    ensures var specs, id := SpecsOf(s.actions[k], classify), s.actions[k].id;
      && (forall r :: r in ActionResults(s, scan, id) ==>
            exists spec :: spec in specs && r == ExecutionOf(s, scan, spec).result)
      && (forall e :: e in ActionEvidence(s, scan, id) && e.role != SupportingOnly ==>
            exists spec :: spec in specs && e in ExecutionOf(s, scan, spec).evidence)
  {
    var specs, id := SpecsOf(s.actions[k], classify), s.actions[k].id;
    forall r | r in ActionResults(s, scan, id)
      ensures exists spec :: spec in specs && r == ExecutionOf(s, scan, spec).result
    {
      ActionResultsOwn(s, classify, scan, k, r);
    }
    forall e | e in ActionEvidence(s, scan, id) && e.role != SupportingOnly
      ensures exists spec :: spec in specs && e in ExecutionOf(s, scan, spec).evidence
    {
      ActionEvidenceOwn(s, classify, scan, k, e);
    }
  }

  lemma OwnSpecsShape(action: ActionItem, classify: Classifier)
    ensures CheckedTwice(SpecsOf(action, classify))
  {
    SpecShape(action, classify(action));
  }

  /** Executions of exactly the specifications whose results and evidence count are balanced. */
  lemma BalancedBy(
      run: CheckSpec -> Execution, specs: seq<CheckSpec>, xs: seq<Execution>, results: seq<CheckResult>,
      evidence: seq<Evidence>)
    requires |xs| == |specs| && forall i :: 0 <= i < |xs| ==> xs[i] == run(specs[i])
    requires forall spec :: spec in specs ==>
      run(spec).result in results && forall e :: e in run(spec).evidence ==> e in evidence
    requires forall r :: r in results ==> exists spec :: spec in specs && r == run(spec).result
    requires forall e :: e in evidence && e.role != SupportingOnly ==>
      exists spec :: spec in specs && e in run(spec).evidence
    ensures Balanced(xs, results, evidence)
  {
    forall r | r in results ensures exists i :: 0 <= i < |xs| && r == xs[i].result {
      var spec :| spec in specs && r == run(spec).result;
      var i :| 0 <= i < |specs| && specs[i] == spec;
      assert xs[i] == run(spec);
    }
    forall e | e in evidence && e.role != SupportingOnly ensures exists i :: 0 <= i < |xs| && e in xs[i].evidence {
      var spec :| spec in specs && e in run(spec).evidence;
      var i :| 0 <= i < |specs| && specs[i] == spec;
      assert xs[i] == run(spec);
    }
  }

  lemma ActionExplained(s: AuditState, scan: CheckSpec -> Scan, specs: seq<CheckSpec>)
    ensures Explained(specs, ExecutionsOf(s, scan, specs))
  {
    forall i | 0 <= i < |specs| {
      SpecExplained(s, scan, specs[i]);
    }
  }

  lemma ActionAccounted(s: AuditState, classify: Classifier, scan: CheckSpec -> Scan, k: nat)
    requires CompiledFrom(s, classify) && FromRetrieval(s) && k < |s.actions|
    ensures var specs := SpecsOf(s.actions[k], classify);
      Accounted(specs, ExecutionsOf(s, scan, specs),
                ActionResults(s, scan, s.actions[k].id), ActionEvidence(s, scan, s.actions[k].id))
  {
    var specs, id := SpecsOf(s.actions[k], classify), s.actions[k].id;
    OwnSpecsShape(s.actions[k], classify);
    ActionExplained(s, scan, specs);
    forall spec | spec in specs
      ensures var x := ExecutionOf(s, scan, spec);
        x.result in ActionResults(s, scan, id) && forall e :: e in x.evidence ==> e in ActionEvidence(s, scan, id)
    {
      SpecCounts(s, classify, scan, k, spec);
    }
    OnlyOwnCounts(s, classify, scan, k);
    BalancedBy(spec => ExecutionOf(s, scan, spec), specs, ExecutionsOf(s, scan, specs),
               ActionResults(s, scan, id), ActionEvidence(s, scan, id));
  }

  /** The verdict over everything collected, before de-duplication. */
  lemma CollectedDecides(s: AuditState, classify: Classifier, scan: CheckSpec -> Scan, k: nat)
    requires CompiledFrom(s, classify) && FromRetrieval(s) && k < |s.actions|
    ensures var id := s.actions[k].id;
      Classify(TestOnly(RequirementsFor(s.invariants, id)), ActionResults(s, scan, id), ActionEvidence(s, scan, id))
      == Decided(ActionResults(s, scan, id))
  {
    var action := s.actions[k];
    var specs := SpecsOf(action, classify);
    var xs := ExecutionsOf(s, scan, specs);
    ActionAccounted(s, classify, scan, k);
    OwnRequirement(s, classify, k);
    SpecShape(action, classify(action));
    var testOnly := TestOnly(RequirementsFor(s.invariants, action.id));
    if |specs| == 1 {
      SpecExplained(s, scan, specs[0]);
      SingleDecides(testOnly, specs, xs, ActionResults(s, scan, action.id), ActionEvidence(s, scan, action.id));
    } else {
      PairDecides(testOnly, specs, xs, ActionResults(s, scan, action.id), ActionEvidence(s, scan, action.id));
    }
  }

  lemma DeduplicatedDecides(s: AuditState, classify: Classifier, scan: CheckSpec -> Scan, id: Id)
    requires CompiledFrom(s, classify) && FromRetrieval(s)
    ensures var own, results := RequirementsFor(s.invariants, id), ResultsOf(s, scan, s.specs);
      VerdictOf(s.summary.id, id, own, results, Deduplicate(Collected(s, scan))).verdict
      == Classify(TestOnly(own), ActionResults(s, scan, id), ActionEvidence(s, scan, id))
  {
    CollectedSameLook(s, classify, scan);
    DeduplicationKeepsVerdict(
      s.summary.id, id, RequirementsFor(s.invariants, id), ResultsOf(s, scan, s.specs), Collected(s, scan));
  }

  /** Every verdict of a run is decided by the outcomes of its action's checks alone. */
  lemma VerdictsDecided(s: AuditState, classify: Classifier, scan: CheckSpec -> Scan, k: nat)
    requires Searching(s, classify) && FromRetrieval(s) && k < |s.actions|
    ensures VerdictFor(InvestigateStage(s, scan), s.actions[k]).verdict
         == Decided(ActionResults(s, scan, s.actions[k].id))
  {
    var id := s.actions[k].id;
    var r := InvestigateStage(s, scan);
    CollectedDecides(s, classify, scan, k);
    DeduplicatedDecides(s, classify, scan, id);
    assert r.results == ResultsOf(s, scan, s.specs) && r.evidence == Deduplicate(Collected(s, scan));
  }

  lemma ActionChecked(s: AuditState, classify: Classifier, scan: CheckSpec -> Scan, k: nat)
    requires CompiledFrom(s, classify) && FromRetrieval(s) && k < |s.actions|
    ensures ActionResults(s, scan, s.actions[k].id) != []
  {
    ActionAccounted(s, classify, scan, k);
    var xs := ExecutionsOf(s, scan, SpecsOf(s.actions[k], classify));
    assert xs[0].result in ActionResults(s, scan, s.actions[k].id);
  }

  lemma DecidedIff(results: seq<CheckResult>)
    requires results != []
    ensures Decided(results) == Verified <==> AllPassed(results)
    ensures Decided(results) == Missing <==> SomeFailing(results) || Unprotected(results)
    ensures Decided(results) == Unverifiable <==> AllNonAssessed(results)
  {
    assert results[0] in results;
  }

  /** Each of the four verdicts holds exactly when the action's outcomes say so. */
  lemma VerdictMeaning(s: AuditState, classify: Classifier, scan: CheckSpec -> Scan, k: nat)
    requires Searching(s, classify) && FromRetrieval(s) && k < |s.actions|
    ensures var verdict, results :=
        VerdictFor(InvestigateStage(s, scan), s.actions[k]).verdict, ActionResults(s, scan, s.actions[k].id);
      && results != []
      && (verdict == Verified <==> AllPassed(results))
      && (verdict == Missing <==> SomeFailing(results) || Unprotected(results))
      && (verdict == Unverifiable <==> AllNonAssessed(results))
  {
    VerdictsDecided(s, classify, scan, k);
    ActionChecked(s, classify, scan, k);
    DecidedIff(ActionResults(s, scan, s.actions[k].id));
  }
}
