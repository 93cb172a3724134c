/** Aggregation of check results and evidence into one conservative verdict for an action. */
module Verifier {
  import opened Wrappers
  import opened Contracts

  // ---------------------------------------------------------------------------------------------
  // What the verdict depends on
  // ---------------------------------------------------------------------------------------------

  predicate NonAssessed(r: CheckResult) {
    r.outcome == UnavailableOutcome || r.outcome == UnsupportedOutcome || r.outcome == ErrorOutcome
  }

  predicate Failing(r: CheckResult) {
    r.core && (r.outcome == FailedCheck || r.outcome == NotFound)
  }

  predicate ProtectionGap(r: CheckResult) {
    !r.core && r.outcome != Passed
  }

  predicate SomeFailing(results: seq<CheckResult>) {
    exists r :: r in results && Failing(r)
  }

  predicate SomePassed(results: seq<CheckResult>) {
    exists r :: r in results && r.outcome == Passed
  }

  predicate SomeNonAssessed(results: seq<CheckResult>) {
    exists r :: r in results && NonAssessed(r)
  }

  predicate AllNonAssessed(results: seq<CheckResult>) {
    forall r :: r in results ==> NonAssessed(r)
  }

  /** Evidence that can carry a verdict; tests alone only do so for a requirement about tests. */
  predicate IsCredible(e: Evidence, testOnly: bool) {
    e.role == Supporting && (e.kind == Code || e.kind == Configuration || (testOnly && e.kind == Test))
  }

  predicate Credible(evidence: seq<Evidence>, testOnly: bool) {
    exists e :: e in evidence && IsCredible(e, testOnly)
  }

  predicate Regression(evidence: seq<Evidence>) {
    exists e :: e in evidence && e.role == Supporting && e.kind == Test
  }

  predicate Contradicted(evidence: seq<Evidence>) {
    exists e :: e in evidence && e.role == Contradictory
  }

  /** The verdict on an action whose relevant results and evidence these are. */
  function Classify(testOnly: bool, results: seq<CheckResult>, evidence: seq<Evidence>): Verdict {
    if SomeFailing(results) then Missing
    else if results != [] && AllNonAssessed(results) then Unverifiable
    else if SomePassed(results) && Credible(evidence, testOnly) && Regression(evidence)
            && !Contradicted(evidence) && !SomeNonAssessed(results) then Verified
    else if SomePassed(results) || Credible(evidence, testOnly) then Partial
    else Missing
  }

  // ---------------------------------------------------------------------------------------------
  // The verdict record
  // ---------------------------------------------------------------------------------------------

  function RelevantResults(results: seq<CheckResult>, requirements: seq<CompiledInvariant>): seq<CheckResult> {
    if results == [] then []
    else (if HasRequirement(requirements, results[0].invariantId) then [results[0]] else [])
         + RelevantResults(results[1..], requirements)
  }

  function RelevantEvidence(evidence: seq<Evidence>, requirements: seq<CompiledInvariant>): seq<Evidence> {
    if evidence == [] then []
    else (if HasRequirement(requirements, evidence[0].invariantId) then [evidence[0]] else [])
         + RelevantEvidence(evidence[1..], requirements)
  }

  predicate Citable(e: Evidence) {
    e.role == Supporting || e.role == Contradictory
  }

  /** Cite supporting and contradicting evidence, each identifier once. */
  function CitationsOf(evidence: seq<Evidence>, seen: set<Id>): seq<Citation> {
    if evidence == [] then []
    else if evidence[0].id in seen || !Citable(evidence[0]) then CitationsOf(evidence[1..], seen)
    else [evidence[0].Cite()] + CitationsOf(evidence[1..], seen + {evidence[0].id})
  }

  function Details(results: seq<CheckResult>, p: CheckResult -> bool): seq<Detail> {
    if results == [] then []
    else (if p(results[0]) then [results[0].detail] else []) + Details(results[1..], p)
  }

  /** `list(dict.fromkeys(...))` */
  function Once(details: seq<Detail>): seq<Detail> {
    if details == [] then []
    else
      var before := Once(details[..|details| - 1]);
      var last := details[|details| - 1];
      if last in before then before else before + [last]
  }

  /** The missing proofs a verdict lists before the fallback sentence. */
  function MissingProofs(verdict: Verdict, results: seq<CheckResult>, evidence: seq<Evidence>): seq<Detail> {
    Once(
      match verdict
      case Verified => []
      case Unverifiable => Details(results, NonAssessed)
      case Missing => if SomeFailing(results) then Details(results, Failing) else [NoCredibleEvidence]
      case Partial =>
        (if Regression(evidence) then [] else [RegressionAbsent])
        + Details(results, NonAssessed) + Details(results, ProtectionGap)
        + (if Contradicted(evidence) then [ContradictionUnresolved] else []))
  }

  predicate TestOnly(requirements: seq<CompiledInvariant>) {
    requirements != [] && forall i :: i in requirements ==> i.kind == TestProtection
  }

  function RequirementIds(requirements: seq<CompiledInvariant>): seq<Id> {
    seq(|requirements|, i requires 0 <= i < |requirements| => requirements[i].id)
  }

  function VerdictOf(
      run: Id, action: Id, requirements: seq<CompiledInvariant>, results: seq<CheckResult>,
      evidence: seq<Evidence>): ActionVerdict
  {
    var rs := RelevantResults(results, requirements);
    var es := RelevantEvidence(evidence, requirements);
    var verdict := Classify(TestOnly(requirements), rs, es);
    var citations := CitationsOf(es, {});
    var missing := MissingProofs(verdict, rs, es);
    ActionVerdict(VerdictId(run, action), run, action, verdict, RequirementIds(requirements), citations,
                  if citations == [] && missing == [] then [NothingCitable] else missing)
  }

  // ---------------------------------------------------------------------------------------------
  // The branches that choose a verdict and the loop that cites its evidence
  // ---------------------------------------------------------------------------------------------

  method Cite(evidence: seq<Evidence>) returns (result: seq<Citation>)
    ensures result == CitationsOf(evidence, {})
  {
    result := [];
    var seen: set<Id> := {};
    for k := 0 to |evidence|
      invariant CitationsOf(evidence, {}) == result + CitationsOf(evidence[k..], seen)
    {
      var item := evidence[k];
      assert evidence[k..][1..] == evidence[k + 1..];
      if item.id !in seen && Citable(item) {
        seen := seen + {item.id};
        result := result + [item.Cite()];
      }
    }
  }

  /** The branches that choose the verdict and list what is missing. */
  method Decide(testOnly: bool, rs: seq<CheckResult>, es: seq<Evidence>) returns (kind: Verdict, missing: seq<Detail>)
    ensures kind == Classify(testOnly, rs, es)
    ensures Once(missing) == MissingProofs(kind, rs, es)
  {
    var passed, credible, regression := SomePassed(rs), Credible(es, testOnly), Regression(es);
    if SomeFailing(rs) {
      return Missing, Details(rs, Failing);
    }
    if rs != [] && AllNonAssessed(rs) {
      return Unverifiable, Details(rs, NonAssessed);
    }
    if passed && credible && regression && !Contradicted(es) && !SomeNonAssessed(rs) {
      return Verified, [];
    }
    if passed || credible {
      kind := Partial;
      missing := [];
      if !regression {
        missing := [RegressionAbsent];
      }
      missing := missing + Details(rs, NonAssessed);
      missing := missing + Details(rs, ProtectionGap);
      if Contradicted(es) {
        missing := missing + [ContradictionUnresolved];
      }
      assert missing == (if Regression(es) then [] else [RegressionAbsent])
        + Details(rs, NonAssessed) + Details(rs, ProtectionGap)
        + (if Contradicted(es) then [ContradictionUnresolved] else []);
      return;
    }
    return Missing, [NoCredibleEvidence];
  }

  method VerifyAction(
      run: Id, action: Id, requirements: seq<CompiledInvariant>, results: seq<CheckResult>,
      evidence: seq<Evidence>) returns (verdict: ActionVerdict)
    ensures verdict == VerdictOf(run, action, requirements, results, evidence)
  {
    var rs := RelevantResults(results, requirements);
    var es := RelevantEvidence(evidence, requirements);
    var citations := Cite(es);
    var kind, missing := Decide(TestOnly(requirements), rs, es);
    missing := Once(missing);
    if citations == [] && missing == [] {
      missing := [NothingCitable];
    }
    verdict := ActionVerdict(VerdictId(run, action), run, action, kind, RequirementIds(requirements), citations,
                             missing);
  }

  // ---------------------------------------------------------------------------------------------
  // Properties of every verdict
  // ---------------------------------------------------------------------------------------------

  lemma {:induction false} RelevantEvidenceMembers(evidence: seq<Evidence>, requirements: seq<CompiledInvariant>)
    ensures forall e :: e in RelevantEvidence(evidence, requirements) <==>
      e in evidence && HasRequirement(requirements, e.invariantId)
  {
    if evidence != [] {
      RelevantEvidenceMembers(evidence[1..], requirements);
      assert evidence == [evidence[0]] + evidence[1..];
    }
  }

  lemma {:induction false} RelevantResultsMembers(results: seq<CheckResult>, requirements: seq<CompiledInvariant>)
    ensures forall r :: r in RelevantResults(results, requirements) <==>
      r in results && HasRequirement(requirements, r.invariantId)
  {
    if results != [] {
      RelevantResultsMembers(results[1..], requirements);
      assert results == [results[0]] + results[1..];
    }
  }

  /** Only supporting and contradicting evidence is cited. */
  lemma {:induction false} CitationsSound(evidence: seq<Evidence>, seen: set<Id>, c: Citation) returns (e: Evidence)
    requires c in CitationsOf(evidence, seen)
    ensures e in evidence && Citable(e) && c == e.Cite() && e.id !in seen
  {
    if evidence[0].id in seen || !Citable(evidence[0]) {
      e := CitationsSound(evidence[1..], seen, c);
    } else if c == evidence[0].Cite() {
      e := evidence[0];
    } else {
      e := CitationsSound(evidence[1..], seen + {evidence[0].id}, c);
    }
  }

  /** Every identifier of supporting or contradicting evidence is cited. */
  lemma {:induction false} CitationsComplete(evidence: seq<Evidence>, seen: set<Id>, e: Evidence)
    requires e in evidence && Citable(e) && e.id !in seen
    ensures exists c :: c in CitationsOf(evidence, seen) && c.evidenceId == e.id
  {
    var first := evidence[0];
    assert evidence == [first] + evidence[1..];
    if first.id in seen || !Citable(first) {
      CitationsComplete(evidence[1..], seen, e);
    } else if first.id == e.id {
      assert first.Cite() in CitationsOf(evidence, seen);
    } else {
      CitationsComplete(evidence[1..], seen + {first.id}, e);
      var c :| c in CitationsOf(evidence[1..], seen + {first.id}) && c.evidenceId == e.id;
      assert c in CitationsOf(evidence, seen);
    }
  }

  predicate CitedOnce(citations: seq<Citation>) {
    forall i, j :: 0 <= i < j < |citations| ==> citations[i].evidenceId != citations[j].evidenceId
  }

  lemma CitedOnceCons(first: Citation, rest: seq<Citation>)
    requires CitedOnce(rest) && forall c :: c in rest ==> c.evidenceId != first.evidenceId
    ensures CitedOnce([first] + rest)
  {
    forall i, j | 0 <= i < j < |rest| + 1 ensures ([first] + rest)[i].evidenceId != ([first] + rest)[j].evidenceId {
      assert rest[j - 1] in rest;
    }
  }

  /** No identifier is cited twice. */
  lemma {:induction false} CitationsDistinct(evidence: seq<Evidence>, seen: set<Id>)
    ensures CitedOnce(CitationsOf(evidence, seen))
  {
    if evidence != [] {
      var first := evidence[0];
      if first.id in seen || !Citable(first) {
        CitationsDistinct(evidence[1..], seen);
      } else {
        CitationsDistinct(evidence[1..], seen + {first.id});
        var rest := CitationsOf(evidence[1..], seen + {first.id});
        forall c | c in rest ensures c.evidenceId != first.id {
          var e := CitationsSound(evidence[1..], seen + {first.id}, c);
        }
        CitedOnceCons(first.Cite(), rest);
      }
    }
  }

  /** Every verdict cites evidence or states what is missing, so its record never fails to validate. */
  lemma VerdictTraceable(
      run: Id, action: Id, requirements: seq<CompiledInvariant>, results: seq<CheckResult>, evidence: seq<Evidence>)
    ensures Traceable(VerdictOf(run, action, requirements, results, evidence))
  {
  }

  /** A failing required check always wins: no evidence makes its action anything but missing. */
  lemma FailureIsFinal(
      run: Id, action: Id, requirements: seq<CompiledInvariant>, results: seq<CheckResult>, evidence: seq<Evidence>,
      r: CheckResult)
    requires r in results && Failing(r) && HasRequirement(requirements, r.invariantId)
    ensures VerdictOf(run, action, requirements, results, evidence).verdict == Missing
  {
    RelevantResultsMembers(results, requirements);
  }

  /** The share of full marks, in percent; half marks for partial verdicts. */
  function Weight(verdict: Verdict): real {
    match verdict
    case Verified => 1.0
    case Partial => 0.5
    case _ => 0.0
  }

  function WeightSum(verdicts: seq<ActionVerdict>): (sum: real)
    ensures 0.0 <= sum <= |verdicts| as real
  {
    if verdicts == [] then 0.0 else WeightSum(verdicts[..|verdicts| - 1]) + Weight(verdicts[|verdicts| - 1].verdict)
  }

  function Coverage(verdicts: seq<ActionVerdict>): (share: real)
    ensures 0.0 <= share <= 100.0
  {
    if verdicts == [] then 0.0 else
      var sum, n := WeightSum(verdicts), |verdicts| as real;
      assert 0.0 <= sum / n <= 1.0;
      sum / n * 100.0
  }

  // ---------------------------------------------------------------------------------------------
  // De-duplication of evidence
  // ---------------------------------------------------------------------------------------------

  /** Assigning a dictionary entry: the place of the first occurrence, the value of the last. */
  function Put(evidence: seq<Evidence>, e: Evidence): seq<Evidence> {
    if evidence == [] then [e]
    else if evidence[0].id == e.id then [e] + evidence[1..]
    else [evidence[0]] + Put(evidence[1..], e)
  }

  /** `list({item.id: item for item in evidence}.values())` */
  function Deduplicate(evidence: seq<Evidence>): seq<Evidence> {
    if evidence == [] then []
    else Put(Deduplicate(evidence[..|evidence| - 1]), evidence[|evidence| - 1])
  }

  predicate DistinctEvidence(evidence: seq<Evidence>) {
    forall i, j :: 0 <= i < j < |evidence| ==> evidence[i].id != evidence[j].id
  }

  predicate HasId(evidence: seq<Evidence>, id: Id) {
    exists e :: e in evidence && e.id == id
  }

  lemma {:induction false} PutMembers(evidence: seq<Evidence>, e: Evidence)
    requires DistinctEvidence(evidence)
    ensures DistinctEvidence(Put(evidence, e))
    ensures forall x :: x in Put(evidence, e) <==> x == e || (x in evidence && x.id != e.id)
  {
    if evidence != [] {
      assert evidence == [evidence[0]] + evidence[1..];
      if evidence[0].id == e.id {
        forall x | x in evidence[1..] ensures x.id != e.id {
          var i :| 0 <= i < |evidence[1..]| && evidence[1..][i] == x;
          assert evidence[i + 1] == x;
        }
      } else {
        PutMembers(evidence[1..], e);
        var rest := Put(evidence[1..], e);
        forall i | 0 <= i < |rest| ensures rest[i].id != evidence[0].id {
          assert rest[i] in rest;
          if rest[i] != e {
            var j :| 0 <= j < |evidence[1..]| && evidence[1..][j] == rest[i];
          }
        }
      }
    }
  }

  /** De-duplication keeps one record of each identifier, taken from the list. */
  lemma {:induction false} DeduplicateMembers(evidence: seq<Evidence>)
    ensures DistinctEvidence(Deduplicate(evidence))
    ensures forall e :: e in Deduplicate(evidence) ==> e in evidence
    ensures forall e :: e in evidence ==> HasId(Deduplicate(evidence), e.id)
  {
    if evidence != [] {
      var k := |evidence| - 1;
      var before := Deduplicate(evidence[..k]);
      assert evidence == evidence[..k] + [evidence[k]];
      DeduplicateMembers(evidence[..k]);
      PutMembers(before, evidence[k]);
      forall e | e in evidence ensures HasId(Deduplicate(evidence), e.id) {
        if e.id == evidence[k].id {
          assert evidence[k] in Deduplicate(evidence);
        } else {
          var d :| d in before && d.id == e.id;
          assert d in Deduplicate(evidence);
        }
      }
    }
  }

  /** Records with one identifier agree on everything a verdict reads. */
  predicate SameLook(evidence: seq<Evidence>) {
    forall a, b :: a in evidence && b in evidence && a.id == b.id ==>
      a.invariantId == b.invariantId && a.kind == b.kind && a.role == b.role
  }

  predicate Shown(evidence: seq<Evidence>, kind: EvidenceKind, role: Role) {
    exists e :: e in evidence && e.kind == kind && e.role == role
  }

  /** A verdict reads evidence only as the set of kinds and roles it shows. */
  lemma ClassifyReadsLooks(testOnly: bool, results: seq<CheckResult>, a: seq<Evidence>, b: seq<Evidence>)
    requires forall kind, role :: Shown(a, kind, role) <==> Shown(b, kind, role)
    ensures Classify(testOnly, results, a) == Classify(testOnly, results, b)
  {
    LooksDecide(a, testOnly);
    LooksDecide(b, testOnly);
  }

  lemma LooksDecide(evidence: seq<Evidence>, testOnly: bool)
    ensures Credible(evidence, testOnly) <==>
      || Shown(evidence, Code, Supporting) || Shown(evidence, Configuration, Supporting)
      || (testOnly && Shown(evidence, Test, Supporting))
    ensures Regression(evidence) <==> Shown(evidence, Test, Supporting)
    ensures Contradicted(evidence) <==> exists kind :: Shown(evidence, kind, Contradictory)
  {
    if Contradicted(evidence) {
      var e :| e in evidence && e.role == Contradictory;
      assert Shown(evidence, e.kind, Contradictory);
    }
  }

  /** Relevant evidence shows the same before and after de-duplication. */
  lemma DeduplicationKeepsLooks(
      evidence: seq<Evidence>, requirements: seq<CompiledInvariant>, kind: EvidenceKind, role: Role)
    requires SameLook(evidence)
    ensures Shown(RelevantEvidence(evidence, requirements), kind, role)
       <==> Shown(RelevantEvidence(Deduplicate(evidence), requirements), kind, role)
  {
    var d := Deduplicate(evidence);
    DeduplicateMembers(evidence);
    RelevantEvidenceMembers(evidence, requirements);
    RelevantEvidenceMembers(d, requirements);
    if Shown(RelevantEvidence(evidence, requirements), kind, role) {
      var e :| e in RelevantEvidence(evidence, requirements) && e.kind == kind && e.role == role;
      var x :| x in d && x.id == e.id;
      assert x in RelevantEvidence(d, requirements);
    }
  }

  /** De-duplicating evidence never changes a verdict. */
  lemma DeduplicationKeepsVerdict(
      run: Id, action: Id, requirements: seq<CompiledInvariant>, results: seq<CheckResult>, evidence: seq<Evidence>)
    requires SameLook(evidence)
    ensures VerdictOf(run, action, requirements, results, evidence).verdict
         == VerdictOf(run, action, requirements, results, Deduplicate(evidence)).verdict
  {
    var es := RelevantEvidence(evidence, requirements);
    var ds := RelevantEvidence(Deduplicate(evidence), requirements);
    forall kind, role ensures Shown(es, kind, role) <==> Shown(ds, kind, role) {
      DeduplicationKeepsLooks(evidence, requirements, kind, role);
    }
    ClassifyReadsLooks(TestOnly(requirements), RelevantResults(results, requirements), es, ds);
  }
}
