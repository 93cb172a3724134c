/** The validator every audit snapshot passes before it is stored and after it is loaded. */
module Snapshot {
  import opened Wrappers
  import opened Contracts
  import EvidenceGraph

  /** What the validator reads from the store. */
  datatype Facts = Facts(projectKnown: bool, incident: Option<Incident>, owner: Option<(Id, Id)>)

  /** The run belongs to a known project that owns its incident, and never changes hands. */
  predicate OwnershipValid(facts: Facts, s: AuditState) {
    && facts.projectKnown
    && facts.incident.Some? && facts.incident.value.id == s.summary.incidentId
    && facts.incident.value.projectId == Some(s.summary.projectId)
    && (facts.owner.Some? ==> facts.owner.value == (s.summary.projectId, s.summary.incidentId))
  }

  predicate HasAction(actions: seq<ActionItem>, id: Id) {
    exists a :: a in actions && a.id == id
  }

  predicate RequirementOwned(requirements: seq<CompiledInvariant>, id: Id, action: Id) {
    exists i :: i in requirements && i.id == id && i.actionId == action
  }

  predicate SpecOwned(specs: seq<CheckSpec>, id: Id, requirement: Id) {
    exists spec :: spec in specs && spec.id == id && spec.invariantId == requirement
  }

  predicate EvidenceAbout(evidence: seq<Evidence>, id: Id, requirement: Id) {
    exists e :: e in evidence && e.id == id && e.invariantId == requirement
  }

  predicate CitationOwned(evidence: seq<Evidence>, citation: Citation, action: Id) {
    exists e :: e in evidence && e.actionId == action && e.Cite() == citation
  }

  /** The snapshot's actions are exactly the incident's. */
  predicate ActionsValid(s: AuditState, incident: Incident) {
    && (forall i, j :: 0 <= i < j < |s.actions| ==> s.actions[i].id != s.actions[j].id)
    && (forall a :: a in s.actions ==> a in incident.actions)
    && (forall a :: a in incident.actions ==> a in s.actions)
  }

  predicate RequirementsValid(s: AuditState) {
    && (forall i, j :: 0 <= i < j < |s.invariants| ==> s.invariants[i].id != s.invariants[j].id)
    && (forall i :: i in s.invariants ==> HasAction(s.actions, i.actionId))
  }

  predicate SpecsValid(s: AuditState) {
    && (forall i, j :: 0 <= i < j < |s.specs| ==> s.specs[i].id != s.specs[j].id)
    && (forall spec :: spec in s.specs ==> HasRequirement(s.invariants, spec.invariantId))
  }

  predicate EvidenceValid(s: AuditState) {
    && (forall i, j :: 0 <= i < j < |s.evidence| ==> s.evidence[i].id != s.evidence[j].id)
    && (forall e :: e in s.evidence ==>
          e.runId == s.summary.id && RequirementOwned(s.invariants, e.invariantId, e.actionId))
  }

  predicate ResultsValid(s: AuditState) {
    && (forall i, j :: 0 <= i < j < |s.results| ==> s.results[i].id != s.results[j].id)
    && (forall r :: r in s.results ==>
          && r.runId == s.summary.id
          && SpecOwned(s.specs, r.specId, r.invariantId)
          && forall id :: id in r.evidenceIds ==> EvidenceAbout(s.evidence, id, r.invariantId))
  }

  predicate VerdictsValid(s: AuditState) {
    && (forall i, j :: 0 <= i < j < |s.verdicts| ==> s.verdicts[i].id != s.verdicts[j].id)
    && (forall v :: v in s.verdicts ==>
          && v.runId == s.summary.id
          && HasAction(s.actions, v.actionId)
          && (forall id :: id in v.invariantIds ==> RequirementOwned(s.invariants, id, v.actionId))
          && (forall c :: c in v.citations ==> CitationOwned(s.evidence, c, v.actionId)))
  }

  predicate EventsValid(s: AuditState) {
    && (forall i, j :: 0 <= i < j < |s.events| ==> s.events[i].id != s.events[j].id)
    && (forall i, j :: 0 <= i < j < |s.events| ==> s.events[i].sequence != s.events[j].sequence)
    && (forall e :: e in s.events ==> e.runId == s.summary.id)
  }

  predicate RoundsValid(s: AuditState) {
    forall id :: id in s.summary.budget.rounds ==> HasRequirement(s.invariants, id)
  }

  function RecordsOf(s: AuditState): EvidenceGraph.Records {
    EvidenceGraph.Records(s.summary.incidentId, s.actions, s.invariants, s.evidence, s.results, s.verdicts)
  }

  /** A graph that is present matches the records; a complete run with records has one. */
  predicate GraphValid(s: AuditState) {
    if s.nodes != [] || s.edges != [] then
      EvidenceGraph.Accepts(s.nodes, s.edges, s.summary.id, EvidenceGraph.ShapeOf(RecordsOf(s)))
    else
      s.summary.status == Complete ==>
        s.actions == [] && s.invariants == [] && s.evidence == [] && s.results == [] && s.verdicts == []
  }

  /** Everything but the graph and the store's facts. */
  predicate ContentValid(s: AuditState) {
    && RequirementsValid(s) && SpecsValid(s) && EvidenceValid(s) && ResultsValid(s)
    && VerdictsValid(s) && EventsValid(s) && RoundsValid(s)
  }

  predicate ValidSnapshot(facts: Facts, s: AuditState) {
    && OwnershipValid(facts, s)
    && ActionsValid(s, facts.incident.value)
    && ContentValid(s)
    && GraphValid(s)
  }

  /** What the record types themselves accept; reading a stored record checks it again. */
  predicate RecordsOk(s: AuditState) {
    && s.summary.budget.Valid()
    && (forall e :: e in s.evidence ==> LinesOrdered(e.lineStart, e.lineEnd))
    && (forall r :: r in s.results ==> ResultConsistent(r))
    && (forall v :: v in s.verdicts ==> Traceable(v))
  }
}
