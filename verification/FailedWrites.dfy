/** What is left when the artifact of an approved guard cannot be written. */
module FailedWrites {
  import opened Wrappers
  import opened Contracts
  import opened Database
  import opened Guards
  import opened GuardTables
  import opened Persistence
  import opened Snapshot

  /** The approval of a guard is recorded, and then writing its artifact fails. */
  predicate ApprovedUnwritten(db: Db, run: Id, id: Id, digest: Digest, d: Decision) {
    && CannotDecide(db, run, id, digest).None?
    && var g := db.guards[id];
       && d.allowed && g.digest == Sha256(g.preview) && !d.recordFails && d.write.WriteFails?
       && RecordDecision(db, g.(status := GuardWritten), GuardApproval(id, run, true, digest)).Some?
  }

  /**
   The request is refused, and the store is the earlier one exactly when taking the approval back
   succeeds.  When that fails too the approval stays, and the guard counts as written.
   */
  lemma FailedWrite(w: World, run: Id, id: Id, digest: Digest, d: Decision)
    requires Lifecycle(w.db) && ApprovedUnwritten(w.db, run, id, digest, d)
    ensures var (reply, after) := DecideStep(w, run, id, true, digest, d);
      && reply == Denied(RaisedReason)
      && (after.db == w.db <==> !d.restoreFails)
      && (d.restoreFails ==> after.db == DecidedDb(w.db, id, true))
      && after.artifacts == LeftBehind(w.artifacts, id, d.write.left)
  {
    var g := w.db.guards[id];
    assert GuardOk(w.db, id);
    DecisionMarks(w.db, id, true);
    FailedWriteRestores(w.db, id);
    assert DecidedDb(w.db, id, true).guards[id].status == GuardWritten;
  }

  /** An approval that stayed cannot be decided again, and runs only if the failed write left the whole preview. */
  lemma UnwrittenApprovalIsStuck(w: World, run: Id, id: Id, digest: Digest, d: Decision, again: Decision, a: Attempt)
    requires Lifecycle(w.db) && ApprovedUnwritten(w.db, run, id, digest, d) && d.restoreFails
    ensures var after := DecideStep(w, run, id, true, digest, d).1;
      && (forall approved, other ::
            DecideStep(after, run, id, approved, other, again) == (Denied(ConflictReason), after))
      && (d.write.left != Some(w.db.guards[id].preview) ==>
            ExecuteStep(after, run, id, a) == (Denied(UnsafeReason), after))
  {
    FailedWrite(w, run, id, digest, d);
  }

  // ---------------------------------------------------------------------------------------------
  // A store and a request for which taking the approval back fails
  // ---------------------------------------------------------------------------------------------

  /** A complete run with one missing action, and one preview for its requirement. */
  function OnePreview(run: RunSummary, a: ActionItem, r: CompiledInvariant, v: ActionVerdict, g: GuardSpec): Db {
    Db((id: Id) => 0, {run.projectId}, map[run.incidentId := Some(run.projectId)], [a], map[],
       map[run.id := RunRow(run.projectId, run.incidentId, run)],
       [Row(run.id, RequirementRec(r)), Row(run.id, VerdictRec(v))],
       map[g.id := g], map[], [])
  }

  predicate PreviewFor(run: RunSummary, a: ActionItem, r: CompiledInvariant, v: ActionVerdict, g: GuardSpec) {
    && run.status == Complete && r.actionId == a.id && v.actionId == a.id && v.verdict == Missing
    && g == GuardSpec(GuardId(run.id, a.id, r.id), run.id, a.id, r.id, g.preview, Sha256(g.preview), GuardPreviewed)
  }

  lemma SelectedRows(run: Id, r: CompiledInvariant, v: ActionVerdict)
    ensures var rows := [Row(run, RequirementRec(r)), Row(run, VerdictRec(v))];
      Select(rows, run, Requirements) == [RequirementRec(r)] && Select(rows, run, Verdicts) == [VerdictRec(v)]
  {
    var rows := [Row(run, RequirementRec(r)), Row(run, VerdictRec(v))];
    assert rows[1..] == [Row(run, VerdictRec(v))] && rows[1..][1..] == [];
    assert Select(rows[1..], run, Requirements) == [] && Select(rows[1..], run, Verdicts) == [VerdictRec(v)];
  }

  lemma OnePreviewGrounded(run: RunSummary, a: ActionItem, r: CompiledInvariant, v: ActionVerdict, g: GuardSpec)
    requires PreviewFor(run, a, r, v, g)
    ensures Grounded(OnePreview(run, a, r, v, g), g)
  {
    SelectedRows(run.id, r, v);
  }

  lemma OnePreviewIntegrity(run: RunSummary, a: ActionItem, r: CompiledInvariant, v: ActionVerdict, g: GuardSpec)
    requires PreviewFor(run, a, r, v, g)
    ensures Integrity(OnePreview(run, a, r, v, g))
  {
    var db := OnePreview(run, a, r, v, g);
    assert db.actions[0] == a && HasAction(db.actions, a.id);
    assert db.rows[0] == Row(run.id, RequirementRec(r)) && db.rows[0] in db.rows;
    assert HasOwnedRequirementRow(db.rows, run.id, r.id, a.id);
  }

  lemma OnePreviewSound(run: RunSummary, a: ActionItem, r: CompiledInvariant, v: ActionVerdict, g: GuardSpec)
    requires PreviewFor(run, a, r, v, g)
    ensures Sound(OnePreview(run, a, r, v, g))
  {
    var db := OnePreview(run, a, r, v, g);
    OnePreviewIntegrity(run, a, r, v, g);
    OnePreviewGrounded(run, a, r, v, g);
    assert GuardOk(db, g.id);
  }

  /** The write fails and leaves nothing, and taking the approval back fails: the approval stays. */
  lemma ApprovalStays(run: RunSummary, a: ActionItem, r: CompiledInvariant, v: ActionVerdict, g: GuardSpec)
    requires PreviewFor(run, a, r, v, g)
    ensures var w, d := World(OnePreview(run, a, r, v, g), map[]), Decision(true, false, WriteFails(None), true);
      && Sound(w.db) && ApprovedUnwritten(w.db, run.id, g.id, g.digest, d)
      && DecideStep(w, run.id, g.id, true, g.digest, d)
         == (Denied(RaisedReason), World(DecidedDb(w.db, g.id, true), map[]))
      && DecidedDb(w.db, g.id, true) != w.db
  {
    var w, d := World(OnePreview(run, a, r, v, g), map[]), Decision(true, false, WriteFails(None), true);
    OnePreviewSound(run, a, r, v, g);
    OnePreviewGrounded(run, a, r, v, g);
    SameGrounds(w.db, g, g.(status := GuardWritten));
    FailedWrite(w, run.id, g.id, g.digest, d);
  }

  /** Such a store, and such a request. */
  lemma FailingRestoreKeepsApproval() returns (w: World, run: Id, id: Id, digest: Digest, d: Decision)
    ensures Sound(w.db) && ApprovedUnwritten(w.db, run, id, digest, d) && d.restoreFails
    ensures DecideStep(w, run, id, true, digest, d).1.db != w.db
  {
    var budget := BudgetUsage(0, 1, 1, map[], 0);
    var summary :=
      RunSummary(Opaque("r"), Opaque("p"), Opaque("i"), Complete, 1, 1, map[Missing := 1], 0.0, budget, None);
    var a := ActionItem(ActionId(Opaque("i"), 0, "a"), Opaque("i"), "a", 0);
    var r := CompiledInvariant(InvariantId(a.id, "a"), a.id, "a", UnsupportedRequirement, Unsupported);
    var v := ActionVerdict(VerdictId(summary.id, a.id), summary.id, a.id, Missing, [r.id], [], [NothingCitable]);
    var g := GuardSpec(GuardId(summary.id, a.id, r.id), summary.id, a.id, r.id, "g", Sha256("g"), GuardPreviewed);
    ApprovalStays(summary, a, r, v, g);
    w, d := World(OnePreview(summary, a, r, v, g), map[]), Decision(true, false, WriteFails(None), true);
    run, id, digest := summary.id, g.id, g.digest;
  }
}
