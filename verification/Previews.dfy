/** The guards generated for a complete audit are always accepted by the store. */
module Previews {
  import opened Wrappers
  import opened Contracts
  import opened Database
  import opened Guards
  import opened GuardTables
  import opened Persistence
  import opened Snapshot

  predicate OneVerdictEach(verdicts: seq<ActionVerdict>) {
    forall i, j :: 0 <= i < j < |verdicts| ==> verdicts[i].actionId != verdicts[j].actionId
  }

  /** The first requirement row with an identifier is the loaded requirement with it. */
  lemma {:induction false} RequirementRowFound(recs: seq<Rec>, id: Id)
    ensures match FindRequirement(recs, id)
      case Some(i) => i.id == id && RequirementRec(i) in recs
      case None => forall rec :: rec in recs && rec.RequirementRec? ==> rec.requirement.id != id
  {
    if recs != [] {
      RequirementRowFound(recs[1..], id);
      assert recs == [recs[0]] + recs[1..];
    }
  }

  lemma {:induction false} VerdictRowFound(recs: seq<Rec>, action: Id)
    ensures match FindVerdict(recs, action)
      case Some(v) => v.actionId == action && VerdictRec(v) in recs
      case None => forall rec :: rec in recs && rec.VerdictRec? ==> rec.verdict.actionId != action
  {
    if recs != [] {
      VerdictRowFound(recs[1..], action);
      assert recs == [recs[0]] + recs[1..];
    }
  }

  lemma AssembledRequirements(rows: seq<Row>, summary: RunSummary, actions: seq<ActionItem>, id: Id)
    ensures var recs, invariants := Select(rows, summary.id, Requirements), Assemble(rows, summary, actions).invariants;
      match FindRequirement(recs, id)
      case Some(i) => i.id == id && i in invariants
      case None => !HasRequirement(invariants, id)
  {
    var recs, invariants := Select(rows, summary.id, Requirements), Assemble(rows, summary, actions).invariants;
    RequirementRowFound(recs, id);
    assert |invariants| == |recs| && forall k :: 0 <= k < |recs| ==> invariants[k] == recs[k].requirement;
    var found := FindRequirement(recs, id);
    if found.Some? {
      var k :| 0 <= k < |recs| && recs[k] == RequirementRec(found.value);
      assert invariants[k] == found.value;
    } else {
      forall i | i in invariants ensures i.id != id {
        var k :| 0 <= k < |invariants| && invariants[k] == i;
        assert recs[k] in recs && recs[k].RequirementRec?;
      }
    }
  }

  lemma AssembledVerdicts(rows: seq<Row>, summary: RunSummary, actions: seq<ActionItem>, action: Id)
    ensures var recs, verdicts := Select(rows, summary.id, Verdicts), Assemble(rows, summary, actions).verdicts;
      match FindVerdict(recs, action)
      case Some(v) => v.actionId == action && v in verdicts
      case None => forall v :: v in verdicts ==> v.actionId != action
  {
    var recs, verdicts := Select(rows, summary.id, Verdicts), Assemble(rows, summary, actions).verdicts;
    VerdictRowFound(recs, action);
    assert |verdicts| == |recs| && forall k :: 0 <= k < |recs| ==> verdicts[k] == recs[k].verdict;
    var found := FindVerdict(recs, action);
    if found.Some? {
      var k :| 0 <= k < |recs| && recs[k] == VerdictRec(found.value);
      assert verdicts[k] == found.value;
    } else {
      forall v | v in verdicts ensures v.actionId != action {
        var k :| 0 <= k < |verdicts| && verdicts[k] == v;
        assert recs[k] in recs && recs[k].VerdictRec?;
      }
    }
  }

  /** What a loaded snapshot shares with the rows of its run. */
  lemma LoadedAssembled(db: Db, run: Id)
    requires Integrity(db) && LoadState(db, run).Loaded?
    ensures var s := LoadState(db, run).state;
      var summary := db.runs[run].summary;
      var stored := Assemble(db.rows, summary.(budget := StoredBudget(db.rows, summary)),
                             LoadIncident(db, summary.incidentId).value.actions);
      && summary.id == run && s.summary.id == run && s.summary.status == summary.status
      && s.invariants == stored.invariants && s.verdicts == stored.verdicts
      && ValidSnapshot(FactsFor(db, summary), s)
      && (forall a :: a in s.actions ==> a in db.actions)
  {
    ActionsOfMembers(db.actions, db.runs[run].summary.incidentId, db.position);
  }

  /** The grounds of a guard are found in the loaded snapshot. */
  lemma GroundsLoaded(db: Db, run: Id, g: GuardSpec, v: ActionVerdict)
    requires Integrity(db) && LoadState(db, run).Loaded?
    requires var s := LoadState(db, run).state;
      && s.summary.status == Complete && OneVerdictEach(s.verdicts)
      && v in s.verdicts && (v.verdict == Partial || v.verdict == Missing)
      && g.runId == run && g.actionId == v.actionId && RequirementOwned(s.invariants, g.invariantId, g.actionId)
    ensures Grounded(db, g)
  {
    var s := LoadState(db, run).state;
    var summary := db.runs[run].summary;
    var actions := LoadIncident(db, summary.incidentId).value.actions;
    LoadedAssembled(db, run);
    AssembledRequirements(db.rows, summary.(budget := StoredBudget(db.rows, summary)), actions, g.invariantId);
    AssembledVerdicts(db.rows, summary.(budget := StoredBudget(db.rows, summary)), actions, g.actionId);
    UniqueRequirement(s, g.invariantId, g.actionId);
    UniqueVerdict(s.verdicts, v);
  }

  lemma UniqueRequirement(s: AuditState, id: Id, action: Id)
    requires RequirementsValid(s) && RequirementOwned(s.invariants, id, action)
    ensures HasRequirement(s.invariants, id)
    ensures forall i :: i in s.invariants && i.id == id ==> i.actionId == action
  {
    var a :| a in s.invariants && a.id == id && a.actionId == action;
    forall i | i in s.invariants && i.id == id ensures i == a {
      var j :| 0 <= j < |s.invariants| && s.invariants[j] == i;
      var k :| 0 <= k < |s.invariants| && s.invariants[k] == a;
    }
  }

  lemma UniqueVerdict(verdicts: seq<ActionVerdict>, v: ActionVerdict)
    requires OneVerdictEach(verdicts) && v in verdicts
    ensures forall w :: w in verdicts && w.actionId == v.actionId ==> w == v
  {
    forall w | w in verdicts && w.actionId == v.actionId ensures w == v {
      var j :| 0 <= j < |verdicts| && verdicts[j] == w;
      var k :| 0 <= k < |verdicts| && verdicts[k] == v;
    }
  }

  lemma RequirementRowStored(rows: seq<Row>, run: Id, recs: seq<Rec>, i: CompiledInvariant)
    requires recs == Select(rows, run, Requirements) && RequirementRec(i) in recs
    ensures HasOwnedRequirementRow(rows, run, i.id, i.actionId)
  {
    SelectedIsStored(rows, run, Requirements, RequirementRec(i));
  }

  lemma {:induction false} SelectedIsStored(rows: seq<Row>, run: Id, table: Table, rec: Rec)
    requires rec in Select(rows, run, table)
    ensures Row(run, rec) in rows
  {
    assert rows == [rows[0]] + rows[1..];
    if !(rows[0].run == run && TableOf(rows[0].rec) == table && rows[0].rec == rec) {
      SelectedIsStored(rows[1..], run, table, rec);
    }
  }

  /** A grounded guard on a known action meets its foreign keys. */
  lemma GroundedMeetsKeys(db: Db, g: GuardSpec)
    requires Grounded(db, g) && HasAction(db.actions, g.actionId)
    ensures GuardRefsHold(db, db.rows, g)
  {
    var recs := Select(db.rows, g.runId, Requirements);
    RequirementRowFound(recs, g.invariantId);
    RequirementRowStored(db.rows, g.runId, recs, FindRequirement(recs, g.invariantId).value);
  }

  predicate Acceptable(db: Db, g: GuardSpec) {
    Grounded(db, g) && HasAction(db.actions, g.actionId)
  }

  /** A guard made from a verdict of the loaded snapshot is acceptable. */
  lemma GeneratedAcceptable(db: Db, run: Id, texts: Id -> Option<string>, v: ActionVerdict, g: GuardSpec)
    requires Integrity(db) && LoadState(db, run).Loaded?
    requires var s := LoadState(db, run).state;
      && s.summary.status == Complete && OneVerdictEach(s.verdicts) && v in s.verdicts
      && g in GuardsFor(s, v, texts)
    ensures Acceptable(db, g)
  {
    var s := LoadState(db, run).state;
    LoadedAssembled(db, run);
    assert v.invariantIds[0] in v.invariantIds;
    GroundsLoaded(db, run, g, v);
    var a :| a in s.actions && a.id == v.actionId;
    assert a in db.actions;
  }

  lemma {:induction false} GeneratedFrom(
      s: AuditState, verdicts: seq<ActionVerdict>, texts: Id -> Option<string>, g: GuardSpec)
    returns (v: ActionVerdict)
    requires g in Generate(s, verdicts, texts)
    ensures v in verdicts && g in GuardsFor(s, v, texts)
  {
    if g in GuardsFor(s, verdicts[0], texts) {
      v := verdicts[0];
    } else {
      v := GeneratedFrom(s, verdicts[1..], texts, g);
    }
  }

  lemma {:induction false} AcceptableSaved(db: Db, guards: seq<GuardSpec>, k: nat)
    requires k <= |guards| && forall g :: g in guards ==> Acceptable(db, g)
    ensures SavePreviews(db, guards, None, k).0
    decreases |guards| - k
  {
    if k < |guards| {
      var g := guards[k];
      assert g in guards;
      GroundedMeetsKeys(db, g);
      var next := SaveGuard(db, g).value;
      forall h | h in guards ensures Acceptable(next, h) {
        GroundedIgnoresGuards(db, next, h);
        assert Acceptable(db, h);
      }
      AcceptableSaved(next, guards, k + 1);
    }
  }

  /** Without storage failures, previewing a complete audit with one verdict per action is never refused. */
  lemma CompleteAuditPreviews(w: World, run: Id, texts: Id -> Option<string>)
    requires Integrity(w.db) && LoadState(w.db, run).Loaded?
    requires var s := LoadState(w.db, run).state;
      s.summary.status == Complete && OneVerdictEach(s.verdicts)
    ensures PreviewStep(w, run, texts, None).0.Previews?
  {
    var s := LoadState(w.db, run).state;
    var guards := Generate(s, s.verdicts, texts);
    forall g | g in guards ensures Acceptable(w.db, g) {
      var v := GeneratedFrom(s, s.verdicts, texts, g);
      GeneratedAcceptable(w.db, run, texts, v, g);
    }
    AcceptableSaved(w.db, guards, 0);
  }

  // ---------------------------------------------------------------------------------------------
  // A preview that is cut off
  // ---------------------------------------------------------------------------------------------

  /** The guards of a list from the one numbered `k` up to the one numbered `n`. */
  function IdsBetween(guards: seq<GuardSpec>, k: nat, n: nat): set<Id>
    requires n <= |guards|
  {
    set i | k <= i < n :: guards[i].id
  }

  lemma SavedIsListed(db: Db, run: Id, g: GuardSpec)
    requires Fresh(g, run) && SaveGuard(db, g).Some? && (g.id in db.guards ==> db.guards[g.id].runId == run)
    ensures GuardsOfRun(SaveGuard(db, g).value, run) == GuardsOfRun(db, run) + {g.id}
    ensures OnlyGuardTables(db, SaveGuard(db, g).value)
  {
  }

  /** Under a guard's identifier there are only guards of its run. */
  predicate NamedByRun(db: Db) {
    forall id :: id in db.guards && id.GuardId? ==> id.run == db.guards[id].runId
  }

  predicate AllReady(db: Db, run: Id, guards: seq<GuardSpec>) {
    forall g :: g in guards ==> Acceptable(db, g) && Fresh(g, run)
  }

  lemma StaysReady(before: Db, after: Db, run: Id, guards: seq<GuardSpec>)
    requires AllReady(before, run, guards) && OnlyGuardTables(before, after)
    ensures AllReady(after, run, guards)
  {
    forall g | g in guards ensures Acceptable(after, g) && Fresh(g, run) {
      GroundedIgnoresGuards(before, after, g);
      assert Acceptable(before, g);
    }
  }

  lemma NextSaved(db: Db, run: Id, g: GuardSpec)
    requires NamedByRun(db) && Acceptable(db, g) && Fresh(g, run)
    ensures SaveGuard(db, g).Some?
    ensures var next := SaveGuard(db, g).value;
      NamedByRun(next) && OnlyGuardTables(db, next) && GuardsOfRun(next, run) == GuardsOfRun(db, run) + {g.id}
  {
    GroundedMeetsKeys(db, g);
    SavedIsListed(db, run, g);
  }

  lemma {:induction false} CutSaves(db: Db, run: Id, guards: seq<GuardSpec>, k: nat, n: nat)
    requires k <= n < |guards| && NamedByRun(db) && AllReady(db, run, guards)
    ensures var (ok, after) := SavePreviews(db, guards, Some(n), k);
      && !ok && OnlyGuardTables(db, after)
      && GuardsOfRun(after, run) == GuardsOfRun(db, run) + IdsBetween(guards, k, n)
    decreases n - k
  {
    if k < n {
      var g := guards[k];
      assert g in guards;
      NextSaved(db, run, g);
      var next := SaveGuard(db, g).value;
      StaysReady(db, next, run, guards);
      CutSaves(next, run, guards, k + 1, n);
      assert IdsBetween(guards, k, n) == {g.id} + IdsBetween(guards, k + 1, n);
    }
  }

  lemma LoadIgnoresGuards(before: Db, after: Db, run: Id)
    requires OnlyGuardTables(before, after)
    ensures LoadState(after, run) == LoadState(before, run)
  {
  }

  lemma {:induction false} GeneratedApart(s: AuditState, verdicts: seq<ActionVerdict>, texts: Id -> Option<string>)
    requires OneVerdictEach(verdicts)
    ensures var guards := Generate(s, verdicts, texts);
      && (forall g :: g in guards ==> exists v :: v in verdicts && v.actionId == g.actionId)
      && (forall i, j :: 0 <= i < j < |guards| ==> guards[i].actionId != guards[j].actionId)
  {
    if verdicts != [] {
      GeneratedApart(s, verdicts[1..], texts);
      assert verdicts == [verdicts[0]] + verdicts[1..];
      forall g | g in Generate(s, verdicts[1..], texts) ensures g.actionId != verdicts[0].actionId {
        var v :| v in verdicts[1..] && v.actionId == g.actionId;
        var i :| 0 <= i < |verdicts[1..]| && verdicts[1..][i] == v;
        assert verdicts[i + 1] == v;
      }
    }
  }

  lemma PreviewSaves(w: World, run: Id, s: AuditState, texts: Id -> Option<string>, failAt: Option<nat>)
    requires LoadState(w.db, run) == Loaded(s) && s.summary.status == Complete && GuardsOfRun(w.db, run) == {}
    ensures var guards := Generate(s, s.verdicts, texts);
      var (ok, db) := SavePreviews(w.db, guards, failAt, 0);
      PreviewStep(w, run, texts, failAt)
      == (if ok then Previews(set g | g in guards :: g.id) else Denied(RaisedReason), w.(db := db))
  {
  }

  lemma PreviewReturns(w: World, run: Id, s: AuditState, texts: Id -> Option<string>, failAt: Option<nat>)
    requires LoadState(w.db, run) == Loaded(s) && s.summary.status == Complete && GuardsOfRun(w.db, run) != {}
    ensures PreviewStep(w, run, texts, failAt) == (Previews(GuardsOfRun(w.db, run)), w)
  {
  }

  lemma SoundNames(db: Db)
    requires Lifecycle(db)
    ensures NamedByRun(db)
  {
    forall id | id in db.guards && id.GuardId? ensures id.run == db.guards[id].runId {
      assert GuardOk(db, id);
    }
  }

  lemma GeneratedReady(db: Db, s: AuditState, texts: Id -> Option<string>)
    requires Integrity(db) && LoadState(db, s.summary.id) == Loaded(s)
    requires s.summary.status == Complete && OneVerdictEach(s.verdicts)
    ensures AllReady(db, s.summary.id, Generate(s, s.verdicts, texts))
  {
    var guards := Generate(s, s.verdicts, texts);
    GeneratedFresh(s, s.verdicts, texts);
    forall g | g in guards ensures Acceptable(db, g) {
      var v := GeneratedFrom(s, s.verdicts, texts, g);
      GeneratedAcceptable(db, s.summary.id, texts, v, g);
    }
  }

  lemma RestLeftOut(s: AuditState, texts: Id -> Option<string>, k: nat)
    requires OneVerdictEach(s.verdicts) && k <= |Generate(s, s.verdicts, texts)|
    ensures var guards := Generate(s, s.verdicts, texts);
      forall j :: k <= j < |guards| ==> guards[j].id !in IdsBetween(guards, 0, k)
  {
    var guards := Generate(s, s.verdicts, texts);
    GeneratedApart(s, s.verdicts, texts);
    GeneratedFresh(s, s.verdicts, texts);
    forall i, j | 0 <= i < k <= j < |guards| ensures guards[i].id != guards[j].id {
      assert guards[i] in guards && guards[j] in guards;
    }
  }

  /** The store that a cut preview leaves. */
  lemma CutLeaves(db: Db, s: AuditState, guards: seq<GuardSpec>, k: nat)
    requires NamedByRun(db) && AllReady(db, s.summary.id, guards) && GuardsOfRun(db, s.summary.id) == {}
    requires LoadState(db, s.summary.id) == Loaded(s) && 0 < k < |guards|
    ensures var (ok, cut) := SavePreviews(db, guards, Some(k), 0);
      && !ok && GuardsOfRun(cut, s.summary.id) == IdsBetween(guards, 0, k) != {}
      && LoadState(cut, s.summary.id) == Loaded(s)
  {
    CutSaves(db, s.summary.id, guards, 0, k);
    LoadIgnoresGuards(db, SavePreviews(db, guards, Some(k), 0).1, s.summary.id);
    assert guards[0].id in IdsBetween(guards, 0, k);
  }

  /**
   A preview whose save numbered `k` fails is refused, but the first `k` guards stay; when there are
   any, every later preview returns these and changes nothing, so the others are never made.
   */
  lemma CutPreviewSticks(
      w: World, s: AuditState, texts: Id -> Option<string>, k: nat, texts': Id -> Option<string>, failAt: Option<nat>)
    requires Sound(w.db) && LoadState(w.db, s.summary.id) == Loaded(s) && GuardsOfRun(w.db, s.summary.id) == {}
    requires s.summary.status == Complete && OneVerdictEach(s.verdicts) && 0 < k < |Generate(s, s.verdicts, texts)|
    ensures var guards, run := Generate(s, s.verdicts, texts), s.summary.id;
      var (reply, cut) := PreviewStep(w, run, texts, Some(k));
      && reply == Denied(RaisedReason)
      && GuardsOfRun(cut.db, run) == IdsBetween(guards, 0, k)
      && (forall j :: k <= j < |guards| ==> guards[j].id !in GuardsOfRun(cut.db, run))
      && PreviewStep(cut, run, texts', failAt) == (Previews(IdsBetween(guards, 0, k)), cut)
  {
    var guards, run := Generate(s, s.verdicts, texts), s.summary.id;
    GeneratedReady(w.db, s, texts);
    SoundNames(w.db);
    CutLeaves(w.db, s, guards, k);
    RestLeftOut(s, texts, k);
    PreviewSaves(w, run, s, texts, Some(k));
    PreviewReturns(w.(db := SavePreviews(w.db, guards, Some(k), 0).1), run, s, texts', failAt);
  }
}
