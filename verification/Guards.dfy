/** The lifecycle of generated guards: preview, one decision, artifact, executions. */
module Guards {
  import opened Wrappers
  import opened Contracts
  import opened Database
  import opened GuardTables
  import opened Persistence
  import opened Snapshot
  import IncidentTables
  import Storage

  // ---------------------------------------------------------------------------------------------
  // The operations
  // ---------------------------------------------------------------------------------------------

  /** The store and the artifacts that were written, by guard. */
  datatype World = World(db: Db, artifacts: map<Id, string>)

  /** How writing an artifact ends; a failed write leaves anything or nothing behind. */
  datatype Write = WriteDone | WriteFails(left: Option<string>)

  /** How the process that runs an artifact ends. */
  datatype Exit = ExitZero | ExitNonZero | ExitTimeout | NoProcess

  /** A request, with what its surroundings do; storage failures and edits to artifacts included. */
  datatype Op =
    | Preview(run: Id, texts: Id -> Option<string>, failAt: Option<nat>)
    | Decide(run: Id, guard: Id, approved: bool, digest: Digest, decision: Decision)
    | Execute(run: Id, guard: Id, attempt: Attempt)
    | Edit(guard: Id, content: Option<string>)
    | StoreSnapshot(state: AuditState, fault: Option<nat>)
    | StoreIncident(incident: Incident, fails: bool)

  /** `allowed`: the project is there for the runner, which accepts the template and size of the preview. */
  datatype Decision = Decision(allowed: bool, recordFails: bool, write: Write, restoreFails: bool)

  /** `allowed`: the runner accepts the preview and finds no symbolic link in the artifact's path. */
  datatype Attempt = Attempt(allowed: bool, exit: Exit, moment: nat, saveFails: bool)

  datatype Reply =
    | Previews(ids: set<Id>)
    | Decided(guard: GuardSpec)
    | Ran(execution: GuardExecution)
    | Unit
    | Denied(reason: Reason)

  datatype Reason = NotFoundReason | ConflictReason | UnsafeReason | RaisedReason

  function GuardStatusOf(exit: Exit): GuardStatus {
    match exit
    case ExitZero => GuardPassed
    case ExitNonZero => GuardFailed
    case ExitTimeout => GuardTimedOut
    case NoProcess => GuardError
  }

  /** The preview for a verdict, unless it is settled or its first requirement gets no text. */
  function GuardsFor(s: AuditState, v: ActionVerdict, texts: Id -> Option<string>): seq<GuardSpec> {
    if (v.verdict != Partial && v.verdict != Missing) || !HasAction(s.actions, v.actionId) || v.invariantIds == []
    then []
    else
      var requirement := v.invariantIds[0];
      match texts(requirement)
      case None => []
      case Some(text) =>
        if !HasRequirement(s.invariants, requirement) then []
        else
          [GuardSpec(GuardId(s.summary.id, v.actionId, requirement), s.summary.id, v.actionId, requirement,
                     text, Sha256(text), GuardPreviewed)]
  }

  function Generate(s: AuditState, verdicts: seq<ActionVerdict>, texts: Id -> Option<string>): seq<GuardSpec> {
    if verdicts == [] then [] else GuardsFor(s, verdicts[0], texts) + Generate(s, verdicts[1..], texts)
  }

  /** Save the previews one transaction after another; the one numbered `failAt` fails. */
  function SavePreviews(db: Db, guards: seq<GuardSpec>, failAt: Option<nat>, k: nat): (bool, Db)
    requires k <= |guards|
    decreases |guards| - k
  {
    if k == |guards| then (true, db)
    else if failAt == Some(k) then (false, db)
    else
      match SaveGuard(db, guards[k])
      case None => (false, db)
      case Some(next) => SavePreviews(next, guards, failAt, k + 1)
  }

  function GuardsOfRun(db: Db, run: Id): set<Id> {
    set id | id in db.guards && db.guards[id].runId == run
  }

  function PreviewStep(w: World, run: Id, texts: Id -> Option<string>, failAt: Option<nat>): (Reply, World) {
    match LoadState(w.db, run)
    case NoRun => (Denied(NotFoundReason), w)
    case Unreadable => (Denied(RaisedReason), w)
    case Loaded(s) =>
      if s.summary.status != Complete then (Denied(ConflictReason), w)
      else if GuardsOfRun(w.db, run) != {} then (Previews(GuardsOfRun(w.db, run)), w)
      else
        var guards := Generate(s, s.verdicts, texts);
        var (ok, db) := SavePreviews(w.db, guards, failAt, 0);
        (if ok then Previews(set g | g in guards :: g.id) else Denied(RaisedReason), w.(db := db))
  }

  /** The artifact as a failed write leaves it. */
  function LeftBehind(artifacts: map<Id, string>, guard: Id, left: Option<string>): map<Id, string> {
    if left.Some? then artifacts[guard := left.value] else artifacts - {guard}
  }

  function RejectStep(w: World, g: GuardSpec, d: Decision): (Reply, World) {
    var rejected := g.(status := GuardRejected);
    var next := RecordDecision(w.db, rejected, GuardApproval(g.id, g.runId, false, g.digest));
    if d.recordFails || next.None? then (Denied(RaisedReason), w) else (Decided(rejected), w.(db := next.value))
  }

  /** Write the artifact of an approved guard, and take the approval back if writing fails. */
  function WriteStep(w: World, g: GuardSpec, d: Decision): (Reply, World) {
    match d.write
    case WriteDone => (Decided(g.(status := GuardWritten)), w.(artifacts := w.artifacts[g.id := g.preview]))
    case WriteFails(left) =>
      var restored := RestorePreview(w.db, g);
      (Denied(RaisedReason),
       World(if d.restoreFails || restored.None? then w.db else restored.value, LeftBehind(w.artifacts, g.id, left)))
  }

  function ApproveStep(w: World, g: GuardSpec, d: Decision): (Reply, World) {
    var next := RecordDecision(w.db, g.(status := GuardWritten), GuardApproval(g.id, g.runId, true, g.digest));
    if !d.allowed || g.digest != Sha256(g.preview) || d.recordFails || next.None? then (Denied(RaisedReason), w)
    else WriteStep(w.(db := next.value), g, d)
  }

  /** Why a decision is refused before anything is recorded. */
  function CannotDecide(db: Db, run: Id, id: Id, digest: Digest): Option<Reason> {
    if id !in db.guards || db.guards[id].runId != run then Some(NotFoundReason)
    else if db.guards[id].status != GuardPreviewed || digest != db.guards[id].digest then Some(ConflictReason)
    else None
  }

  function DecideStep(w: World, run: Id, id: Id, approved: bool, digest: Digest, d: Decision): (Reply, World) {
    match CannotDecide(w.db, run, id, digest)
    case Some(reason) => (Denied(reason), w)
    case None => if approved then ApproveStep(w, w.db.guards[id], d) else RejectStep(w, w.db.guards[id], d)
  }

  predicate Settled(status: GuardStatus) {
    status != GuardPreviewed && status != GuardRejected
  }

  function RunStep(w: World, g: GuardSpec, a: Attempt): (Reply, World) {
    if !a.allowed || g.id !in w.artifacts || Sha256(w.artifacts[g.id]) != g.digest then (Denied(UnsafeReason), w)
    else
      var status := GuardStatusOf(a.exit);
      var x := GuardExecution(ExecutionId(g.id, a.moment), g.id, g.runId, status, Sha256(w.artifacts[g.id]));
      var next := SaveExecution(w.db, g.(status := status), x);
      if a.saveFails || next.None? then (Denied(RaisedReason), w) else (Ran(x), w.(db := next.value))
  }

  /** Why an execution is refused before the artifact is looked at. */
  function CannotExecute(db: Db, run: Id, id: Id): Option<Reason> {
    if id !in db.guards || db.guards[id].runId != run then Some(NotFoundReason)
    else if !Settled(db.guards[id].status) || id !in db.approvals || !db.approvals[id].approved
            || db.approvals[id].digest != db.guards[id].digest then Some(ConflictReason)
    else None
  }

  function ExecuteStep(w: World, run: Id, id: Id, a: Attempt): (Reply, World) {
    match CannotExecute(w.db, run, id)
    case Some(reason) => (Denied(reason), w)
    case None => RunStep(w, w.db.guards[id], a)
  }

  function IncidentAfter(db: Db, incident: Incident, fails: bool): Db {
    if fails || !IncidentTables.IncidentAccepted(db, incident) then db
    else
      match IncidentTables.SaveIncidentEffect(db, incident)
      case None => db
      case Some(after) => after
  }

  function Step(w: World, op: Op): (Reply, World) {
    match op
    case Preview(run, texts, failAt) => PreviewStep(w, run, texts, failAt)
    case Decide(run, guard, approved, digest, decision) => DecideStep(w, run, guard, approved, digest, decision)
    case Execute(run, guard, attempt) => ExecuteStep(w, run, guard, attempt)
    case Edit(guard, content) => (Unit, w.(artifacts := LeftBehind(w.artifacts, guard, content)))
    case StoreSnapshot(state, fault) => (Unit, w.(db := Storage.SaveEffect(w.db, state, fault).1))
    case StoreIncident(incident, fails) => (Unit, w.(db := IncidentAfter(w.db, incident, fails)))
  }

  function Run(w: World, ops: seq<Op>): World
    decreases |ops|
  {
    if ops == [] then w else Run(Step(w, ops[0]).1, ops[1..])
  }

  // ---------------------------------------------------------------------------------------------
  // What every guard keeps
  // ---------------------------------------------------------------------------------------------

  /** A guard is decided exactly when it has a decision row, which says what was decided on its preview. */
  predicate GuardOk(db: Db, id: Id)
    requires id in db.guards
  {
    var g := db.guards[id];
    && g.id == id && id.GuardId? && id.run == g.runId && g.digest == Sha256(g.preview)
    && (g.status != GuardPreviewed <==> id in db.approvals)
    && (id in db.approvals ==>
          db.approvals[id] == GuardApproval(id, g.runId, g.status != GuardRejected, g.digest))
  }

  predicate ExecutionOk(db: Db, x: GuardExecution) {
    && x.guardId in db.guards && x.guardId in db.approvals && db.approvals[x.guardId].approved
    && x.runId == db.guards[x.guardId].runId && x.artifact == db.guards[x.guardId].digest
  }

  predicate Lifecycle(db: Db) {
    && (forall id :: id in db.guards ==> GuardOk(db, id))
    && (forall id :: id in db.approvals ==> id in db.guards)
    && (forall x :: x in db.executions ==> ExecutionOk(db, x))
  }

  /** Every guard still has its complete run, its requirement and an open verdict. */
  predicate AllGrounded(db: Db) {
    forall id :: id in db.guards ==> Grounded(db, db.guards[id])
  }

  predicate Sound(db: Db) {
    Integrity(db) && Lifecycle(db) && AllGrounded(db)
  }

  /** How guards may change: statuses move on, and nothing recorded is taken back. */
  predicate Advances(before: GuardStatus, after: GuardStatus) {
    match before
    case GuardPreviewed => true
    case GuardRejected => after == GuardRejected
    case _ => Settled(after)
  }

  predicate Evolves(before: Db, after: Db) {
    && (forall id :: id in before.guards ==>
          && id in after.guards
          && after.guards[id] == before.guards[id].(status := after.guards[id].status)
          && Advances(before.guards[id].status, after.guards[id].status))
    && (forall id :: id in before.approvals ==> id in after.approvals && after.approvals[id] == before.approvals[id])
    && before.executions <= after.executions
  }

  lemma EvolvesSelf(db: Db)
    ensures Evolves(db, db)
  {
  }

  lemma EvolvesAgain(a: Db, b: Db, c: Db)
    requires Evolves(a, b) && Evolves(b, c)
    ensures Evolves(a, c)
  {
  }

  // ---------------------------------------------------------------------------------------------
  // Previews
  // ---------------------------------------------------------------------------------------------

  /** A preview as the generator names it. */
  predicate Fresh(g: GuardSpec, run: Id) {
    && g.id == GuardId(run, g.actionId, g.invariantId) && g.runId == run
    && g.digest == Sha256(g.preview) && g.status == GuardPreviewed
  }

  lemma {:induction false} GeneratedFresh(s: AuditState, verdicts: seq<ActionVerdict>, texts: Id -> Option<string>)
    ensures forall g :: g in Generate(s, verdicts, texts) ==> Fresh(g, s.summary.id)
  {
    if verdicts != [] {
      GeneratedFresh(s, verdicts[1..], texts);
    }
  }

  /** No guard of the run has been decided. */
  predicate Undecided(db: Db, run: Id) {
    forall id :: id in db.guards && db.guards[id].runId == run ==> db.guards[id].status == GuardPreviewed
  }

  /** Saving a preview of an undecided run changes no other run's guards and decides nothing. */
  lemma PreviewLifecycle(db: Db, run: Id, g: GuardSpec)
    requires Lifecycle(db) && Fresh(g, run) && Undecided(db, run) && SaveGuard(db, g).Some?
    ensures Lifecycle(SaveGuard(db, g).value) && Undecided(SaveGuard(db, g).value, run)
  {
    var after := SaveGuard(db, g).value;
    PreviewGuardsOk(db, run, g);
    forall x | x in after.executions ensures ExecutionOk(after, x) {
      assert ExecutionOk(db, x);
      assert GuardOk(db, x.guardId);
    }
  }

  lemma PreviewGuardsOk(db: Db, run: Id, g: GuardSpec)
    requires Lifecycle(db) && Fresh(g, run) && Undecided(db, run) && SaveGuard(db, g).Some?
    ensures var after := SaveGuard(db, g).value;
      && g.id !in db.approvals && Undecided(after, run)
      && forall id :: id in after.guards ==> GuardOk(after, id)
  {
    var after := SaveGuard(db, g).value;
    assert g.id in db.guards ==> GuardOk(db, g.id);
    forall id | id in after.guards ensures GuardOk(after, id) {
      assert id in db.guards ==> GuardOk(db, id);
    }
  }

  lemma GroundedIgnoresGuards(before: Db, after: Db, g: GuardSpec)
    requires OnlyGuardTables(before, after)
    ensures Grounded(after, g) == Grounded(before, g)
  {
  }

  /** Grounds depend on the run, the action and the requirement of a guard only. */
  lemma SameGrounds(db: Db, g: GuardSpec, h: GuardSpec)
    requires g.runId == h.runId && g.actionId == h.actionId && g.invariantId == h.invariantId
    ensures Grounded(db, g) == Grounded(db, h)
  {
  }

  lemma PreviewColumns(db: Db, g: GuardSpec, id: Id)
    requires SaveGuard(db, g).Some? && id in SaveGuard(db, g).value.guards
    ensures var h := SaveGuard(db, g).value.guards[id];
      if id in db.guards then
        && h.runId == db.guards[id].runId && h.actionId == db.guards[id].actionId
        && h.invariantId == db.guards[id].invariantId
      else h == g && Grounded(db, g)
  {
  }

  lemma PreviewGrounded(db: Db, g: GuardSpec)
    requires Integrity(db) && AllGrounded(db) && SaveGuard(db, g).Some?
    ensures AllGrounded(SaveGuard(db, g).value)
  {
    var after := SaveGuard(db, g).value;
    SaveGuardKeepsIntegrity(db, g);
    forall id | id in after.guards ensures Grounded(after, after.guards[id]) {
      PreviewColumns(db, g, id);
      GroundedIgnoresGuards(db, after, after.guards[id]);
      if id in db.guards {
        SameGrounds(db, db.guards[id], after.guards[id]);
      }
    }
  }

  /** What saving previews of a run leaves alone: other runs' guards, decisions and executions. */
  predicate Untouched(before: Db, after: Db, run: Id) {
    && (forall id :: id in before.guards && before.guards[id].runId != run ==>
          id in after.guards && after.guards[id] == before.guards[id])
    && after.approvals == before.approvals && after.executions == before.executions
  }

  lemma PreviewUntouched(db: Db, run: Id, g: GuardSpec)
    requires Lifecycle(db) && Fresh(g, run) && SaveGuard(db, g).Some?
    ensures Untouched(db, SaveGuard(db, g).value, run)
  {
  }

  /** One more preview of an undecided run. */
  lemma PreviewSaved(db: Db, run: Id, g: GuardSpec)
    requires Sound(db) && Undecided(db, run) && Fresh(g, run) && SaveGuard(db, g).Some?
    ensures var next := SaveGuard(db, g).value;
      Sound(next) && Undecided(next, run) && Untouched(db, next, run)
  {
    SaveGuardKeepsIntegrity(db, g);
    PreviewLifecycle(db, run, g);
    PreviewGrounded(db, g);
    PreviewUntouched(db, run, g);
  }

  lemma UntouchedSelf(db: Db, run: Id)
    ensures Untouched(db, db, run)
  {
  }

  /** What every single preview keeps, saving several keeps. */
  lemma {:induction false} PreviewsKeep(kept: Db -> bool, db: Db, guards: seq<GuardSpec>, failAt: Option<nat>, k: nat)
    requires k <= |guards| && kept(db)
    requires forall d, g :: g in guards && kept(d) && SaveGuard(d, g).Some? ==> kept(SaveGuard(d, g).value)
    ensures kept(SavePreviews(db, guards, failAt, k).1)
    decreases |guards| - k
  {
    if k < |guards| && failAt != Some(k) && SaveGuard(db, guards[k]).Some? {
      assert guards[k] in guards;
      PreviewsKeep(kept, SaveGuard(db, guards[k]).value, guards, failAt, k + 1);
    }
  }

  predicate PreviewsOf(db: Db, run: Id, after: Db) {
    Sound(after) && Undecided(after, run) && Untouched(db, after, run)
  }

  lemma OneMorePreview(db: Db, run: Id, d: Db, g: GuardSpec)
    requires PreviewsOf(db, run, d) && Fresh(g, run) && SaveGuard(d, g).Some?
    ensures PreviewsOf(db, run, SaveGuard(d, g).value)
  {
    PreviewSaved(d, run, g);
    UntouchedAgain(db, d, SaveGuard(d, g).value, run);
  }

  lemma PreviewsSaved(db: Db, run: Id, guards: seq<GuardSpec>, failAt: Option<nat>)
    requires PreviewsOf(db, run, db)
    requires forall g :: g in guards ==> Fresh(g, run)
    ensures PreviewsOf(db, run, SavePreviews(db, guards, failAt, 0).1)
  {
    var kept := (d: Db) => PreviewsOf(db, run, d);
    forall d, g | g in guards && kept(d) && SaveGuard(d, g).Some? ensures kept(SaveGuard(d, g).value) {
      OneMorePreview(db, run, d, g);
    }
    PreviewsKeep(kept, db, guards, failAt, 0);
  }

  lemma UntouchedAgain(a: Db, b: Db, c: Db, run: Id)
    requires Untouched(a, b, run) && Untouched(b, c, run)
    ensures Untouched(a, c, run)
  {
  }

  lemma LoadedNamesRun(db: Db, run: Id)
    requires Integrity(db) && LoadState(db, run).Loaded?
    ensures LoadState(db, run).state.summary.id == run
  {
  }

  /** What previewing stores: nothing, or fresh previews of a run that has no guards. */
  lemma PreviewStores(w: World, run: Id, texts: Id -> Option<string>, failAt: Option<nat>)
    returns (guards: seq<GuardSpec>)
    requires Integrity(w.db)
    ensures forall g :: g in guards ==> Fresh(g, run)
    ensures var after := PreviewStep(w, run, texts, failAt).1.db;
      after == w.db || (GuardsOfRun(w.db, run) == {} && after == SavePreviews(w.db, guards, failAt, 0).1)
  {
    guards := [];
    var loaded := LoadState(w.db, run);
    if loaded.Loaded? {
      LoadedNamesRun(w.db, run);
      guards := Generate(loaded.state, loaded.state.verdicts, texts);
      GeneratedFresh(loaded.state, loaded.state.verdicts, texts);
    }
  }

  lemma PreviewsSound(db: Db, run: Id, guards: seq<GuardSpec>, failAt: Option<nat>)
    requires Sound(db) && GuardsOfRun(db, run) == {} && forall g :: g in guards ==> Fresh(g, run)
    ensures var after := SavePreviews(db, guards, failAt, 0).1;
      Sound(after) && Evolves(db, after)
  {
    NoGuards(db, run);
    UntouchedSelf(db, run);
    PreviewsSaved(db, run, guards, failAt);
    UntouchedEvolves(db, SavePreviews(db, guards, failAt, 0).1, run);
  }

  /** Previewing keeps every guard sound and takes nothing back. */
  lemma PreviewStepSound(w: World, run: Id, texts: Id -> Option<string>, failAt: Option<nat>)
    requires Sound(w.db)
    ensures Sound(PreviewStep(w, run, texts, failAt).1.db) && Evolves(w.db, PreviewStep(w, run, texts, failAt).1.db)
  {
    var guards := PreviewStores(w, run, texts, failAt);
    EvolvesSelf(w.db);
    if GuardsOfRun(w.db, run) == {} {
      PreviewsSound(w.db, run, guards, failAt);
    }
  }

  lemma NoGuards(db: Db, run: Id)
    requires GuardsOfRun(db, run) == {}
    ensures GuardFree(db, run) && Undecided(db, run)
  {
    forall id | id in db.guards ensures db.guards[id].runId != run {
      assert db.guards[id].runId == run ==> id in GuardsOfRun(db, run);
    }
  }

  lemma UntouchedEvolves(before: Db, after: Db, run: Id)
    requires GuardFree(before, run) && Untouched(before, after, run)
    ensures Evolves(before, after)
  {
  }

  // ---------------------------------------------------------------------------------------------
  // Decisions and executions
  // ---------------------------------------------------------------------------------------------

  /** The guard's row with another status. */
  function Marked(db: Db, id: Id, status: GuardStatus): Db
    requires id in db.guards
  {
    db.(guards := db.guards[id := db.guards[id].(status := status)])
  }

  lemma DecisionMarks(db: Db, id: Id, approved: bool)
    requires Lifecycle(db) && id in db.guards
    ensures var status := if approved then GuardWritten else GuardRejected;
      var g := db.guards[id].(status := status);
      var a := GuardApproval(id, g.runId, approved, g.digest);
      RecordDecision(db, g, a).Some? ==>
        && RecordDecision(db, g, a).value == DecidedDb(db, id, approved)
        && id !in db.approvals && Grounded(db, db.guards[id])
  {
    var g := db.guards[id].(status := if approved then GuardWritten else GuardRejected);
    assert GuardOk(db, id);
    SameGrounds(db, db.guards[id], g);
  }

  lemma MarkedGrounded(db: Db, after: Db, id: Id, status: GuardStatus)
    requires AllGrounded(db) && id in db.guards
    requires OnlyGuardTables(db, after) && after.guards == Marked(db, id, status).guards
    ensures AllGrounded(after)
  {
    forall other | other in after.guards ensures Grounded(after, after.guards[other]) {
      GroundedIgnoresGuards(db, after, after.guards[other]);
      SameGrounds(db, db.guards[other], after.guards[other]);
    }
  }

  /** Executions stay covered while guards evolve. */
  lemma ExecutionsCovered(db: Db, after: Db)
    requires Lifecycle(db) && Evolves(db, after)
    ensures forall x :: x in db.executions ==> ExecutionOk(after, x)
  {
    forall x | x in db.executions ensures ExecutionOk(after, x) {
      assert ExecutionOk(db, x);
    }
  }

  function DecidedDb(db: Db, id: Id, approved: bool): Db
    requires id in db.guards
  {
    var g := db.guards[id];
    Marked(db, id, if approved then GuardWritten else GuardRejected).(
      approvals := db.approvals[id := GuardApproval(id, g.runId, approved, g.digest)])
  }

  lemma DecidedEvolves(db: Db, id: Id, approved: bool)
    requires Lifecycle(db) && id in db.guards && db.guards[id].status == GuardPreviewed
    ensures Evolves(db, DecidedDb(db, id, approved))
  {
    assert GuardOk(db, id);
  }

  lemma DecidedLifecycle(db: Db, id: Id, approved: bool)
    requires Lifecycle(db) && id in db.guards && db.guards[id].status == GuardPreviewed
    ensures Lifecycle(DecidedDb(db, id, approved))
  {
    var after := DecidedDb(db, id, approved);
    DecidedEvolves(db, id, approved);
    ExecutionsCovered(db, after);
    forall other | other in after.guards ensures GuardOk(after, other) {
      assert GuardOk(db, other);
    }
  }

  /** A recorded decision leaves a sound store. */
  lemma DecisionSound(db: Db, id: Id, approved: bool)
    requires Sound(db) && id in db.guards && db.guards[id].status == GuardPreviewed
    ensures var g := db.guards[id].(status := if approved then GuardWritten else GuardRejected);
      var next := RecordDecision(db, g, GuardApproval(id, g.runId, approved, g.digest));
      next.Some? ==> Sound(next.value) && Evolves(db, next.value)
  {
    var status := if approved then GuardWritten else GuardRejected;
    var g := db.guards[id].(status := status);
    var a := GuardApproval(id, g.runId, approved, g.digest);
    if RecordDecision(db, g, a).Some? {
      DecisionMarks(db, id, approved);
      DecidedEvolves(db, id, approved);
      DecidedLifecycle(db, id, approved);
      DecisionKeepsIntegrity(db, g, a);
      MarkedGrounded(db, RecordDecision(db, g, a).value, id, status);
    }
  }

  /** Taking back the approval of a failed write, when it succeeds, restores the exact earlier store. */
  lemma FailedWriteRestores(db: Db, id: Id)
    requires Lifecycle(db) && id in db.guards && db.guards[id].status == GuardPreviewed
    ensures var g := db.guards[id];
      var next := RecordDecision(db, g.(status := GuardWritten), GuardApproval(id, g.runId, true, g.digest));
      next.Some? ==> RestorePreview(next.value, g) == Some(db)
  {
    var g := db.guards[id];
    var a := GuardApproval(id, g.runId, true, g.digest);
    var next := RecordDecision(db, g.(status := GuardWritten), a);
    if next.Some? {
      DecisionMarks(db, id, true);
      GroundedIgnoresGuards(db, next.value, g);
      assert db.guards[id := g.(status := GuardWritten)][id := g] == db.guards;
      assert db.approvals[id := a] - {id} == db.approvals;
    }
  }

  /** What a decision leaves in the store: nothing new, the decision, or the decision left by a failed restore. */
  lemma DecideStores(w: World, run: Id, id: Id, approved: bool, digest: Digest, d: Decision)
    requires Lifecycle(w.db)
    ensures var after := DecideStep(w, run, id, approved, digest, d).1.db;
      || after == w.db
      || (&& id in w.db.guards && w.db.guards[id].status == GuardPreviewed
          && var g := w.db.guards[id].(status := if approved then GuardWritten else GuardRejected);
             Some(after) == RecordDecision(w.db, g, GuardApproval(id, g.runId, approved, g.digest)))
  {
    if CannotDecide(w.db, run, id, digest).None? && approved {
      FailedWriteRestores(w.db, id);
      ApproveStores(w, id, d);
    }
  }

  lemma ApproveStores(w: World, id: Id, d: Decision)
    requires id in w.db.guards && w.db.guards[id].id == id
    requires var g := w.db.guards[id];
      var next := RecordDecision(w.db, g.(status := GuardWritten), GuardApproval(id, g.runId, true, g.digest));
      next.Some? ==> RestorePreview(next.value, g) == Some(w.db)
    ensures var g := w.db.guards[id];
      var after := ApproveStep(w, g, d).1.db;
      || after == w.db
      || Some(after) == RecordDecision(w.db, g.(status := GuardWritten), GuardApproval(id, g.runId, true, g.digest))
  {
  }

  lemma DecideStepSound(w: World, run: Id, id: Id, approved: bool, digest: Digest, d: Decision)
    requires Sound(w.db)
    ensures var after := DecideStep(w, run, id, approved, digest, d).1.db;
      Sound(after) && Evolves(w.db, after)
  {
    DecideStores(w, run, id, approved, digest, d);
    EvolvesSelf(w.db);
    if id in w.db.guards && w.db.guards[id].status == GuardPreviewed {
      DecisionSound(w.db, id, approved);
    }
  }

  function ExecutedDb(db: Db, id: Id, status: GuardStatus, x: GuardExecution): Db
    requires id in db.guards
  {
    Marked(db, id, status).(executions := db.executions + [x])
  }

  lemma ExecutedEvolves(db: Db, id: Id, status: GuardStatus, x: GuardExecution)
    requires id in db.guards && Settled(db.guards[id].status) && Settled(status)
    ensures Evolves(db, ExecutedDb(db, id, status, x))
  {
  }

  lemma ExecutedLifecycle(db: Db, id: Id, status: GuardStatus, x: GuardExecution)
    requires Lifecycle(db) && id in db.guards && Settled(db.guards[id].status) && Settled(status)
    requires ExecutionOk(db, x)
    ensures Lifecycle(ExecutedDb(db, id, status, x))
  {
    var after := ExecutedDb(db, id, status, x);
    ExecutedEvolves(db, id, status, x);
    ExecutionsCovered(db, after);
    forall other | other in after.guards ensures GuardOk(after, other) {
      assert GuardOk(db, other);
    }
    assert ExecutionOk(after, x);
  }

  /** An execution is stored only for an approved guard whose artifact still is its preview. */
  ghost predicate Executes(db: Db, id: Id, status: GuardStatus, x: GuardExecution, after: Db) {
    && id in db.guards && Settled(db.guards[id].status) && Settled(status) && ExecutionOk(db, x) && x.guardId == id
    && SaveExecution(db, db.guards[id].(status := status), x) == Some(after)
    && after == ExecutedDb(db, id, status, x)
  }

  ghost predicate ExecuteEffect(w: World, id: Id, a: Attempt, reply: Reply, after: World) {
    if reply.Ran? then
      && Executes(w.db, id, GuardStatusOf(a.exit), reply.execution, after.db)
      && id in w.artifacts && w.artifacts[id] == w.db.guards[id].preview && after.artifacts == w.artifacts
    else after == w
  }

  lemma ExecuteStores(w: World, run: Id, id: Id, a: Attempt)
    requires Lifecycle(w.db)
    ensures var (reply, after) := ExecuteStep(w, run, id, a);
      ExecuteEffect(w, id, a, reply, after)
  {
    if id in w.db.guards {
      assert GuardOk(w.db, id);
    }
  }

  lemma ExecutedSound(db: Db, id: Id, status: GuardStatus, x: GuardExecution, after: Db)
    requires Sound(db) && Executes(db, id, status, x, after)
    ensures Sound(after) && Evolves(db, after)
  {
    ExecutionKeepsIntegrity(db, db.guards[id].(status := status), x);
    ExecutedLifecycle(db, id, status, x);
    ExecutedEvolves(db, id, status, x);
    MarkedGrounded(db, after, id, status);
  }

  lemma ExecuteEffectSound(w: World, id: Id, a: Attempt, reply: Reply, after: World)
    requires Sound(w.db) && ExecuteEffect(w, id, a, reply, after)
    ensures Sound(after.db) && Evolves(w.db, after.db)
  {
    if reply.Ran? {
      ExecutedSound(w.db, id, GuardStatusOf(a.exit), reply.execution, after.db);
    } else {
      EvolvesSelf(w.db);
    }
  }

  lemma ExecuteStepSound(w: World, run: Id, id: Id, a: Attempt)
    requires Sound(w.db)
    ensures var after := ExecuteStep(w, run, id, a).1.db;
      Sound(after) && Evolves(w.db, after)
  {
    ExecuteStores(w, run, id, a);
    var (reply, after) := ExecuteStep(w, run, id, a);
    ExecuteEffectSound(w, id, a, reply, after);
  }

  // ---------------------------------------------------------------------------------------------
  // Snapshots beside guards
  // ---------------------------------------------------------------------------------------------

  /** No snapshot of a guard's run is ever stored again. */
  lemma GuardPinsSnapshot(db: Db, s: AuditState, fault: Option<nat>, id: Id)
    requires id in db.guards && db.guards[id].runId == s.summary.id
    ensures Storage.SaveEffect(db, s, fault).0 != Storage.Stored && Storage.SaveEffect(db, s, fault).1 == db
  {
    GuardBlocksSave(db, s, id);
    Storage.SaveIsAtomic(db, s, fault);
  }

  /** Storing another run's snapshot leaves a guard's grounds alone. */
  lemma GroundsKept(db: Db, s: AuditState, g: GuardSpec)
    requires g.runId != s.summary.id
    ensures Grounded(Saved(db, s), g) == Grounded(db, g)
  {
    OtherTablesUntouched(db, s, g.runId, Requirements);
    OtherTablesUntouched(db, s, g.runId, Verdicts);
  }

  lemma SavedKeepsGrounds(db: Db, s: AuditState)
    requires AllGrounded(db) && GuardFree(db, s.summary.id)
    ensures AllGrounded(Saved(db, s))
  {
    forall id | id in Saved(db, s).guards ensures Grounded(Saved(db, s), Saved(db, s).guards[id]) {
      GroundsKept(db, s, db.guards[id]);
    }
  }

  lemma SavedKeepsLifecycle(db: Db, s: AuditState)
    requires Lifecycle(db)
    ensures Lifecycle(Saved(db, s)) && Evolves(db, Saved(db, s))
  {
    forall id | id in Saved(db, s).guards ensures GuardOk(Saved(db, s), id) {
      assert GuardOk(db, id);
    }
    forall x | x in Saved(db, s).executions ensures ExecutionOk(Saved(db, s), x) {
      assert ExecutionOk(db, x);
    }
  }

  lemma SnapshotStepSound(db: Db, s: AuditState, fault: Option<nat>)
    requires Sound(db)
    ensures var after := Storage.SaveEffect(db, s, fault).1;
      Sound(after) && Evolves(db, after)
  {
    EvolvesSelf(db);
    Storage.SaveIsAtomic(db, s, fault);
    if Storage.SaveEffect(db, s, fault).0 == Storage.Stored {
      Storage.StoredIsSaved(db, s, fault);
      SavedKeepsGrounds(db, s);
      SavedKeepsLifecycle(db, s);
    }
  }

  /** Storing an incident again leaves runs, their rows and guards alone, or is refused by their keys. */
  lemma IncidentStepSound(db: Db, incident: Incident, fails: bool)
    requires Sound(db)
    ensures var after := IncidentAfter(db, incident, fails);
      Sound(after) && Evolves(db, after)
  {
    EvolvesSelf(db);
    var after := IncidentAfter(db, incident, fails);
    if after != db {
      IncidentTables.SaveIncidentKeepsIntegrity(db, incident);
      IncidentLeavesGuards(db, incident);
      SameGuardsSound(db, after);
    }
  }

  lemma IncidentLeavesGuards(db: Db, incident: Incident)
    requires IncidentTables.SaveIncidentEffect(db, incident).Some?
    ensures SameGuards(db, IncidentTables.SaveIncidentEffect(db, incident).value)
  {
  }

  /** Runs, their rows and everything about guards are the same. */
  predicate SameGuards(before: Db, after: Db) {
    && after.runs == before.runs && after.rows == before.rows
    && after.guards == before.guards && after.approvals == before.approvals && after.executions == before.executions
  }

  lemma SameGuardsLifecycle(before: Db, after: Db)
    requires Lifecycle(before) && SameGuards(before, after)
    ensures Lifecycle(after) && Evolves(before, after)
  {
    forall id | id in after.guards ensures GuardOk(after, id) {
      assert GuardOk(before, id);
    }
    forall x | x in after.executions ensures ExecutionOk(after, x) {
      assert ExecutionOk(before, x);
    }
  }

  lemma SameGuardsGrounded(before: Db, after: Db)
    requires AllGrounded(before) && SameGuards(before, after)
    ensures AllGrounded(after)
  {
    forall id | id in after.guards ensures Grounded(after, after.guards[id]) {
      assert Grounded(before, before.guards[id]);
    }
  }

  lemma SameGuardsSound(before: Db, after: Db)
    requires Sound(before) && SameGuards(before, after) && Integrity(after)
    ensures Sound(after) && Evolves(before, after)
  {
    SameGuardsLifecycle(before, after);
    SameGuardsGrounded(before, after);
  }

  // ---------------------------------------------------------------------------------------------
  // Every sequence of operations
  // ---------------------------------------------------------------------------------------------

  lemma StepSound(w: World, op: Op)
    requires Sound(w.db)
    ensures Sound(Step(w, op).1.db) && Evolves(w.db, Step(w, op).1.db)
  {
    match op
    case Preview(run, texts, failAt) => PreviewStepSound(w, run, texts, failAt);
    case Decide(run, guard, approved, digest, decision) => DecideStepSound(w, run, guard, approved, digest, decision);
    case Execute(run, guard, attempt) => ExecuteStepSound(w, run, guard, attempt);
    case Edit(guard, content) => EvolvesSelf(w.db);
    case StoreSnapshot(state, fault) => SnapshotStepSound(w.db, state, fault);
    case StoreIncident(incident, fails) => IncidentStepSound(w.db, incident, fails);
  }

  /**
   Over any sequence of operations, with any failures in between: a guard is decided exactly when it
   has one decision row with the matching choice; executions belong to approved guards and ran an
   unchanged preview; guards keep their grounds; and nothing decided or recorded is taken back.
   */
  lemma {:induction false} LifecycleHolds(w: World, ops: seq<Op>)
    requires Sound(w.db)
    ensures Sound(Run(w, ops).db) && Evolves(w.db, Run(w, ops).db)
    decreases |ops|
  {
    EvolvesSelf(w.db);
    if ops != [] {
      var next := Step(w, ops[0]).1;
      StepSound(w, ops[0]);
      LifecycleHolds(next, ops[1..]);
      EvolvesAgain(w.db, next.db, Run(next, ops[1..]).db);
    }
  }

  /** A rejected guard stays rejected, and is never run. */
  lemma RejectedIsAbsorbing(w: World, ops: seq<Op>, id: Id)
    requires Sound(w.db) && id in w.db.guards && w.db.guards[id].status == GuardRejected
    ensures var after := Run(w, ops).db;
      && id in after.guards && after.guards[id] == w.db.guards[id]
      && forall x :: x in after.executions ==> x.guardId != id
  {
    LifecycleHolds(w, ops);
    var after := Run(w, ops).db;
    assert GuardOk(after, id);
    forall x | x in after.executions ensures x.guardId != id {
      assert ExecutionOk(after, x);
    }
  }

  /** Once a guard exists, no later snapshot of its run is stored, so its grounds are never lost. */
  lemma GuardedRunIsPinned(w: World, ops: seq<Op>, id: Id, s: AuditState, fault: Option<nat>)
    requires Sound(w.db) && id in w.db.guards && w.db.guards[id].runId == s.summary.id
    ensures var after := Run(w, ops).db;
      && id in after.guards && Grounded(after, after.guards[id])
      && Storage.SaveEffect(after, s, fault).0 != Storage.Stored && Storage.SaveEffect(after, s, fault).1 == after
  {
    LifecycleHolds(w, ops);
    GuardPinsSnapshot(Run(w, ops).db, s, fault, id);
  }
}
