/** Guard lifecycle orchestration over the store and the written artifacts. */
module GuardService {
  import opened Wrappers
  import opened Contracts
  import opened Database
  import opened Guards
  import opened Snapshot
  import opened Storage

  class GuardService {
    const store: SqliteStore
    var artifacts: map<Id, string>

    constructor (store: SqliteStore)
      ensures this.store == store && artifacts == map[]
    {
      this.store := store;
      artifacts := map[];
    }

    ghost function Here(): World
      reads this, store
    {
      World(store.db, artifacts)
    }

    method Preview(run: Id, texts: Id -> Option<string>, failAt: Option<nat>) returns (reply: Reply)
      requires store.Valid()
      modifies this, store
      ensures store.Valid() && (reply, Here()) == PreviewStep(old(Here()), run, texts, failAt)
    {
      var loaded := store.LoadAuditState(run);
      match loaded {
        case NoRun =>
          return Denied(NotFoundReason);
        case Unreadable =>
          return Denied(RaisedReason);
        case Loaded(state) =>
          if state.summary.status != Complete {
            return Denied(ConflictReason);
          }
          var existing := GuardsOfRun(store.db, run);
          if existing != {} {
            return Previews(existing);
          }
          var guards := Generate(state, state.verdicts, texts);
          var ok := SaveAll(guards, failAt);
          return if ok then Previews(set g | g in guards :: g.id) else Denied(RaisedReason);
      }
    }

    method SaveAll(guards: seq<GuardSpec>, failAt: Option<nat>) returns (ok: bool)
      requires store.Valid()
      modifies store
      ensures store.Valid() && (ok, store.db) == SavePreviews(old(store.db), guards, failAt, 0)
    {
      for k := 0 to |guards|
        invariant store.Valid()
        invariant SavePreviews(store.db, guards, failAt, k) == SavePreviews(old(store.db), guards, failAt, 0)
      {
        ok := store.SaveGuard(guards[k], failAt == Some(k));
        if !ok {
          return false;
        }
      }
      ok := true;
    }

    method Decide(run: Id, id: Id, approved: bool, digest: Digest, d: Decision) returns (reply: Reply)
      requires store.Valid()
      modifies this, store
      ensures store.Valid() && (reply, Here()) == DecideStep(old(Here()), run, id, approved, digest, d)
    {
      var reason := CannotDecide(store.db, run, id, digest);
      if reason.Some? {
        return Denied(reason.value);
      }
      reply := RecordChoice(store.db.guards[id], approved, d);
    }

    method RecordChoice(guard: GuardSpec, approved: bool, d: Decision) returns (reply: Reply)
      requires store.Valid()
      modifies this, store
      ensures store.Valid()
      ensures (reply, Here())
        == if approved then ApproveStep(old(Here()), guard, d) else RejectStep(old(Here()), guard, d)
    {
      if approved {
        reply := Approve(guard, d);
      } else {
        reply := Reject(guard, d);
      }
    }

    method Reject(guard: GuardSpec, d: Decision) returns (reply: Reply)
      requires store.Valid()
      modifies this, store
      ensures store.Valid() && (reply, Here()) == RejectStep(old(Here()), guard, d)
    {
      var rejected := guard.(status := GuardRejected);
      var approval := GuardApproval(guard.id, guard.runId, false, guard.digest);
      var ok := store.RecordGuardDecision(rejected, approval, d.recordFails);
      reply := if ok then Decided(rejected) else Denied(RaisedReason);
    }

    method Approve(guard: GuardSpec, d: Decision) returns (reply: Reply)
      requires store.Valid()
      modifies this, store
      ensures store.Valid() && (reply, Here()) == ApproveStep(old(Here()), guard, d)
    {
      if !d.allowed || guard.digest != Sha256(guard.preview) {
        return Denied(RaisedReason);
      }
      var written := guard.(status := GuardWritten);
      var approval := GuardApproval(guard.id, guard.runId, true, guard.digest);
      var ok := store.RecordGuardDecision(written, approval, d.recordFails);
      if !ok {
        return Denied(RaisedReason);
      }
      reply := WriteApproved(guard, d);
    }

    method WriteApproved(guard: GuardSpec, d: Decision) returns (reply: Reply)
      requires store.Valid()
      modifies this, store
      ensures store.Valid() && (reply, Here()) == WriteStep(old(Here()), guard, d)
    {
      match d.write {
        case WriteDone =>
          artifacts := artifacts[guard.id := guard.preview];
          return Decided(guard.(status := GuardWritten));
        case WriteFails(left) =>
          artifacts := LeftBehind(artifacts, guard.id, left);
          var _ := store.RestoreGuardPreview(guard, d.restoreFails);
          return Denied(RaisedReason);
      }
    }

    method Execute(run: Id, id: Id, a: Attempt) returns (reply: Reply)
      requires store.Valid()
      modifies this, store
      ensures store.Valid() && (reply, Here()) == ExecuteStep(old(Here()), run, id, a)
    {
      var reason := CannotExecute(store.db, run, id);
      if reason.Some? {
        return Denied(reason.value);
      }
      reply := RunArtifact(store.db.guards[id], a);
    }

    method RunArtifact(guard: GuardSpec, a: Attempt) returns (reply: Reply)
      requires store.Valid()
      modifies this, store
      ensures store.Valid() && (reply, Here()) == RunStep(old(Here()), guard, a)
    {
      if !a.allowed || guard.id !in artifacts || Sha256(artifacts[guard.id]) != guard.digest {
        return Denied(UnsafeReason);
      }
      var status := GuardStatusOf(a.exit);
      var execution :=
        GuardExecution(ExecutionId(guard.id, a.moment), guard.id, guard.runId, status, Sha256(artifacts[guard.id]));
      var ok := store.SaveGuardExecution(guard.(status := status), execution, a.saveFails);
      reply := if ok then Ran(execution) else Denied(RaisedReason);
    }
  }
}
