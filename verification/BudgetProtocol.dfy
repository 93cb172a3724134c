/**
 Concurrent reservations of one incident's model calls: any number of workers, each on its own
 connection, interleaved and crashing at any step.
 */
module BudgetProtocol {
  import opened Wrappers
  import opened Contracts
  import opened Budget

  /** Where a worker stands.  `Locked`, `HasRead` and `HasWritten` are inside its transaction. */
  datatype Phase =
    | Idle
    | Locked(limit: int)
    | HasRead(limit: int, seen: Option<BudgetUsage>)
    | HasWritten(limit: int, pending: BudgetUsage)
    | Charged(ticket: nat)
    | Calling

  /**
   `counter` is the committed counter, `lock` the holder of the write reservation, `tickets` the
   values returned by committed reservations in commit order, and `calls` the tickets of the provider
   calls started.
   */
  datatype System = System(
    incidentKnown: bool, counter: Option<BudgetUsage>, lock: Option<nat>, workers: seq<Phase>,
    tickets: seq<nat>, calls: seq<nat>)

  datatype Action = BeginImmediate(limit: int) | Read | Write | Commit | Call | Abandon | Finish | Crash

  datatype Step = Step(worker: nat, action: Action)

  function Become(s: System, w: nat, phase: Phase): System
    requires w < |s.workers|
  {
    s.(workers := s.workers[w := phase])
  }

  /** Roll the worker's transaction back and leave it idle. */
  function Rollback(s: System, w: nat): System
    requires w < |s.workers|
  {
    Become(s, w, Idle).(lock := if s.lock == Some(w) then None else s.lock)
  }

  /** One step of one worker; a step that is not enabled changes nothing. */
  function Do(s: System, step: Step): System {
    var w := step.worker;
    if w >= |s.workers| then s
    else
      match (step.action, s.workers[w])
      case (BeginImmediate(limit), Idle) =>
        // A held reservation makes the storage busy; the worker gives up.
        if s.lock.Some? then s else Become(s, w, Locked(limit)).(lock := Some(w))
      case (Read, Locked(limit)) =>
        if !s.incidentKnown then Rollback(s, w) else Become(s, w, HasRead(limit, s.counter))
      case (Write, HasRead(limit, seen)) =>
        (match Reserve(seen, limit)
         case Ok(updated) => Become(s, w, HasWritten(limit, updated))
         case Err(_) => Rollback(s, w))
      case (Commit, HasWritten(_, pending)) =>
        Become(s, w, Charged(pending.used)).(
          counter := Some(pending), lock := None, tickets := s.tickets + [pending.used])
      case (Call, Charged(ticket)) => Become(s, w, Calling).(calls := s.calls + [ticket])
      // A gateway whose snapshot cannot be saved raises before it calls the provider.
      case (Abandon, Charged(_)) => Become(s, w, Idle)
      case (Finish, Calling) => Become(s, w, Idle)
      case (Crash, _) => Rollback(s, w)
      case _ => s
  }

  function Run(s: System, steps: seq<Step>): System
    decreases |steps|
  {
    if steps == [] then s else Run(Do(s, steps[0]), steps[1..])
  }

  predicate Initial(s: System) {
    && CounterOk(s.counter) && s.lock == None && s.tickets == [] && s.calls == []
    && forall w :: 0 <= w < |s.workers| ==> s.workers[w] == Idle
  }

  predicate InTransaction(phase: Phase) {
    phase.Locked? || phase.HasRead? || phase.HasWritten?
  }

  predicate NoRepeats(tickets: seq<nat>) {
    forall i, j :: 0 <= i < j < |tickets| ==> tickets[i] != tickets[j]
  }

  /** Transactions exclude each other and work on the committed counter. */
  predicate Exclusive(s: System) {
    forall w :: 0 <= w < |s.workers| ==>
      && (InTransaction(s.workers[w]) <==> s.lock == Some(w))
      && (s.workers[w].HasRead? ==> s.workers[w].seen == s.counter)
      && (s.workers[w].HasWritten? ==> Reserve(s.counter, s.workers[w].limit) == Ok(s.workers[w].pending))
  }

  /** Tickets number the calls counted since `base`, without gap or repetition. */
  predicate Numbered(s: System, base: nat) {
    && Used(s.counter) == base + |s.tickets|
    && forall i :: 0 <= i < |s.tickets| ==> s.tickets[i] == base + i + 1
  }

  /** Every started call and every worker about to call holds a ticket of its own. */
  predicate Accounted(s: System, base: nat) {
    && NoRepeats(s.calls)
    && (forall t :: t in s.calls ==> base < t <= base + |s.tickets|)
    && (forall w :: 0 <= w < |s.workers| && s.workers[w].Charged? ==>
          base < s.workers[w].ticket <= base + |s.tickets| && s.workers[w].ticket !in s.calls)
    && (forall v, w :: 0 <= v < w < |s.workers| && s.workers[v].Charged? && s.workers[w].Charged? ==>
          s.workers[v].ticket != s.workers[w].ticket)
  }

  predicate Inv(s: System, base: nat) {
    && (s.lock.Some? ==> s.lock.value < |s.workers|)
    && CounterOk(s.counter) && Exclusive(s) && Numbered(s, base) && Accounted(s, base)
  }

  /** Leaving the protocol, by giving up, finishing or crashing, keeps the invariant. */
  lemma RollbackKeepsInv(s: System, w: nat, base: nat)
    requires Inv(s, base) && w < |s.workers|
    ensures Inv(Rollback(s, w), base)
  {
    var s' := Rollback(s, w);
    assert forall v :: 0 <= v < |s.workers| && v != w ==> s'.workers[v] == s.workers[v];
  }

  /** A step inside a transaction keeps the invariant. */
  lemma AdvanceKeepsInv(s: System, w: nat, phase: Phase, base: nat)
    requires Inv(s, base) && w < |s.workers|
    requires s.lock == None || s.lock == Some(w)
    requires phase.Locked?
      || (phase.HasRead? && phase.seen == s.counter)
      || (phase.HasWritten? && Reserve(s.counter, phase.limit) == Ok(phase.pending))
    ensures Inv(Become(s, w, phase).(lock := Some(w)), base)
  {
    var s' := Become(s, w, phase);
    assert forall v :: 0 <= v < |s.workers| && v != w ==> s'.workers[v] == s.workers[v];
  }

  lemma CommitKeepsInv(s: System, w: nat, base: nat)
    requires Inv(s, base) && w < |s.workers| && s.workers[w].HasWritten?
    ensures Inv(Do(s, Step(w, Commit)), base)
  {
    ReserveCounts(s.counter, s.workers[w].limit);
    var s' := Do(s, Step(w, Commit));
    assert s.lock == Some(w);
    assert forall v :: 0 <= v < |s.workers| && v != w ==> s'.workers[v] == s.workers[v];
  }

  lemma CallKeepsInv(s: System, w: nat, base: nat)
    requires Inv(s, base) && w < |s.workers| && s.workers[w].Charged?
    ensures Inv(Do(s, Step(w, Call)), base)
  {
    var s' := Do(s, Step(w, Call));
    assert forall v :: 0 <= v < |s.workers| && v != w ==> s'.workers[v] == s.workers[v];
  }

  /** Every step of every worker keeps the invariant. */
  lemma StepKeepsInv(s: System, step: Step, base: nat)
    requires Inv(s, base)
    ensures Inv(Do(s, step), base)
  {
    var w := step.worker;
    if w < |s.workers| {
      match (step.action, s.workers[w])
      case (BeginImmediate(limit), Idle) =>
        if s.lock.None? {
          AdvanceKeepsInv(s, w, Locked(limit), base);
        }
      case (Read, Locked(limit)) =>
        RollbackKeepsInv(s, w, base);
        AdvanceKeepsInv(s, w, HasRead(limit, s.counter), base);
      case (Write, HasRead(limit, seen)) =>
        RollbackKeepsInv(s, w, base);
        if Reserve(seen, limit).Ok? {
          AdvanceKeepsInv(s, w, HasWritten(limit, Reserve(seen, limit).value), base);
        }
      case (Commit, HasWritten(_, _)) => CommitKeepsInv(s, w, base);
      case (Call, Charged(_)) => CallKeepsInv(s, w, base);
      case (Abandon, Charged(_)) => RollbackKeepsInv(s, w, base);
      case (Finish, Calling) => RollbackKeepsInv(s, w, base);
      case (Crash, _) => RollbackKeepsInv(s, w, base);
      case _ =>
    }
  }

  lemma {:induction false} RunKeepsInv(s: System, steps: seq<Step>, base: nat)
    requires Inv(s, base)
    ensures Inv(Run(s, steps), base)
    decreases |steps|
  {
    if steps != [] {
      StepKeepsInv(s, steps[0], base);
      RunKeepsInv(Do(s, steps[0]), steps[1..], base);
    }
  }

  /** Distinct numbers in a range are no more than the range holds. */
  lemma {:induction false} NoRepeatsFit(tickets: seq<nat>, low: nat, high: nat)
    requires low <= high && NoRepeats(tickets)
    requires forall t :: t in tickets ==> low < t <= high
    ensures |tickets| <= high - low
    decreases high - low
  {
    if tickets != [] {
      assert tickets[0] in tickets;
      if high in tickets {
        var k :| 0 <= k < |tickets| && tickets[k] == high;
        var rest := tickets[..k] + tickets[k + 1..];
        forall t | t in rest ensures low < t <= high - 1 {
          var i :| 0 <= i < |rest| && rest[i] == t;
          var j := if i < k then i else i + 1;
          assert t == tickets[j] && tickets[j] in tickets;
        }
        NoRepeatsFit(rest, low, high - 1);
      } else {
        NoRepeatsFit(tickets, low, high - 1);
      }
    }
  }

  /**
   Safety of every run, whatever the interleaving and the crashes: the provider calls started are no
   more than the committed reservations, those are exactly the calls the counter has gained, and the
   counter stays within its limit and within six.
   */
  lemma CallsNeverExceedBudget(s: System, steps: seq<Step>)
    requires Initial(s)
    ensures var end := Run(s, steps);
      && |end.calls| <= |end.tickets| == Used(end.counter) - Used(s.counter)
      && (end.counter.Some? ==>
            end.counter.value.used <= end.counter.value.limit <= MAX_MODEL_CALLS_PER_INCIDENT)
      && (forall i :: 0 <= i < |end.tickets| ==> end.tickets[i] == Used(s.counter) + i + 1)
      && NoRepeats(end.calls)
  {
    var base := Used(s.counter);
    RunKeepsInv(s, steps, base);
    var end := Run(s, steps);
    NoRepeatsFit(end.calls, base, base + |end.tickets|);
  }

  /** The counter only moves one way. */
  predicate Advances(before: Option<BudgetUsage>, after: Option<BudgetUsage>) {
    && Used(before) <= Used(after)
    && (before.Some? ==> after.Some? && after.value.limit <= before.value.limit)
  }

  /** Along a run the calls counted never fall and the limit never rises. */
  lemma {:induction false} CounterAdvances(s: System, steps: seq<Step>, base: nat)
    requires Inv(s, base)
    ensures Advances(s.counter, Run(s, steps).counter)
    decreases |steps|
  {
    if steps != [] {
      StepKeepsInv(s, steps[0], base);
      var w := steps[0].worker;
      if w < |s.workers| && s.workers[w].HasWritten? {
        ReserveCounts(s.counter, s.workers[w].limit);
      }
      CounterAdvances(Do(s, steps[0]), steps[1..], base);
    }
  }

  /** Reservations one after another on a single connection. */
  function Sequential(counter: Option<BudgetUsage>, limits: seq<int>): Option<BudgetUsage>
    decreases |limits|
  {
    if limits == [] then counter
    else
      var next := match Reserve(counter, limits[0]) case Ok(updated) => Some(updated) case Err(_) => counter;
      Sequential(next, limits[1..])
  }

  /** The limit of the reservation that a step commits, if it commits one. */
  function CommittedLimit(s: System, step: Step): seq<int> {
    if step.worker < |s.workers| && step.action.Commit? && s.workers[step.worker].HasWritten?
    then [s.workers[step.worker].limit] else []
  }

  /** The limits of the reservations that a run commits, in commit order. */
  function CommittedLimits(s: System, steps: seq<Step>): seq<int>
    decreases |steps|
  {
    if steps == [] then [] else CommittedLimit(s, steps[0]) + CommittedLimits(Do(s, steps[0]), steps[1..])
  }

  /** The numbers that such reservations return. */
  function SequentialTickets(counter: Option<BudgetUsage>, limits: seq<int>): seq<nat>
    decreases |limits|
  {
    if limits == [] then []
    else
      match Reserve(counter, limits[0])
      case Ok(updated) => [updated.used] + SequentialTickets(Some(updated), limits[1..])
      case Err(_) => SequentialTickets(counter, limits[1..])
  }

  /** A step changes counter and tickets only by committing, and then as one reservation would. */
  lemma StepIsSequential(s: System, step: Step, base: nat)
    requires Inv(s, base)
    ensures Do(s, step).counter == Sequential(s.counter, CommittedLimit(s, step))
    ensures Do(s, step).tickets == s.tickets + SequentialTickets(s.counter, CommittedLimit(s, step))
  {
    assert forall limit: int :: [limit][1..] == [];
  }

  lemma {:induction false} SequentialConcat(counter: Option<BudgetUsage>, a: seq<int>, b: seq<int>)
    requires |a| <= 1
    ensures Sequential(counter, a + b) == Sequential(Sequential(counter, a), b)
    ensures SequentialTickets(counter, a + b)
         == SequentialTickets(counter, a) + SequentialTickets(Sequential(counter, a), b)
  {
    if a != [] {
      assert (a + b)[1..] == b;
    } else {
      assert a + b == b;
    }
  }

  /** One step and what follows it are the reservations of both. */
  lemma SequentialThen(s: System, next: System, end: System, first: seq<int>, rest: seq<int>)
    requires |first| <= 1
    requires next.counter == Sequential(s.counter, first)
    requires next.tickets == s.tickets + SequentialTickets(s.counter, first)
    requires end.counter == Sequential(next.counter, rest)
    requires end.tickets == next.tickets + SequentialTickets(next.counter, rest)
    ensures end.counter == Sequential(s.counter, first + rest)
    ensures end.tickets == s.tickets + SequentialTickets(s.counter, first + rest)
  {
    SequentialConcat(s.counter, first, rest);
  }

  /** Interleaved reservations leave the counter, and return the numbers, of the committed ones one by one. */
  lemma {:induction false} Serializable(s: System, steps: seq<Step>, base: nat)
    requires Inv(s, base)
    ensures Run(s, steps).counter == Sequential(s.counter, CommittedLimits(s, steps))
    ensures Run(s, steps).tickets == s.tickets + SequentialTickets(s.counter, CommittedLimits(s, steps))
    decreases |steps|
  {
    if steps != [] {
      var next := Do(s, steps[0]);
      StepKeepsInv(s, steps[0], base);
      Serializable(next, steps[1..], base);
      StepIsSequential(s, steps[0], base);
      var first, rest := CommittedLimit(s, steps[0]), CommittedLimits(next, steps[1..]);
      SequentialThen(s, next, Run(next, steps[1..]), first, rest);
    }
  }
}
