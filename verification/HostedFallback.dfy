/** Why a hosted package sent after a proved recovery can never race a local job. */
module HostedFallback {
  import opened Basics
  import opened Ledger
  import opened Garm
  import opened BrokerSteps
  import opened BrokerRuns
  import Coordinator

  predicate IsCleaned(rows: Rows, a: string) {
    a in rows && rows[a].state == Cleaned
  }

  /** A recovery that saw the row cleaned, or has finished with it, is right about that for good. */
  predicate Settled(rows: Rows, call: Call) {
    match call
    case RecoverName(a, seen) => seen == Cleaned ==> IsCleaned(rows, a)
    case RecoverBinding(a, seen, _) => seen == Cleaned ==> IsCleaned(rows, a)
    case RecoverFind(a, seen, _) => seen == Cleaned ==> IsCleaned(rows, a)
    case RecoverBind(a, seen, _, _) => seen == Cleaned ==> IsCleaned(rows, a)
    case DeleteFind(a, _, _, goal) => goal == Settle(Cleaned) ==> IsCleaned(rows, a)
    case DeleteDisable(a, _, _, goal) => goal == Settle(Cleaned) ==> IsCleaned(rows, a)
    case DeleteDrain(a, _, _, goal) => goal == Settle(Cleaned) ==> IsCleaned(rows, a)
    case DeleteDelete(a, _, _, goal) => goal == Settle(Cleaned) ==> IsCleaned(rows, a)
    case DeleteAbsent(a, _, goal) => goal == Settle(Cleaned) ==> IsCleaned(rows, a)
    case RecoverFinal(a, _) => IsCleaned(rows, a)
    case _ => true
  }

  predicate GoesSettled(n: Next) {
    n.Go? ==> Settled(n.s.rows, n.call)
  }

  predicate AllSettled(w: World) {
    forall pid :: pid in w.calls ==> Settled(w.shared.rows, w.calls[pid])
  }

  lemma SettledStays(before: Rows, after: Rows, call: Call)
    requires RowsAge(before, after) && Settled(before, call)
    ensures Settled(after, call)
  {
    hide RowsAge, RowAges;
    var a := AllocationOf(call);
    if IsCleaned(before, a) { CleanedStays(before, after, a); }
  }

  lemma CleanedStays(before: Rows, after: Rows, a: string)
    requires RowsAge(before, after) && IsCleaned(before, a)
    ensures IsCleaned(after, a)
  {
    assert RowAges(before[a], after[a]);
  }

  lemma MoveEndsCleaned(rows: Rows, a: string, action: Action)
    requires action.Cleanup? || action.Acknowledge?
    ensures Transition(rows, a, action).Ok? ==> IsCleaned(Transition(rows, a, action).value, a)
  {
  }

  lemma RecoverStepSettles(s: Shared, call: Call)
    requires call.RecoverGet? || call.RecoverName? || call.RecoverBinding? || call.RecoverFind? || call.RecoverBind?
    requires RowsOk(s.rows) && Settled(s.rows, call)
    ensures GoesSettled(RecoverStep(s, call))
  {
    hide Bind, Find, BoundName, RowsOk, RowsAge;
    if call.RecoverBind? && Bind(s.rows, call.a, call.id, call.name).Ok? {
      BindKeeps(s.rows, call.a, call.id, call.name);
      SettledStays(s.rows, Bind(s.rows, call.a, call.id, call.name).value, call);
    }
  }

  lemma DeleteStepSettles(s: Shared, call: Call)
    requires call.DeleteFind? || call.DeleteDisable? || call.DeleteDrain? || call.DeleteDelete? || call.DeleteAbsent?
    requires Settled(s.rows, call)
    ensures GoesSettled(DeleteStep(s, call))
  {
    hide Find, Disable, Delete, Drained, Absent, Named;
  }

  lemma SettleStepSettles(s: Shared, call: Call)
    requires call.RecoverMove? || call.RecoverMeasure? || call.RecoverAcknowledge? || call.RecoverCleanup?
      || call.RecoverFinal?
    ensures GoesSettled(SettleStep(s, call))
  {
    hide Transition, Absent;
    if call.RecoverCleanup? { MoveEndsCleaned(s.rows, call.a, Cleanup); }
    if call.RecoverAcknowledge? { MoveEndsCleaned(s.rows, call.a, Acknowledge(call.key, call.evidence)); }
  }

  lemma FrontStepsSettle(s: Shared, call: Call, given: Given)
    ensures (call.ReserveLedger? || call.ReserveEnsure? || call.ReserveBind?) ==>
      GoesSettled(ReserveStep(s, call, given))
    ensures (call.FinalizeLedger? || call.FinalizeBinding? || call.FinalizeInstall? || call.FinalizeEnable?) ==>
      GoesSettled(FinalizeStep(s, call))
  {
    hide Reserve, Finalize, Bind, EnsureDisabled, Install, Enable, IsCleaned;
  }

  lemma StartStepsSettle(s: Shared, call: Call, given: Given)
    ensures (call.StartPayload? || call.StartBinding? || call.StartClaim? || call.StartVerify? || call.StartDisable?
             || call.StartAdmit?) ==> GoesSettled(StartStep(s, call, given))
  {
    hide Transition, Disable, Claimed, Matches, IsCleaned;
  }

  lemma FinishStepsSettle(s: Shared, call: Call)
    ensures (call.FinishGet? || call.FinishMove? || call.FinishBinding? || call.FinishMeasure? || call.FinishCleanup?) ==>
      GoesSettled(FinishStep(s, call))
  {
    hide Transition, Absent, IsCleaned;
  }

  lemma StepSettles(s: Shared, call: Call, given: Given)
    requires RowsOk(s.rows) && Settled(s.rows, call)
    ensures GoesSettled(Step(s, call, given))
  {
    hide RowsOk, Settled, ReserveStep, FinalizeStep, StartStep, FinishStep, RecoverStep, DeleteStep, SettleStep;
    if call.RecoverGet? || call.RecoverName? || call.RecoverBinding? || call.RecoverFind? || call.RecoverBind? {
      RecoverStepSettles(s, call);
    } else if call.DeleteFind? || call.DeleteDisable? || call.DeleteDrain? || call.DeleteDelete? || call.DeleteAbsent? {
      DeleteStepSettles(s, call);
    } else if call.RecoverMove? || call.RecoverMeasure? || call.RecoverAcknowledge? || call.RecoverCleanup?
              || call.RecoverFinal? {
      SettleStepSettles(s, call);
    } else {
      FrontStepsSettle(s, call, given);
      StartStepsSettle(s, call, given);
      FinishStepsSettle(s, call);
    }
  }

  lemma ApplySettles(w: World, e: Event)
    requires WorldOk(w) && AllSettled(w)
    ensures AllSettled(Apply(w, e))
  {
    hide RowsOk, CallOk, RowsAge, Step, Settled;
    match e {
      case Begin(pid, call) => EntrySettled(w.shared.rows, call);
      case Advance(pid, given) =>
        if pid in w.calls {
          ApplyKeeps(w, e);
          StepSettles(w.shared, w.calls[pid], given);
          var after := Apply(w, e);
          forall q | q in w.calls ensures Settled(after.shared.rows, w.calls[q]) {
            SettledStays(w.shared.rows, after.shared.rows, w.calls[q]);
          }
        }
      case _ =>
    }
  }

  lemma EntrySettled(rows: Rows, call: Call)
    ensures Entry(call) ==> Settled(rows, call)
  {
  }

  lemma {:induction false} RunSettles(garm: Sets, instances: set<Name>, run: seq<Event>)
    ensures AllSettled(After(Start(garm, instances), run))
  {
    hide Apply, WorldOk;
    if run != [] {
      RunSettles(garm, instances, run[..|run| - 1]);
      RunKeeps(garm, instances, run[..|run| - 1]);
      ApplySettles(After(Start(garm, instances), run[..|run| - 1]), run[|run| - 1]);
    }
  }

  /** The event is the return of a `recover` of `a`, which the coordinator takes as proof of absence. */
  ghost predicate ReturnsFromRecover(w: World, e: Event, a: string) {
    e.Advance? && e.pid in w.calls && w.calls[e.pid].RecoverFinal? && w.calls[e.pid].a == a
    && Step(w.shared, w.calls[e.pid], e.given).Return?
  }

  /** Once a `recover` of an allocation has returned, no job is ever admitted on it, whatever is still in flight: the
      hosted package that follows is the only one that runs. */
  lemma FallbackIsExclusive(garm: Sets, instances: set<Name>, run: seq<Event>, i: nat, j: nat, a: string)
    requires i <= j < |run| && ReturnsFromRecover(After(Start(garm, instances), run[..i]), run[i], a)
    ensures !Admits(After(Start(garm, instances), run[..j]), run[j], a)
  {
    hide After, Step, Admits;
    var w := After(Start(garm, instances), run[..i]);
    RunSettles(garm, instances, run[..i]);
    assert Settled(w.shared.rows, w.calls[run[i].pid]);
    NoAdmissionAfterIssued(garm, instances, run, i, j, a);
  }

  // ----- An allocation that was never reserved -----

  predicate Reserving(call: Call, a: string) {
    call.ReserveLedger? && AllocationOf(call) == a
  }

  /** The ledger has no row of `a`, and no call is about to make one. */
  predicate Rowless(w: World, a: string) {
    a !in w.shared.rows && forall pid :: pid in w.calls ==> !Reserving(w.calls[pid], a)
  }

  /** Only a `reserve` gives an allocation a row. */
  predicate AddsNoRow(s: Shared, n: Next, a: string) {
    a !in SharedAfter(s, n).rows && (n.Go? ==> !n.call.ReserveLedger?)
  }

  lemma TransitionAddsNoRow(rows: Rows, b: string, action: Action, a: string)
    requires a !in rows && Transition(rows, b, action).Ok?
    ensures a !in Transition(rows, b, action).value
  {
    hide Move;
  }

  lemma FrontStepsAddNoRow(s: Shared, call: Call, given: Given, a: string)
    requires a !in s.rows && !Reserving(call, a)
    ensures (call.ReserveLedger? || call.ReserveEnsure? || call.ReserveBind?) ==> AddsNoRow(s, ReserveStep(s, call, given), a)
    ensures (call.FinalizeLedger? || call.FinalizeBinding? || call.FinalizeInstall? || call.FinalizeEnable?) ==>
      AddsNoRow(s, FinalizeStep(s, call), a)
  {
    hide ValidReservation, ValidPayload, EnsureDisabled, Install, Enable;
  }

  lemma StartStepsAddNoRow(s: Shared, call: Call, given: Given, a: string)
    requires a !in s.rows
    ensures (call.StartPayload? || call.StartBinding? || call.StartClaim? || call.StartVerify? || call.StartDisable?
             || call.StartAdmit?) ==> AddsNoRow(s, StartStep(s, call, given), a)
    ensures (call.FinishGet? || call.FinishMove? || call.FinishBinding? || call.FinishMeasure? || call.FinishCleanup?) ==>
      AddsNoRow(s, FinishStep(s, call), a)
  {
    hide Transition, Disable, Claimed, Matches, Absent;
    if call.StartAdmit? && Transition(s.rows, call.a, AdmitJob(call.now + given.elapsed)).Ok? {
      TransitionAddsNoRow(s.rows, call.a, AdmitJob(call.now + given.elapsed), a);
    }
    if call.FinishMove? && Transition(s.rows, call.a, Finish(call.outcome, call.cancelAttempted)).Ok? {
      TransitionAddsNoRow(s.rows, call.a, Finish(call.outcome, call.cancelAttempted), a);
    }
    if call.FinishCleanup? && Transition(s.rows, call.a, Cleanup).Ok? {
      TransitionAddsNoRow(s.rows, call.a, Cleanup, a);
    }
  }

  lemma BackStepsAddNoRow(s: Shared, call: Call, a: string)
    requires a !in s.rows
    ensures (call.RecoverGet? || call.RecoverName? || call.RecoverBinding? || call.RecoverFind? || call.RecoverBind?) ==>
      AddsNoRow(s, RecoverStep(s, call), a)
    ensures (call.DeleteFind? || call.DeleteDisable? || call.DeleteDrain? || call.DeleteDelete? || call.DeleteAbsent?) ==>
      AddsNoRow(s, DeleteStep(s, call), a)
    ensures (call.RecoverMove? || call.RecoverMeasure? || call.RecoverAcknowledge? || call.RecoverCleanup?
             || call.RecoverFinal?) ==> AddsNoRow(s, SettleStep(s, call), a)
  {
    hide Transition, Find, Disable, Delete, Drained, Absent, Named, BoundName;
    if call.RecoverMove? && Transition(s.rows, call.a, Action.Recover).Ok? {
      TransitionAddsNoRow(s.rows, call.a, Action.Recover, a);
    }
    if call.RecoverAcknowledge? && Transition(s.rows, call.a, Acknowledge(call.key, call.evidence)).Ok? {
      TransitionAddsNoRow(s.rows, call.a, Acknowledge(call.key, call.evidence), a);
    }
    if call.RecoverCleanup? && Transition(s.rows, call.a, Cleanup).Ok? {
      TransitionAddsNoRow(s.rows, call.a, Cleanup, a);
    }
  }

  lemma StepAddsNoRow(s: Shared, call: Call, given: Given, a: string)
    requires a !in s.rows && !Reserving(call, a)
    ensures AddsNoRow(s, Step(s, call, given), a)
  {
    hide AddsNoRow, ReserveStep, FinalizeStep, StartStep, FinishStep, RecoverStep, DeleteStep, SettleStep;
    FrontStepsAddNoRow(s, call, given, a);
    StartStepsAddNoRow(s, call, given, a);
    BackStepsAddNoRow(s, call, a);
  }

  /** No call in `run[i..j]` asks to reserve `a`. */
  predicate NoReserve(run: seq<Event>, i: nat, j: nat, a: string)
    requires i <= j <= |run|
  {
    forall k :: i <= k < j && run[k].Begin? ==> !Reserving(run[k].call, a)
  }

  lemma {:induction false} StaysRowless(garm: Sets, instances: set<Name>, run: seq<Event>, i: nat, j: nat, a: string)
    requires i <= j <= |run| && Rowless(After(Start(garm, instances), run[..i]), a) && NoReserve(run, i, j, a)
    ensures Rowless(After(Start(garm, instances), run[..j]), a)
    decreases j
  {
    hide Step;
    if i < j {
      StaysRowless(garm, instances, run, i, j - 1, a);
      var w, e := After(Start(garm, instances), run[..j - 1]), run[j - 1];
      assert run[..j][..j - 1] == run[..j - 1];
      if e.Advance? && e.pid in w.calls { StepAddsNoRow(w.shared, w.calls[e.pid], e.given, a); }
    }
  }

  // ----- The hosted package runs alone -----

  /** What the broker's answers to one dispatch say about the broker's own run: a proof of absence is a `recover` that
      returned as event `i`, and definite unavailability means that the allocation was not, and is not being, reserved. */
  ghost predicate AnswersAreTrue(garm: Sets, instances: set<Name>, run: seq<Event>, i: nat, j: nat,
                                 answers: Coordinator.Answers, a: string)
    requires i <= j < |run|
  {
    var w := After(Start(garm, instances), run[..i]);
    (answers.reserve == Coordinator.PartialFailure(a) && Coordinator.ProvesAbsence(answers.recover, a) ==>
       ReturnsFromRecover(w, run[i], a))
    && (answers.reserve == Coordinator.DefinitelyUnavailable ==> Rowless(w, a) && NoReserve(run, i, j, a))
  }

  /** If an outbound dispatch sent the hosted package, no local job is ever admitted on its allocation. */
  lemma HostedRunsAlone(garm: Sets, instances: set<Name>, run: seq<Event>, i: nat, j: nat,
                        answers: Coordinator.Answers, reservation: Reservation, resume: Coordinator.Resume)
    requires i <= j < |run| && AnswersAreTrue(garm, instances, run, i, j, answers, reservation.identity.allocationId)
    requires Coordinator.DispatchHosted in Coordinator.DispatchOf(answers, reservation, resume).0
    ensures !Admits(After(Start(garm, instances), run[..j]), run[j], reservation.identity.allocationId)
  {
    hide After, Step, Admits, Rowless, NoReserve, ReturnsFromRecover, Coordinator.DispatchOf;
    var a := reservation.identity.allocationId;
    Coordinator.DispatchFacts(answers, reservation, resume);
    assert Coordinator.FallbackJustified(Coordinator.DispatchOf(answers, reservation, resume).0, answers, reservation);
    if answers.reserve == Coordinator.DefinitelyUnavailable {
      StaysRowless(garm, instances, run, i, j, a);
      RowlessAdmitsNothing(garm, instances, run, j, a);
    } else {
      FallbackIsExclusive(garm, instances, run, i, j, a);
    }
  }

  lemma RowlessAdmitsNothing(garm: Sets, instances: set<Name>, run: seq<Event>, j: nat, a: string)
    requires j < |run| && Rowless(After(Start(garm, instances), run[..j]), a)
    ensures !Admits(After(Start(garm, instances), run[..j]), run[j], a)
  {
    hide After, Step, Admits, WorldOk, Apply;
    var w := After(Start(garm, instances), run[..j]);
    RunKeeps(garm, instances, run[..j]);
    if Admits(w, run[j], a) { AdmissionMovesTheRow(w, run[j], a); }
  }
}
