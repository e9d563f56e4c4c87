/**
 Whole cycles and whole runs of the pilot worker.
 */
module PilotRuns {
  import opened Basics
  import opened PilotLog
  import opened PilotCycle
  import opened PilotSteps
  import opened PilotAssignments

  // ----- One cycle -----

  lemma ClaimFacts(w: World, durable: bool)
    requires On(w) && Inv(w.s)
    ensures var (v, acquired) := ClaimRow(w, durable);
      Onward(w, v) && v.s.p == w.s.p && v.s.log == w.s.log
      && (On(v) ==> v.s.state != Absent && (acquired ==> v.s.state == Running))
      && (w.s.state == Absent ==> !v.end.Raise?)
      && (v.end.Raise? ==> v.s == w.s && v.end.exn == WorkerError && !durable && (w.s.state == Running || w.s.state == Retry))
      && (w.s.state == Completing || w.s.state == Done || w.s.state == Failed ==> v.s == w.s && !acquired)
      && (v.end.Raise? <==>
            !durable && (w.s.state == Running || w.s.state == Retry)
            && w.script.More? && !DiedBefore(w.script.answer) && w.script.answer.number == 1)
      && (On(v) && w.s.state == Running ==> (acquired <==> w.script.answer.number != 2))
  {
    hide Inv;
    match w.s.state {
      case Absent => FirstClaimKeeps(w.s);
      case Retry => ReleaseKeeps(w.s, Running);
      case _ =>
    }
  }

  lemma RoutedFacts(w: World, setup: Setup)
    requires Working(w) && IsRouted(w.s.p.phase)
    ensures Onward(w, Routed(w, setup))
  {
    hide Inv, Call, CancelPending, CancelNotConverged, ContinueCancelRecovery, ContinueCancelRequested, TerminalReconcile;
    InvMeansRowOk(w.s);
    if w.s.p.phase == Some(CancelRequesting) {
      CallFacts(w, Cancel);
      var (v, answer) := Call(w, Cancel);
      if !v.end.Crash? && (v.end.Raise? ==> GithubFailure(v.end.exn)) {
        CancelPendingFacts(Caught(v), setup, On(v) && answer != 0);
      }
    } else if w.s.p.phase == Some(CancelTimeoutRecording) {
      CancelNotConvergedFacts(w);
    } else if w.s.p.phase == Some(CancelRecoveryPending) {
      CancelRecoveryFacts(w);
    } else if w.s.p.phase == Some(CancelRequested) {
      CancelRequestedFacts(w, setup);
    } else {
      TerminalReconcileFacts(w);
    }
  }

  lemma RedeliverFacts(w: World)
    requires On(w) && Inv(w.s) && (w.s.state == Completing || w.s.state == Done)
    ensures var v := Redeliver(w);
      Onward(w, v) && v.s.p == w.s.p && v.s.log == w.s.log
      && (v.end.Raise? ==> v.s == w.s) && (On(v) ==> v.s.state == Done) && (v.s.state == w.s.state || v.s.state == Done)
  {
    hide Inv, Delivered;
    var v := External(w, Complete);
    if On(v) && v.s.state == Completing { DeliveredFacts(v); }
  }

  lemma IssuedFacts(w: World)
    requires Assigned(w)
    ensures var v := IssuePackage(w);
      Onward(w, v) && v.s.state == Running && Plain(v.s.p.phase) && Verdict(v.s.log) == Some(false)
      && (On(v) ==> v.s.p.package || v.s.p.runId.Some?)
  {
    hide Inv, Verdict, IssuePackage;
    IssuePackageFacts(w);
  }

  lemma PursueFacts(w: World, setup: Setup)
    requires Assigned(w)
    ensures Onward(w, Pursue(w, setup))
  {
    hide Inv, Verdict, IssuePackage, TerminalReconcile, Drive, FailureHandler;
    var v := External(w, Resume);
    if v.end == Raise(Approval) {
      TerminalReconcileFacts(Caught(v));
    } else if On(v) {
      IssuedFacts(v);
      var x := IssuePackage(v);
      if x.end == Raise(Pilot) {
        TerminalReconcileFacts(Caught(x));
      } else if On(x) {
        DriveFacts(x, setup);
        var y := Drive(x, setup);
        if y.end.Raise? && !Contained(y.end.exn) { FailureHandlerFacts(Caught(y), y.end.exn); }
      }
    }
  }

  lemma AssignmentFacts(w: World, setup: Setup, durable: bool)
    requires On(w) && Inv(w.s)
    ensures var v := RunAssignment(w, setup, durable);
      Onward(w, v) && (v.end.Raise? && v.s.state == Absent ==> v == Throw(w, WorkerError) && !setup.wellFormed)
  {
    hide Inv, Verdict, ClaimRow, Redeliver, Routed, SupersessionReason, CompleteSuperseded, Pursue;
    if setup.wellFormed {
      ClaimFacts(w, durable);
      var (v, acquired) := ClaimRow(w, durable);
      if On(v) && (v.s.state == Completing || v.s.state == Done) {
        RedeliverFacts(v);
      } else if On(v) && acquired {
        if IsRouted(v.s.p.phase) {
          RoutedFacts(v, setup);
        } else {
          RunningIsNotRetired(v.s);
          AskFacts(v);
          var (x, reason) := SupersessionReason(v);
          if On(x) {
            if reason { CompleteSupersededFacts(x, setup); } else { PursueFacts(x, setup); }
          }
        }
      }
    }
  }

  lemma RunningIsNotRetired(s: Snapshot)
    requires Inv(s) && s.state == Running
    ensures !IsRetired(s.p.phase)
  {
    hide LogOk, Armed, LastRecord;
  }

  lemma RetireFacts(w: World)
    requires On(w) && Inv(w.s) && w.s.state != Absent
    ensures Onward(w, Retire(w)) && Retire(w).s.state == w.s.state
  {
    hide Inv, CloseChecks, ChecksOnly;
    CloseChecksFacts(w);
  }

  lemma IdentifyFacts(w: World, durable: bool)
    requires On(w) && Inv(w.s)
    ensures var v := Identify(w, durable);
      Onward(w, v) && (On(v) ==> v.s.state != Absent) && (w.s.state != Absent ==> v.s == w.s)
      && (v.end.Raise? ==> v.s == w.s && v.end.exn == Authority && !durable && w.s.state != Absent)
  {
    hide Inv, ClaimRow;
    if w.s.state == Absent { ClaimFacts(w, durable); }
  }

  /** Whatever the cleanup does, the request ends failed, unless it turns out not to be the one on record. */
  lemma QuarantineFacts(w: World, durable: bool, k: Exn)
    requires On(w) && Inv(w.s)
    ensures var v := Quarantine(w, durable, k);
      Onward(w, v) && if On(Identify(w, durable)) then !v.end.Crash? ==> v.s.state == Failed else v == Identify(w, durable)
  {
    hide Inv, Identify, Retire, Terminal;
    IdentifyFacts(w, durable);
    var v := Identify(w, durable);
    if On(v) {
      RetireFacts(v);
      var r := Retire(v);
      if !r.end.Crash? { TerminalFacts(Caught(r), if k == Temporal then AllocationExpired else AssignmentFailed); }
    }
  }

  /** Every cycle keeps the invariant, and a contained failure quarantines the request for good. */
  lemma RunOnceFacts(w: World, setup: Setup)
    requires On(w) && Inv(w.s)
    ensures var v := RunOnce(w, setup);
      Onward(w, v) && (v.end.Raise? && Contained(v.end.exn) ==> v.s.state == Failed)
  {
    hide Inv, RunAssignment, Quarantine, Identify;
    var durable := ReadBack(w.s.state);
    AssignmentFacts(w, setup, durable);
    var v := RunAssignment(w, setup, durable);
    if v.end.Raise? && Contained(v.end.exn) {
      IdentifyFacts(Caught(v), durable);
      QuarantineFacts(Caught(v), durable, v.end.exn);
    }
  }

  // ----- Delivery -----

  /** How the delivery of a recorded result ends. */
  function Delivery(w: World): World {
    Redeliver(ClaimRow(w, ReadBack(w.s.state)).0)
  }

  /** A completing request becomes failed exactly when its delivery raises a contained exception, since the quarantine
      does not look at the row's state; it is delivered exactly when the delivery returns, and stays as it is exactly
      when the delivery raises anything else. */
  lemma CompletingEnds(w: World, setup: Setup)
    requires On(w) && Inv(w.s) && w.s.state == Completing && setup.wellFormed
    ensures var v, d := RunOnce(w, setup), Delivery(w).end;
      !v.end.Crash? ==>
        (v.s.state == Failed <==> d.Raise? && Contained(d.exn))
        && (v.s.state == Done <==> d.Returned?)
        && (v.s.state == Completing <==> d.Raise? && !Contained(d.exn))
  {
    hide Inv, ClaimRow, Redeliver, Quarantine;
    ClaimFacts(w, true);
    var c := ClaimRow(w, true).0;
    if On(c) {
      RedeliverFacts(c);
      var d := Redeliver(c);
      if d.end.Raise? && Contained(d.end.exn) {
        IdentifyFacts(Caught(d), true);
        QuarantineFacts(Caught(d), true, d.end.exn);
      }
    }
  }

  /** The same of a request that was delivered already and is polled again: repeating its delivery can fail it, unless
      the polled request is found not to be the one on record. */
  lemma DoneEnds(w: World, setup: Setup)
    requires On(w) && Inv(w.s) && w.s.state == Done && setup.wellFormed
    ensures var v, d := RunOnce(w, setup), Delivery(w);
      !v.end.Crash? ==>
        (v.s.state == Failed <==>
           d.end.Raise? && Contained(d.end.exn) && On(Identify(Caught(d), false)))
        && (v.s.state == Done <==> v.s.state != Failed)
  {
    hide Inv, ClaimRow, Redeliver, Identify, Quarantine;
    ClaimFacts(w, false);
    var c := ClaimRow(w, false).0;
    if On(c) {
      RedeliverFacts(c);
      var d := Redeliver(c);
      if d.end.Raise? && Contained(d.end.exn) {
        IdentifyFacts(Caught(d), false);
        QuarantineFacts(Caught(d), false, d.end.exn);
      }
    }
  }

  // ----- Whole runs -----

  lemma RestartKeeps(s: Snapshot)
    requires Inv(s)
    ensures Inv(Restarted(s)) && Restarted(s).log == s.log && Restarted(s).p == s.p
    ensures Restarted(s).state != Running && (s.state != Running ==> Restarted(s) == s)
  {
    hide Inv;
    if s.state == Running { ReleaseKeeps(s, Retry); }
  }

  /** Over any cycles, answers, crashes and restarts the invariant holds and the history only grows. */
  lemma {:induction false} ServedKeeps(setup: Setup, cycles: seq<Cycle>, n: nat)
    requires n <= |cycles|
    ensures Inv(Served(setup, cycles)) && Served(setup, cycles[..n]).log <= Served(setup, cycles).log
  {
    hide Inv, RunOnce;
    if cycles == [] {
      StartOk();
    } else {
      var before := cycles[..|cycles| - 1];
      var c := cycles[|cycles| - 1];
      ServedKeeps(setup, before, if n < |cycles| then n else n - 1);
      var s := Served(setup, before);
      RestartKeeps(s);
      RunOnceFacts(World(if c.restarted then Restarted(s) else s, c.script, Returned, []), setup);
      if n < |cycles| {
        assert before[..n] == cycles[..n];
      } else {
        assert cycles[..n] == cycles;
      }
    }
  }

  lemma StartOk()
    ensures Inv(START)
  {
  }

  /** What is on record for good: the history is legitimate, every run id and every cancellation deadline ever written
      is still the one on record, and the row is what was written last. */
  lemma ServedRecordsStand(setup: Setup, cycles: seq<Cycle>)
    ensures var s := Served(setup, cycles);
      LogOk(s.log) && s.p == LastRecord(s.log)
      && forall i :: 0 <= i < |s.log| && s.log[i].Wrote? ==>
           (s.log[i].p.runId.Some? ==> s.p.runId == s.log[i].p.runId)
           && (s.log[i].p.deadline.Some? ==> s.p.deadline == s.log[i].p.deadline)
  {
    hide LogOk, LastRecord, Armed, RowOk, Served, Locked, Shut;
    ServedKeeps(setup, cycles, |cycles|);
    var s := Served(setup, cycles);
    assert forall i :: 0 <= i < |s.log| ==> Backs(s.log[i], s);
  }

  /** At most one dispatch, as long as the source does not take a verdict back. */
  lemma DispatchedOnce(setup: Setup, cycles: seq<Cycle>)
    ensures var log := Served(setup, cycles).log;
      VerdictsStand(log) ==>
        forall i, j :: 0 <= i < |log| && 0 <= j < |log| && log[i].Dispatch? && log[j].Dispatch? ==> i == j
  {
    hide LogOk, Served, VerdictsStand;
    ServedRecordsStand(setup, cycles);
    var log := Served(setup, cycles).log;
    forall i, j | VerdictsStand(log) && 0 <= i < |log| && 0 <= j < |log| && log[i].Dispatch? && log[j].Dispatch?
      ensures i == j
    {
      OneDispatch(log, i, j);
    }
  }

  /** In general, two dispatches only around a verdict, a discard reported under it, and its withdrawal. */
  lemma DispatchedAgain(setup: Setup, cycles: seq<Cycle>)
    ensures var log := Served(setup, cycles).log;
      forall i, j :: 0 <= i < j < |log| && log[i].Dispatch? && log[j].Dispatch? ==> Withdrawn(log, i, j)
  {
    hide LogOk, Served, Withdrawn;
    ServedRecordsStand(setup, cycles);
    var log := Served(setup, cycles).log;
    forall i, j | 0 <= i < j < |log| && log[i].Dispatch? && log[j].Dispatch? ensures Withdrawn(log, i, j) {
      SecondDispatchNeedsWithdrawal(log, i, j);
    }
  }

  /** Once a cycle left the request locked (failed, completing, ambiguous, due for cleanup, or with a run id) no later
      cycle dispatches it, whatever the source says. */
  lemma ServedStaysLocked(setup: Setup, cycles: seq<Cycle>, n: nat)
    requires n <= |cycles|
    ensures var s, t := Served(setup, cycles[..n]), Served(setup, cycles);
      Locked(s) ==> s.log <= t.log && Locked(t) && forall i :: |s.log| <= i < |t.log| ==> !t.log[i].Dispatch?
  {
    hide Inv, Locked, Served;
    ServedKeeps(setup, cycles, n);
    ServedKeeps(setup, cycles[..n], n);
    if Locked(Served(setup, cycles[..n])) { LockedForGood(Served(setup, cycles[..n]), Served(setup, cycles)); }
  }
}
