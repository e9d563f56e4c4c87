/**
 What an assignment keeps from the moment it is picked up, and what is left when it is superseded or fails.
 */
module PilotAssignments {
  import opened Basics
  import opened PilotLog
  import opened PilotCycle
  import opened PilotSteps

  // ----- Closing without a run -----

  lemma DiscardRecordable(s: Snapshot)
    requires Inv(s) && s.state == Running && Plain(s.p.phase) && s.p.runId.None? && Verdict(s.log) == Some(true)
    ensures Recordable(s, s.p.(phase := Some(DiscardReporting)))
    ensures Verdict(Recorded(s, s.p.(phase := Some(DiscardReporting))).log) == Some(true)
  {
    hide LogOk, Armed, LastRecord, Verdict;
    Append(s.log, Wrote(s.state, s.p.(phase := Some(DiscardReporting))));
  }

  /** Reporting a discard changes the phase and nothing else. */
  lemma {:induction false} ReportDiscardedFacts(w: World)
    requires Working(w) && Plain(w.s.p.phase) && w.s.p.runId.None? && Verdict(w.s.log) == Some(true)
    ensures var v := ReportDiscarded(w).0;
      Onward(w, v) && v.s.state == Running && (v.s.p == w.s.p || v.s.p == w.s.p.(phase := Some(DiscardReporting)))
      && v.s.p.runId == w.s.p.runId && Plain(v.s.p.phase)
    decreases w.script
  {
    hide Inv, Record, Verdict, Recordable;
    var (v, a) := Query(w, Report);
    if On(v) && a.yes {
      var q := v.s.p.(phase := Some(DiscardReporting));
      DiscardRecordable(v.s);
      RecordFacts(v, q);
      if On(Record(v, q)) { ReportDiscardedFacts(Record(v, q)); }
    }
  }

  lemma FinishSupersededFacts(w: World, pending: bool)
    requires Working(w) && Plain(w.s.p.phase)
    ensures var v := FinishSuperseded(w, pending);
      Onward(w, v) && v.s.p == w.s.p && (On(v) ==> v.s.state == if pending then Retry else Done)
      && (v.end.Raise? ==> v.s.state == Running || v.s.state == Completing)
  {
    hide Inv, Call, Release, Deliver;
    CallFacts(w, Outcome(OtherCause));
    var v := Call(w, Outcome(OtherCause)).0;
    if On(v) {
      var x := if v.s.p.reserved then External(v, Recover) else v;
      if On(x) {
        if pending { ReleaseFacts(x); } else { DeliverFacts(x, true); }
      }
    }
  }

  lemma NoRunNoChecks(s: Snapshot)
    requires Inv(s) && s.p.runId.None?
    ensures !s.p.checks
  {
    hide LogOk, Armed, LastRecord;
  }

  /** An obsolete request with a run ends with the cancellation on record; one without ends discarded or pending. */
  lemma CompleteSupersededFacts(w: World, setup: Setup)
    requires Working(w) && Plain(w.s.p.phase) && Verdict(w.s.log) == Some(true)
    ensures var v := CompleteSuperseded(w, setup);
      Onward(w, v) && v.s.p.runId == w.s.p.runId && (Plain(v.s.p.phase) || Requested(v.s.p.phase))
      && (v.end.Raise? ==> v.s.state == Running || (v.s.state == Completing && w.s.p.runId.None?))
      && (On(v) ==> if w.s.p.runId.Some? then v.s.state == Retry && v.s.p.phase == Some(CancelRequested)
                    else v.s.state == Retry || v.s.state == Done)
  {
    hide Inv, Verdict, RequestSupersededCancel, Release, CloseChecks, ReportDiscarded, FinishSuperseded, ChecksOnly;
    if w.s.p.runId.Some? {
      RequestCancelFacts(w, setup);
      var v := RequestSupersededCancel(w, setup);
      if On(v) { ReleaseFacts(v); }
    } else {
      NoRunNoChecks(w.s);
      ReportDiscardedFacts(w);
      var (v, pending) := ReportDiscarded(w);
      if On(v) { FinishSupersededFacts(v, pending); }
    }
  }

  lemma ReleaseAndThrowFacts(w: World, e: Exn)
    requires On(w) && Inv(w.s) && w.s.state != Absent
    ensures var v := ReleaseAndThrow(w, e);
      Onward(w, v) && v.s.p == w.s.p && v.s.log == w.s.log && (v.end.Crash? || v.end == Raise(e))
      && (v.s.state == w.s.state || (w.s.state == Running && v.s.state == Retry))
  {
    hide Inv, Release;
    ReleaseFacts(w);
  }

  lemma FailReconciledFacts(w: World)
    requires Working(w) && w.s.p.phase == Some(CleanupRequired)
    ensures var v := FailReconciled(w);
      Onward(w, v) && v.s.p == w.s.p && (On(v) ==> v.s.state == Failed)
  {
    hide Inv, Abort, Call, ReleaseAndThrow;
    var v := External(w, Tell);
    if v.end.Raise? && v.end.exn != Approval {
      ReleaseAndThrowFacts(Caught(v), v.end.exn);
    } else if !v.end.Crash? {
      AbortFacts(Caught(v));
      var x := Abort(Caught(v));
      if On(x) { CallFacts(x, Outcome(OtherCause)); }
    }
  }

  lemma CleanupRecordable(s: Snapshot)
    requires Inv(s) && s.state == Running && !IsCancel(s.p.phase)
    ensures Recordable(s, s.p.(phase := Some(CleanupRequired)))
  {
    hide LogOk, Armed, LastRecord, Verdict;
  }

  /** A request that is reconciled ends failed; until then the record that rules a dispatch out stands. */
  lemma TerminalReconcileFacts(w: World)
    requires Working(w) && !IsCancel(w.s.p.phase)
    ensures var v := TerminalReconcile(w);
      Onward(w, v) && (v.s == w.s || v.s.p.phase == Some(CleanupRequired)) && (On(v) ==> v.s.state == Failed)
  {
    hide Inv, Record, Reconcile, Recordable;
    var v := External(w, Bind);
    if On(v) {
      var q := v.s.p.(phase := Some(CleanupRequired));
      CleanupRecordable(v.s);
      RecordFacts(v, q);
      if On(Record(v, q)) { ReconcileFacts(Record(v, q), w.s.p.phase.Some?); }
    }
  }

  lemma ReconcileFacts(w: World, started: bool)
    requires Working(w) && w.s.p.phase == Some(CleanupRequired)
    ensures var v := Reconcile(w, started);
      Onward(w, v) && v.s.p.phase == Some(CleanupRequired) && (On(v) ==> v.s.state == Failed)
  {
    hide Inv, CloseChecks, ReleaseAndThrow, FailReconciled, ChecksOnly;
    CloseChecksFacts(w);
    var v := CloseChecks(w).0;
    ChecksOnlyMeans(w.s.p, v.s.p);
    if On(v) {
      var x := if started then External(v, Recover) else v;
      if x.end.Raise? { ReleaseAndThrowFacts(Caught(x), x.end.exn); } else if On(x) { FailReconciledFacts(x); }
    }
  }

  // ----- The assignment proper -----

  /** The source stands by the request, and nothing routes it elsewhere. */
  ghost predicate Assigned(w: World) {
    Working(w) && Plain(w.s.p.phase) && Verdict(w.s.log) == Some(false)
  }

  /** A record that leaves run id, ambiguity and verdict alone, in a phase of the assignment. */
  lemma PlainRecord(s: Snapshot, q: Progress)
    requires Inv(s) && s.state == Running && Plain(s.p.phase) && Plain(q.phase) && q.phase.Some?
    requires q.runId == s.p.runId && q.ambiguous == s.p.ambiguous && q.deadline == s.p.deadline
    requires s.p.phase != Some(Dispatching) || q.runId.Some?
    requires q.phase != Some(Dispatching) && q.phase != Some(DiscardReporting) && q.phase != Some(DispatchAmbiguous)
    requires q.checks ==> q.runId.Some?
    ensures Recordable(s, q) && Verdict(Recorded(s, q).log) == Verdict(s.log)
  {
    hide LogOk, Armed, LastRecord, Verdict;
    Append(s.log, Wrote(s.state, q));
  }

  lemma IssuePackageFacts(w: World)
    requires Assigned(w)
    ensures var v := IssuePackage(w);
      Onward(w, v) && v.s.state == Running && Verdict(v.s.log) == Verdict(w.s.log)
      && (v.s.p == w.s.p || v.s.p == w.s.p.(phase := Some(PackageIssued), package := true))
      && (On(v) ==> v.s.p.package || v.s.p.runId.Some?)
  {
    hide Inv, Verdict, Record, Recordable;
    InvMeansRowOk(w.s);
    if !w.s.p.package && w.s.p.runId.None? {
      var x := External(w, Issue);
      if On(x) {
        PlainRecord(x.s, x.s.p.(phase := Some(PackageIssued), package := true));
        RecordFacts(x, x.s.p.(phase := Some(PackageIssued), package := true));
      }
    }
  }

  /** `before`, the record read when the assignment was picked up, decides as well as the current one does. */
  predicate ReadBefore(before: Progress, p: Progress) {
    Plain(before.phase) && (before.phase == Some(Dispatching) ==> before.reserved)
    && (p == before || (p == before.(phase := Some(Reserved), reserved := true) && !before.reserved))
  }

  lemma ReserveFacts(w: World)
    requires Assigned(w)
    ensures var v := ReserveAllocation(w);
      Onward(w, v) && v.s.state == Running && Verdict(v.s.log) == Verdict(w.s.log)
      && ReadBefore(w.s.p, v.s.p) && v.s.p.package == w.s.p.package && v.s.p.runId == w.s.p.runId
      && Plain(v.s.p.phase) && (On(v) ==> v.s.p.reserved)
  {
    hide Inv, Verdict, RecordAndClaim, Recordable;
    InvMeansRowOk(w.s);
    if !w.s.p.reserved {
      var x := External(w, Reserve);
      if On(x) {
        PlainRecord(x.s, x.s.p.(phase := Some(Reserved), reserved := true));
        RecordAndClaimFacts(x, x.s.p.(phase := Some(Reserved), reserved := true));
      }
    }
  }

  lemma GuardIsCurrent(s: Snapshot, before: Progress)
    requires Inv(s) && s.state == Running && ReadBefore(before, s.p) && s.p.reserved
    ensures MayDispatch(before) <==> !Shut(s)
  {
    hide LogOk, Armed, LastRecord;
  }

  lemma ReceiptRecordable(s: Snapshot, receipt: int)
    requires Inv(s) && s.state == Running && s.p.phase == Some(Dispatching)
    ensures Recordable(s, s.p.(phase := Some(Dispatched), runId := Some(receipt)))
  {
    hide LogOk, Armed, LastRecord, Verdict;
  }

  /** The workflow is dispatched exactly when nothing is on record against it: announced, called, and its receipt
      recorded, in that order. Otherwise there is no call. */
  lemma DispatchFacts(w: World, before: Progress)
    requires Assigned(w) && w.s.p.reserved && (w.s.p.package || w.s.p.runId.Some?) && ReadBefore(before, w.s.p)
    ensures var v := DispatchOnce(w, before);
      Onward(w, v) && v.s.state == Running && Plain(v.s.p.phase) && (On(v) ==> v.s.p.runId.Some?)
      && (w.s.p.runId.Some? ==> v == w) && (Shut(w.s) ==> v.s == w.s)
      && (!Shut(w.s) && On(v) ==>
            v.s.log == w.s.log + [Wrote(Running, w.s.p.(phase := Some(Dispatching))), Dispatch, Wrote(Running, v.s.p)])
      && (!Shut(w.s) && v.end.Raise? ==> v.s.p.phase == Some(Dispatching) || v.s.p.runId.Some?)
  {
    hide Inv, Verdict, RecordAndClaim, Recordable, Armed, LastRecord, Shut;
    GuardIsCurrent(w.s, before);
    if w.s.p.runId.None? && MayDispatch(before) {
      var q := w.s.p.(phase := Some(Dispatching));
      DispatchKeeps(w.s, q);
      IntentIsRecordable(w.s, q);
      RecordAndClaimFacts(w, q);
      var v := RecordAndClaim(w, q);
      if On(v) {
        var (x, receipt) := Call(v, Dispatch);
        if On(x) && receipt >= 1 {
          ReceiptRecordable(x.s, receipt);
          RecordAndClaimFacts(x, x.s.p.(phase := Some(Dispatched), runId := Some(receipt)));
        }
      }
    }
    if w.s.p.runId.Some? { RunIdShuts(w.s); }
  }

  lemma RunIdShuts(s: Snapshot)
    requires s.p.runId.Some?
    ensures Shut(s)
  {
  }

  lemma IntentIsRecordable(s: Snapshot, q: Progress)
    requires Inv(s) && !Shut(s) && q == s.p.(phase := Some(Dispatching)) && s.p.reserved && s.p.package
    requires !IsCancel(s.p.phase)
    ensures Recordable(s, q)
  {
    hide LogOk, Armed, LastRecord, Verdict;
  }

  /** A step of a dispatched assignment. */
  ghost predicate Advanced(w: World, v: World) {
    Onward(w, v) && v.s.state == Running && Plain(v.s.p.phase) && v.s.p.runId == w.s.p.runId
  }

  lemma ObserveFacts(w: World)
    requires Working(w) && Plain(w.s.p.phase) && w.s.p.runId.Some?
    ensures Advanced(w, ObserveJob(w))
  {
    hide Inv, Verdict, RecordAndClaim, Recordable, RecordWindow;
    var v := w;
    if !w.s.p.observed {
      var (x, a) := Query(w, Observe);
      v := x;
      if On(x) {
        var q := x.s.p.(phase := Some(Observed), jobId := Some(a.number), observed := true);
        InvMeansRowOk(x.s);
        PlainRecord(x.s, q);
        RecordAndClaimFacts(x, q);
        v := RecordAndClaim(x, q);
      }
    }
    if On(v) && On(Query(v, CheckJob).0) && Query(v, CheckJob).1.yes { WindowFacts(Query(v, CheckJob).0); }
  }

  lemma WindowFacts(w: World)
    requires Working(w) && Plain(w.s.p.phase) && w.s.p.runId.Some?
    ensures Advanced(w, RecordWindow(w))
  {
    hide Inv, Verdict, RecordAndClaim, Recordable;
    var (v, a) := Query(w, Window);
    if On(v) && a.yes && !v.s.p.window {
      var q := v.s.p.(phase := Some(AllocationWindow), window := true);
      InvMeansRowOk(v.s);
      PlainRecord(v.s, q);
      RecordAndClaimFacts(v, q);
    }
  }

  lemma OpenChecksFacts(w: World)
    requires Working(w) && Plain(w.s.p.phase) && w.s.p.runId.Some?
    ensures Advanced(w, OpenChecks(w))
  {
    hide Inv, Verdict, RecordAndClaim, Recordable;
    if !w.s.p.checks {
      var v := External(w, StartChecks);
      if On(v) {
        var q := v.s.p.(phase := Some(ChecksOpen), checks := true);
        InvMeansRowOk(v.s);
        PlainRecord(v.s, q);
        RecordAndClaimFacts(v, q);
      }
    }
  }

  /** A recorded finalize receipt means no further finalize call; otherwise one call, whose receipt is recorded. */
  lemma FinalizeFacts(w: World)
    requires Working(w) && Plain(w.s.p.phase) && w.s.p.runId.Some?
    ensures var v := FinalizeOnce(w);
      Advanced(w, v) && (w.s.p.finalized ==> v == w)
      && (!w.s.p.finalized && On(v) ==> v.s.p.finalized && v.s.log == w.s.log + [Finalize, Wrote(Running, v.s.p)])
  {
    hide Inv, Verdict, RecordAndClaim, Recordable, Call;
    if !w.s.p.finalized {
      var v := External(w, Sign);
      if On(v) {
        PlainHasNoDeadline(v.s);
        CallFacts(v, Finalize);
        var (x, exact) := Call(v, Finalize);
        if On(x) && exact == 0 {
          var q := x.s.p.(phase := Some(Finalized), finalized := true);
          InvMeansRowOk(x.s);
          PlainRecord(x.s, q);
          RecordAndClaimFacts(x, q);
        }
      }
    }
  }

  lemma PlainHasNoDeadline(s: Snapshot)
    requires Inv(s) && s.state == Running && Plain(s.p.phase)
    ensures s.p.deadline.None?
  {
    hide LogOk, Armed, LastRecord;
  }

  /** Where an exception may leave an assignment that was picked up. */
  predicate Stopped(s: Snapshot) {
    (s.state == Running || (s.state == Completing && s.p.runId.Some?)) && (Plain(s.p.phase) || Requested(s.p.phase))
  }

  lemma WatchFacts(w: World, setup: Setup)
    requires Working(w) && Plain(w.s.p.phase) && w.s.p.runId.Some?
    ensures var v := WatchAndDeliver(w, setup);
      Onward(w, v) && (v.end.Raise? ==> Stopped(v.s)) && (On(v) ==> v.s.state == Retry || v.s.state == Done)
  {
    hide Inv, Monitor, Release, CloseChecks, Deliver, ChecksOnly, SettledOnce;
    if w.s.p.jobId.Some? && w.s.p.jobId.value >= 1 {
      MonitorFacts(w, setup);
      var (v, settled) := Monitor(w, setup);
      if v.end == Raise(Transport) {
        ReleaseFacts(Caught(v));
      } else if On(v) {
        if !settled {
          ReleaseFacts(v);
        } else {
          CloseChecksFacts(v);
          var (x, closed) := CloseChecks(v);
          ChecksOnlyMeans(v.s.p, x.s.p);
          if On(x) {
            if closed { DeliverFacts(x, false); } else { ReleaseFacts(x); }
          }
        }
      }
    }
  }

  lemma AdmitFacts(w: World, setup: Setup)
    requires Working(w) && Plain(w.s.p.phase) && w.s.p.runId.Some?
    ensures var v := Admit(w, setup);
      Onward(w, v) && (v.end.Raise? ==> Stopped(v.s)) && (On(v) ==> v.s.state == Retry || v.s.state == Done)
  {
    hide Inv, Verdict, OpenChecks, SupersessionReason, CompleteSuperseded, FinalizeOnce, WatchAndDeliver;
    OpenChecksFacts(w);
    var v := OpenChecks(w);
    if On(v) {
      AskFacts(v);
      var (x, reason) := SupersessionReason(v);
      if On(x) {
        if reason {
          CompleteSupersededFacts(x, setup);
        } else {
          FinalizeFacts(x);
          if On(FinalizeOnce(x)) { WatchFacts(FinalizeOnce(x), setup); }
        }
      }
    }
  }

  lemma DriveFacts(w: World, setup: Setup)
    requires Assigned(w) && (w.s.p.package || w.s.p.runId.Some?)
    ensures var v := Drive(w, setup);
      Onward(w, v) && (v.end.Raise? ==> Stopped(v.s)) && (On(v) ==> v.s.state == Retry || v.s.state == Done)
  {
    hide Inv, Verdict, ReserveAllocation, DispatchOnce, ObserveJob, Admit, Shut, ReadBefore;
    ReserveFacts(w);
    var v := ReserveAllocation(w);
    if On(v) {
      DispatchFacts(v, w.s.p);
      var x := DispatchOnce(v, w.s.p);
      if On(x) {
        ObserveFacts(x);
        if On(ObserveJob(x)) { AdmitFacts(ObserveJob(x), setup); }
      }
    }
  }

  // ----- Failing -----

  /** The failure was published and recorded; from here on the handler settles the record itself. */
  predicate Published(w: World) {
    On(CloseChecks(w).0) && On(Call(CloseChecks(w).0, Outcome(OtherCause)).0)
  }

  /** However an assignment fails, once the failure is published the record rules out any later dispatch, whatever the
      source says; before that the handler has changed nothing but what is known about Check Runs. */
  lemma FailureHandlerFacts(w: World, k: Exn)
    requires On(w) && Inv(w.s) && Stopped(w.s)
    ensures var v := FailureHandler(w, k);
      Onward(w, v) && !On(v)
      && (Published(w) && v.end.Raise? ==> Locked(v.s))
      && (!Published(w) ==> ChecksOnly(w.s.p, v.s.p) && v.s.state == w.s.state)
      && (Published(w) && v.end.Raise? && w.s.p.phase == Some(Dispatching) ==> v.s.p.ambiguous)
  {
    hide Inv, CloseChecks, Call, MarkAmbiguous, CleanUpAndFail, ReleaseAndThrow, ChecksOnly;
    CloseChecksFacts(w);
    var v := CloseChecks(w).0;
    ChecksOnlyMeans(w.s.p, v.s.p);
    if On(v) {
      CallFacts(v, Outcome(OtherCause));
      var x := Call(v, Outcome(OtherCause)).0;
      if On(x) {
        if x.s.p.runId.Some? {
          if On(External(x, Postpone)) { ReleaseAndThrowFacts(External(x, Postpone), k); }
          if w.s.p.phase == Some(Dispatching) { DispatchingHasNoRun(w.s); }
        } else if x.s.p.phase == Some(Dispatching) {
          MarkAmbiguousFacts(x, k);
        } else {
          if Requested(x.s.p.phase) { RequestedHasRun(x.s); }
          CleanUpFacts(x, k);
        }
      }
    }
  }

  lemma RequestedHasRun(s: Snapshot)
    requires Inv(s) && Requested(s.p.phase)
    ensures s.p.runId.Some?
  {
    hide LogOk, Armed, LastRecord;
  }

  lemma DispatchingHasNoRun(s: Snapshot)
    requires Inv(s) && s.p.phase == Some(Dispatching)
    ensures s.p.runId.None?
  {
    hide LogOk, Armed, LastRecord;
  }

  lemma AmbiguityRecordable(s: Snapshot)
    requires Inv(s) && s.state == Running && s.p.phase == Some(Dispatching)
    ensures Recordable(s, s.p.(phase := Some(DispatchAmbiguous), ambiguous := true))
  {
    hide LogOk, Armed, LastRecord, Verdict;
  }

  lemma MarkAmbiguousFacts(w: World, k: Exn)
    requires Working(w) && w.s.p.phase == Some(Dispatching)
    ensures var v := MarkAmbiguous(w, k);
      Onward(w, v) && !On(v) && (v.s == w.s || v.s.p.ambiguous) && (v.end.Raise? ==> v.s.p.ambiguous)
  {
    hide Inv, RecordAndClaim, Recordable, ReleaseAndThrow;
    var v := External(w, Recover);
    if !v.end.Crash? {
      AmbiguityRecordable(v.s);
      var q := v.s.p.(phase := Some(DispatchAmbiguous), ambiguous := true);
      RecordAndClaimFacts(Caught(v), q);
      var x := RecordAndClaim(Caught(v), q);
      if On(x) && On(External(x, Postpone)) {
        ReleaseAndThrowFacts(External(x, Postpone), if v.end.Raise? then v.end.exn else k);
      }
    }
  }

  lemma CleanUpFacts(w: World, k: Exn)
    requires Working(w) && Plain(w.s.p.phase)
    ensures var v := CleanUpAndFail(w, k);
      Onward(w, v) && !On(v) && (v.s == w.s || v.s.p.phase == Some(CleanupRequired))
      && (v.end.Raise? ==> v.s.p.phase == Some(CleanupRequired))
  {
    hide Inv, RecordAndClaim, Recordable, ReleaseAndThrow, Abort;
    CleanupRecordable(w.s);
    var q := w.s.p.(phase := Some(CleanupRequired));
    RecordAndClaimFacts(w, q);
    var v := RecordAndClaim(w, q);
    if On(v) {
      var x := External(v, Recover);
      if !x.end.Crash? {
        var y := External(Caught(x), if x.end.Raise? then Postpone else Tell);
        if On(y) {
          if x.end.Raise? { ReleaseAndThrowFacts(y, x.end.exn); } else { AbortFacts(y); }
        }
      }
    }
  }
}
