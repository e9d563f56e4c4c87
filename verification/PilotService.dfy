/**
 A whole cycle keeps to the protocol, however it fails.
 */
module PilotService {
  import opened Basics
  import opened PilotLog
  import opened PilotCycle
  import opened PilotProtocol
  import opened PilotSteps
  import opened PilotAssignments
  import opened PilotRuns
  import opened PilotConduct
  import opened PilotConvergence
  import opened PilotWatching

  // ----- Admission -----

  /** Up to here nothing was polled, recorded or given up. */
  predicate Underway(m: Memory) {
    Unsettled(m) && m.resumed && m.polls == 0 && !m.pending
  }

  /** Where an assignment may be left: its end may be the end of the cycle, and GitHub being out of reach is not what
      went wrong. */
  ghost predicate Left(setup: Setup, b: Snapshot, m: Memory, v: World) {
    var n := Memo(setup, b, v);
    Concluded(setup, b, v) && Steady(m, n) && (v.end.Raise? ==> !OutOfReach(n))
  }

  lemma UnderwayStill(m: Memory, n: Memory)
    requires Underway(m)
    ensures Quiet(m, n) || Judging(m, n) ==> Underway(n) && Steady(m, n)
  {
  }

  lemma LeftSince(setup: Setup, b: Snapshot, l: Memory, m: Memory, v: World)
    requires Steady(l, m) && Left(setup, b, m, v)
    ensures Left(setup, b, l, v)
  {
    hide Concluded, OutOfReach;
  }

  /** Stopped before the run was watched. */
  lemma LeftEarly(setup: Setup, b: Snapshot, m: Memory, v: World)
    requires Reached(setup, b, v) && !On(v) && Steady(m, Memo(setup, b, v)) && Memo(setup, b, v).polls == 0
    requires LetsGo(Memo(setup, b, v), v.end)
    ensures Left(setup, b, m, v)
  {
    hide MustCatch, MayRaise;
  }

  lemma AdmitConduct(setup: Setup, b: Snapshot, w: World)
    requires Working(w) && w.s.p.runId.Some? && Plain(w.s.p.phase)
    requires var m := Memo(setup, b, w); Keeps(setup, b, w) && WindowSet(m) && Underway(m)
    ensures Left(setup, b, Memo(setup, b, w), Admit(w, setup))
  {
    hide Honest, Recall, MayEnd, MayStop, MustCatch, Aware, Inv, Allowed, Quiet, Judging, Left, OpenChecks, SupersessionReason,
      CompleteSuperseded, FinalizeOnce, WatchAndDeliver, ChecksSeenTo, Underway;
    var m := Memo(setup, b, w);
    OpenChecksConduct(setup, b, w);
    OpenChecksFacts(w);
    var v := OpenChecks(w);
    var n := Memo(setup, b, v);
    UnderwayStill(m, n);
    NothingPolled(n);
    if On(v) {
      StartFits(setup, n);
      RevalidatedConduct(setup, b, v);
      LeftSince(setup, b, m, n, Admit(w, setup));
    } else {
      LeftEarly(setup, b, m, v);
    }
  }

  lemma NothingPolled(m: Memory)
    ensures Underway(m) ==> m.polls == 0 && !m.bound
  {
  }

  /** The last question before the allocation is finalized. */
  lemma RevalidatedConduct(setup: Setup, b: Snapshot, w: World)
    requires Working(w) && w.s.p.runId.Some? && Plain(w.s.p.phase)
    requires var m := Memo(setup, b, w); Keeps(setup, b, w) && Underway(m) && Allowed(setup, m, Ask)
    ensures var (x, reason) := SupersessionReason(w);
      var v := if !On(x) then x else if reason then CompleteSuperseded(x, setup)
               else var y := FinalizeOnce(x); if On(y) then WatchAndDeliver(y, setup) else y;
      Left(setup, b, Memo(setup, b, w), v)
  {
    hide Honest, Recall, MayEnd, MayStop, MustCatch, Aware, Inv, Allowed, Quiet, Judging, Left, Verdict, SupersessionReason,
      CompleteSuperseded, FinalizeOnce, WatchAndDeliver;
    var m := Memo(setup, b, w);
    AskConduct(setup, b, w);
    AskFacts(w);
    var (x, reason) := SupersessionReason(w);
    var n := Memo(setup, b, x);
    UnderwayStill(m, n);
    if !On(x) {
      LeftEarly(setup, b, m, x);
    } else if reason {
      CompleteSupersededConduct(setup, b, x);
      SupersededLeft(setup, b, n, CompleteSuperseded(x, setup));
      LeftSince(setup, b, m, n, CompleteSuperseded(x, setup));
    } else {
      ClearedConduct(setup, b, x);
      var y := FinalizeOnce(x);
      LeftSince(setup, b, m, n, if On(y) then WatchAndDeliver(y, setup) else y);
    }
  }

  lemma SupersededLeft(setup: Setup, b: Snapshot, m: Memory, v: World)
    requires Concluded(setup, b, v) && Steady(m, Memo(setup, b, v)) && Memo(setup, b, v).polls == 0
    ensures Left(setup, b, m, v)
  {
  }

  lemma ClearedConduct(setup: Setup, b: Snapshot, w: World)
    requires Working(w) && w.s.p.runId.Some? && Plain(w.s.p.phase)
    requires var m := Memo(setup, b, w); Keeps(setup, b, w) && Underway(m) && Cleared(m)
    ensures var y := FinalizeOnce(w);
      Left(setup, b, Memo(setup, b, w), if On(y) then WatchAndDeliver(y, setup) else y)
  {
    hide Honest, Recall, MayEnd, MayStop, MustCatch, Aware, Inv, Quiet, FinalizeOnce, WatchAndDeliver, SetToWatch, Reached, Concluded;
    var m := Memo(setup, b, w);
    FinalizeConduct(setup, b, w);
    FinalizeFacts(w);
    var y := FinalizeOnce(w);
    var n := Memo(setup, b, y);
    UnderwayStill(m, n);
    if On(y) {
      ReachedKeeps(setup, b, y);
      WatchAndDeliverConduct(setup, b, y);
      LeftSince(setup, b, m, n, WatchAndDeliver(y, setup));
    } else {
      LeftEarly(setup, b, m, y);
    }
  }

  lemma ReachedKeeps(setup: Setup, b: Snapshot, w: World)
    requires Reached(setup, b, w)
    ensures Keeps(setup, b, w)
  {
  }

  /** Everything after the package. */
  lemma DriveConduct(setup: Setup, b: Snapshot, w: World)
    requires Assigned(w) && (w.s.p.package || w.s.p.runId.Some?)
    requires var m := Memo(setup, b, w); Keeps(setup, b, w) && Underway(m) && Just(m, Authenticate)
    ensures Left(setup, b, Memo(setup, b, w), Drive(w, setup))
  {
    hide Honest, Recall, MayEnd, MayStop, MustCatch, Aware, Inv, Verdict, Quiet, Left, Underway, ReserveAllocation, DispatchOnce, ObserveJob, Admit,
      Shut, ReadBefore, MayDispatch, WindowSet, HasRun, Reached;
    var m := Memo(setup, b, w);
    NothingPolled(m);
    ReserveConduct(setup, b, w);
    ReserveFacts(w);
    var v := ReserveAllocation(w);
    var n := Memo(setup, b, v);
    UnderwayStill(m, n);
    NothingPolled(n);
    if !On(v) {
      LeftEarly(setup, b, m, v);
    } else {
      ReachedKeeps(setup, b, v);
      GuardReads(v.s, w.s.p);
      DispatchedConduct(setup, b, v, w.s.p);
      LeftSince(setup, b, m, n, Drive(w, setup));
    }
  }

  lemma GuardReads(s: Snapshot, before: Progress)
    requires Inv(s) && s.state == Running && ReadBefore(before, s.p) && s.p.reserved
    ensures s.p.runId.None? ==> (MayDispatch(before) <==> MayDispatch(s.p))
  {
    hide LogOk, Armed, LastRecord;
  }

  lemma DispatchedConduct(setup: Setup, b: Snapshot, w: World, before: Progress)
    requires Assigned(w) && w.s.p.reserved && (w.s.p.package || w.s.p.runId.Some?) && ReadBefore(before, w.s.p)
    requires w.s.p.runId.None? ==> (MayDispatch(before) <==> MayDispatch(w.s.p))
    requires var m := Memo(setup, b, w); Keeps(setup, b, w) && Underway(m) && Says(m, CheckReserved, true)
    ensures var x := DispatchOnce(w, before);
      var y := if On(x) then ObserveJob(x) else x;
      Left(setup, b, Memo(setup, b, w), if On(y) then Admit(y, setup) else y)
  {
    hide Honest, Recall, MayEnd, MayStop, MustCatch, Aware, Inv, Verdict, Quiet, Left, Underway, DispatchOnce, ObserveJob, Admit, Shut, ReadBefore,
      MayDispatch, WindowSet, HasRun, Reached;
    var m := Memo(setup, b, w);
    DispatchConduct(setup, b, w, before);
    DispatchFacts(w, before);
    var x := DispatchOnce(w, before);
    var n := Memo(setup, b, x);
    UnderwayStill(m, n);
    NothingPolled(n);
    if !On(x) {
      LeftEarly(setup, b, m, x);
    } else {
      ReachedKeeps(setup, b, x);
      ObservedConduct(setup, b, x);
      var y := ObserveJob(x);
      LeftSince(setup, b, m, n, if On(y) then Admit(y, setup) else y);
    }
  }

  lemma ObservedConduct(setup: Setup, b: Snapshot, w: World)
    requires Working(w) && w.s.p.runId.Some? && Plain(w.s.p.phase)
    requires var m := Memo(setup, b, w); Keeps(setup, b, w) && Underway(m) && HasRun(m)
    ensures var y := ObserveJob(w);
      Left(setup, b, Memo(setup, b, w), if On(y) then Admit(y, setup) else y)
  {
    hide Honest, Recall, MayEnd, MayStop, MustCatch, Aware, Inv, Quiet, Left, Underway, ObserveJob, Admit, WindowSet, HasRun, Reached;
    var m := Memo(setup, b, w);
    ObserveConduct(setup, b, w);
    ObserveFacts(w);
    var y := ObserveJob(w);
    var n := Memo(setup, b, y);
    UnderwayStill(m, n);
    NothingPolled(n);
    if !On(y) {
      LeftEarly(setup, b, m, y);
    } else {
      ReachedKeeps(setup, b, y);
      AdmitConduct(setup, b, y);
      LeftSince(setup, b, m, n, Admit(y, setup));
    }
  }

  // ----- Giving up -----

  lemma KnownStays(setup: Setup, m: Memory, n: Memory, e: Exn)
    requires Aware(setup, m, n) && Known(setup, m, e)
    ensures Known(setup, n, e)
  {
    hide Hurt, Upset, Expired;
  }

  lemma RaisedIsKnown(setup: Setup, m: Memory, e: Exn)
    requires Raised(m, e)
    ensures Known(setup, m, e)
  {
    hide Flaw;
  }

  lemma ReleaseAndThrowConduct(setup: Setup, b: Snapshot, w: World, e: Exn)
    requires On(w) && Keeps(setup, b, w) && MayYield(setup, Memo(setup, b, w)) && Known(setup, Memo(setup, b, w), e)
    requires Memo(setup, b, w).bound || Memo(setup, b, w).postponed
    ensures Concluded(setup, b, ReleaseAndThrow(w, e))
    ensures Memo(setup, b, ReleaseAndThrow(w, e)).bound == Memo(setup, b, w).bound
  {
    hide Honest, Recall, MayYield, Aware, Known, Release;
    YieldConduct(setup, b, w);
    var v := Release(w);
    KnownStays(setup, Memo(setup, b, w), Memo(setup, b, v), e);
    ReachedEnd(setup, b, v);
  }

  lemma ReconcileFits(setup: Setup, m: Memory)
    requires Phased(m, CleanupRequired) && m.bound
    ensures JustWrote(m) && !NoOpenChecks(m.s.p) ==> MayShutChecks(setup, m)
    ensures m.begun && ClosingTried(m) ==> Allowed(setup, m, Recover)
    ensures ClosingTried(m) && (m.begun ==> Just(m, Recover)) ==> Allowed(setup, m, Tell)
    ensures Fell(m, Recover) || Fell(m, Tell) ==> MayYield(setup, m)
    ensures m.s.state == Running && (m.recovered || !m.begun) && (Just(m, Tell) || (Did(m, Tell) && Raised(m, Approval))) ==> MayFail(m)
    ensures Just(m, Close(Failed)) ==> Allowed(setup, m, OUTCOME)
  {
    hide Hurt, Upset, Flaw;
  }

  lemma FailReconciledConduct(setup: Setup, b: Snapshot, w: World)
    requires Working(w) && w.s.p.phase == Some(CleanupRequired)
    requires var m := Memo(setup, b, w); Keeps(setup, b, w) && m.bound && (m.recovered || !m.begun) && Allowed(setup, m, Tell)
    ensures Concluded(setup, b, FailReconciled(w)) && Memo(setup, b, FailReconciled(w)).bound
  {
    hide Honest, Recall, MayEnd, MayStop, MustCatch, Aware, Inv, Allowed, MayYield, MayFail, Abort, Call, ReleaseAndThrow, Known;
    GoQuietly(setup, b, w, Tell);
    var v := External(w, Tell);
    var n := Memo(setup, b, v);
    ReachedEnd(setup, b, v);
    ReconcileFits(setup, n);
    if v.end.Raise? && v.end.exn != Approval {
      RaisedIsKnown(setup, n, v.end.exn);
      ReleaseAndThrowConduct(setup, b, Caught(v), v.end.exn);
    } else if !v.end.Crash? {
      FailedConduct(setup, b, Caught(v));
    }
  }

  lemma FailedConduct(setup: Setup, b: Snapshot, w: World)
    requires On(w) && w.s.p.phase == Some(CleanupRequired)
    requires var m := Memo(setup, b, w); Keeps(setup, b, w) && m.bound && MayFail(m)
    ensures var x := Abort(w);
      var v := if On(x) then Call(x, Outcome(OtherCause)).0 else x;
      Concluded(setup, b, v) && Memo(setup, b, v).bound
  {
    hide Honest, Recall, Aware, Allowed, MayFail, Abort, MayStop, MayEnd, MustCatch;
    AbortConduct(setup, b, w);
    var x := Abort(w);
    ReachedEnd(setup, b, x);
    if On(x) { ReconciledConduct(setup, b, x); }
  }

  lemma ReconciledConduct(setup: Setup, b: Snapshot, w: World)
    requires On(w) && w.s.p.phase == Some(CleanupRequired) && w.s.state == Failed
    requires var m := Memo(setup, b, w); Keeps(setup, b, w) && m.bound && Just(m, Close(Failed))
    ensures var v := Call(w, Outcome(OtherCause)).0;
      Concluded(setup, b, v) && Memo(setup, b, v).bound
  {
    hide Honest, Recall, Aware, Allowed, MayStop, MustCatch, MayEnd, Call, Reached;
    ReconcileFits(setup, Memo(setup, b, w));
    OutcomeConduct(setup, b, w);
    var v := Call(w, Outcome(OtherCause)).0;
    ReachedEnd(setup, b, v);
    if On(v) {
      ReconciledEnds(setup, Memo(setup, b, v));
      ReachedKeeps(setup, b, v);
    }
  }

  lemma OutcomeConduct(setup: Setup, b: Snapshot, w: World)
    requires On(w) && Keeps(setup, b, w) && Allowed(setup, Memo(setup, b, w), OUTCOME)
    ensures var v := Call(w, Outcome(OtherCause)).0;
      var n := Memo(setup, b, v);
      Reached(setup, b, v) && LetsGo(n, v.end) && Steady(Memo(setup, b, w), n) && (On(v) ==> Just(n, OUTCOME))
      && n.s == v.s && v.s.p == w.s.p && v.s.state == w.s.state
  {
    hide Honest, Recall, Aware, Allowed, MayStop, MustCatch;
    CallListening(setup, b, w, Outcome(OtherCause));
  }

  lemma ReconciledEnds(setup: Setup, m: Memory)
    requires Just(m, OUTCOME) && m.bound && m.s.state == Failed
    ensures MayEnd(setup, m, Returned)
  {
  }

  lemma ReconcileConduct(setup: Setup, b: Snapshot, w: World, started: bool)
    requires Working(w) && w.s.p.phase == Some(CleanupRequired)
    requires var m := Memo(setup, b, w); Keeps(setup, b, w) && m.bound && m.begun == started && JustWrote(m)
    ensures Concluded(setup, b, Reconcile(w, started)) && Memo(setup, b, Reconcile(w, started)).bound
  {
    hide Honest, Recall, MayEnd, MayStop, MustCatch, Aware, Inv, Allowed, MayYield, MayShutChecks, CloseChecks, ReleaseAndThrow, FailReconciled,
      Known;
    ReconcileFits(setup, Memo(setup, b, w));
    CloseChecksConduct(setup, b, w);
    CloseChecksFacts(w);
    var v := CloseChecks(w).0;
    ReachedEnd(setup, b, v);
    if On(v) {
      var n := Memo(setup, b, v);
      ReconcileFits(setup, n);
      if started {
        DoListening(setup, b, v, Recover);
        var x := External(v, Recover);
        var l := Memo(setup, b, x);
        ReachedEnd(setup, b, x);
        ReconcileFits(setup, l);
        if x.end.Raise? {
          RaisedIsKnown(setup, l, x.end.exn);
          ReleaseAndThrowConduct(setup, b, Caught(x), x.end.exn);
        } else if On(x) {
          FailReconciledConduct(setup, b, x);
        }
      } else {
        FailReconciledConduct(setup, b, v);
      }
    }
  }

  lemma BoundFits(setup: Setup, m: Memory)
    requires Just(m, Bind)
    ensures Earned(setup, m, m.s.p.(phase := Some(CleanupRequired)))
  {
    hide ClosingNote, Advances, Converges, TimesOut;
    assert GivesUp(setup, m, m.s.p.(phase := Some(CleanupRequired)));
  }

  lemma TerminalReconcileConduct(setup: Setup, b: Snapshot, w: World)
    requires Working(w) && !IsCancel(w.s.p.phase)
    requires Keeps(setup, b, w) && Allowed(setup, Memo(setup, b, w), Bind)
    ensures Concluded(setup, b, TerminalReconcile(w))
    ensures var n := Memo(setup, b, TerminalReconcile(w)); n.bound || Did(n, Bind)
  {
    hide Honest, Recall, MayEnd, MayStop, MustCatch, Aware, Inv, Allowed, Earned, Record, Reconcile, Recordable;
    GoTurning(setup, b, w, Bind);
    var v := External(w, Bind);
    ReachedEnd(setup, b, v);
    if On(v) {
      var q := v.s.p.(phase := Some(CleanupRequired));
      BoundFits(setup, Memo(setup, b, v));
      CleanupRecordable(v.s);
      RecordQuietly(setup, b, v, q);
      RecordFacts(v, q);
      var x := Record(v, q);
      ReachedEnd(setup, b, x);
      if On(x) { ReconcileConduct(setup, b, x, w.s.p.phase.Some?); }
    }
  }

  // ----- The failure handler -----

  /** At work on a failure that the service loop does not contain. */
  ghost predicate Failing(setup: Setup, b: Snapshot, w: World, k: Exn) {
    var m := Memo(setup, b, w);
    Keeps(setup, b, w) && Handling(setup, m) && Known(setup, m, k) && !m.postponed
  }

  lemma FailingStill(setup: Setup, b: Snapshot, w: World, v: World, k: Exn)
    requires Failing(setup, b, w, k) && Keeps(setup, b, v) && Aware(setup, Memo(setup, b, w), Memo(setup, b, v))
    requires Steady(Memo(setup, b, w), Memo(setup, b, v)) && !OutOfReach(Memo(setup, b, v))
    ensures Failing(setup, b, v, k)
  {
    hide Honest, Recall, OutOfReach;
    KnownStays(setup, Memo(setup, b, w), Memo(setup, b, v), k);
    hide Hurt, Upset, Expired, Known;
  }

  lemma HandlingFits(setup: Setup, m: Memory)
    requires Handling(setup, m)
    ensures !NoOpenChecks(m.s.p) ==> MayShutChecks(setup, m)
    ensures ClosingTried(m) ==> Allowed(setup, m, OUTCOME)
    ensures Just(m, OUTCOME) && m.s.p.runId.Some? ==> Allowed(setup, m, Postpone)
    ensures Just(m, OUTCOME) && Phased(m, Dispatching) ==> Allowed(setup, m, Recover)
  {
    hide Handling;
  }

  lemma GiveUpMayCall(setup: Setup, m: Memory)
    requires Handling(setup, m)
    ensures Renewed(m, CleanupRequired) ==> Allowed(setup, m, Recover)
    ensures Renewed(m, DispatchAmbiguous) ==> Allowed(setup, m, Postpone)
    ensures Phased(m, CleanupRequired) && Fell(m, Recover) ==> Allowed(setup, m, Postpone)
    ensures Phased(m, CleanupRequired) && Just(m, Recover) ==> Allowed(setup, m, Tell)
  {
    hide Handling;
  }

  lemma GiveUpFits(setup: Setup, m: Memory)
    ensures Handling(setup, m) && Just(m, OUTCOME) && m.s.p.runId.None? && !Phased(m, Dispatching) ==>
      Earned(setup, m, m.s.p.(phase := Some(CleanupRequired)))
    ensures Phased(m, Dispatching) && Did(m, Recover) ==>
      Earned(setup, m, m.s.p.(phase := Some(DispatchAmbiguous), ambiguous := true))
  {
    hide ClosingNote, Advances, Converges, TimesOut, Handling;
    if Handling(setup, m) && Just(m, OUTCOME) && m.s.p.runId.None? && !Phased(m, Dispatching) {
      assert GivesUp(setup, m, m.s.p.(phase := Some(CleanupRequired)));
    }
    if Phased(m, Dispatching) && Did(m, Recover) {
      assert GivesUp(setup, m, m.s.p.(phase := Some(DispatchAmbiguous), ambiguous := true));
    }
  }

  lemma PostponeConduct(setup: Setup, b: Snapshot, w: World, e: Exn)
    requires On(w) && Keeps(setup, b, w) && Allowed(setup, Memo(setup, b, w), Postpone) && Known(setup, Memo(setup, b, w), e)
    ensures var y := External(w, Postpone);
      Concluded(setup, b, if On(y) then ReleaseAndThrow(y, e) else y)
  {
    hide Honest, Recall, MayEnd, MayStop, MustCatch, Aware, Allowed, Known, ReleaseAndThrow;
    GoTurning(setup, b, w, Postpone);
    var y := External(w, Postpone);
    ReachedEnd(setup, b, y);
    KnownStays(setup, Memo(setup, b, w), Memo(setup, b, y), e);
    if On(y) { ReleaseAndThrowConduct(setup, b, y, e); }
  }

  lemma FailureHandlerConduct(setup: Setup, b: Snapshot, w: World, k: Exn)
    requires On(w) && Inv(w.s) && Stopped(w.s) && Failing(setup, b, w, k)
    ensures Concluded(setup, b, FailureHandler(w, k))
  {
    hide Honest, Recall, MayEnd, MayStop, MustCatch, Aware, Inv, Handling, Known, OutOfReach, MayShutChecks, CloseChecks, Allowed, Stopped,
      Call, MarkAmbiguous, CleanUpAndFail, ReleaseAndThrow;
    StoppedHasRow(w.s);
    HandlingFits(setup, Memo(setup, b, w));
    CloseChecksConduct(setup, b, w);
    CloseChecksFacts(w);
    var v := CloseChecks(w).0;
    ReachedEnd(setup, b, v);
    if On(v) {
      NotOutOfReach(setup, b, w, v, k);
      StoppedStill(w.s, v.s);
      PublishConduct(setup, b, v, k);
    }
  }

  lemma StoppedHasRow(s: Snapshot)
    requires Stopped(s)
    ensures s.state != Absent && !IsTimeout(s.p.phase) && !IsRetired(s.p.phase)
  {
  }

  lemma StoppedStill(s: Snapshot, t: Snapshot)
    requires Stopped(s) && t.state == s.state && ChecksOnly(s.p, t.p)
    ensures Stopped(t)
  {
  }

  lemma NotOutOfReach(setup: Setup, b: Snapshot, w: World, v: World, k: Exn)
    requires Failing(setup, b, w, k) && Keeps(setup, b, v) && Quiet(Memo(setup, b, w), Memo(setup, b, v))
    requires Aware(setup, Memo(setup, b, w), Memo(setup, b, v))
    requires v == w || !Raised(Memo(setup, b, v), Transport)
    ensures Failing(setup, b, v, k)
  {
    hide Honest, Recall;
    if v != w { FailingStill(setup, b, w, v, k); }
  }

  /** What follows once the Check Runs were seen to. */
  function Publish(w: World, k: Exn): World {
    var (x, _) := Call(w, Outcome(OtherCause));
    if !On(x) then x
    else if x.s.p.runId.Some? then
      var y := External(x, Postpone);
      if On(y) then ReleaseAndThrow(y, k) else y
    else if x.s.p.phase == Some(Dispatching) then MarkAmbiguous(x, k)
    else CleanUpAndFail(x, k)
  }

  lemma PublishConduct(setup: Setup, b: Snapshot, w: World, k: Exn)
    requires On(w) && Inv(w.s) && Stopped(w.s) && Failing(setup, b, w, k) && ClosingTried(Memo(setup, b, w))
    ensures Concluded(setup, b, Publish(w, k))
  {
    hide Honest, Recall, MayEnd, MayStop, MustCatch, Aware, Inv, Handling, Known, OutOfReach, Call, MarkAmbiguous, CleanUpAndFail, ReleaseAndThrow,
      Allowed, Stopped;
    HandlingFits(setup, Memo(setup, b, w));
    CallListening(setup, b, w, Outcome(OtherCause));
    StoppedHasRow(w.s);
    CallFacts(w, Outcome(OtherCause));
    var x := Call(w, Outcome(OtherCause)).0;
    ReachedEnd(setup, b, x);
    if On(x) {
      var n := Memo(setup, b, x);
      JustIsNotRaised(n, OUTCOME);
      FailingStill(setup, b, w, x, k);
      HandlingFits(setup, n);
      OutcomeKeepsRow(w);
      if x.s.p.runId.Some? {
        PostponeConduct(setup, b, x, k);
      } else {
        StoppedRuns(w.s);
        if x.s.p.phase == Some(Dispatching) { MarkAmbiguousConduct(setup, b, x, k); } else { CleanUpConduct(setup, b, x, k); }
      }
    }
  }

  lemma OutcomeKeepsRow(w: World)
    requires On(Call(w, Outcome(OtherCause)).0)
    ensures Call(w, Outcome(OtherCause)).0.s == Called(w.s, Outcome(OtherCause))
  {
  }

  lemma StoppedRuns(s: Snapshot)
    requires Inv(s) && Stopped(s) && s.p.runId.None?
    ensures s.state == Running && Plain(s.p.phase)
  {
    hide LogOk, Armed, LastRecord;
  }

  lemma JustIsNotRaised(m: Memory, d: Deed)
    requires Just(m, d)
    ensures !OutOfReach(m)
  {
  }

  lemma NoRunInReach(m: Memory)
    requires m.s.p.runId.None?
    ensures !OutOfReach(m)
  {
  }

  /** A receipt may be lost. */
  lemma MarkAmbiguousConduct(setup: Setup, b: Snapshot, w: World, k: Exn)
    requires On(w) && Failing(setup, b, w, k) && w.s.p.phase == Some(Dispatching) && w.s.p.runId.None?
    requires Just(Memo(setup, b, w), OUTCOME)
    ensures Concluded(setup, b, MarkAmbiguous(w, k))
  {
    hide Honest, Recall, MayEnd, MayStop, MustCatch, Aware, Handling, Known, OutOfReach, RecordAndClaim, ReleaseAndThrow, Allowed, Earned;
    HandlingFits(setup, Memo(setup, b, w));
    DoListening(setup, b, w, Recover);
    var v := External(w, Recover);
    var n := Memo(setup, b, v);
    ReachedEnd(setup, b, v);
    if !v.end.Crash? {
      NoRunInReach(n);
      FailingStill(setup, b, w, v, k);
      GiveUpFits(setup, n);
      if v.end.Raise? { RaisedIsKnown(setup, n, v.end.exn); }
      AmbiguousConduct(setup, b, Caught(v), k, if v.end.Raise? then v.end.exn else k);
    }
  }

  lemma AmbiguousConduct(setup: Setup, b: Snapshot, w: World, k: Exn, e: Exn)
    requires On(w) && Failing(setup, b, w, k) && w.s.p.runId.None? && Known(setup, Memo(setup, b, w), e)
    requires Earned(setup, Memo(setup, b, w), w.s.p.(phase := Some(DispatchAmbiguous), ambiguous := true))
    ensures var x := RecordAndClaim(w, w.s.p.(phase := Some(DispatchAmbiguous), ambiguous := true));
      Concluded(setup, b, if !On(x) then x
                          else var y := External(x, Postpone); if On(y) then ReleaseAndThrow(y, e) else y)
  {
    hide Honest, Recall, MayEnd, MayStop, MustCatch, Aware, Handling, Known, OutOfReach, RecordAndClaim, ReleaseAndThrow, Allowed, Earned;
    var q := w.s.p.(phase := Some(DispatchAmbiguous), ambiguous := true);
    RenewQuietly(setup, b, w, q);
    var x := RecordAndClaim(w, q);
    ReachedEnd(setup, b, x);
    if On(x) {
      NoRunInReach(Memo(setup, b, x));
      FailingStill(setup, b, w, x, k);
      KnownStays(setup, Memo(setup, b, w), Memo(setup, b, x), e);
      GiveUpMayCall(setup, Memo(setup, b, x));
      PostponeConduct(setup, b, x, e);
    }
  }

  lemma CleanUpConduct(setup: Setup, b: Snapshot, w: World, k: Exn)
    requires Working(w) && Failing(setup, b, w, k) && Plain(w.s.p.phase) && w.s.p.phase != Some(Dispatching) && w.s.p.runId.None?
    requires Just(Memo(setup, b, w), OUTCOME)
    ensures Concluded(setup, b, CleanUpAndFail(w, k))
  {
    hide Honest, Recall, MayEnd, MayStop, MustCatch, Aware, Inv, Handling, Known, OutOfReach, RecordAndClaim, ReleaseAndThrow, Abort, Allowed, Earned,
      Recordable;
    var q := w.s.p.(phase := Some(CleanupRequired));
    GiveUpFits(setup, Memo(setup, b, w));
    CleanupRecordable(w.s);
    RenewQuietly(setup, b, w, q);
    var v := RecordAndClaim(w, q);
    ReachedEnd(setup, b, v);
    if On(v) {
      var n := Memo(setup, b, v);
      NoRunInReach(n);
      FailingStill(setup, b, w, v, k);
      GiveUpMayCall(setup, n);
      RecoverConduct(setup, b, v, k);
    }
  }

  lemma RecoverConduct(setup: Setup, b: Snapshot, w: World, k: Exn)
    requires On(w) && Failing(setup, b, w, k) && w.s.p.phase == Some(CleanupRequired) && w.s.p.runId.None?
    requires w.s.state == Running && Allowed(setup, Memo(setup, b, w), Recover)
    ensures var x := External(w, Recover);
      var y := External(Caught(x), if x.end.Raise? then Postpone else Tell);
      Concluded(setup, b,
                if x.end.Crash? then x else if !On(y) then y else if x.end.Raise? then ReleaseAndThrow(y, x.end.exn)
                else var z := Abort(y); if On(z) then Throw(z, k) else z)
  {
    hide Honest, Recall, MayEnd, MayStop, MustCatch, Aware, Handling, Known, OutOfReach, ReleaseAndThrow, Abort, Allowed;
    DoListening(setup, b, w, Recover);
    var x := External(w, Recover);
    var n := Memo(setup, b, x);
    ReachedEnd(setup, b, x);
    if !x.end.Crash? {
      NoRunInReach(n);
      FailingStill(setup, b, w, x, k);
      GiveUpMayCall(setup, n);
      if x.end.Raise? {
        RaisedIsKnown(setup, n, x.end.exn);
        PostponeConduct(setup, b, Caught(x), x.end.exn);
      } else {
        TellConduct(setup, b, x, k);
      }
    }
  }

  lemma TellConduct(setup: Setup, b: Snapshot, w: World, k: Exn)
    requires On(w) && Failing(setup, b, w, k) && w.s.p.phase == Some(CleanupRequired) && w.s.state == Running
    requires Allowed(setup, Memo(setup, b, w), Tell) && Memo(setup, b, w).recovered
    ensures var y := External(w, Tell);
      Concluded(setup, b, if !On(y) then y else var z := Abort(y); if On(z) then Throw(z, k) else z)
  {
    hide Honest, Recall, MayEnd, MayStop, MustCatch, Aware, Known, Handling, Abort, Allowed, MayFail;
    GoQuietly(setup, b, w, Tell);
    FailingMeans(setup, b, w, k);
    var y := External(w, Tell);
    CallLetsGo(Memo(setup, b, y), y.end);
    ReachedEnd(setup, b, y);
    if On(y) {
      ToldFits(Memo(setup, b, y));
      AbortConduct(setup, b, y);
      var z := Abort(y);
      ReachedEnd(setup, b, z);
      AddsUp(setup, Memo(setup, b, w), Memo(setup, b, y), Memo(setup, b, z));
      KnownStays(setup, Memo(setup, b, w), Memo(setup, b, z), k);
      if On(z) {
        ThrownAfter(setup, Memo(setup, b, z), k);
      }
    }
  }

  lemma FailingMeans(setup: Setup, b: Snapshot, w: World, k: Exn)
    requires Failing(setup, b, w, k)
    ensures !Memo(setup, b, w).bound
  {
  }

  lemma ToldFits(m: Memory)
    requires Just(m, Tell) && Phased(m, CleanupRequired) && m.s.state == Running && m.recovered
    ensures MayFail(m)
  {
  }

  lemma ThrownAfter(setup: Setup, m: Memory, k: Exn)
    requires Known(setup, m, k) && Just(m, Close(Failed)) && Phased(m, CleanupRequired) && !m.bound
    ensures MayEnd(setup, m, Raise(k))
  {
  }

  // ----- What was done after a failure -----

  /** The steps of `w`, and perhaps more. */
  predicate Further(w: World, v: World) {
    |w.trace| <= |v.trace| && v.trace[..|w.trace|] == w.trace
  }

  lemma CloseChecksFurthers(w: World)
    ensures Further(w, CloseChecks(w).0)
  {
  }

  lemma ReleaseFurthers(w: World, e: Exn)
    ensures Further(w, ReleaseAndThrow(w, e))
  {
  }

  lemma RenewFurthers(w: World, q: Progress)
    ensures Further(w, RecordAndClaim(w, q))
  {
  }

  lemma MarkFurthers(w: World, k: Exn)
    ensures Further(w, MarkAmbiguous(w, k))
  {
    hide RecordAndClaim, ReleaseAndThrow;
    var v := External(w, Recover);
    if !v.end.Crash? {
      var q := v.s.p.(phase := Some(DispatchAmbiguous), ambiguous := true);
      RenewFurthers(Caught(v), q);
      var x := RecordAndClaim(Caught(v), q);
      if On(x) { ReleaseFurthers(External(x, Postpone), if v.end.Raise? then v.end.exn else k); }
    }
  }

  lemma CleanUpFurthers(w: World, k: Exn)
    ensures Further(w, CleanUpAndFail(w, k))
  {
    hide RecordAndClaim, ReleaseAndThrow, Abort;
    var q := w.s.p.(phase := Some(CleanupRequired));
    RenewFurthers(w, q);
    var v := RecordAndClaim(w, q);
    if On(v) {
      var x := External(v, Recover);
      if x.end.Raise? {
        ReleaseFurthers(External(Caught(x), Postpone), x.end.exn);
      } else if !x.end.Crash? {
        AbortFurthers(External(x, Tell));
      }
    }
  }

  lemma AbortFurthers(w: World)
    ensures Further(w, Abort(w))
  {
  }

  /** The failure handler does something. */
  lemma HandlerFurthers(w: World, k: Exn)
    requires On(w)
    ensures var v := FailureHandler(w, k); Further(w, v) && |w.trace| < |v.trace|
  {
    hide CloseChecks, MarkAmbiguous, CleanUpAndFail, ReleaseAndThrow;
    CloseChecksFurthers(w);
    var v := CloseChecks(w).0;
    if On(v) {
      var x := Call(v, Outcome(OtherCause)).0;
      if On(x) {
        ReleaseFurthers(External(x, Postpone), k);
        MarkFurthers(x, k);
        CleanUpFurthers(x, k);
      }
    } else {
      StoppedClosing(w);
    }
  }

  lemma StoppedClosing(w: World)
    requires On(w) && !On(CloseChecks(w).0)
    ensures |w.trace| < |CloseChecks(w).0.trace|
  {
  }

  /** What went wrong earlier is remembered from then on. */
  lemma {:induction false} UpsetStays(setup: Setup, b: Snapshot, t: seq<Step>, n: nat)
    requires n < |t| && Upset(setup, Recall(setup, b, t[..n]))
    ensures Recall(setup, b, t).upset
  {
    hide Next, Upset;
    var r := t[..|t| - 1];
    NextUpset(setup, Recall(setup, b, r), t[|t| - 1]);
    if n < |r| {
      assert r[..n] == t[..n];
      UpsetStays(setup, b, r, n);
      UpsetMeans(setup, Recall(setup, b, r));
    } else {
      assert r == t[..n];
    }
  }

  lemma NextUpset(setup: Setup, m: Memory, st: Step)
    ensures Next(setup, m, st).upset == Upset(setup, m)
  {
    hide Upset, Hurt, Expired, Effect;
  }

  lemma UpsetMeans(setup: Setup, m: Memory)
    ensures m.upset ==> Upset(setup, m)
  {
  }

  /** The cycle may end as it does at `v`, and no failure was left unhandled. */
  ghost predicate Finished(setup: Setup, b: Snapshot, v: World) {
    Concluded(setup, b, v) && (v.end.Raise? ==> !MustHandle(Memo(setup, b, v), v.end.exn))
  }

  // ----- A cycle -----

  lemma RecallsBase(setup: Setup, b: Snapshot, t: seq<Step>)
    ensures Recall(setup, b, t).base == b
  {
    hide Hurt, Upset, Expired, Effect;
  }

  lemma RoutedFits(setup: Setup, m: Memory)
    requires Fresh(m)
    ensures Phased(m, CleanupRequired) && m.polls == 0 ==> Allowed(setup, m, Bind)
    ensures !IsRouted(m.s.p.phase) ==> Allowed(setup, m, Ask)
  {
  }

  lemma RoutedConduct(setup: Setup, b: Snapshot, w: World)
    requires Working(w) && IsRouted(w.s.p.phase)
    requires var m := Memo(setup, b, w); Keeps(setup, b, w) && Fresh(m) && Early(m)
    ensures Concluded(setup, b, Routed(w, setup))
  {
    hide Honest, Recall, MayEnd, MayStop, MustCatch, Aware, Inv, Allowed, Earned, Call, CancelPending, CancelNotConverged, ContinueCancelRecovery,
      ContinueCancelRequested, TerminalReconcile;
    var m := Memo(setup, b, w);
    RoutedFits(setup, m);
    if w.s.p.phase == Some(CancelRequesting) {
      CancelFits(setup, m);
      CancelQuietly(setup, b, w);
      var (v, answer) := Call(w, Cancel);
      if v.end.Raise? && !GithubFailure(v.end.exn) { CallLetsGo(Memo(setup, b, v), v.end); }
      ReachedEnd(setup, b, v);
      if !v.end.Crash? && (v.end.Raise? ==> GithubFailure(v.end.exn)) {
        CancelKeepsRecord(w);
        ClockAfterCancel(setup, Memo(setup, b, v));
        CancelPendingConduct(setup, b, Caught(v), On(v) && answer != 0);
      }
    } else if w.s.p.phase == Some(CancelTimeoutRecording) {
      TimingOutFits(setup, m);
      CancelNotConvergedConduct(setup, b, w);
    } else if w.s.p.phase == Some(CancelRecoveryPending) {
      CancelRecoveryConduct(setup, b, w);
    } else if w.s.p.phase == Some(CancelRequested) {
      ContinueConduct(setup, b, w);
    } else {
      TerminalReconcileConduct(setup, b, w);
    }
  }

  lemma CancelKeepsRecord(w: World)
    ensures Call(w, Cancel).0.s.p == w.s.p
  {
  }

  lemma RedeliverConduct(setup: Setup, b: Snapshot, w: World)
    requires On(w) && (w.s.state == Completing || w.s.state == Done)
    requires Keeps(setup, b, w) && Claimed(Memo(setup, b, w)) && Early(Memo(setup, b, w))
    ensures Concluded(setup, b, Redeliver(w)) && !Memo(setup, b, Redeliver(w)).resumed
  {
    hide Honest, Recall, Aware, MayRaise, Delivered, Allowed;
    RedeliveryFits(setup, Memo(setup, b, w));
    GoQuietly(setup, b, w, Complete);
    var v := External(w, Complete);
    CallLetsGo(Memo(setup, b, v), v.end);
    ReachedEnd(setup, b, v);
    if On(v) && v.s.state == Completing {
      Markable(setup, Memo(setup, b, v));
      MarkConduct(setup, b, v);
    }
  }

  lemma RedeliveryFits(setup: Setup, m: Memory)
    requires Claimed(m) && (m.s.state == Completing || m.s.state == Done)
    ensures Allowed(setup, m, Complete)
  {
  }

  lemma ResumeFits(setup: Setup, m: Memory)
    ensures Cleared(m) && m.polls == 0 && !m.resumed ==> Allowed(setup, m, Resume)
    ensures (Did(m, Resume) && Raised(m, Approval)) || ((Did(m, Issue) || Did(m, Authenticate)) && Raised(m, Pilot)) ==>
      m.polls == 0 ==> Allowed(setup, m, Bind)
  {
  }

  lemma PursueConduct(setup: Setup, b: Snapshot, w: World)
    requires Assigned(w)
    requires var m := Memo(setup, b, w); Keeps(setup, b, w) && Cleared(m) && Unsettled(m) && m.polls == 0 && !m.resumed && !m.pending
    ensures Finished(setup, b, Pursue(w, setup))
  {
    hide Honest, Recall, MayEnd, MayStop, MustCatch, Aware, Inv, Verdict, Allowed, TerminalReconcile, IssuePackage, Drive, FailureHandler, Quiet;
    ResumeFits(setup, Memo(setup, b, w));
    GoTurning(setup, b, w, Resume);
    var v := External(w, Resume);
    var n := Memo(setup, b, v);
    ReachedEnd(setup, b, v);
    if v.end == Raise(Approval) {
      ResumeFits(setup, n);
      TerminalReconcileConduct(setup, b, Caught(v));
    } else if On(v) {
      PackagedConduct(setup, b, v);
    }
  }

  /** What follows once the source confirmed the claim. */
  function Packaged(w: World, setup: Setup): World {
    var x := IssuePackage(w);
    if x.end == Raise(Pilot) then TerminalReconcile(Caught(x))
    else if !On(x) then x
    else
      var y := Drive(x, setup);
      if y.end.Raise? && !Contained(y.end.exn) then FailureHandler(Caught(y), y.end.exn) else y
  }

  lemma PackagedConduct(setup: Setup, b: Snapshot, w: World)
    requires Assigned(w)
    requires var m := Memo(setup, b, w); Keeps(setup, b, w) && Just(m, Resume) && Underway(m)
    ensures Finished(setup, b, Packaged(w, setup))
  {
    hide Honest, Recall, MayEnd, MayStop, MustCatch, Aware, Inv, Verdict, Allowed, TerminalReconcile, IssuePackage, Drive, FailureHandler, Quiet,
      Underway;
    var m := Memo(setup, b, w);
    IssuePackageConduct(setup, b, w);
    IssuedFacts(w);
    var x := IssuePackage(w);
    var n := Memo(setup, b, x);
    ReachedEnd(setup, b, x);
    UnderwayStill(m, n);
    NothingPolled(n);
    if x.end == Raise(Pilot) {
      ResumeFits(setup, n);
      TerminalReconcileConduct(setup, b, Caught(x));
    } else if On(x) {
      DrivenConduct(setup, b, x);
    }
  }

  lemma DrivenConduct(setup: Setup, b: Snapshot, w: World)
    requires Assigned(w) && (w.s.p.package || w.s.p.runId.Some?)
    requires var m := Memo(setup, b, w); Keeps(setup, b, w) && Underway(m) && Just(m, Authenticate)
    ensures var y := Drive(w, setup);
      Finished(setup, b, if y.end.Raise? && !Contained(y.end.exn) then FailureHandler(Caught(y), y.end.exn) else y)
  {
    hide Honest, Recall, Aware, Inv, Verdict, Drive, FailureHandler, OutOfReach, MayEnd, Stopped, Upset;
    DriveConduct(setup, b, w);
    DriveFacts(w, setup);
    var y := Drive(w, setup);
    if y.end.Raise? && !Contained(y.end.exn) {
      EndMeans(setup, Memo(setup, b, y), y.end.exn);
      FailureHandlerConduct(setup, b, Caught(y), y.end.exn);
      HandlerFurthers(Caught(y), y.end.exn);
      UpsetStays(setup, b, FailureHandler(Caught(y), y.end.exn).trace, |y.trace|);
    }
  }

  lemma EndMeans(setup: Setup, m: Memory, e: Exn)
    requires MayEnd(setup, m, Raise(e))
    ensures Known(setup, m, e)
    ensures !Contained(e) ==> Upset(setup, m)
    ensures Contained(e) ==> if e == Temporal then Expired(m) else Hurt(setup, m)
  {
    hide Hurt, Upset, Expired;
  }

  /** The claim of the row, at the beginning of a cycle. */
  lemma ClaimConduct(setup: Setup, w: World, durable: bool)
    requires On(w) && w.trace == [] && durable == ReadBack(w.s.state) && (setup.wellFormed || w.s.state == Absent)
    ensures var (v, acquired) := ClaimRow(w, durable);
      var n := Memo(setup, w.s, v);
      Reached(setup, w.s, v) && LetsGo(n, v.end) && (On(v) ==> Claimed(n) && n.mine == acquired && Early(n))
      && (!setup.wellFormed && w.s.state == Absent && On(v) ==> Hurt(setup, n))
  {
    hide Honest, Recall, Allowed, Next, MayEnd, Hurt, Upset, Expired, Effect;
    var (v, acquired) := ClaimRow(w, durable);
    var b, st, m := w.s, v.trace[0], Begin(w.s);
    BeginKeeps(setup, w);
    ClaimFits(setup, b);
    ClaimEffect(w, durable);
    assert v.trace == w.trace + [st];
    Extends(setup, b, w, v, st);
    TurnStep(setup, m, st);
    NextMine(setup, m, st);
    if !setup.wellFormed { MalformedFlaw(setup, b); }
    UnguardedLetsGo(Memo(setup, b, v), v.end);
    if !On(v) { StopsHere(setup, Memo(setup, b, v)); }
  }

  lemma ClaimFits(setup: Setup, b: Snapshot)
    requires setup.wellFormed || b.state == Absent
    ensures Allowed(setup, Begin(b), Claim(ReadBack(b.state)))
  {
  }

  lemma ClaimEffect(w: World, durable: bool)
    requires On(w) && w.trace == []
    ensures var v := ClaimRow(w, durable).0;
      |v.trace| == 1 && v.s == Effect(w.s, v.trace[0]) && v.trace[0].deed == Claim(durable)
      && v.trace[0].answer.ended == v.end
  {
  }

  lemma NextMine(setup: Setup, m: Memory, st: Step)
    requires st.deed.Claim?
    ensures Next(setup, m, st).mine
      == (m.mine || (st.answer.ended.Returned? && Claimable(m.s.state) && !(m.s.state == Running && st.answer.number == 2)))
    ensures Next(setup, m, st).hurt == Hurt(setup, m)
  {
    hide Hurt, Upset, Expired, Effect;
  }

  /** Nothing was done yet. */
  lemma BeginKeeps(setup: Setup, w: World)
    requires w.trace == []
    ensures Keeps(setup, w.s, w) && Memo(setup, w.s, w) == Begin(w.s)
  {
  }

  lemma AssignmentConduct(setup: Setup, w: World, durable: bool)
    requires On(w) && Inv(w.s) && w.trace == [] && durable == ReadBack(w.s.state)
    ensures Finished(setup, w.s, RunAssignment(w, setup, durable))
  {
    hide Honest, Recall, MayEnd, MayStop, MustCatch, Aware, Inv, Verdict, Allowed, ClaimRow, Redeliver, Routed, SupersessionReason,
      CompleteSuperseded, Pursue, Flaw;
    if !setup.wellFormed {
      BeginKeeps(setup, w);
      MalformedFlaw(setup, w.s);
      ThrowConduct(setup, w.s, w, WorkerError);
    } else {
      ClaimConduct(setup, w, durable);
      ClaimFacts(w, durable);
      var (v, acquired) := ClaimRow(w, durable);
      ReachedEnd(setup, w.s, v);
      if On(v) {
        if v.s.state == Completing || v.s.state == Done {
          RedeliverConduct(setup, w.s, v);
        } else if !acquired {
          LeftAlone(setup, Memo(setup, w.s, v));
        } else if IsRouted(v.s.p.phase) {
          RoutedConduct(setup, w.s, v);
          RecallsBase(setup, w.s, Routed(v, setup).trace);
        } else {
          ServeConduct(setup, w.s, v);
        }
      }
    }
  }

  lemma MalformedFlaw(setup: Setup, b: Snapshot)
    requires !setup.wellFormed
    ensures Flaw(setup, Begin(b)) == Some(WorkerError) && Hurt(setup, Begin(b))
  {
  }

  lemma LeftAlone(setup: Setup, m: Memory)
    requires Claimed(m) && !m.mine && m.s.state != Completing && m.s.state != Done
    ensures MayEnd(setup, m, Returned)
  {
  }

  /** A claimed request that nothing routes elsewhere. */
  lemma ServeConduct(setup: Setup, b: Snapshot, w: World)
    requires Working(w) && !IsRouted(w.s.p.phase)
    requires var m := Memo(setup, b, w); Keeps(setup, b, w) && Fresh(m) && Early(m)
    ensures var (x, reason) := SupersessionReason(w);
      Finished(setup, b, if !On(x) then x else if reason then CompleteSuperseded(x, setup) else Pursue(x, setup))
  {
    hide Honest, Recall, MayEnd, MayStop, MustCatch, Aware, Inv, Verdict, Allowed, SupersessionReason, CompleteSuperseded, Pursue;
    RunningIsNotRetired(w.s);
    RoutedFits(setup, Memo(setup, b, w));
    AskConduct(setup, b, w);
    AskFacts(w);
    var (x, reason) := SupersessionReason(w);
    ReachedEnd(setup, b, x);
    if On(x) {
      if reason { CompleteSupersededConduct(setup, b, x); } else { PursueConduct(setup, b, x); }
    }
  }

  // ----- Quarantine -----

  lemma QuarantiningStays(setup: Setup, m: Memory, n: Memory)
    requires Aware(setup, m, n) && n.base == m.base && n.matched == m.matched
    ensures Quarantining(setup, m) ==> Quarantining(setup, n)
  {
    hide Hurt, Expired, Upset;
  }

  lemma RetireFits(setup: Setup, m: Memory)
    requires Quarantining(setup, m)
    ensures !NoOpenChecks(m.s.p) ==> MayShutChecks(setup, m)
    ensures m.s.p.phase.Some? ==> Allowed(setup, m, Recover)
    ensures ClosingTried(m) && (m.s.p.phase.None? || Did(m, Recover) || Fell(m, ShutChecks)) ==> Allowed(setup, m, Tell)
  {
    hide Quarantining;
  }

  /** The source was told of the quarantine. */
  ghost predicate Told(setup: Setup, b: Snapshot, w: World, v: World) {
    var m, n := Memo(setup, b, w), Memo(setup, b, v);
    Keeps(setup, b, v) && Aware(setup, m, n) && (v.end.Crash? ==> Reached(setup, b, v))
    && (!v.end.Crash? ==> Quarantining(setup, n) && Did(n, Tell))
    && (v.end.Raise? ==> Known(setup, n, v.end.exn))
  }

  lemma TellOffConduct(setup: Setup, b: Snapshot, w: World)
    requires On(w) && Keeps(setup, b, w) && Quarantining(setup, Memo(setup, b, w)) && Allowed(setup, Memo(setup, b, w), Tell)
    ensures Told(setup, b, w, External(w, Tell))
  {
    hide Honest, Recall, MayEnd, MayStop, MustCatch, Aware, Allowed, Quarantining, Known;
    GoQuietly(setup, b, w, Tell);
    var v := External(w, Tell);
    QuarantiningStays(setup, Memo(setup, b, w), Memo(setup, b, v));
    if v.end.Raise? { RaisedIsKnown(setup, Memo(setup, b, v), v.end.exn); }
  }

  /** Close the checks and recover, as far as that works. */
  function Scrub(w: World): World {
    var (v, _) := CloseChecks(w);
    if On(v) && w.s.p.phase.Some? then External(v, Recover) else v
  }

  lemma ScrubConduct(setup: Setup, b: Snapshot, w: World)
    requires On(w) && Inv(w.s) && w.s.state != Absent && Keeps(setup, b, w) && Quarantining(setup, Memo(setup, b, w))
    ensures var x := Scrub(w);
      var m, n := Memo(setup, b, w), Memo(setup, b, x);
      Reached(setup, b, x) && Aware(setup, m, n)
      && (!x.end.Crash? ==> Quarantining(setup, n) && Allowed(setup, n, Tell))
      && (x.end.Raise? ==> Known(setup, n, x.end.exn))
  {
    hide Honest, Recall, MayEnd, MayStop, MustCatch, Aware, Inv, Allowed, Quarantining, Known, MayShutChecks, CloseChecks;
    var m := Memo(setup, b, w);
    RetireFits(setup, m);
    CloseChecksConduct(setup, b, w);
    CloseChecksFacts(w);
    var v := CloseChecks(w).0;
    var n := Memo(setup, b, v);
    QuarantiningStays(setup, m, n);
    RetireFits(setup, n);
    if v.end.Raise? { RaisedIsKnown(setup, n, v.end.exn); }
    if w.s.p.phase.None? {
      EmptyHasNoChecks(w.s);
    } else if On(v) {
      DoListening(setup, b, v, Recover);
      var x := External(v, Recover);
      var l := Memo(setup, b, x);
      AddsUp(setup, m, n, l);
      QuarantiningStays(setup, n, l);
      RetireFits(setup, l);
      if x.end.Raise? { RaisedIsKnown(setup, l, x.end.exn); }
    }
  }

  lemma EmptyHasNoChecks(s: Snapshot)
    requires Inv(s) && s.p.phase.None?
    ensures NoOpenChecks(s.p)
  {
    hide LogOk, Armed, LastRecord;
  }

  lemma RetireConduct(setup: Setup, b: Snapshot, w: World)
    requires On(w) && Inv(w.s) && w.s.state != Absent && Keeps(setup, b, w) && Quarantining(setup, Memo(setup, b, w))
    ensures Told(setup, b, w, Retire(w))
  {
    hide Honest, Recall, MayEnd, MayStop, MustCatch, Aware, Inv, Allowed, Quarantining, Known, CloseChecks, External;
    ScrubConduct(setup, b, w);
    var x := Scrub(w);
    if !x.end.Crash? {
      TellOffConduct(setup, b, Caught(x));
      var y := External(Caught(x), Tell);
      AddsUp(setup, Memo(setup, b, w), Memo(setup, b, x), Memo(setup, b, y));
      if x.end.Raise? { KnownStays(setup, Memo(setup, b, x), Memo(setup, b, y), x.end.exn); }
    }
  }

  lemma CondemnFits(setup: Setup, m: Memory, k: Exn)
    requires Quarantining(setup, m) && Did(m, Tell) && Known(setup, m, k) && Contained(k)
    ensures Allowed(setup, m, Condemn(if k == Temporal then AllocationExpired else AssignmentFailed))
  {
    hide Flaw;
  }

  lemma ExpiredEnds(setup: Setup, m: Memory)
    ensures Just(m, Condemn(AllocationExpired)) && m.s.state == Failed ==> MayEnd(setup, m, Returned)
  {
  }

  lemma CondemnedEnds(setup: Setup, m: Memory, e: Exn)
    requires m.last.Some? && m.last.value.deed.Condemn? && Known(setup, m, e)
    ensures MayEnd(setup, m, Raise(e))
  {
    hide Known;
  }

  lemma KnownUpsets(setup: Setup, m: Memory, e: Exn)
    requires Known(setup, m, e)
    ensures Contained(e) || Upset(setup, m)
  {
    hide Hurt, Upset, Expired;
  }

  /** The request ends failed, and the failure at hand goes on unless it was that the allocation expired. */
  lemma CondemnConduct(setup: Setup, b: Snapshot, w: World, k: Exn, cleanup: Ended)
    requires On(w) && Keeps(setup, b, w) && Quarantining(setup, Memo(setup, b, w)) && Did(Memo(setup, b, w), Tell)
    requires Known(setup, Memo(setup, b, w), k) && Contained(k)
    requires cleanup.Raise? ==> Known(setup, Memo(setup, b, w), cleanup.exn)
    ensures var t := Terminal(w, if k == Temporal then AllocationExpired else AssignmentFailed);
      Finished(setup, b, if !On(t) then t else if cleanup.Raise? then Throw(t, cleanup.exn)
                         else if k == Temporal then t else Throw(t, k))
  {
    hide Honest, Recall, Quarantining, Known, MayStop, MustCatch, MayEnd, Terminal, Upset;
    TerminalConduct(setup, b, w, k);
    var t := Terminal(w, if k == Temporal then AllocationExpired else AssignmentFailed);
    var m, n := Memo(setup, b, w), Memo(setup, b, t);
    ReachedEnd(setup, b, t);
    if On(t) {
      ExpiredEnds(setup, n);
      KnownStays(setup, m, n, k);
      CondemnedEnds(setup, n, k);
      if cleanup.Raise? {
        KnownStays(setup, m, n, cleanup.exn);
        KnownUpsets(setup, m, cleanup.exn);
        CondemnedEnds(setup, n, cleanup.exn);
      }
    }
  }

  lemma TerminalConduct(setup: Setup, b: Snapshot, w: World, k: Exn)
    requires On(w) && Keeps(setup, b, w) && Quarantining(setup, Memo(setup, b, w)) && Did(Memo(setup, b, w), Tell)
    requires Known(setup, Memo(setup, b, w), k) && Contained(k)
    ensures var phase := if k == Temporal then AllocationExpired else AssignmentFailed;
      var t := Terminal(w, phase);
      var m, n := Memo(setup, b, w), Memo(setup, b, t);
      Reached(setup, b, t) && LetsGo(n, t.end) && !t.end.Raise? && Did(n, Condemn(phase)) && Aware(setup, m, n)
      && n.upset == Upset(setup, m) && (On(t) ==> Just(n, Condemn(phase)) && n.s.state == Failed)
  {
    hide Honest, Recall, Aware, Allowed, Quarantining, Known, MayStop, MustCatch, Upset;
    var phase := if k == Temporal then AllocationExpired else AssignmentFailed;
    var m := Memo(setup, b, w);
    CondemnFits(setup, m, k);
    WalkStore(setup, b, w, Condemn(phase), true, Closed(w.s, Failed, Some(phase)));
    var n := Memo(setup, b, Terminal(w, phase));
    NextAware(setup, m, n.last.value);
    NextUpset(setup, m, n.last.value);
  }

  /** The request may be quarantined once it is known to be the one on record. */
  ghost predicate Identified(setup: Setup, b: Snapshot, w: World, v: World) {
    Reached(setup, b, v) && LetsGo(Memo(setup, b, v), v.end) && Aware(setup, Memo(setup, b, w), Memo(setup, b, v))
    && (On(v) ==> Quarantining(setup, Memo(setup, b, v)))
    && (v.end.Raise? ==> v.end.exn == WorkerError || Did(Memo(setup, b, v), Match))
  }

  lemma IdentifyConduct(setup: Setup, b: Snapshot, w: World)
    requires On(w) && Inv(w.s) && Keeps(setup, b, w) && (Hurt(setup, Memo(setup, b, w)) || Expired(Memo(setup, b, w)))
    requires w.s.state == Absent ==> !setup.wellFormed && w.trace == [] && w.s == b
    ensures Identified(setup, b, w, Identify(w, ReadBack(b.state)))
  {
    hide Honest, Recall, MayEnd, MayStop, MustCatch, Aware, Inv, Allowed, Hurt, Expired, ClaimRow, Flaw;
    RecallsBase(setup, b, w.trace);
    var m := Memo(setup, b, w);
    if w.s.state == Absent {
      FirstClaimConduct(setup, w);
    } else if ReadBack(b.state) {
      AddsUp(setup, m, m, m);
    } else {
      MatchConduct(setup, b, w);
    }
  }

  lemma FirstClaimConduct(setup: Setup, w: World)
    requires On(w) && w.s.state == Absent && !setup.wellFormed && w.trace == []
    ensures Identified(setup, w.s, w, ClaimRow(w, false).0)
  {
    hide Honest, MayEnd, ClaimRow, Recall;
    ClaimConduct(setup, w, false);
    BeginKeeps(setup, w);
    MalformedFlaw(setup, w.s);
    var v := ClaimRow(w, false).0;
    RecallsBase(setup, w.s, v.trace);
    ClaimAware(setup, w);
    ClaimRaises(w);
  }

  lemma ClaimRaises(w: World)
    requires On(w)
    ensures ClaimRow(w, false).0.end.Raise? ==> ClaimRow(w, false).0.end.exn == WorkerError
  {
  }

  lemma ClaimAware(setup: Setup, w: World)
    requires On(w) && w.trace == []
    ensures Aware(setup, Memo(setup, w.s, w), Memo(setup, w.s, ClaimRow(w, false).0))
  {
    var v := ClaimRow(w, false).0;
    var st := v.trace[0];
    assert v.trace == [st] && v.trace[..0] == [];
    NextAware(setup, Begin(w.s), st);
  }

  lemma MatchConduct(setup: Setup, b: Snapshot, w: World)
    requires On(w) && Keeps(setup, b, w) && w.s.state != Absent && !ReadBack(b.state)
    requires Hurt(setup, Memo(setup, b, w)) || Expired(Memo(setup, b, w))
    ensures Identified(setup, b, w, Identify(w, false))
  {
    hide Honest, Recall, Hurt, Expired, Upset, Next, Aware, Known, Turned;
    RecallsBase(setup, b, w.trace);
    var m := Memo(setup, b, w);
    var v := Identify(w, false);
    var st := v.trace[|w.trace|];
    var n := Memo(setup, b, v);
    MatchFits(setup, m);
    Extends(setup, b, w, v, st);
    TurnStep(setup, m, st);
    MatchEnds(setup, m, n, st);
  }

  lemma MatchFits(setup: Setup, m: Memory)
    requires (Hurt(setup, m) || Expired(m)) && m.s.state != Absent && !ReadBack(m.base.state)
    ensures Allowed(setup, m, Match)
  {
    hide Hurt, Expired;
  }

  lemma MatchEnds(setup: Setup, m: Memory, n: Memory, st: Step)
    requires Turned(m, n, st) && Aware(setup, m, n) && st.deed.Match? && (Hurt(setup, m) || Expired(m))
    ensures LetsGo(n, st.answer.ended) && LetsGo(n, Raise(Authority)) && Did(n, Match)
    ensures st.answer.ended.Crash? ==> MayStop(setup, n, Crash)
    ensures st.answer.ended.Returned? && st.answer.yes ==> MayStop(setup, n, Raise(Authority))
    ensures st.answer.ended.Returned? && !st.answer.yes ==> Quarantining(setup, n)
  {
    hide Hurt, Expired;
  }

  lemma QuarantineConduct(setup: Setup, b: Snapshot, w: World, k: Exn)
    requires On(w) && Inv(w.s) && Keeps(setup, b, w) && Known(setup, Memo(setup, b, w), k) && Contained(k)
    requires w.s.state == Absent ==> !setup.wellFormed && w.trace == [] && w.s == b
    ensures Finished(setup, b, Quarantine(w, ReadBack(b.state), k))
  {
    hide Honest, Recall, MayEnd, MayStop, MustCatch, Aware, Inv, Hurt, Expired, Upset, Identify, Retire, Terminal, Quarantining;
    ContainedHurts(setup, Memo(setup, b, w), k);
    IdentifyConduct(setup, b, w);
    IdentifyFacts(w, ReadBack(b.state));
    var v := Identify(w, ReadBack(b.state));
    ReachedEnd(setup, b, v);
    if On(v) {
      RetireConduct(setup, b, v);
      RetireFacts(v);
      var r := Retire(v);
      if r.end.Crash? { ReachedEnd(setup, b, r); }
      if !r.end.Crash? {
        KnownStays(setup, Memo(setup, b, w), Memo(setup, b, v), k);
        KnownStays(setup, Memo(setup, b, v), Memo(setup, b, r), k);
        CondemnConduct(setup, b, Caught(r), k, r.end);
      }
    }
  }

  lemma ContainedHurts(setup: Setup, m: Memory, k: Exn)
    requires Known(setup, m, k) && Contained(k)
    ensures Hurt(setup, m) || Expired(m)
  {
    hide Hurt, Expired, Upset;
  }

  /** Every cycle keeps to the protocol: every step of it was allowed when it was taken, the row is what these steps made
      of it, and the cycle ends in a way the protocol allows. */
  lemma RunOnceConduct(w: World, setup: Setup)
    requires On(w) && Inv(w.s) && w.trace == []
    ensures var v := RunOnce(w, setup);
      var n := Recall(setup, w.s, v.trace);
      Honest(setup, w.s, v.trace) && v.s == n.s && MayEnd(setup, n, v.end)
      && (v.end.Raise? ==> !MustHandle(n, v.end.exn))
  {
    hide Honest, Recall, MayEnd, MayStop, MustCatch, Inv, RunAssignment, Quarantine, Known, Contained;
    var durable := ReadBack(w.s.state);
    AssignmentConduct(setup, w, durable);
    AssignmentFacts(w, setup, durable);
    var v := RunAssignment(w, setup, durable);
    if v.end.Raise? && Contained(v.end.exn) {
      EndMeans(setup, Memo(setup, w.s, v), v.end.exn);
      QuarantineConduct(setup, w.s, Caught(v), v.end.exn);
    }
  }
}
