/**
 Taking an assignment from its package to its result keeps to the protocol.
 */
module PilotWatching {
  import opened Basics
  import opened PilotLog
  import opened PilotCycle
  import opened PilotProtocol
  import opened PilotSteps
  import opened PilotAssignments
  import opened PilotConduct
  import opened PilotConvergence

  // ----- Watching the run -----

  lemma WatchFits(setup: Setup, m: Memory)
    requires !Phased(m, CancelRequested)
    ensures Counts(m, Logged(Poll), 1) || Says(m, Timer, true) ==> Allowed(setup, m, OUTCOME)
    ensures Counts(m, Logged(Poll), 2) || (Cleared(m) && m.polls > 0) ==> Allowed(setup, m, Timer)
    ensures Counts(m, Logged(Poll), 0) ==> Allowed(setup, m, Ask)
    ensures Says(m, Timer, false) ==> Allowed(setup, m, Logged(Poll))
    ensures Just(m, Logged(Poll)) && !Counts(m, Logged(Poll), 0) && !Counts(m, Logged(Poll), 1) && !Counts(m, Logged(Poll), 2)
      ==> Flaw(setup, m) == Some(Pilot)
  {
  }

  /** Nothing was watched to its end yet. */
  predicate Unsettled(m: Memory) {
    Alone(m) && !m.outcome && !m.cleaned
  }

  /** The monitor ended in keeping with the protocol. */
  ghost predicate WatchedOver(setup: Setup, b: Snapshot, m: Memory, v: World, settled: bool) {
    var n := Memo(setup, b, v);
    Reached(setup, b, v) && LetsGo(n, v.end) && Steady(m, n) && n.polls > 0 && (v.end.Raise? ==> !n.cleaned)
    && (v.end.Raise? ==> (Raised(n, Transport) <==> v.end.exn == Transport))
    && n.s.p.jobId == m.s.p.jobId && n.s.p.runId == m.s.p.runId
    && (On(v) ==> if settled then Settled(n) && Just(n, Clean) && n.cleaned
                  else JustWrote(n) && Phased(n, CancelRequested) && Unsettled(n))
  }

  /** Nothing but the verdict is remembered. */
  predicate Judging(m: Memory, n: Memory) {
    Steady(m, n) && n.polls == m.polls && n.outcome == m.outcome && n.cleaned == m.cleaned && n.recovered == m.recovered
    && n.pending == m.pending
  }

  lemma AskConduct(setup: Setup, b: Snapshot, w: World)
    requires On(w) && Keeps(setup, b, w) && Allowed(setup, Memo(setup, b, w), Ask)
    ensures var (v, reason) := SupersessionReason(w);
      var m, n := Memo(setup, b, w), Memo(setup, b, v);
      Reached(setup, b, v) && LetsGo(n, v.end) && Judging(m, n) && Did(n, Ask) && n.last.value.answer.ended == v.end && Aware(setup, m, n)
      && v.s.p == w.s.p && v.s.state == w.s.state && (On(v) ==> n.verdict == Some(reason))
  {
    hide Honest, Recall, MayEnd, MayStop, MustCatch, Aware, Allowed;
    AskListening(setup, b, w);
  }

  lemma StillWatching(m: Memory, n: Memory)
    requires Unsettled(m) && Polling(m, n)
    ensures Unsettled(n) && Steady(m, n) && n.polls > 0
  {
  }

  lemma RunIsDispatched(s: Snapshot)
    requires Inv(s) && s.p.runId.Some?
    ensures s.p.phase != Some(Dispatching)
  {
    hide LogOk, Armed, LastRecord;
  }

  lemma JustWatching(m: Memory, n: Memory)
    requires Unsettled(m) && Quiet(m, n)
    ensures Unsettled(n) && Steady(m, n) && n.polls == m.polls
  {
  }

  lemma WatchedSince(setup: Setup, b: Snapshot, l: Memory, m: Memory, v: World, settled: bool)
    requires Steady(l, m) && l.s.p == m.s.p && WatchedOver(setup, b, m, v, settled)
    ensures WatchedOver(setup, b, l, v, settled)
  {
    hide Reached, Settled;
  }

  lemma {:induction false} MonitorConduct(setup: Setup, b: Snapshot, w: World)
    requires Working(w) && w.s.p.runId.Some? && Plain(w.s.p.phase) && w.s.p.jobId.Some?
    requires Keeps(setup, b, w) && Unsettled(Memo(setup, b, w)) && Allowed(setup, Memo(setup, b, w), Logged(Poll))
    ensures var (v, settled) := Monitor(w, setup);
      WatchedOver(setup, b, Memo(setup, b, w), v, settled)
    decreases w.script, 1
  {
    hide Honest, Recall, MayEnd, MayStop, MustCatch, Aware, Inv, Allowed, Flaw, Call, Settle, SupersessionReason, RequestSupersededCancel,
      OutOfTimeOr, Settled, Quiet;
    var m := Memo(setup, b, w);
    RunIsDispatched(w.s);
    PollConduct(setup, b, w);
    CallFacts(w, Poll);
    var (v, shape) := Call(w, Poll);
    StillWatching(m, Memo(setup, b, v));
    if On(v) {
      WatchFits(setup, Memo(setup, b, v));
      if shape == 1 {
        SettleConduct(setup, b, v);
      } else if shape == 2 {
        OutOfTimeConduct(setup, b, v);
        WatchedSince(setup, b, m, Memo(setup, b, v), Monitor(w, setup).0, Monitor(w, setup).1);
      } else if shape != 0 {
        ThrowConduct(setup, b, v, Pilot);
      } else {
        RevalidateConduct(setup, b, v);
        WatchedSince(setup, b, m, Memo(setup, b, v), Monitor(w, setup).0, Monitor(w, setup).1);
      }
    }
  }

  /** A run at work: is the request still wanted? */
  lemma {:induction false} RevalidateConduct(setup: Setup, b: Snapshot, w: World)
    requires Working(w) && w.s.p.runId.Some? && Plain(w.s.p.phase) && w.s.p.jobId.Some?
    requires Keeps(setup, b, w) && Unsettled(Memo(setup, b, w)) && Allowed(setup, Memo(setup, b, w), Ask)
    requires Memo(setup, b, w).polls > 0
    ensures var (x, reason) := SupersessionReason(w);
      var (v, settled) := if !On(x) then (x, false) else if reason then (RequestSupersededCancel(x, setup), false)
                          else OutOfTimeOr(x, setup);
      WatchedOver(setup, b, Memo(setup, b, w), v, settled)
    decreases w.script, 3
  {
    hide Honest, Recall, MayEnd, MayStop, MustCatch, Aware, Inv, Allowed, SupersessionReason, RequestSupersededCancel, OutOfTimeOr, Settled, Quiet;
    var m := Memo(setup, b, w);
    AskConduct(setup, b, w);
    AskFacts(w);
    var (x, reason) := SupersessionReason(w);
    var n := Memo(setup, b, x);
    if On(x) {
      if reason {
        RequestCancelConduct(setup, b, x);
        JustWatching(n, Memo(setup, b, RequestSupersededCancel(x, setup)));
      } else {
        WatchFits(setup, n);
        OutOfTimeConduct(setup, b, x);
        WatchedSince(setup, b, m, n, OutOfTimeOr(x, setup).0, OutOfTimeOr(x, setup).1);
      }
    }
  }

  lemma {:induction false} OutOfTimeConduct(setup: Setup, b: Snapshot, w: World)
    requires Working(w) && w.s.p.runId.Some? && Plain(w.s.p.phase) && w.s.p.jobId.Some?
    requires Keeps(setup, b, w) && Unsettled(Memo(setup, b, w)) && Allowed(setup, Memo(setup, b, w), Timer)
    requires Memo(setup, b, w).polls > 0
    ensures var (v, settled) := OutOfTimeOr(w, setup);
      WatchedOver(setup, b, Memo(setup, b, w), v, settled)
    decreases w.script, 2
  {
    hide Honest, Recall, MayEnd, MayStop, MustCatch, Aware, Inv, Allowed, Settle, Monitor, Settled, Quiet;
    var m := Memo(setup, b, w);
    RunIsDispatched(w.s);
    GoQuietly(setup, b, w, Timer);
    var (v, a) := Query(w, Timer);
    JustWatching(m, Memo(setup, b, v));
    if On(v) {
      WatchFits(setup, Memo(setup, b, v));
      if a.yes {
        SettleConduct(setup, b, v);
      } else {
        MonitorConduct(setup, b, v);
        WatchedSince(setup, b, m, Memo(setup, b, v), Monitor(v, setup).0, Monitor(v, setup).1);
      }
    }
  }

  lemma SetOut(setup: Setup, m: Memory)
    requires SetToWatch(m) && !Phased(m, CancelRequested)
    ensures if m.s.p.jobId.Some? && m.s.p.jobId.value >= 1 then Allowed(setup, m, Logged(Poll))
            else Flaw(setup, m) == Some(Pilot)
  {
  }

  lemma HeldBack(setup: Setup, m: Memory)
    requires m.s.p.jobId.Some?
    ensures JustWrote(m) && Phased(m, CancelRequested) && Unsettled(m) ==> MayYield(setup, m)
    ensures OutOfReach(m) ==> MayYield(setup, m)
  {
  }

  lemma RunHasPhase(s: Snapshot)
    requires Inv(s) && s.p.runId.Some?
    ensures s.p.phase.Some?
  {
    hide LogOk, Armed, LastRecord;
  }

  lemma WatchAndDeliverConduct(setup: Setup, b: Snapshot, w: World)
    requires Working(w) && w.s.p.runId.Some? && Plain(w.s.p.phase)
    requires var m := Memo(setup, b, w); Keeps(setup, b, w) && Unsettled(m) && SetToWatch(m) && m.resumed
    ensures var v := WatchAndDeliver(w, setup);
      var m, n := Memo(setup, b, w), Memo(setup, b, v);
      Concluded(setup, b, v) && Steady(m, n) && (v.end.Raise? ==> !OutOfReach(n))
      && (On(v) && n.cleaned ==> v.s.state == if NoOpenChecks(v.s.p) then Done else Retry)
      && (On(v) && !n.cleaned ==> v.s.state == Retry)
  {
    hide Honest, Recall, MayEnd, MayStop, MustCatch, Inv, Monitor, Release, CloseChecks, Deliver, Settled, SettledOnce, Allowed, MayYield, Aware;
    SetOut(setup, Memo(setup, b, w));
    if w.s.p.jobId.None? || w.s.p.jobId.value < 1 {
      ThrowConduct(setup, b, w, Pilot);
    } else {
      MonitorConduct(setup, b, w);
      MonitorFacts(w, setup);
      var (v, settled) := Monitor(w, setup);
      ReachedEnd(setup, b, v);
      HeldBack(setup, Memo(setup, b, v));
      if v.end == Raise(Transport) {
        YieldConduct(setup, b, Caught(v));
        ReleaseFacts(Caught(v));
      } else if On(v) {
        if !settled {
          YieldConduct(setup, b, v);
          ReleaseFacts(v);
        } else {
          RunHasPhase(v.s);
          FinishUpConduct(setup, b, v, false);
        }
      }
    }
  }

  // ----- Closing without a run -----

  lemma ReportFits(setup: Setup, m: Memory)
    requires m.verdict == Some(true) && m.s.p.runId.None?
    ensures !m.s.p.checks && (Refused(m) || (JustWrote(m) && Phased(m, DiscardReporting))) ==> Allowed(setup, m, Report)
    ensures Says(m, Report, true) ==> Earned(setup, m, m.s.p.(phase := Some(DiscardReporting)))
    ensures Says(m, Report, false) || (Fell(m, Report) && CheckFailure(Fault(m).value)) ==> Allowed(setup, m, OUTCOME)
    ensures Just(m, OUTCOME) && m.s.p.reserved ==> Allowed(setup, m, Recover)
  {
    hide Flaw, Converges, TimesOut, GivesUp;
  }

  /** A discard is reported: nothing else is remembered of it than whether it is pending. */
  predicate Reporting(m: Memory, n: Memory) {
    Steady(m, n) && n.verdict == m.verdict && n.polls == m.polls && n.outcome == m.outcome && n.cleaned == m.cleaned
    && n.recovered == m.recovered
  }

  lemma {:induction false} ReportDiscardedConduct(setup: Setup, b: Snapshot, w: World)
    requires On(w) && Keeps(setup, b, w) && w.s.p.runId.None? && !w.s.p.checks
    requires var m := Memo(setup, b, w);
      m.verdict == Some(true) && !m.pending && (Refused(m) || (JustWrote(m) && Phased(m, DiscardReporting)))
    ensures var (v, pending) := ReportDiscarded(w);
      var m, n := Memo(setup, b, w), Memo(setup, b, v);
      Reached(setup, b, v) && Reporting(m, n) && LetsGo(n, v.end)
      && (On(v) ==> n.pending == pending
                    && if pending then Fell(n, Report) && CheckFailure(Fault(n).value) else Says(n, Report, false))
    decreases w.script
  {
    hide Honest, Recall, MayEnd, MayStop, MustCatch, Aware, Allowed, Earned, Record, Quiet;
    var m := Memo(setup, b, w);
    ReportFits(setup, m);
    ReportConduct(setup, b, w);
    var (v, a) := Query(w, Report);
    if v.end.Raise? && !CheckFailure(v.end.exn) { UncaughtLetsGo(Memo(setup, b, v), v.end); }
    if On(v) && a.yes {
      NotPending(m, Memo(setup, b, v));
      ReportedConduct(setup, b, v);
      ReportingOn(m, Memo(setup, b, v), Memo(setup, b, ReportDiscarded(w).0));
    }
  }

  /** What was reported is recorded, and reporting goes on. */
  lemma {:induction false} ReportedConduct(setup: Setup, b: Snapshot, w: World)
    requires On(w) && Keeps(setup, b, w) && w.s.p.runId.None? && !w.s.p.checks
    requires var m := Memo(setup, b, w); m.verdict == Some(true) && !m.pending && Says(m, Report, true)
    ensures var x := Record(w, w.s.p.(phase := Some(DiscardReporting)));
      var (v, pending) := if On(x) then ReportDiscarded(x) else (x, false);
      var m, n := Memo(setup, b, w), Memo(setup, b, v);
      Reached(setup, b, v) && Reporting(m, n) && LetsGo(n, v.end)
      && (On(v) ==> n.pending == pending
                    && if pending then Fell(n, Report) && CheckFailure(Fault(n).value) else Says(n, Report, false))
    decreases w.script
  {
    hide Honest, Recall, MayEnd, MayStop, MustCatch, Aware, Allowed, Earned, Record, Quiet, ReportDiscarded;
    var m := Memo(setup, b, w);
    var q := w.s.p.(phase := Some(DiscardReporting));
    ReportFits(setup, m);
    RecordQuietly(setup, b, w, q);
    var x := Record(w, q);
    NotPending(m, Memo(setup, b, x));
    if On(x) {
      ReportDiscardedConduct(setup, b, x);
      ReportingOn(m, Memo(setup, b, x), Memo(setup, b, ReportDiscarded(x).0));
    }
  }

  /** One step of a discard's report. */
  lemma ReportConduct(setup: Setup, b: Snapshot, w: World)
    requires On(w) && Keeps(setup, b, w) && Allowed(setup, Memo(setup, b, w), Report) && !Memo(setup, b, w).pending
    ensures var (v, a) := Query(w, Report);
      var m, n := Memo(setup, b, w), Memo(setup, b, v);
      Reached(setup, b, v) && Reporting(m, n) && v.s == w.s && n.last == Some(Step(Report, a))
      && n.pending == !On(v) && (On(v) ==> Quiet(m, n))
  {
    hide Honest, Recall, MayEnd, MayStop, MustCatch, Aware, Allowed;
    DoListening(setup, b, w, Report);
  }

  lemma NotPending(m: Memory, n: Memory)
    requires Quiet(m, n)
    ensures Reporting(m, n) && n.pending == m.pending && n.verdict == m.verdict
  {
  }

  lemma ReportingOn(l: Memory, m: Memory, n: Memory)
    requires Quiet(l, m) && Reporting(m, n)
    ensures Reporting(l, n)
  {
  }

  lemma DiscardEnds(setup: Setup, m: Memory)
    requires DiscardSettled(m) && Alone(m) && !Phased(m, CancelRequested) && !m.cleaned && m.s.state == Running && !m.s.p.checks
    ensures m.pending ==> MayYield(setup, m)
    ensures !m.pending ==> MayComplete(m)
  {
  }

  lemma FinishSupersededConduct(setup: Setup, b: Snapshot, w: World, pending: bool)
    requires Working(w) && Plain(w.s.p.phase) && Keeps(setup, b, w) && w.s.p.runId.None?
    requires var m := Memo(setup, b, w);
      Unsettled(m) && m.verdict == Some(true) && m.pending == pending && !m.resumed && Allowed(setup, m, OUTCOME)
    ensures var v := FinishSuperseded(w, pending);
      Concluded(setup, b, v) && Steady(Memo(setup, b, w), Memo(setup, b, v)) && Memo(setup, b, v).polls == Memo(setup, b, w).polls
  {
    hide Honest, Recall, MayEnd, MayStop, MustCatch, Aware, Inv, Allowed, Flaw, Release, Deliver, MayYield, MayComplete, Call;
    NoRunNoChecks(w.s);
    CallListening(setup, b, w, Outcome(OtherCause));
    CallFacts(w, Outcome(OtherCause));
    var v := Call(w, Outcome(OtherCause)).0;
    ReachedEnd(setup, b, v);
    if On(v) {
      ReportFits(setup, Memo(setup, b, v));
      var x := if v.s.p.reserved then External(v, Recover) else v;
      if v.s.p.reserved {
        DoListening(setup, b, v, Recover);
        RecoverLetsGo(Memo(setup, b, x), x.end);
      }
      ReachedEnd(setup, b, x);
      if On(x) { DiscardConduct(setup, b, x, pending); }
    }
  }

  lemma DiscardConduct(setup: Setup, b: Snapshot, w: World, pending: bool)
    requires On(w) && Keeps(setup, b, w) && Plain(w.s.p.phase) && !w.s.p.checks && w.s.state == Running
    requires var m := Memo(setup, b, w); DiscardSettled(m) && Alone(m) && !m.cleaned && m.pending == pending
    ensures var v := if pending then Release(w) else Deliver(w, true);
      Concluded(setup, b, v) && Steady(Memo(setup, b, w), Memo(setup, b, v)) && Memo(setup, b, v).polls == Memo(setup, b, w).polls
  {
    hide Honest, Recall, MayEnd, MayStop, MustCatch, Aware, Release, Deliver, MayYield, MayComplete;
    DiscardEnds(setup, Memo(setup, b, w));
    if pending { YieldConduct(setup, b, w); } else { DeliverConduct(setup, b, w, true); }
  }

  lemma CompleteSupersededConduct(setup: Setup, b: Snapshot, w: World)
    requires Working(w) && Plain(w.s.p.phase) && Verdict(w.s.log) == Some(true)
    requires Keeps(setup, b, w) && Refused(Memo(setup, b, w)) && Unsettled(Memo(setup, b, w)) && !Memo(setup, b, w).pending
    requires w.s.p.runId.None? ==> !Memo(setup, b, w).resumed
    ensures var v := CompleteSuperseded(w, setup);
      Concluded(setup, b, v) && Steady(Memo(setup, b, w), Memo(setup, b, v)) && Memo(setup, b, v).polls == Memo(setup, b, w).polls
  {
    hide Honest, Recall, MayEnd, MayStop, MustCatch, Aware, Inv, Verdict, RequestSupersededCancel, Release, ReportDiscarded, FinishSuperseded,
      MayYield, Allowed, CloseChecks;
    if w.s.p.runId.Some? {
      RequestCancelConduct(setup, b, w);
      var v := RequestSupersededCancel(w, setup);
      ReachedEnd(setup, b, v);
      if On(v) {
        ConvergingYields(setup, Memo(setup, b, v));
        YieldConduct(setup, b, v);
      }
    } else {
      NoRunNoChecks(w.s);
      ReportDiscardedConduct(setup, b, w);
      ReportDiscardedFacts(w);
      var (v, pending) := ReportDiscarded(w);
      ReachedEnd(setup, b, v);
      if On(v) {
        ReportFits(setup, Memo(setup, b, v));
        FinishSupersededConduct(setup, b, v, pending);
      }
    }
  }

  // ----- Towards the run -----

  lemma PackageFits(setup: Setup, m: Memory)
    ensures Just(m, Resume) && !m.s.p.package && m.s.p.runId.None? ==> Allowed(setup, m, Issue)
    ensures Just(m, Issue) ==> Earned(setup, m, m.s.p.(phase := Some(PackageIssued), package := true))
    ensures Just(m, Resume) && (m.s.p.package || m.s.p.runId.Some?) ==> Allowed(setup, m, Authenticate)
    ensures JustWrote(m) && Phased(m, PackageIssued) ==> Allowed(setup, m, Authenticate)
  {
    hide Flaw, Converges, TimesOut, GivesUp;
  }

  lemma IssuePackageConduct(setup: Setup, b: Snapshot, w: World)
    requires On(w) && Keeps(setup, b, w) && Just(Memo(setup, b, w), Resume)
    ensures var v := IssuePackage(w);
      var m, n := Memo(setup, b, w), Memo(setup, b, v);
      Reached(setup, b, v) && Quiet(m, n) && (On(v) ==> Just(n, Authenticate))
      && (v.end != Raise(Pilot) ==> LetsGo(n, v.end))
      && (v.end.Raise? && v.end.exn != WorkerError ==> Did(n, Issue) || Did(n, Authenticate))
      && (v.end == Raise(Pilot) ==> Raised(n, Pilot) && (Did(n, Issue) || Did(n, Authenticate)))
  {
    hide Honest, Recall, MayEnd, MayStop, MustCatch, Aware, Allowed, Earned, Quiet, Record;
    var m := Memo(setup, b, w);
    PackageFits(setup, m);
    AddsUp(setup, m, m, m);
    if w.s.p.package || w.s.p.runId.Some? {
      GoQuietly(setup, b, w, Authenticate);
      var x := External(w, Authenticate);
      if x.end != Raise(Pilot) { PackageLetsGo(Memo(setup, b, x), x.end); }
    } else {
      GoQuietly(setup, b, w, Issue);
      var x := External(w, Issue);
      if x.end != Raise(Pilot) { PackageLetsGo(Memo(setup, b, x), x.end); }
      if On(x) {
        PackageFits(setup, Memo(setup, b, x));
        IssuedConduct(setup, b, x);
        AddsUp(setup, m, Memo(setup, b, x), Memo(setup, b, IssuePackage(w)));
      }
    }
  }

  lemma IssuedConduct(setup: Setup, b: Snapshot, w: World)
    requires On(w) && Keeps(setup, b, w)
    requires Earned(setup, Memo(setup, b, w), w.s.p.(phase := Some(PackageIssued), package := true))
    ensures var x := Record(w, w.s.p.(phase := Some(PackageIssued), package := true));
      var v := if On(x) then External(x, Authenticate) else x;
      var m, n := Memo(setup, b, w), Memo(setup, b, v);
      Reached(setup, b, v) && Quiet(m, n) && (On(v) ==> Just(n, Authenticate))
      && (v.end != Raise(Pilot) ==> LetsGo(n, v.end))
      && (v.end.Raise? && v.end.exn != WorkerError ==> Did(n, Issue) || Did(n, Authenticate))
      && (v.end == Raise(Pilot) ==> Raised(n, Pilot) && Did(n, Authenticate))
  {
    hide Honest, Recall, MayEnd, MayStop, MustCatch, Aware, Allowed, Earned, Quiet, Record;
    var q := w.s.p.(phase := Some(PackageIssued), package := true);
    RecordQuietly(setup, b, w, q);
    var x := Record(w, q);
    if On(x) {
      PackageFits(setup, Memo(setup, b, x));
      GoQuietly(setup, b, x, Authenticate);
      var y := External(x, Authenticate);
      if y.end != Raise(Pilot) { PackageLetsGo(Memo(setup, b, y), y.end); }
      AddsUp(setup, Memo(setup, b, w), Memo(setup, b, x), Memo(setup, b, External(x, Authenticate)));
    }
  }

  lemma ReserveFits(setup: Setup, m: Memory)
    ensures Just(m, Authenticate) && !m.bound ==> Allowed(setup, m, if m.s.p.reserved then CheckReserved else Reserve)
    ensures Just(m, Reserve) ==> Earned(setup, m, m.s.p.(phase := Some(Reserved), reserved := true))
    ensures Renewed(m, Reserved) ==> Allowed(setup, m, CheckReserved)
    ensures Says(m, CheckReserved, false) ==> Flaw(setup, m) == Some(WorkerError)
  {
    hide Converges, TimesOut, GivesUp;
  }

  lemma ReserveConduct(setup: Setup, b: Snapshot, w: World)
    requires On(w) && Keeps(setup, b, w) && Just(Memo(setup, b, w), Authenticate) && !Memo(setup, b, w).bound
    ensures var v := ReserveAllocation(w);
      var m, n := Memo(setup, b, w), Memo(setup, b, v);
      Reached(setup, b, v) && Quiet(m, n) && LetsGo(n, v.end) && (On(v) ==> Says(n, CheckReserved, true))
  {
    hide Honest, Recall, MayEnd, MayStop, MustCatch, Aware, Allowed, Earned, Quiet, RecordAndClaim, Flaw;
    var m := Memo(setup, b, w);
    ReserveFits(setup, m);
    if w.s.p.reserved {
      CheckReservedConduct(setup, b, w);
    } else {
      GoQuietly(setup, b, w, Reserve);
      var x := External(w, Reserve);
      if On(x) {
        var q := x.s.p.(phase := Some(Reserved), reserved := true);
        ReserveFits(setup, Memo(setup, b, x));
        RenewQuietly(setup, b, x, q);
        var y := RecordAndClaim(x, q);
        AddsUp(setup, m, Memo(setup, b, x), Memo(setup, b, y));
        if On(y) {
          ReserveFits(setup, Memo(setup, b, y));
          CheckReservedConduct(setup, b, y);
          AddsUp(setup, m, Memo(setup, b, y), Memo(setup, b, ReserveAllocation(w)));
        }
      }
    }
  }

  lemma CheckReservedConduct(setup: Setup, b: Snapshot, w: World)
    requires On(w) && Keeps(setup, b, w) && Allowed(setup, Memo(setup, b, w), CheckReserved)
    ensures var (x, a) := Query(w, CheckReserved);
      var v := if On(x) && !a.yes then Throw(x, WorkerError) else x;
      Reached(setup, b, v) && Quiet(Memo(setup, b, w), Memo(setup, b, v)) && LetsGo(Memo(setup, b, v), v.end)
      && (On(v) ==> Says(Memo(setup, b, v), CheckReserved, true))
  {
    hide Honest, Recall, MayEnd, MayStop, MustCatch, Aware, Allowed, Quiet, Flaw;
    GoQuietly(setup, b, w, CheckReserved);
    var (x, a) := Query(w, CheckReserved);
    ReserveFits(setup, Memo(setup, b, x));
    if On(x) && !a.yes { ThrowConduct(setup, b, x, WorkerError); }
  }

  lemma DispatchFits(setup: Setup, m: Memory)
    requires m.s.p.runId.None?
    ensures Says(m, CheckReserved, true) && MayDispatch(m.s.p) ==> Earned(setup, m, m.s.p.(phase := Some(Dispatching)))
    ensures Says(m, CheckReserved, true) && !MayDispatch(m.s.p) ==> Flaw(setup, m) == Some(WorkerError)
    ensures Renewed(m, Dispatching) ==> Allowed(setup, m, Logged(Dispatch))
    ensures Just(m, Logged(Dispatch)) ==>
      var receipt := m.last.value.answer.number;
      if receipt < 1 then Flaw(setup, m) == Some(WorkerError)
      else Earned(setup, m, m.s.p.(phase := Some(Dispatched), runId := Some(receipt)))
  {
    hide Converges, TimesOut, GivesUp;
  }

  lemma DispatchConduct(setup: Setup, b: Snapshot, w: World, before: Progress)
    requires On(w) && Keeps(setup, b, w) && Says(Memo(setup, b, w), CheckReserved, true)
    requires w.s.p.runId.None? ==> (MayDispatch(before) <==> MayDispatch(w.s.p))
    ensures var v := DispatchOnce(w, before);
      var m, n := Memo(setup, b, w), Memo(setup, b, v);
      Reached(setup, b, v) && Quiet(m, n) && LetsGo(n, v.end) && (On(v) ==> HasRun(n))
  {
    hide Honest, Recall, MayEnd, MayStop, MustCatch, Aware, Allowed, Earned, Quiet, RecordAndClaim, Flaw, MayDispatch, Call;
    var m := Memo(setup, b, w);
    AddsUp(setup, m, m, m);
    if w.s.p.runId.None? {
      DispatchFits(setup, m);
      if !MayDispatch(before) {
        ThrowConduct(setup, b, w, WorkerError);
      } else {
        var q := w.s.p.(phase := Some(Dispatching));
        RenewQuietly(setup, b, w, q);
        var v := RecordAndClaim(w, q);
        if On(v) {
          ReceiveConduct(setup, b, v);
          AddsUp(setup, m, Memo(setup, b, v), Memo(setup, b, DispatchOnce(w, before)));
        }
      }
    }
  }

  lemma ReceiveConduct(setup: Setup, b: Snapshot, w: World)
    requires On(w) && Keeps(setup, b, w) && Renewed(Memo(setup, b, w), Dispatching) && w.s.p.runId.None?
    ensures var (x, receipt) := Call(w, Dispatch);
      var v := if !On(x) then x else if receipt < 1 then Throw(x, WorkerError)
               else RecordAndClaim(x, x.s.p.(phase := Some(Dispatched), runId := Some(receipt)));
      var m, n := Memo(setup, b, w), Memo(setup, b, v);
      Reached(setup, b, v) && Quiet(m, n) && LetsGo(n, v.end) && (On(v) ==> HasRun(n))
  {
    hide Honest, Recall, MayEnd, MayStop, MustCatch, Aware, Allowed, Earned, Quiet, RecordAndClaim, Flaw;
    var m := Memo(setup, b, w);
    DispatchFits(setup, m);
    LoggedQuietly(setup, b, w, Dispatch);
    var (x, receipt) := Call(w, Dispatch);
    if On(x) {
      DispatchFits(setup, Memo(setup, b, x));
      if receipt < 1 {
        ThrowConduct(setup, b, x, WorkerError);
      } else {
        var q := x.s.p.(phase := Some(Dispatched), runId := Some(receipt));
        RenewQuietly(setup, b, x, q);
        AddsUp(setup, m, Memo(setup, b, x), Memo(setup, b, RecordAndClaim(x, q)));
      }
    }
  }

  lemma ObserveFits(setup: Setup, m: Memory)
    ensures HasRun(m) ==> Allowed(setup, m, if m.s.p.observed then CheckJob else Observe)
    ensures Renewed(m, Observed) ==> Allowed(setup, m, CheckJob)
    ensures Says(m, CheckJob, false) ==> Flaw(setup, m) == Some(WorkerError)
    ensures Says(m, CheckJob, true) ==> Allowed(setup, m, Window)
  {
  }

  lemma ObservedFits(setup: Setup, m: Memory)
    requires Just(m, Observe)
    ensures Earned(setup, m, m.s.p.(phase := Some(Observed), jobId := Some(m.last.value.answer.number), observed := true))
  {
    hide Converges, TimesOut, GivesUp, Flaw;
  }

  lemma WindowFits(setup: Setup, m: Memory)
    ensures Says(m, Window, true) && !m.s.p.window ==> Earned(setup, m, m.s.p.(phase := Some(AllocationWindow), window := true))
  {
    hide Converges, TimesOut, GivesUp;
  }

  lemma ObserveConduct(setup: Setup, b: Snapshot, w: World)
    requires On(w) && Keeps(setup, b, w) && HasRun(Memo(setup, b, w))
    ensures var v := ObserveJob(w);
      var m, n := Memo(setup, b, w), Memo(setup, b, v);
      Reached(setup, b, v) && Quiet(m, n) && LetsGo(n, v.end) && (On(v) ==> WindowSet(n))
  {
    hide Honest, Recall, MayEnd, MayStop, MustCatch, Aware, Allowed, Earned, Quiet, RecordAndClaim, RecordWindow, Flaw, WindowSet, HasRun;
    var m := Memo(setup, b, w);
    ObserveFits(setup, m);
    if w.s.p.observed {
      CheckJobConduct(setup, b, w);
    } else {
      GoQuietly(setup, b, w, Observe);
      var (x, a) := Query(w, Observe);
      if On(x) {
        var q := x.s.p.(phase := Some(Observed), jobId := Some(a.number), observed := true);
        ObservedFits(setup, Memo(setup, b, x));
        RenewQuietly(setup, b, x, q);
        var y := RecordAndClaim(x, q);
        AddsUp(setup, m, Memo(setup, b, x), Memo(setup, b, y));
        if On(y) {
          ObserveFits(setup, Memo(setup, b, y));
          CheckJobConduct(setup, b, y);
          AddsUp(setup, m, Memo(setup, b, y), Memo(setup, b, ObserveJob(w)));
        }
      }
    }
  }

  lemma CheckJobConduct(setup: Setup, b: Snapshot, w: World)
    requires On(w) && Keeps(setup, b, w) && Allowed(setup, Memo(setup, b, w), CheckJob)
    ensures var (x, a) := Query(w, CheckJob);
      var v := if !On(x) then x else if !a.yes then Throw(x, WorkerError) else RecordWindow(x);
      Reached(setup, b, v) && Quiet(Memo(setup, b, w), Memo(setup, b, v)) && LetsGo(Memo(setup, b, v), v.end)
      && (On(v) ==> WindowSet(Memo(setup, b, v)))
  {
    hide Honest, Recall, MayEnd, MayStop, MustCatch, Aware, Allowed, Quiet, Flaw, RecordWindow, WindowSet;
    GoQuietly(setup, b, w, CheckJob);
    var (x, a) := Query(w, CheckJob);
    ObserveFits(setup, Memo(setup, b, x));
    if On(x) {
      if a.yes {
        WindowConduct(setup, b, x);
        AddsUp(setup, Memo(setup, b, w), Memo(setup, b, x), Memo(setup, b, RecordWindow(x)));
      } else {
        ThrowConduct(setup, b, x, WorkerError);
      }
    }
  }

  lemma WindowConduct(setup: Setup, b: Snapshot, w: World)
    requires On(w) && Keeps(setup, b, w) && Allowed(setup, Memo(setup, b, w), Window)
    ensures var v := RecordWindow(w);
      Reached(setup, b, v) && Quiet(Memo(setup, b, w), Memo(setup, b, v)) && LetsGo(Memo(setup, b, v), v.end)
      && (On(v) ==> WindowSet(Memo(setup, b, v)))
  {
    hide Honest, Recall, MayEnd, MayStop, MustCatch, Aware, Allowed, Earned, Quiet, RecordAndClaim;
    GoQuietly(setup, b, w, Window);
    var (v, a) := Query(w, Window);
    if On(v) && a.yes && !v.s.p.window {
      var q := v.s.p.(phase := Some(AllocationWindow), window := true);
      WindowFits(setup, Memo(setup, b, v));
      RenewQuietly(setup, b, v, q);
      AddsUp(setup, Memo(setup, b, w), Memo(setup, b, v), Memo(setup, b, RecordAndClaim(v, q)));
    }
  }

  lemma StartFits(setup: Setup, m: Memory)
    ensures WindowSet(m) && !m.s.p.checks ==> Allowed(setup, m, StartChecks)
    ensures Just(m, StartChecks) ==> Earned(setup, m, m.s.p.(phase := Some(ChecksOpen), checks := true))
    ensures ChecksSeenTo(m) ==> Allowed(setup, m, Ask)
  {
    hide Converges, TimesOut, GivesUp, Flaw;
  }

  lemma OpenChecksConduct(setup: Setup, b: Snapshot, w: World)
    requires On(w) && Keeps(setup, b, w) && WindowSet(Memo(setup, b, w))
    ensures var v := OpenChecks(w);
      Reached(setup, b, v) && Quiet(Memo(setup, b, w), Memo(setup, b, v)) && LetsGo(Memo(setup, b, v), v.end)
      && (On(v) ==> ChecksSeenTo(Memo(setup, b, v)))
  {
    hide Honest, Recall, MayEnd, MayStop, MustCatch, Aware, Allowed, Earned, Quiet, RecordAndClaim, WindowSet;
    var m := Memo(setup, b, w);
    AddsUp(setup, m, m, m);
    if !w.s.p.checks {
      StartFits(setup, m);
      GoQuietly(setup, b, w, StartChecks);
      var v := External(w, StartChecks);
      if v.end.Raise? && !CheckFailure(v.end.exn) { UncaughtLetsGo(Memo(setup, b, v), v.end); }
      if On(v) {
        var q := v.s.p.(phase := Some(ChecksOpen), checks := true);
        StartFits(setup, Memo(setup, b, v));
        RenewQuietly(setup, b, v, q);
        AddsUp(setup, m, Memo(setup, b, v), Memo(setup, b, RecordAndClaim(v, q)));
      }
    }
  }

  lemma FinalizeFits(setup: Setup, m: Memory)
    ensures Cleared(m) && m.resumed && m.polls == 0 && !m.s.p.finalized ==> Allowed(setup, m, Sign)
    ensures Just(m, Sign) ==> Allowed(setup, m, Logged(Finalize))
    ensures Just(m, Logged(Finalize)) ==>
      if m.last.value.answer.number != 0 then Flaw(setup, m) == Some(WorkerError)
      else Earned(setup, m, m.s.p.(phase := Some(Finalized), finalized := true))
  {
    hide Converges, TimesOut, GivesUp;
  }

  lemma FinalizeConduct(setup: Setup, b: Snapshot, w: World)
    requires On(w) && Keeps(setup, b, w)
    requires var m := Memo(setup, b, w); Cleared(m) && m.resumed && m.polls == 0
    ensures var v := FinalizeOnce(w);
      Reached(setup, b, v) && Quiet(Memo(setup, b, w), Memo(setup, b, v)) && LetsGo(Memo(setup, b, v), v.end)
      && (On(v) ==> SetToWatch(Memo(setup, b, v)))
  {
    hide Honest, Recall, MayEnd, MayStop, MustCatch, Aware, Allowed, Earned, Quiet, RecordAndClaim, Flaw, Call;
    var m := Memo(setup, b, w);
    AddsUp(setup, m, m, m);
    if !w.s.p.finalized {
      FinalizeFits(setup, m);
      GoQuietly(setup, b, w, Sign);
      var v := External(w, Sign);
      if On(v) {
        FinalizeFits(setup, Memo(setup, b, v));
        SignedConduct(setup, b, v);
        AddsUp(setup, m, Memo(setup, b, v), Memo(setup, b, FinalizeOnce(w)));
      }
    }
  }

  lemma SignedConduct(setup: Setup, b: Snapshot, w: World)
    requires On(w) && Keeps(setup, b, w) && Allowed(setup, Memo(setup, b, w), Logged(Finalize))
    ensures var (x, exact) := Call(w, Finalize);
      var v := if !On(x) then x else if exact != 0 then Throw(x, WorkerError)
               else RecordAndClaim(x, x.s.p.(phase := Some(Finalized), finalized := true));
      Reached(setup, b, v) && Quiet(Memo(setup, b, w), Memo(setup, b, v)) && LetsGo(Memo(setup, b, v), v.end)
      && (On(v) ==> SetToWatch(Memo(setup, b, v)))
  {
    hide Honest, Recall, MayEnd, MayStop, MustCatch, Aware, Allowed, Earned, Quiet, RecordAndClaim, Flaw;
    LoggedQuietly(setup, b, w, Finalize);
    var (x, exact) := Call(w, Finalize);
    if On(x) {
      FinalizeFits(setup, Memo(setup, b, x));
      if exact != 0 {
        ThrowConduct(setup, b, x, WorkerError);
      } else {
        var q := x.s.p.(phase := Some(Finalized), finalized := true);
        RenewQuietly(setup, b, x, q);
        AddsUp(setup, Memo(setup, b, w), Memo(setup, b, x), Memo(setup, b, RecordAndClaim(x, q)));
      }
    }
  }
}
