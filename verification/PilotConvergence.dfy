/**
 Settling a run and converging on its cancellation keep to the protocol.
 */
module PilotConvergence {
  import opened Basics
  import opened PilotLog
  import opened PilotCycle
  import opened PilotProtocol
  import opened PilotSteps
  import opened PilotConduct

  /** Nothing is being reconciled or postponed. */
  predicate Alone(m: Memory) {
    !m.bound && !m.postponed
  }

  /** Nothing was done yet but to claim the row. */
  predicate Early(m: Memory) {
    Alone(m) && m.verdict.None? && m.accepted.None? && m.polls == 0 && !m.outcome && !m.cleaned && !m.recovered
    && !m.pending && !m.resumed && !m.tried
  }

  lemma ThrowConduct(setup: Setup, b: Snapshot, w: World, e: Exn)
    requires Keeps(setup, b, w) && Flaw(setup, Memo(setup, b, w)) == Some(e)
    ensures Concluded(setup, b, Throw(w, e)) && Reached(setup, b, Throw(w, e)) && LetsGo(Memo(setup, b, w), Raise(e))
  {
    hide Honest, Recall;
  }

  // ----- Settling -----

  lemma SettleConduct(setup: Setup, b: Snapshot, w: World)
    requires On(w) && Keeps(setup, b, w) && Allowed(setup, Memo(setup, b, w), OUTCOME)
    requires Memo(setup, b, w).polls > 0 && !Memo(setup, b, w).bound && !IsTimeout(w.s.p.phase)
    requires w.s.p.phase != Some(CleanupRequired)
    requires w.s.p.jobId.None? ==> w.s.p.phase == Some(CancelRequested)
    ensures var v := Settle(w);
      var m, n := Memo(setup, b, w), Memo(setup, b, v);
      Reached(setup, b, v) && Steady(m, n) && n.polls == m.polls && (!On(v) ==> n.cleaned == m.cleaned)
      && v.s.p == w.s.p && v.s.state == w.s.state && (v.end.Raise? ==> Raised(n, v.end.exn))
      && (w.s.p.phase != Some(Dispatching) ==> LetsGo(n, v.end))
      && (On(v) ==> Settled(n) && (Just(n, Clean) || (Just(n, Recover) && Phased(n, CancelRequested)))
                    && (w.s.p.jobId.Some? ==> n.cleaned && Just(n, Clean)))
  {
    hide Honest, Recall, MayEnd, MayStop, Aware, Allowed, MustCatch, LetsGo;
    CallListening(setup, b, w, Outcome(OtherCause));
    var v := Call(w, Outcome(OtherCause)).0;
    if On(v) {
      CleanupFits(setup, Memo(setup, b, v));
      DoListening(setup, b, v, Cleanup(w.s.p));
      if w.s.p.phase != Some(Dispatching) { CleanupLetsGo(Memo(setup, b, Settle(w)), Settle(w).end); }
    }
  }

  lemma CleanupLetsGo(m: Memory, end: Ended)
    requires Did(m, Clean) || Did(m, Recover)
    requires !IsTimeout(m.s.p.phase) && !Phased(m, Dispatching) && !Phased(m, CleanupRequired)
    ensures LetsGo(m, end)
  {
  }

  lemma CleanupFits(setup: Setup, m: Memory)
    requires Just(m, OUTCOME) && m.polls > 0 && !m.bound && !IsTimeout(m.s.p.phase)
    requires m.s.p.jobId.None? ==> m.s.p.phase == Some(CancelRequested)
    ensures Allowed(setup, m, Cleanup(m.s.p))
  {
  }

  /** Nothing but a poll more is remembered. */
  predicate Polling(m: Memory, n: Memory) {
    Steady(m, n) && n.verdict == m.verdict && n.polls == m.polls + 1 && n.outcome == m.outcome && n.cleaned == m.cleaned
    && n.recovered == m.recovered && n.pending == m.pending
  }

  lemma PollConduct(setup: Setup, b: Snapshot, w: World)
    requires On(w) && Keeps(setup, b, w) && Allowed(setup, Memo(setup, b, w), Logged(Poll))
    ensures var (v, shape) := Call(w, Poll);
      var m, n := Memo(setup, b, w), Memo(setup, b, v);
      Reached(setup, b, v) && Did(n, Logged(Poll)) && n.last.value.answer.ended == v.end && Aware(setup, m, n)
      && Polling(m, n) && n.accepted == m.accepted && n.now == m.now
      && v.s.p == w.s.p && v.s.state == w.s.state && (On(v) ==> Counts(n, Logged(Poll), shape))
      && (!Phased(m, CancelRequested) ==> LetsGo(n, v.end))
  {
    hide Honest, Recall, MayEnd, MayStop, Aware, Allowed;
    CallListening(setup, b, w, Poll);
  }

  /** What may follow the polls of a cancelled run that has ended. */
  lemma PollsOn(setup: Setup, m: Memory)
    requires Phased(m, CancelRequested) && m.s.p.jobId.Some?
    ensures (m.polls == 1 && Counts(m, Logged(Poll), 1)) || (m.polls >= 2 && Counts(m, Logged(Poll), 0)) ==>
      Allowed(setup, m, Logged(Poll))
    ensures m.polls >= 2 && Counts(m, Logged(Poll), 1) ==> Allowed(setup, m, OUTCOME)
    ensures m.polls >= 2 && Just(m, Logged(Poll)) && !Counts(m, Logged(Poll), 0) && !Counts(m, Logged(Poll), 1) ==>
      Flaw(setup, m) == Some(Pilot)
  {
  }

  lemma {:induction false} FinishRunConduct(setup: Setup, b: Snapshot, w: World)
    requires On(w) && Keeps(setup, b, w) && w.s.p.phase == Some(CancelRequested) && w.s.p.jobId.Some?
    requires var m := Memo(setup, b, w);
      Alone(m) && !m.cleaned && if m.polls == 1 then Counts(m, Logged(Poll), 1) else m.polls >= 2 && Counts(m, Logged(Poll), 0)
    ensures var v := FinishRun(w);
      var m, n := Memo(setup, b, w), Memo(setup, b, v);
      Reached(setup, b, v) && Steady(m, n) && v.s.p == w.s.p && v.s.state == w.s.state && LetsGo(n, v.end)
      && (On(v) ==> Settled(n) && Just(n, Clean))
    decreases w.script
  {
    hide Honest, Recall, MayEnd, Aware, Settle, Allowed, Flaw, Call, Settled;
    PollsOn(setup, Memo(setup, b, w));
    PollConduct(setup, b, w);
    var (v, shape) := Call(w, Poll);
    if On(v) {
      PollsOn(setup, Memo(setup, b, v));
      if shape == 1 {
        SettleConduct(setup, b, v);
      } else if shape == 0 {
        FinishRunConduct(setup, b, v);
      } else {
        ThrowConduct(setup, b, v, Pilot);
      }
    }
  }

  /** An ended run, its allocation gone: close the Check Runs and deliver. A request is delivered exactly when none of
      them is left open, and held back otherwise. */
  lemma FinishUpConduct(setup: Setup, b: Snapshot, w: World, toleratesApproval: bool)
    requires Working(w) && Keeps(setup, b, w) && w.s.p.phase.Some?
    requires var m := Memo(setup, b, w);
      Alone(m) && Settled(m) && (Just(m, Clean) || (Just(m, Recover) && Phased(m, CancelRequested)))
    requires w.s.p.runId.Some? && (toleratesApproval <==> w.s.p.phase == Some(CancelRequested))
    ensures var (x, closed) := CloseChecks(w);
      var v := if !On(x) then x else if closed then Deliver(x, toleratesApproval) else Release(x);
      Concluded(setup, b, v) && Quiet(Memo(setup, b, w), Memo(setup, b, v))
      && (On(v) ==> v.s.state == if NoOpenChecks(v.s.p) then Done else Retry)
  {
    hide Honest, Recall, MayEnd, Aware, Quiet, Inv, Deliver, Release, CloseChecks;
    CloseChecksConduct(setup, b, w);
    CloseChecksFacts(w);
    var (x, closed) := CloseChecks(w);
    var m, n := Memo(setup, b, w), Memo(setup, b, x);
    StaysSettled(m, n);
    if On(x) {
      if closed {
        DeliverConduct(setup, b, x, toleratesApproval);
        DeliverFacts(x, toleratesApproval);
        AddsUp(setup, m, n, Memo(setup, b, Deliver(x, toleratesApproval)));
      } else {
        YieldConduct(setup, b, x);
        ReleaseFacts(x);
        AddsUp(setup, m, n, Memo(setup, b, Release(x)));
      }
    }
    ReachedEnd(setup, b, x);
  }

  lemma StaysSettled(m: Memory, n: Memory)
    requires Quiet(m, n) && ChecksOnly(m.s.p, n.s.p) && m.s.p.phase.Some?
    ensures (Settled(m) ==> Settled(n)) && (Alone(m) ==> Alone(n))
  {
  }

  /** The cancelled run has ended: the request is delivered exactly when no Check Run is left open. */
  lemma CloseCancelledConduct(setup: Setup, b: Snapshot, w: World)
    requires Working(w) && Keeps(setup, b, w) && w.s.p.phase == Some(CancelRequested)
    requires var m := Memo(setup, b, w); Alone(m) && !m.cleaned && m.polls == 1 && Counts(m, Logged(Poll), 1)
    ensures var v := CloseCancelled(w);
      Concluded(setup, b, v) && (On(v) ==> v.s.state == if NoOpenChecks(v.s.p) then Done else Retry)
  {
    hide Honest, Recall, MayEnd, Aware, Inv, Settle, FinishRun, CloseChecks, Deliver, Release, Settled, SettledOnce;
    var v := if w.s.p.jobId.None? then Settle(w) else FinishRun(w);
    InvMeansRowOk(w.s);
    if w.s.p.jobId.None? {
      SettleConduct(setup, b, w);
      SettleFacts(w);
    } else {
      FinishRunConduct(setup, b, w);
      FinishRunFacts(w);
    }
    ReachedEnd(setup, b, v);
    if On(v) { FinishUpConduct(setup, b, v, true); }
  }

  // ----- Cancellation -----

  lemma PendingFits(setup: Setup, m: Memory, accepted: bool)
    requires Just(m, Clock) && m.verdict.None? && accepted == (if m.accepted.Some? then m.accepted.value else m.s.p.accepted)
    requires if Phased(m, CancelRequested) then m.polls == 1 else Phased(m, CancelRequesting) && m.accepted.Some?
    ensures Earned(setup, m, m.s.p.(phase := Some(CancelRequested), accepted := accepted,
                                    nextPoll := Some(m.now + setup.pollInterval)))
  {
  }

  lemma CancelPendingConduct(setup: Setup, b: Snapshot, w: World, accepted: bool)
    requires On(w) && Keeps(setup, b, w) && Allowed(setup, Memo(setup, b, w), Clock)
    requires var m := Memo(setup, b, w);
      Alone(m) && !m.outcome && m.verdict.None?
      && accepted == (if m.accepted.Some? then m.accepted.value else w.s.p.accepted)
      && if Phased(m, CancelRequested) then m.polls == 1 else Phased(m, CancelRequesting) && m.accepted.Some?
    ensures Concluded(setup, b, CancelPending(w, setup, accepted))
  {
    hide Honest, Recall, MayEnd, Aware, Allowed, Earned, MayYield, Record, Release;
    GoQuietly(setup, b, w, Clock);
    var (c, a) := Query(w, Clock);
    ReachedEnd(setup, b, c);
    if On(c) {
      var q := c.s.p.(phase := Some(CancelRequested), accepted := accepted, nextPoll := Some(a.number + setup.pollInterval));
      PendingFits(setup, Memo(setup, b, c), accepted);
      RecordQuietly(setup, b, c, q);
      var v := Record(c, q);
      ReachedEnd(setup, b, v);
      if On(v) {
        ConvergingYields(setup, Memo(setup, b, v));
        YieldConduct(setup, b, v);
      }
    }
  }

  lemma ConvergingYields(setup: Setup, m: Memory)
    requires JustWrote(m) && Phased(m, CancelRequested) && !m.outcome
    ensures MayYield(setup, m)
  {
  }

  lemma IntentFits(setup: Setup, m: Memory)
    requires Just(m, Clock) && m.verdict == Some(true) && m.s.p.runId.Some?
    ensures Earned(setup, m, m.s.p.(phase := Some(CancelRequesting), deadline := Some(m.now + setup.convergence)))
  {
  }

  lemma RequestFits(setup: Setup, m: Memory)
    requires CancelAnswered(m) && Phased(m, CancelRequesting) && m.verdict == Some(true) && m.accepted.Some?
    ensures Earned(setup, m, m.s.p.(phase := Some(CancelRequested), accepted := m.accepted.value,
                                    nextPoll := Some(m.now + setup.pollInterval)))
  {
  }

  lemma CancelFits(setup: Setup, m: Memory)
    requires Phased(m, CancelRequesting) && (Fresh(m) || JustWrote(m))
    ensures Allowed(setup, m, Logged(Cancel))
  {
  }

  lemma ClockFits(setup: Setup, m: Memory)
    requires Refused(m) && m.s.p.runId.Some?
    ensures Allowed(setup, m, Clock)
  {
  }

  lemma RequestCancelConduct(setup: Setup, b: Snapshot, w: World)
    requires On(w) && Keeps(setup, b, w) && Refused(Memo(setup, b, w)) && w.s.p.runId.Some?
    ensures var v := RequestSupersededCancel(w, setup);
      var m, n := Memo(setup, b, w), Memo(setup, b, v);
      Reached(setup, b, v) && Quiet(m, n) && (On(v) ==> JustWrote(n) && Phased(n, CancelRequested))
      && (v.end.Raise? ==> Raised(n, v.end.exn)) && v.s.p.jobId == w.s.p.jobId && v.s.p.runId == w.s.p.runId
      && LetsGo(n, v.end)
  {
    hide Honest, Recall, MayEnd, MayStop, Aware, Allowed, Earned, Quiet, MustCatch, LetsGo, Intend, RequestSupersededCancel;
    var m := Memo(setup, b, w);
    ClockFits(setup, m);
    RequestIntends(w, setup);
    GoQuietly(setup, b, w, Clock);
    var (c, a) := Query(w, Clock);
    if On(c) {
      AddsUp(setup, m, Memo(setup, b, c), Memo(setup, b, c));
      IntentConduct(setup, b, c, a.number);
      AddsUp(setup, m, Memo(setup, b, c), Memo(setup, b, RequestSupersededCancel(w, setup)));
    }
  }

  lemma RequestIntends(w: World, setup: Setup)
    ensures var (c, a) := Query(w, Clock);
      RequestSupersededCancel(w, setup) == if On(c) then Intend(c, setup, a.number) else c
  {
  }

  lemma IntentConduct(setup: Setup, b: Snapshot, w: World, now: int)
    requires On(w) && Keeps(setup, b, w) && w.s.p.runId.Some?
    requires var m := Memo(setup, b, w); Just(m, Clock) && m.now == now && m.verdict == Some(true)
    ensures var v := Intend(w, setup, now);
      var m, n := Memo(setup, b, w), Memo(setup, b, v);
      Reached(setup, b, v) && Quiet(m, n) && (On(v) ==> JustWrote(n) && Phased(n, CancelRequested))
      && (v.end.Raise? ==> Raised(n, v.end.exn)) && v.s.p.jobId == w.s.p.jobId && v.s.p.runId == w.s.p.runId
      && LetsGo(n, v.end)
  {
    hide Honest, Recall, MayEnd, Aware, Allowed, Earned, Quiet, Record, Call;
    var m := Memo(setup, b, w);
    var q := w.s.p.(phase := Some(CancelRequesting), deadline := Some(now + setup.convergence));
    IntentFits(setup, m);
    RecordQuietly(setup, b, w, q);
    var v := Record(w, q);
    AddsUp(setup, m, Memo(setup, b, v), Memo(setup, b, v));
    if On(v) {
      CancelConduct(setup, b, v, now);
      AddsUp(setup, m, Memo(setup, b, v), Memo(setup, b, Intend(w, setup, now)));
    }
  }

  /** What follows once the clock was read. */
  function Intend(w: World, setup: Setup, now: int): World {
    var v := Record(w, w.s.p.(phase := Some(CancelRequesting), deadline := Some(now + setup.convergence)));
    if !On(v) then v
    else
      var (x, answer) := Call(v, Cancel);
      if x.end.Crash? || (x.end.Raise? && !GithubFailure(x.end.exn)) then x
      else Record(Caught(x), x.s.p.(phase := Some(CancelRequested), accepted := On(x) && answer != 0,
                                    nextPoll := Some(now + setup.pollInterval)))
  }

  /** With the intent on record, the run is cancelled and the request recorded. */
  lemma CancelConduct(setup: Setup, b: Snapshot, w: World, now: int)
    requires On(w) && Keeps(setup, b, w)
    requires var m := Memo(setup, b, w);
      JustWrote(m) && Phased(m, CancelRequesting) && m.verdict == Some(true) && m.now == now
    ensures var (x, answer) := Call(w, Cancel);
      var v := if x.end.Crash? || (x.end.Raise? && !GithubFailure(x.end.exn)) then x
               else Record(Caught(x), x.s.p.(phase := Some(CancelRequested), accepted := On(x) && answer != 0,
                                             nextPoll := Some(now + setup.pollInterval)));
      var m, n := Memo(setup, b, w), Memo(setup, b, v);
      Reached(setup, b, v) && Quiet(m, n) && (On(v) ==> JustWrote(n) && Phased(n, CancelRequested))
      && (v.end.Raise? ==> Raised(n, v.end.exn)) && v.s.p.jobId == w.s.p.jobId && v.s.p.runId == w.s.p.runId
      && LetsGo(n, v.end)
  {
    hide Honest, Recall, MayEnd, Aware, Allowed, Earned, Record, Quiet;
    var m := Memo(setup, b, w);
    CancelFits(setup, m);
    CancelQuietly(setup, b, w);
    var (x, answer) := Call(w, Cancel);
    AddsUp(setup, m, Memo(setup, b, x), Memo(setup, b, x));
    if !x.end.Crash? && (x.end.Raise? ==> GithubFailure(x.end.exn)) {
      var q := x.s.p.(phase := Some(CancelRequested), accepted := On(x) && answer != 0,
                      nextPoll := Some(now + setup.pollInterval));
      RequestFits(setup, Memo(setup, b, x));
      RecordQuietly(setup, b, Caught(x), q);
      AddsUp(setup, m, Memo(setup, b, x), Memo(setup, b, Record(Caught(x), q)));
    }
  }

  // ----- Timing out -----

  lemma AgainFits(setup: Setup, m: Memory)
    requires IsTimeout(m.s.p.phase) && Fault(m).Some? && RecoveryFailure(Fault(m).value)
    requires if Phased(m, CancelTimeoutRecording) then Did(m, Logged(Outcome(NotConverged))) else Did(m, Recover)
    ensures Earned(setup, m, m.s.p)
  {
    hide ClosingNote, Advances, Converges, GivesUp;
    SamePhase(m.s.p);
    assert TimesOut(m, m.s.p);
  }

  lemma SamePhase(p: Progress)
    ensures p.(phase := p.phase) == p
  {
  }

  lemma AgainHurts(setup: Setup, m: Memory)
    requires Fault(m).Some? && RecoveryFailure(Fault(m).value)
    ensures Hurt(setup, m) || Expired(m)
  {
    hide Flaw;
  }

  lemma TimeoutYields(setup: Setup, m: Memory)
    requires JustWrote(m) && IsTimeout(m.s.p.phase) && !m.outcome && (Hurt(setup, m) || Expired(m))
    ensures MayYield(setup, m)
  {
  }

  lemma TryLaterConduct(setup: Setup, b: Snapshot, w: World)
    requires On(w) && Keeps(setup, b, w) && IsTimeout(w.s.p.phase)
    requires var m := Memo(setup, b, w);
      Alone(m) && !m.outcome && Fault(m).Some? && RecoveryFailure(Fault(m).value)
      && if Phased(m, CancelTimeoutRecording) then Did(m, Logged(Outcome(NotConverged))) else Did(m, Recover)
    ensures Concluded(setup, b, TryLater(w))
  {
    hide Honest, Recall, MayEnd, Earned, MayYield, Hurt, Expired, Upset, Record, Release;
    AgainFits(setup, Memo(setup, b, w));
    AgainHurts(setup, Memo(setup, b, w));
    RecordQuietly(setup, b, w, w.s.p);
    var v := Record(w, w.s.p);
    ReachedEnd(setup, b, v);
    if On(v) {
      TimeoutYields(setup, Memo(setup, b, v));
      YieldConduct(setup, b, v);
    }
  }

  lemma AbortConduct(setup: Setup, b: Snapshot, w: World)
    requires On(w) && Keeps(setup, b, w) && MayFail(Memo(setup, b, w))
    ensures var v := Abort(w);
      Went(setup, b, w, v, Close(Failed)) && (On(v) ==> v.s.state == Failed && v.s.p == w.s.p)
      && (w.s.p.phase == Some(CancelRecoveryPending) ==> Concluded(setup, b, v))
  {
    hide Honest, Recall, Aware, MayRaise;
    StoreQuietly(setup, b, w, Close(Failed), true, Closed(w.s, Failed, w.s.p.phase));
  }

  lemma TimedOutFits(setup: Setup, m: Memory)
    requires Phased(m, CancelRecoveryPending) && m.s.p.recoveryComplete
    ensures NoOpenChecks(m.s.p) || MayShutChecks(setup, m)
    ensures NoOpenChecks(m.s.p) ==> Allowed(setup, m, Tell)
    ensures m.s.state == Running && !NoOpenChecks(m.s.p) && m.tried ==> MayYield(setup, m)
  {
  }

  lemma CloseTimedOutConduct(setup: Setup, b: Snapshot, w: World)
    requires Working(w) && Keeps(setup, b, w) && w.s.p.phase == Some(CancelRecoveryPending) && w.s.p.recoveryComplete
    requires Alone(Memo(setup, b, w))
    ensures var v := CloseTimedOut(w);
      Concluded(setup, b, v) && (On(v) ==> v.s.state == if NoOpenChecks(v.s.p) then Failed else Retry)
  {
    hide Honest, Recall, MayEnd, Aware, Inv, CloseChecks, Release, Abort, MayShutChecks, MayYield, Allowed;
    TimedOutFits(setup, Memo(setup, b, w));
    CloseChecksConduct(setup, b, w);
    CloseChecksFacts(w);
    var (v, closed) := CloseChecks(w);
    ReachedEnd(setup, b, v);
    if On(v) {
      TimedOutFits(setup, Memo(setup, b, v));
      if !closed {
        YieldConduct(setup, b, v);
        ReleaseFacts(v);
      } else {
        GoQuietly(setup, b, v, Tell);
        var x := External(v, Tell);
        ReachedEnd(setup, b, x);
        if On(x) || x.end == Raise(Approval) { AbortConduct(setup, b, Caught(x)); }
      }
    }
  }

  lemma RecoveryFits(setup: Setup, m: Memory)
    requires Phased(m, CancelRecoveryPending)
    ensures !m.s.p.recoveryComplete && (Fresh(m) || JustWrote(m)) ==> Allowed(setup, m, Recover)
    ensures Just(m, Recover) ==> Earned(setup, m, m.s.p.(recoveryComplete := true))
  {
  }

  /** An escalated timeout fails the request exactly when no Check Run is left open. */
  lemma CancelRecoveryConduct(setup: Setup, b: Snapshot, w: World)
    requires Working(w) && Keeps(setup, b, w) && w.s.p.phase == Some(CancelRecoveryPending)
    requires var m := Memo(setup, b, w); Alone(m) && !m.outcome && (Fresh(m) || JustWrote(m))
    ensures var v := ContinueCancelRecovery(w);
      Concluded(setup, b, v)
      && (On(v) ==> v.s.state == if v.s.p.recoveryComplete && NoOpenChecks(v.s.p) then Failed else Retry)
  {
    hide Honest, Recall, MayEnd, Aware, Inv, CloseTimedOut, TryLater, Record, Allowed, Earned;
    if w.s.p.recoveryComplete {
      CloseTimedOutConduct(setup, b, w);
      CloseTimedOutKeeps(w);
    } else {
      RecoveryFits(setup, Memo(setup, b, w));
      DoListening(setup, b, w, Recover);
      var v := External(w, Recover);
      ReachedEnd(setup, b, v);
      if v.end.Raise? && RecoveryFailure(v.end.exn) {
        TryLaterConduct(setup, b, Caught(v));
        TryLaterFacts(Caught(v));
      } else if On(v) {
        RecoveredConduct(setup, b, v);
      }
    }
  }

  lemma RecoveredConduct(setup: Setup, b: Snapshot, w: World)
    requires Working(w) && Keeps(setup, b, w) && w.s.p.phase == Some(CancelRecoveryPending)
    requires Just(Memo(setup, b, w), Recover) && Alone(Memo(setup, b, w))
    ensures var x := Record(w, w.s.p.(recoveryComplete := true));
      var v := if On(x) then CloseTimedOut(x) else x;
      Concluded(setup, b, v)
      && (On(v) ==> v.s.state == if v.s.p.recoveryComplete && NoOpenChecks(v.s.p) then Failed else Retry)
  {
    hide Honest, Recall, MayEnd, Aware, Inv, CloseTimedOut, Record, Allowed, Earned;
    var q := w.s.p.(recoveryComplete := true);
    InvMeansRowOk(w.s);
    RecoveryFits(setup, Memo(setup, b, w));
    RecordQuietly(setup, b, w, q);
    RecordFacts(w, q);
    var x := Record(w, q);
    ReachedEnd(setup, b, x);
    if On(x) {
      CloseTimedOutConduct(setup, b, x);
      CloseTimedOutKeeps(x);
    }
  }

  lemma CloseTimedOutKeeps(w: World)
    requires Working(w) && w.s.p.phase == Some(CancelRecoveryPending)
    ensures CloseTimedOut(w).s.p.recoveryComplete == w.s.p.recoveryComplete
  {
    hide Inv, CloseChecks;
    CloseChecksFacts(w);
  }

  lemma TimingOutFits(setup: Setup, m: Memory)
    requires (Phased(m, CancelRequested) && StillRunning(m) && !InTime(m)) || (Phased(m, CancelTimeoutRecording) && Fresh(m))
    ensures Earned(setup, m, m.s.p.(phase := Some(CancelTimeoutRecording)))
  {
    hide ClosingNote, Advances, Converges, GivesUp, StillRunning, InTime;
    assert TimesOut(m, m.s.p.(phase := Some(CancelTimeoutRecording)));
  }

  lemma EscalationFits(setup: Setup, m: Memory)
    requires Phased(m, CancelTimeoutRecording)
    ensures JustWrote(m) ==> Allowed(setup, m, Logged(Outcome(NotConverged)))
    ensures Just(m, Logged(Outcome(NotConverged))) ==> Earned(setup, m, m.s.p.(phase := Some(CancelRecoveryPending)))
  {
    hide ClosingNote, Advances, Converges, GivesUp;
    if Just(m, Logged(Outcome(NotConverged))) { assert TimesOut(m, m.s.p.(phase := Some(CancelRecoveryPending))); }
  }

  lemma CancelNotConvergedConduct(setup: Setup, b: Snapshot, w: World)
    requires Working(w) && Keeps(setup, b, w) && Earned(setup, Memo(setup, b, w), w.s.p.(phase := Some(CancelTimeoutRecording)))
    requires w.s.p.phase == Some(CancelRequested) || w.s.p.phase == Some(CancelTimeoutRecording)
    requires Alone(Memo(setup, b, w)) && !Memo(setup, b, w).outcome
    ensures Concluded(setup, b, CancelNotConverged(w))
  {
    hide Honest, Recall, MayEnd, Aware, Inv, Record, Earned, Call, TryLater, ContinueCancelRecovery;
    var q := w.s.p.(phase := Some(CancelTimeoutRecording));
    TimeoutRecordable(w.s, CancelTimeoutRecording);
    InvMeansRowOk(w.s);
    RecordQuietly(setup, b, w, q);
    RecordFacts(w, q);
    var v := Record(w, q);
    ReachedEnd(setup, b, v);
    if On(v) { EscalateConduct(setup, b, v); }
  }

  /** What follows the record of a timeout. */
  function EscalateOf(w: World): World {
    var (x, _) := Call(w, Outcome(NotConverged));
    if x.end.Raise? && RecoveryFailure(x.end.exn) then TryLater(Caught(x))
    else if !On(x) then x
    else
      var y := Record(x, x.s.p.(phase := Some(CancelRecoveryPending)));
      if On(y) then ContinueCancelRecovery(y) else y
  }

  lemma EscalateConduct(setup: Setup, b: Snapshot, w: World)
    requires Working(w) && Keeps(setup, b, w) && w.s.p.phase == Some(CancelTimeoutRecording)
    requires var m := Memo(setup, b, w); Alone(m) && !m.outcome && JustWrote(m)
    ensures Concluded(setup, b, EscalateOf(w))
  {
    hide Honest, Recall, MayEnd, Aware, Inv, Record, Earned, Allowed, TryLater, ContinueCancelRecovery;
    EscalationFits(setup, Memo(setup, b, w));
    CallListening(setup, b, w, Outcome(NotConverged));
    CallFacts(w, Outcome(NotConverged));
    var x := Call(w, Outcome(NotConverged)).0;
    ReachedEnd(setup, b, x);
    if x.end.Raise? && RecoveryFailure(x.end.exn) {
      TryLaterConduct(setup, b, Caught(x));
    } else if On(x) {
      EscalationFits(setup, Memo(setup, b, x));
      RecoveringConduct(setup, b, x);
    }
  }

  lemma RecoveringConduct(setup: Setup, b: Snapshot, w: World)
    requires Working(w) && Keeps(setup, b, w) && w.s.p.phase == Some(CancelTimeoutRecording)
    requires var m := Memo(setup, b, w); Alone(m) && !m.outcome && Earned(setup, m, w.s.p.(phase := Some(CancelRecoveryPending)))
    ensures var y := Record(w, w.s.p.(phase := Some(CancelRecoveryPending)));
      Concluded(setup, b, if On(y) then ContinueCancelRecovery(y) else y)
  {
    hide Honest, Recall, MayEnd, Aware, Inv, Record, Earned, ContinueCancelRecovery;
    var q := w.s.p.(phase := Some(CancelRecoveryPending));
    TimeoutRecordable(w.s, CancelRecoveryPending);
    RecordQuietly(setup, b, w, q);
    RecordFacts(w, q);
    ReachedEnd(setup, b, Record(w, q));
    if On(Record(w, q)) { CancelRecoveryConduct(setup, b, Record(w, q)); }
  }

  // ----- One step of a requested cancellation -----

  lemma AgainMayCall(setup: Setup, m: Memory)
    requires StillRunning(m) && InTime(m)
    ensures m.s.p.accepted || Fell(m, Logged(Poll)) ==> Allowed(setup, m, Clock)
    ensures !m.s.p.accepted && Just(m, Logged(Poll)) ==> Allowed(setup, m, Logged(Cancel))
  {
  }

  lemma ClockAfterCancel(setup: Setup, m: Memory)
    requires CancelAnswered(m) && IsCancel(m.s.p.phase) && m.verdict.None?
    ensures Allowed(setup, m, Clock)
  {
  }

  lemma AskAgainConduct(setup: Setup, b: Snapshot, w: World)
    requires On(w) && Keeps(setup, b, w)
    requires var m := Memo(setup, b, w);
      StillRunning(m) && InTime(m) && Just(m, Logged(Poll)) && Alone(m) && !m.outcome && m.verdict.None? && m.accepted.None?
    ensures Concluded(setup, b, AskAgain(w, setup))
  {
    hide Honest, Recall, MayEnd, Aware, Allowed, CancelPending;
    AgainMayCall(setup, Memo(setup, b, w));
    if w.s.p.accepted {
      CancelPendingConduct(setup, b, w, true);
    } else {
      CancelQuietly(setup, b, w);
      var (v, answer) := Call(w, Cancel);
      ReachedEnd(setup, b, v);
      if !v.end.Crash? && (v.end.Raise? ==> GithubFailure(v.end.exn)) {
        ClockAfterCancel(setup, Memo(setup, b, v));
        CancelPendingConduct(setup, b, Caught(v), On(v) && answer != 0);
      }
    }
  }

  lemma RequestedFits(setup: Setup, m: Memory)
    requires Phased(m, CancelRequested)
    ensures Fresh(m) && KnownIds(m.s.p) ==> Allowed(setup, m, Clock)
    ensures Fresh(m) && !KnownIds(m.s.p) ==> Flaw(setup, m) == Some(WorkerError)
    ensures Just(m, Clock) && m.polls == 0 && (m.s.p.deadline.None? || m.s.p.nextPoll.None?) ==>
      Flaw(setup, m) == Some(WorkerError)
    ensures Just(m, Clock) && m.polls == 0 && PollDue(m) ==> Allowed(setup, m, Logged(Poll))
    ensures Just(m, Clock) && m.polls == 0 && PollEarly(m) && !m.outcome ==> MayYield(setup, m)
    ensures Just(m, Logged(Poll)) && m.polls == 1 && !Counts(m, Logged(Poll), 0) && !Counts(m, Logged(Poll), 1) ==>
      Flaw(setup, m) == Some(WorkerError)
  {
  }

  lemma ContinueConduct(setup: Setup, b: Snapshot, w: World)
    requires Working(w) && Keeps(setup, b, w) && w.s.p.phase == Some(CancelRequested)
    requires Fresh(Memo(setup, b, w)) && Early(Memo(setup, b, w))
    ensures Concluded(setup, b, ContinueCancelRequested(w, setup).0)
  {
    hide Honest, Recall, MayEnd, Aware, Inv, Allowed, Flaw, MayYield, Release, Call, CancelNotConverged, CancelPending, AskAgain,
      CloseCancelled;
    InvMeansRowOk(w.s);
    RequestedFits(setup, Memo(setup, b, w));
    if !KnownIds(w.s.p) {
      ThrowConduct(setup, b, w, WorkerError);
    } else {
      GoQuietly(setup, b, w, Clock);
      var (c, a) := Query(w, Clock);
      ReachedEnd(setup, b, c);
      if On(c) {
        RequestedFits(setup, Memo(setup, b, c));
        if c.s.p.nextPoll.None? {
          ThrowConduct(setup, b, c, WorkerError);
        } else if PollEarly(Memo(setup, b, c)) {
          YieldConduct(setup, b, c);
        } else {
          PolledConduct(setup, b, c, a.number);
        }
      }
    }
  }

  /** What follows when a poll is due. */
  function Polled(w: World, setup: Setup, now: int): World
    requires w.s.p.deadline.Some?
  {
    var due := w.s.p.deadline.value;
    var (v, shape) := Call(w, Poll);
    if v.end.Raise? && GithubFailure(v.end.exn) then
      if now >= due then CancelNotConverged(Caught(v)) else CancelPending(Caught(v), setup, w.s.p.accepted)
    else if !On(v) then v
    else if shape == 0 then if now >= due then CancelNotConverged(v) else AskAgain(v, setup)
    else if shape == 1 then CloseCancelled(v)
    else Throw(v, WorkerError)
  }

  lemma PolledConduct(setup: Setup, b: Snapshot, w: World, now: int)
    requires Working(w) && Keeps(setup, b, w) && w.s.p.phase == Some(CancelRequested) && w.s.p.deadline.Some?
    requires var m := Memo(setup, b, w);
      Early(m) && Allowed(setup, m, Logged(Poll)) && m.now == now
    ensures Concluded(setup, b, Polled(w, setup, now))
  {
    hide Honest, Recall, MayEnd, Aware, Inv, Allowed, Flaw, Call, CancelNotConverged, CancelPending, AskAgain, CloseCancelled;
    PollConduct(setup, b, w);
    CallFacts(w, Poll);
    var (v, shape) := Call(w, Poll);
    var n := Memo(setup, b, v);
    ReachedEnd(setup, b, v);
    if v.end.Raise? && GithubFailure(v.end.exn) {
      UnconvergedConduct(setup, b, Caught(v), now);
    } else if On(v) {
      RequestedFits(setup, n);
      if shape == 0 {
        UnconvergedConduct(setup, b, v, now);
      } else if shape == 1 {
        CloseCancelledConduct(setup, b, v);
      } else {
        ThrowConduct(setup, b, v, WorkerError);
      }
    }
  }

  lemma UnconvergedConduct(setup: Setup, b: Snapshot, w: World, now: int)
    requires Working(w) && Keeps(setup, b, w) && w.s.p.phase == Some(CancelRequested) && w.s.p.deadline.Some?
    requires var m := Memo(setup, b, w);
      StillRunning(m) && Alone(m) && !m.outcome && m.verdict.None? && m.accepted.None? && m.now == now
    ensures now >= w.s.p.deadline.value ==> Concluded(setup, b, CancelNotConverged(w))
    ensures now < w.s.p.deadline.value ==>
      Concluded(setup, b, if Fell(Memo(setup, b, w), Logged(Poll)) then CancelPending(w, setup, w.s.p.accepted)
                          else AskAgain(w, setup))
  {
    hide Honest, Recall, MayEnd, Aware, Inv, Allowed, Earned, CancelNotConverged, CancelPending, AskAgain;
    var m := Memo(setup, b, w);
    if now >= w.s.p.deadline.value {
      TimingOutFits(setup, m);
      CancelNotConvergedConduct(setup, b, w);
    } else if Fell(m, Logged(Poll)) {
      AgainMayCall(setup, m);
      CancelPendingConduct(setup, b, w, w.s.p.accepted);
    } else {
      AskAgainConduct(setup, b, w);
    }
  }
}
