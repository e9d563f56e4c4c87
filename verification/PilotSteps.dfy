/**
 What every step of a cycle keeps, whatever it is answered.
 */
module PilotSteps {
  import opened Basics
  import opened PilotLog
  import opened PilotCycle

  /** At work on a claimed request. */
  ghost predicate Working(w: World) {
    On(w) && Inv(w.s) && w.s.state == Running
  }

  /** The invariant still holds the history only got longer, and the row is still there. */
  ghost predicate Onward(w: World, v: World) {
    Inv(v.s) && w.s.log <= v.s.log && (w.s.state != Absent ==> v.s.state != Absent)
  }

  /** Neither being cancelled, nor due for cleanup, nor quarantined. */
  predicate Plain(ph: Option<Phase>) {
    !IsCancel(ph) && !IsRetired(ph) && ph != Some(CleanupRequired)
  }

  // ----- The request's row -----

  lemma RecordFacts(w: World, q: Progress)
    requires Working(w) && Recordable(w.s, q)
    ensures var v := Record(w, q);
      Onward(w, v) && !v.end.Raise? && (On(v) ==> v.s == Recorded(w.s, q)) && (v.s == w.s || v.s == Recorded(w.s, q))
      && (On(v) ==> v.script < w.script)
  {
    hide Inv, Recordable;
    RecordKeeps(w.s, q);
  }

  lemma RecordAndClaimFacts(w: World, q: Progress)
    requires Working(w) && Recordable(w.s, q)
    ensures var v := RecordAndClaim(w, q);
      Onward(w, v) && (!v.end.Crash? ==> v.s == Recorded(w.s, q)) && (v.s == w.s || v.s == Recorded(w.s, q))
  {
    hide Inv, Recordable, Record;
    RecordFacts(w, q);
  }

  lemma ReleaseFacts(w: World)
    requires On(w) && Inv(w.s) && w.s.state != Absent
    ensures var v := Release(w);
      Onward(w, v) && !v.end.Raise? && v.s.p == w.s.p && v.s.log == w.s.log
      && (v.s.state == w.s.state || (w.s.state == Running && v.s.state == Retry)) && (On(v) ==> v.s.state != Running)
  {
    hide Inv;
    if w.s.state == Running { ReleaseKeeps(w.s, Retry); }
  }

  lemma ClosedAsItWas(s: Snapshot, state: State)
    ensures Closed(s, state, s.p.phase) == Snapshot(state, s.p, s.log + [Wrote(state, s.p)])
  {
  }

  lemma AbortFacts(w: World)
    requires Working(w)
    ensures var v := Abort(w);
      Onward(w, v) && !v.end.Raise? && v.s.p == w.s.p && (On(v) ==> v.s.state == Failed)
      && (v.s == w.s || (v.s.state == Failed && v.s.log == w.s.log + [Wrote(Failed, w.s.p)]))
  {
    hide Inv, Closed;
    ClosedAsItWas(w.s, Failed);
    CloseKeeps(w.s, Failed, w.s.p.phase);
  }

  lemma TerminalFacts(w: World, phase: Phase)
    requires On(w) && Inv(w.s) && w.s.state != Absent && IsRetired(Some(phase))
    ensures var v := Terminal(w, phase);
      Onward(w, v) && !v.end.Raise? && (On(v) ==> v.s == Closed(w.s, Failed, Some(phase)))
      && (v.s == w.s || v.s == Closed(w.s, Failed, Some(phase)))
  {
    hide Inv;
    CloseKeeps(w.s, Failed, Some(phase));
  }

  lemma FinishRowFacts(w: World)
    requires Working(w)
    ensures var v := FinishRow(w);
      Onward(w, v) && !v.end.Raise? && v.s.p == w.s.p
      && (v.s == w.s || v.s.state == Completing) && (On(v) ==> v.s.state == Completing)
  {
    hide Inv, Closed;
    ClosedAsItWas(w.s, Completing);
    CloseKeeps(w.s, Completing, w.s.p.phase);
  }

  lemma DeliveredFacts(w: World)
    requires On(w) && Inv(w.s) && w.s.state == Completing
    ensures var v := Delivered(w);
      Onward(w, v) && !v.end.Raise? && v.s.p == w.s.p && v.s.log == w.s.log
      && (v.s.state == Completing || v.s.state == Done) && (On(v) ==> v.s.state == Done)
  {
    hide Inv;
    DeliverKeeps(w.s);
  }

  lemma DeliverFacts(w: World, toleratesApproval: bool)
    requires Working(w)
    ensures var v := Deliver(w, toleratesApproval);
      Onward(w, v) && v.s.p == w.s.p && (v.s.state == Running || v.s.state == Completing || v.s.state == Done)
      && (On(v) ==> v.s.state == Done) && (v.end.Raise? ==> v.s.state == Completing)
  {
    hide Inv, FinishRow, Delivered;
    FinishRowFacts(w);
    var v := FinishRow(w);
    if On(v) {
      var x := External(v, Complete);
      if On(x) || (toleratesApproval && x.end == Raise(Approval)) { DeliveredFacts(Caught(x)); }
    }
  }

  lemma CallFacts(w: World, e: Event)
    requires On(w) && Inv(w.s) && w.s.state != Absent && !e.Wrote? && !e.Dispatch?
    requires e.Finalize? ==> w.s.p.deadline.None?
    requires e.Cancel? ==> w.s.p.deadline.Some?
    requires e.Cancel? || e.Poll? || (e.Outcome? && e.cause != NotConverged) ==>
      !IsTimeout(w.s.p.phase) && !IsRetired(w.s.p.phase)
    ensures var v := Call(w, e).0;
      Onward(w, v) && (v.s == w.s || v.s == Called(w.s, e)) && (!v.end.Crash? ==> v.s == Called(w.s, e))
  {
    hide Inv;
    if !IsTimeout(w.s.p.phase) && !IsRetired(w.s.p.phase) { PhaseMeansUntimed(w.s); }
    CallKeeps(w.s, e);
  }

  lemma AskFacts(w: World)
    requires On(w) && Inv(w.s) && w.s.state != Absent
    ensures var (v, reason) := SupersessionReason(w);
      Onward(w, v) && (On(v) ==> v.s == Called(w.s, Asked(reason)) && Verdict(v.s.log) == Some(reason))
      && (!On(v) ==> v.s == w.s) && (On(v) ==> v.script < w.script)
  {
    hide Inv, Verdict;
    var (v, a) := Query(w, Ask);
    CallKeeps(w.s, Asked(a.yes));
    Append(w.s.log, Asked(a.yes));
  }

  // ----- Check Runs -----

  /** Only what is known about Check Runs differs; a phase there was is kept. */
  predicate ChecksOnly(a: Progress, b: Progress) {
    b == a.(phase := b.phase, checksClosed := b.checksClosed)
    && (b.phase == a.phase || (a.phase.None? && (b.phase == Some(ChecksClosed) || b.phase == Some(ChecksCloseFailed))))
  }

  lemma ChecksOnlyHolds(p: Progress, note: Phase, closed: bool)
    requires note == ChecksClosed || note == ChecksCloseFailed
    ensures ChecksOnly(p, WithChecks(p, note, closed)) && ChecksOnly(p, p)
  {
  }

  lemma ChecksOnlyMeans(a: Progress, b: Progress)
    requires ChecksOnly(a, b)
    ensures b.deadline == a.deadline && b.runId == a.runId && b.ambiguous == a.ambiguous && b.reserved == a.reserved
    ensures a.phase.Some? ==> b.phase == a.phase
    ensures Plain(a.phase) ==> Plain(b.phase)
    ensures !IsTimeout(a.phase) ==> !IsTimeout(b.phase)
    ensures !IsRetired(a.phase) ==> !IsRetired(b.phase)
  {
  }

  lemma CloseChecksFacts(w: World)
    requires On(w) && Inv(w.s) && w.s.state != Absent
    ensures var v := CloseChecks(w).0;
      Onward(w, v) && v.s.state == w.s.state && ChecksOnly(w.s.p, v.s.p) && (!w.s.p.checks ==> v == w)
  {
    hide Inv, Recordable, Record, ChecksOnly, WithChecks, RowOk;
    ChecksOnlyHolds(w.s.p, ChecksClosed, true);
    ChecksOnlyHolds(w.s.p, ChecksCloseFailed, false);
    if w.s.p.checks && !w.s.p.checksClosed {
      var v := External(w, ShutChecks);
      if !v.end.Crash? && (v.end.Raise? ==> CheckFailure(v.end.exn)) {
        var note := if On(v) then ChecksClosed else ChecksCloseFailed;
        var q := WithChecks(w.s.p, note, On(v));
        if w.s.state == Running {
          InvMeansRowOk(w.s);
          ChecksAreRecordable(w.s, note, On(v));
          RecordFacts(Caught(v), q);
        } else {
          LostClaim(Caught(v), q);
        }
      }
    }
  }

  /** Only a running row takes a record. */
  lemma LostClaim(w: World, q: Progress)
    requires On(w) && w.s.state != Running
    ensures var v := Record(w, q); v.s == w.s && (v.end.Crash? || v.end == Raise(WorkerError))
  {
  }

  // ----- Cancellation -----

  predicate Requested(ph: Option<Phase>) {
    ph == Some(CancelRequesting) || ph == Some(CancelRequested)
  }

  lemma IntentRecordable(s: Snapshot, deadline: int)
    requires Inv(s) && s.state == Running && s.p.runId.Some? && Plain(s.p.phase)
    ensures Recordable(s, s.p.(phase := Some(CancelRequesting), deadline := Some(deadline)))
  {
    hide LogOk, Armed, LastRecord, Verdict;
  }

  lemma RequestRecordable(s: Snapshot, accepted: bool, nextPoll: int)
    requires Inv(s) && s.state == Running && Requested(s.p.phase)
    ensures Recordable(s, s.p.(phase := Some(CancelRequested), accepted := accepted, nextPoll := Some(nextPoll)))
  {
    hide LogOk, Armed, LastRecord, Verdict;
  }

  lemma CancelPendingFacts(w: World, setup: Setup, accepted: bool)
    requires Working(w) && Requested(w.s.p.phase)
    ensures var v := CancelPending(w, setup, accepted);
      Onward(w, v) && v.s.p.runId == w.s.p.runId && v.s.p.deadline == w.s.p.deadline && Requested(v.s.p.phase)
      && (On(v) ==> v.s.state == Retry && v.s.p.phase == Some(CancelRequested))
  {
    hide Inv, Record, Release, Recordable, RowOk;
    var (c, a) := Query(w, Clock);
    if On(c) {
      RequestRecordable(c.s, accepted, a.number + setup.pollInterval);
      var q := c.s.p.(phase := Some(CancelRequested), accepted := accepted,
                      nextPoll := Some(a.number + setup.pollInterval));
      RecordFacts(c, q);
      if On(Record(c, q)) { ReleaseFacts(Record(c, q)); }
    }
  }

  /** The intent and its deadline are on record before the run is cancelled; the first poll is timed from the same
      instant. */
  lemma RequestCancelFacts(w: World, setup: Setup)
    requires Working(w) && w.s.p.runId.Some? && Plain(w.s.p.phase)
    ensures var v := RequestSupersededCancel(w, setup);
      Onward(w, v) && v.s.state == Running && v.s.p.runId == w.s.p.runId
      && (v.s == w.s || (Requested(v.s.p.phase) && v.s.p.deadline.Some?))
      && (On(v) ==>
            v.s.p.phase == Some(CancelRequested) && v.s.p.deadline.Some? && v.s.p.nextPoll.Some?
            && v.s.p.deadline.value - setup.convergence == v.s.p.nextPoll.value - setup.pollInterval
            && v.s.log == w.s.log + [Wrote(Running, w.s.p.(phase := Some(CancelRequesting), deadline := v.s.p.deadline)),
                                     Cancel, Wrote(Running, v.s.p)])
  {
    hide Inv, Record, Call, Recordable, RowOk;
    var (c, a) := Query(w, Clock);
    if On(c) {
      var q := c.s.p.(phase := Some(CancelRequesting), deadline := Some(a.number + setup.convergence));
      IntentRecordable(c.s, a.number + setup.convergence);
      RecordFacts(c, q);
      var v := Record(c, q);
      if On(v) {
        CallFacts(v, Cancel);
        var (x, answer) := Call(v, Cancel);
        if !x.end.Crash? && (x.end.Raise? ==> GithubFailure(x.end.exn)) {
          RequestRecordable(x.s, On(x) && answer != 0, a.number + setup.pollInterval);
          RecordFacts(Caught(x), x.s.p.(phase := Some(CancelRequested), accepted := On(x) && answer != 0,
                                        nextPoll := Some(a.number + setup.pollInterval)));
        }
      }
    }
  }

  lemma TimeoutRecordable(s: Snapshot, phase: Phase)
    requires Inv(s) && IsCancel(s.p.phase) && IsTimeout(Some(phase))
    ensures Recordable(s, s.p.(phase := Some(phase)))
  {
    hide LogOk;
  }

  lemma TryLaterFacts(w: World)
    requires Working(w) && IsTimeout(w.s.p.phase)
    ensures var v := TryLater(w);
      Onward(w, v) && v.s.p == w.s.p && (v.s.state == Running || v.s.state == Retry) && (On(v) ==> v.s.state == Retry)
  {
    hide Inv, Record, Release;
    InvMeansRowOk(w.s);
    RecordFacts(w, w.s.p);
    var v := Record(w, w.s.p);
    if On(v) { ReleaseFacts(v); }
  }

  lemma CloseTimedOutFacts(w: World)
    requires Working(w) && w.s.p.phase == Some(CancelRecoveryPending)
    ensures var v := CloseTimedOut(w);
      Onward(w, v) && v.s.p.phase == w.s.p.phase && v.s.p.deadline == w.s.p.deadline
      && (On(v) ==> v.s.state == Retry || v.s.state == Failed)
  {
    hide Inv, CloseChecks, Release, Abort, ChecksOnly;
    CloseChecksFacts(w);
    var (v, closed) := CloseChecks(w);
    ChecksOnlyMeans(w.s.p, v.s.p);
    if On(v) {
      if !closed {
        ReleaseFacts(v);
      } else {
        var x := External(v, Tell);
        if On(x) || x.end == Raise(Approval) { AbortFacts(Caught(x)); }
      }
    }
  }

  /** An escalated timeout is finished in its phase, without a poll and without another outcome. */
  lemma CancelRecoveryFacts(w: World)
    requires Working(w) && w.s.p.phase == Some(CancelRecoveryPending)
    ensures var v := ContinueCancelRecovery(w);
      Onward(w, v) && v.s.p.phase == w.s.p.phase && v.s.p.deadline == w.s.p.deadline
      && (On(v) ==> v.s.state == Retry || v.s.state == Failed)
  {
    hide Inv, CloseTimedOut, TryLater, Record;
    InvMeansRowOk(w.s);
    if w.s.p.recoveryComplete {
      CloseTimedOutFacts(w);
    } else {
      var v := External(w, Recover);
      if v.end.Raise? && RecoveryFailure(v.end.exn) {
        TryLaterFacts(Caught(v));
      } else if On(v) {
        var q := v.s.p.(recoveryComplete := true);
        RecordFacts(v, q);
        if On(Record(v, q)) { CloseTimedOutFacts(Record(v, q)); }
      }
    }
  }

  /** The timeout phase is on record before its outcome is written, and is never left. */
  lemma CancelNotConvergedFacts(w: World)
    requires Working(w) && (w.s.p.phase == Some(CancelRequested) || w.s.p.phase == Some(CancelTimeoutRecording))
    ensures var v := CancelNotConverged(w);
      Onward(w, v) && v.s.p.deadline == w.s.p.deadline && IsCancel(v.s.p.phase)
      && (!v.end.Crash? || IsTimeout(w.s.p.phase) ==> IsTimeout(v.s.p.phase))
      && (On(v) ==> v.s.state == Retry || v.s.state == Failed)
  {
    hide Inv, Record, Call, TryLater, ContinueCancelRecovery, Recordable, RowOk;
    var q := w.s.p.(phase := Some(CancelTimeoutRecording));
    TimeoutRecordable(w.s, CancelTimeoutRecording);
    RecordFacts(w, q);
    var v := Record(w, q);
    if On(v) {
      CallFacts(v, Outcome(NotConverged));
      var x := Call(v, Outcome(NotConverged)).0;
      if x.end.Raise? && RecoveryFailure(x.end.exn) {
        TryLaterFacts(Caught(x));
      } else if On(x) {
        var r := x.s.p.(phase := Some(CancelRecoveryPending));
        TimeoutRecordable(x.s, CancelRecoveryPending);
        RecordFacts(x, r);
        if On(Record(x, r)) { CancelRecoveryFacts(Record(x, r)); }
      }
    }
  }

  lemma AskAgainFacts(w: World, setup: Setup)
    requires Working(w) && Requested(w.s.p.phase)
    ensures var v := AskAgain(w, setup);
      Onward(w, v) && v.s.p.runId == w.s.p.runId && v.s.p.deadline == w.s.p.deadline && Requested(v.s.p.phase)
      && (On(v) ==> v.s.state == Retry && v.s.p.phase == Some(CancelRequested))
  {
    hide Inv, Call, CancelPending;
    InvMeansRowOk(w.s);
    if w.s.p.accepted {
      CancelPendingFacts(w, setup, true);
    } else {
      CallFacts(w, Cancel);
      var (v, answer) := Call(w, Cancel);
      if !v.end.Crash? && (v.end.Raise? ==> GithubFailure(v.end.exn)) {
        CancelPendingFacts(Caught(v), setup, On(v) && answer != 0);
      }
    }
  }

  /** One step of a requested cancellation. The deadline stands. At or after it, a failed poll or a run that has not
      ended enters the timeout phases unless the process dies; a request is left pending only before it; and nothing
      is polled before a poll is due. */
  lemma CancelRequestedFacts(w: World, setup: Setup)
    requires Working(w) && w.s.p.phase == Some(CancelRequested)
    ensures var (v, sight, now) := ContinueCancelRequested(w, setup);
      Onward(w, v) && v.s.p.deadline == w.s.p.deadline && IsCancel(v.s.p.phase) && w.s.p.deadline.Some?
      && ((sight == PollFailed || sight == Nonterminal) && !v.end.Crash? ==>
            (IsTimeout(v.s.p.phase) <==> now >= w.s.p.deadline.value))
      && ((sight == NotDue || sight == PollFailed || sight == Nonterminal) && On(v) && v.s.p.phase == Some(CancelRequested) ==>
            v.s.state == Retry && now < w.s.p.deadline.value)
      && (sight == NotDue ==> v.s.log == w.s.log && now < w.s.p.deadline.value)
      && (sight == TerminalRun || sight == Unusable ==> v.s.p.phase == Some(CancelRequested))
      && (sight == PollFailed || sight == Nonterminal || sight == TerminalRun ==>
            w.s.p.nextPoll.Some? && (now >= w.s.p.nextPoll.value || now >= w.s.p.deadline.value))
  {
    hide Inv, Call, Release, CancelNotConverged, CancelPending, AskAgain, CloseCancelled;
    InvMeansRowOk(w.s);
    var p := w.s.p;
    if p.runId.value >= 1 && (p.jobId.Some? ==> p.jobId.value >= 1) {
      var (c, a) := Query(w, Clock);
      if On(c) && p.nextPoll.Some? {
        var now, due := a.number, p.deadline.value;
        if now < p.nextPoll.value && now < due {
          ReleaseFacts(c);
        } else {
          CallFacts(c, Poll);
          var (v, shape) := Call(c, Poll);
          if v.end.Raise? && GithubFailure(v.end.exn) {
            if now >= due { CancelNotConvergedFacts(Caught(v)); } else { CancelPendingFacts(Caught(v), setup, p.accepted); }
          } else if On(v) && shape == 0 {
            if now >= due { CancelNotConvergedFacts(v); } else { AskAgainFacts(v, setup); }
          } else if On(v) && shape == 1 {
            CloseCancelledFacts(v);
          }
        }
      }
    }
  }

  lemma CloseCancelledFacts(w: World)
    requires Working(w) && w.s.p.phase == Some(CancelRequested)
    ensures var v := CloseCancelled(w);
      Onward(w, v) && v.s.p.deadline == w.s.p.deadline && v.s.p.phase == w.s.p.phase
  {
    hide Inv, Settle, FinishRun, CloseChecks, Deliver, Release, ChecksOnly;
    if w.s.p.jobId.None? { SettleFacts(w); } else { FinishRunFacts(w); }
    var v := if w.s.p.jobId.None? then Settle(w) else FinishRun(w);
    if On(v) {
      CloseChecksFacts(v);
      var (x, closed) := CloseChecks(v);
      ChecksOnlyMeans(v.s.p, x.s.p);
      if On(x) {
        if closed { DeliverFacts(x, true); } else { ReleaseFacts(x); }
      }
    }
  }

  // ----- The terminal monitor -----

  /** From `a` to `b` the run was watched: polls and questions only. */
  predicate Watched(a: seq<Event>, b: seq<Event>) {
    a <= b && forall i :: |a| <= i < |b| ==> b[i].Poll? || b[i].Asked?
  }

  /** The run was watched and one outcome recorded at the end. */
  predicate SettledOnce(a: seq<Event>, b: seq<Event>) {
    |a| < |b| && Watched(a, b[..|b| - 1]) && b[|b| - 1] == Outcome(OtherCause)
  }

  lemma SettleFacts(w: World)
    requires Working(w) && !IsTimeout(w.s.p.phase)
    ensures var v := Settle(w);
      Onward(w, v) && v.s.p == w.s.p && v.s.state == Running && (On(v) ==> v.s.log == w.s.log + [Outcome(OtherCause)])
  {
    hide Inv, Call;
    InvMeansRowOk(w.s);
    CallFacts(w, Outcome(OtherCause));
  }

  lemma {:induction false} FinishRunFacts(w: World)
    requires Working(w) && !IsTimeout(w.s.p.phase)
    ensures var v := FinishRun(w);
      Onward(w, v) && v.s.p == w.s.p && v.s.state == Running && (On(v) ==> SettledOnce(w.s.log, v.s.log))
    decreases w.script
  {
    hide Inv, Call, Settle, Watched;
    InvMeansRowOk(w.s);
    CallFacts(w, Poll);
    var (v, shape) := Call(w, Poll);
    if On(v) && shape == 1 {
      SettleFacts(v);
      SettledAfter(w.s.log, v.s.log, Settle(v));
    } else if On(v) && shape == 0 {
      FinishRunFacts(v);
      if On(FinishRun(v)) { SettledLater(w.s.log, v.s.log, FinishRun(v).s.log); }
    }
  }

  lemma SettledAfter(a: seq<Event>, b: seq<Event>, v: World)
    requires b == a + [Poll] || exists r :: b == a + [Poll, Asked(r)]
    ensures On(v) && v.s.log == b + [Outcome(OtherCause)] ==> SettledOnce(a, v.s.log)
  {
    if v.s.log == b + [Outcome(OtherCause)] { assert v.s.log[..|v.s.log| - 1] == b; }
  }

  lemma SettledLater(a: seq<Event>, b: seq<Event>, c: seq<Event>)
    requires Watched(a, b) && SettledOnce(b, c)
    ensures SettledOnce(a, c)
  {
  }

  /** The run is watched until it ends, and then settled with exactly one outcome; or its cancellation is on record,
      deadline and all, before the monitor yields. */
  lemma {:induction false} MonitorFacts(w: World, setup: Setup)
    requires Working(w) && w.s.p.runId.Some? && Plain(w.s.p.phase)
    ensures var (v, settled) := Monitor(w, setup); Monitored(w, v, settled)
    decreases w.script, 1
  {
    hide Inv, Call, Settle, Watched, SupersessionReason, RequestSupersededCancel, OutOfTimeOr;
    CallFacts(w, Poll);
    var (v, shape) := Call(w, Poll);
    if On(v) && shape == 1 {
      SettleFacts(v);
      SettledAfter(w.s.log, v.s.log, Settle(v));
    } else if On(v) && shape == 2 {
      OutOfTimeFacts(w, v, setup);
    } else if On(v) && shape == 0 {
      AskFacts(v);
      var (x, reason) := SupersessionReason(v);
      if On(x) && reason {
        RequestCancelFacts(x, setup);
      } else if On(x) {
        OutOfTimeFacts(w, x, setup);
      }
    }
  }

  ghost predicate Monitored(w: World, v: World, settled: bool) {
    Onward(w, v) && v.s.state == Running && v.s.p.runId == w.s.p.runId
    && (v.s.p == w.s.p || (Requested(v.s.p.phase) && v.s.p.deadline.Some?))
    && (settled ==> v.s.p == w.s.p && (On(v) ==> SettledOnce(w.s.log, v.s.log)))
    && (!settled && On(v) ==> v.s.p.phase == Some(CancelRequested) && v.s.p.deadline.Some? && v.s.p.nextPoll.Some?)
  }

  lemma {:induction false} OutOfTimeFacts(w: World, x: World, setup: Setup)
    requires Working(x) && x.s.p.runId.Some? && Plain(x.s.p.phase) && x.s.p == w.s.p && x.script < w.script
    requires x.s.log == w.s.log + [Poll] || exists r :: x.s.log == w.s.log + [Poll, Asked(r)]
    ensures var (v, settled) := OutOfTimeOr(x, setup); Monitored(w, v, settled)
    decreases x.script, 2
  {
    hide Inv, Settle, Watched, Monitor;
    var (v, a) := Query(x, Timer);
    if On(v) && a.yes {
      SettleFacts(v);
      SettledAfter(w.s.log, x.s.log, Settle(v));
    } else if On(v) {
      MonitorFacts(v, setup);
      var (y, settled) := Monitor(v, setup);
      if settled && On(y) {
        WatchedStep(w.s.log, x.s.log);
        SettledLater(w.s.log, x.s.log, y.s.log);
      }
    }
  }

  lemma WatchedStep(a: seq<Event>, b: seq<Event>)
    requires b == a + [Poll] || exists r :: b == a + [Poll, Asked(r)]
    ensures Watched(a, b)
  {
  }
}
