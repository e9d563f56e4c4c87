/**
 The pilot worker, updating one request's row in place.

 Every method leaves exactly the row, the history and the unused answers that its function in `PilotCycle` leaves;
 what that function keeps is proved beside it. One worker process serves the request.
 */
module PilotWorker {
  import opened Basics
  import opened PilotLog
  import opened PilotCycle
  import opened PilotSteps
  import opened PilotAssignments
  import opened PilotRuns
  import opened PilotProtocol
  import opened PilotService
  import opened PilotPromises

  class PilotWorker {
    var state: State
    var p: Progress
    var log: seq<Event>
    var script: Script
    var trace: seq<Step>
    const setup: Setup

    function Left(o: Ended): World
      reads this
    {
      World(Snapshot(state, p, log), script, o, trace)
    }

    function Here(): World
      reads this
    {
      Left(Returned)
    }

    constructor (setup: Setup)
      ensures Here() == World(START, End, Returned, []) && this.setup == setup
    {
      state, p, log, script, trace := Absent, EMPTY, [], End, [];
      this.setup := setup;
    }

    // ----- Answers -----

    method Pull() returns (a: Answer)
      modifies `script
      ensures PilotCycle.Pull(old(Here())) == (Here(), a)
    {
      match script {
        case End => a := GONE;
        case More(answer, rest) => a, script := answer, rest;
      }
    }

    /** A call whose report does not matter here. */
    method External(d: Deed) returns (o: Ended)
      modifies `script, `trace
      ensures Left(o) == PilotCycle.External(old(Here()), d)
    {
      var a;
      a, o := Query(d);
    }

    /** A call that reports something. */
    method Query(d: Deed) returns (a: Answer, o: Ended)
      modifies `script, `trace
      ensures PilotCycle.Query(old(Here()), d) == (Left(o), a)
    {
      a := Pull();
      trace, o := trace + [Step(d, a)], a.ended;
    }

    /** A durable write is attempted: `took` says that it takes place. */
    method Attempt(d: Deed, ok: bool) returns (took: bool, o: Ended)
      modifies `script, `trace
      ensures forall s: Snapshot ::
        PilotCycle.Store(old(Here()), d, ok, s) == if took then Left(o).(s := s) else Left(o)
    {
      var a := Pull();
      if DiedBefore(a) {
        took, o := false, Crash;
      } else if !ok {
        took, o := false, Raise(WorkerError);
      } else {
        took, o := true, if a.ended.Crash? then Crash else Returned;
      }
      trace := trace + [Step(d, Answer(o, took, 0))];
    }

    method SupersessionReason() returns (reason: bool, o: Ended)
      modifies `log, `script, `trace
      ensures PilotCycle.SupersessionReason(old(Here())) == (Left(o), reason)
    {
      var a;
      a, o := Query(Ask);
      if !o.Returned? { return false, o; }
      log, reason := log + [Asked(a.yes)], a.yes;
    }

    // ----- The request's row -----

    method ClaimRow(durable: bool) returns (acquired: bool, o: Ended)
      modifies `state, `script, `trace
      ensures PilotCycle.ClaimRow(old(Here()), durable) == (Left(o), acquired)
    {
      var a := Pull();
      acquired, o := false, if a.ended.Crash? then Crash else Returned;
      if DiedBefore(a) {
        trace := trace + [Step(Claim(durable), Answer(Crash, false, a.number))];
        return;
      }
      match state {
        case Absent => state, acquired := Running, true;
        case Failed =>
        case Done =>
        case Completing =>
        case Running => if !durable && a.number == 1 { o := Raise(WorkerError); } else { acquired := a.number != 2; }
        case Retry =>
          if !durable && a.number == 1 { o := Raise(WorkerError); } else { state, acquired := Running, true; }
      }
      trace := trace + [Step(Claim(durable), Answer(o, !o.Raise?, a.number))];
    }

    method Record(q: Progress) returns (o: Ended)
      modifies `p, `log, `script, `trace
      ensures Left(o) == PilotCycle.Record(old(Here()), q)
    {
      var took;
      took, o := Attempt(Write(q), state == Running);
      if took { p, log := q, log + [Wrote(state, q)]; }
    }

    /** Record, then renew the claim at the source. */
    method RecordAndClaim(q: Progress) returns (o: Ended)
      modifies `p, `log, `script, `trace
      ensures Left(o) == PilotCycle.RecordAndClaim(old(Here()), q)
    {
      o := Record(q);
      if o.Returned? { o := External(Renew); }
    }

    /** `running` back to `retry`. */
    method Release() returns (o: Ended)
      modifies `state, `script, `trace
      ensures Left(o) == PilotCycle.Release(old(Here()))
    {
      var took;
      took, o := Attempt(Free, true);
      if took && state == Running { state := Retry; }
    }

    method Abort() returns (o: Ended)
      modifies `state, `p, `log, `script, `trace
      ensures Left(o) == PilotCycle.Abort(old(Here()))
    {
      var took;
      ClosedAsItWas(Here().s, Failed);
      took, o := Attempt(Close(Failed), state == Running);
      if took { state, log := Failed, log + [Wrote(Failed, p)]; }
    }

    /** `terminal`: failed, whatever the row's state is. */
    method Terminal(phase: Phase) returns (o: Ended)
      modifies `state, `p, `log, `script, `trace
      ensures Left(o) == PilotCycle.Terminal(old(Here()), phase)
    {
      var took;
      took, o := Attempt(Condemn(phase), true);
      if took {
        state, p := Failed, p.(phase := Some(phase));
        log := log + [Wrote(Failed, p)];
      }
    }

    method FinishRow() returns (o: Ended)
      modifies `state, `p, `log, `script, `trace
      ensures Left(o) == PilotCycle.FinishRow(old(Here()))
    {
      var took;
      ClosedAsItWas(Here().s, Completing);
      took, o := Attempt(Close(Completing), state == Running);
      if took { state, log := Completing, log + [Wrote(Completing, p)]; }
    }

    method Delivered() returns (o: Ended)
      modifies `state, `script, `trace
      ensures Left(o) == PilotCycle.Delivered(old(Here()))
    {
      var took;
      took, o := Attempt(Mark, state == Completing);
      if took { state := Done; }
    }

    /** Finish with a result, hand it to the source, and mark it delivered. */
    method Deliver(toleratesApproval: bool) returns (o: Ended)
      modifies `state, `p, `log, `script, `trace
      ensures Left(o) == PilotCycle.Deliver(old(Here()), toleratesApproval)
    {
      o := FinishRow();
      if !o.Returned? { return; }
      o := External(Complete);
      if o.Returned? || (toleratesApproval && o == Raise(Approval)) { o := Delivered(); }
    }

    /** A logged call, and the number it reports. */
    method Call(e: Event) returns (number: int, o: Ended)
      modifies `log, `script, `trace
      ensures PilotCycle.Call(old(Here()), e) == (Left(o), number)
    {
      var a;
      a, o := Query(Logged(e));
      if DiedBefore(a) { return 0, o; }
      log, number := log + [e], a.number;
    }

    // ----- Check Runs -----

    /** Close whatever Check Runs are open; `closed` says that none is left. */
    method CloseChecks() returns (closed: bool, o: Ended)
      modifies `p, `log, `script, `trace
      ensures PilotCycle.CloseChecks(old(Here())) == (Left(o), closed)
    {
      hide PilotCycle.Record, PilotCycle.External;
      if !p.checks || p.checksClosed { return true, Returned; }
      o := External(ShutChecks);
      if o.Crash? || (o.Raise? && !CheckFailure(o.exn)) { return false, o; }
      closed := o.Returned?;
      o := Record(WithChecks(p, if closed then ChecksClosed else ChecksCloseFailed, closed));
      if o == Raise(WorkerError) { return false, Returned; }
    }

    // ----- Cancellation -----

    /** Record that the cancellation is converging, and release the request. */
    method CancelPending(accepted: bool) returns (o: Ended)
      modifies `state, `p, `log, `script, `trace
      ensures Left(o) == PilotCycle.CancelPending(old(Here()), setup, accepted)
    {
      hide PilotCycle.Record, PilotCycle.Release;
      var a;
      a, o := Query(Clock);
      if !o.Returned? { return; }
      o := Record(p.(phase := Some(CancelRequested), accepted := accepted, nextPoll := Some(a.number + setup.pollInterval)));
      if o.Returned? { o := Release(); }
    }

    /** Persist the intent, with its deadline, before the idempotent cancel call. */
    method RequestSupersededCancel() returns (o: Ended)
      modifies `p, `log, `script, `trace
      ensures Left(o) == PilotCycle.RequestSupersededCancel(old(Here()), setup)
      ensures Working(old(Here())) && old(p).runId.Some? && Plain(old(p).phase) && o.Returned? ==>
        p.phase == Some(CancelRequested) && p.deadline.Some? && p.nextPoll.Some?
        && log == old(log) + [Wrote(Running, old(p).(phase := Some(CancelRequesting), deadline := p.deadline)),
                              Cancel, Wrote(Running, p)]
    {
      hide PilotCycle.Record, PilotCycle.Call, Working, Onward, Plain;
      if Working(Here()) && p.runId.Some? && Plain(p.phase) { RequestCancelFacts(Here(), setup); }
      var a, answer;
      a, o := Query(Clock);
      if !o.Returned? { return; }
      o := Record(p.(phase := Some(CancelRequesting), deadline := Some(a.number + setup.convergence)));
      if !o.Returned? { return; }
      answer, o := Call(Cancel);
      if o.Crash? || (o.Raise? && !GithubFailure(o.exn)) { return; }
      o := Record(p.(phase := Some(CancelRequested), accepted := o.Returned? && answer != 0,
                     nextPoll := Some(a.number + setup.pollInterval)));
    }

    method TryLater() returns (o: Ended)
      modifies `state, `p, `log, `script, `trace
      ensures Left(o) == PilotCycle.TryLater(old(Here()))
    {
      o := Record(p);
      if o.Returned? { o := Release(); }
    }

    /** Finish an escalated timeout without polling or reclassifying it. */
    method ContinueCancelRecovery() returns (o: Ended)
      modifies `state, `p, `log, `script, `trace
      ensures Left(o) == PilotCycle.ContinueCancelRecovery(old(Here()))
      ensures Working(old(Here())) && old(p).phase == Some(CancelRecoveryPending) ==>
        Onward(old(Here()), Left(o)) && p.phase == old(p).phase && p.deadline == old(p).deadline
    {
      hide PilotCycle.Record, PilotCycle.TryLater, PilotCycle.CloseTimedOut, Working, Onward;
      if Working(Here()) && p.phase == Some(CancelRecoveryPending) { CancelRecoveryFacts(Here()); }
      if p.recoveryComplete {
        o := CloseTimedOut();
        return;
      }
      o := External(Recover);
      if o.Raise? && RecoveryFailure(o.exn) {
        o := TryLater();
        return;
      }
      if !o.Returned? { return; }
      o := Record(p.(recoveryComplete := true));
      if o.Returned? { o := CloseTimedOut(); }
    }

    method CloseTimedOut() returns (o: Ended)
      modifies `state, `p, `log, `script, `trace
      ensures Left(o) == PilotCycle.CloseTimedOut(old(Here()))
    {
      hide PilotCycle.CloseChecks, PilotCycle.Release, PilotCycle.Abort;
      var closed;
      closed, o := CloseChecks();
      if !o.Returned? { return; }
      if !closed {
        o := Release();
        return;
      }
      o := External(Tell);
      if o.Returned? || o == Raise(Approval) { o := Abort(); }
    }

    /** The cancellation ran out of time: this phase absorbs, and comes before the outcome is written. */
    method CancelNotConverged() returns (o: Ended)
      modifies `state, `p, `log, `script, `trace
      ensures Left(o) == PilotCycle.CancelNotConverged(old(Here()))
      ensures (Working(old(Here()))
               && (old(p).phase == Some(CancelRequested) || old(p).phase == Some(CancelTimeoutRecording))) ==>
          Onward(old(Here()), Left(o)) && p.deadline == old(p).deadline
          && (!o.Crash? || IsTimeout(old(p).phase) ==> IsTimeout(p.phase))
    {
      hide PilotCycle.Record, PilotCycle.Call, PilotCycle.TryLater, PilotCycle.ContinueCancelRecovery, Working, Onward, IsTimeout;
      if Working(Here()) && (p.phase == Some(CancelRequested) || p.phase == Some(CancelTimeoutRecording)) {
        CancelNotConvergedFacts(Here());
      }
      o := Record(p.(phase := Some(CancelTimeoutRecording)));
      if !o.Returned? { return; }
      var number;
      number, o := Call(Outcome(NotConverged));
      if o.Raise? && RecoveryFailure(o.exn) {
        o := TryLater();
        return;
      }
      if !o.Returned? { return; }
      o := Record(p.(phase := Some(CancelRecoveryPending)));
      if o.Returned? { o := ContinueCancelRecovery(); }
    }

    /** One step of a requested cancellation, what it saw, and when. */
    method ContinueCancelRequested() returns (sight: Sight, now: int, o: Ended)
      modifies `state, `p, `log, `script, `trace
      ensures PilotCycle.ContinueCancelRequested(old(Here()), setup) == (Left(o), sight, now)
      ensures Working(old(Here())) && old(p).phase == Some(CancelRequested) ==>
        Onward(old(Here()), Left(o)) && p.deadline == old(p).deadline && p.deadline.Some?
        && ((sight == PollFailed || sight == Nonterminal) && !o.Crash? ==>
              (IsTimeout(p.phase) <==> now >= p.deadline.value))
    {
      hide PilotCycle.Call, PilotCycle.Release, PilotCycle.CancelNotConverged, PilotCycle.CancelPending,
        PilotCycle.AskAgain, PilotCycle.CloseCancelled, Working, Onward, IsTimeout;
      if Working(Here()) && p.phase == Some(CancelRequested) { CancelRequestedFacts(Here(), setup); }
      sight, now := Unusable, 0;
      if p.runId.None? || p.runId.value < 1 || (p.jobId.Some? && p.jobId.value < 1) {
        return sight, now, Raise(WorkerError);
      }
      var a, shape;
      a, o := Query(Clock);
      if !o.Returned? { return; }
      now := a.number;
      if p.deadline.None? || p.nextPoll.None? { return sight, now, Raise(WorkerError); }
      var due := p.deadline.value;
      if now < p.nextPoll.value && now < due {
        sight := NotDue;
        o := Release();
        return;
      }
      shape, o := Call(Poll);
      if o.Raise? && GithubFailure(o.exn) {
        sight := PollFailed;
        if now >= due { o := CancelNotConverged(); } else { o := CancelPending(p.accepted); }
      } else if !o.Returned? {
        return;
      } else if shape == 0 {
        sight := Nonterminal;
        if now >= due { o := CancelNotConverged(); } else { o := AskAgain(); }
      } else if shape == 1 {
        sight := TerminalRun;
        o := CloseCancelled();
      } else {
        o := Raise(WorkerError);
      }
    }

    /** The run has not ended: repeat the cancel call unless it was accepted. */
    method AskAgain() returns (o: Ended)
      modifies `state, `p, `log, `script, `trace
      ensures Left(o) == PilotCycle.AskAgain(old(Here()), setup)
    {
      hide PilotCycle.Call, PilotCycle.CancelPending;
      if p.accepted {
        o := CancelPending(true);
        return;
      }
      var answer;
      answer, o := Call(Cancel);
      if o.Crash? || (o.Raise? && !GithubFailure(o.exn)) { return; }
      o := CancelPending(o.Returned? && answer != 0);
    }

    /** The cancelled run has ended: record why, clean up, publish, deliver. */
    method CloseCancelled() returns (o: Ended)
      modifies `state, `p, `log, `script, `trace
      ensures Left(o) == PilotCycle.CloseCancelled(old(Here()))
    {
      hide PilotCycle.Settle, PilotCycle.FinishRun, PilotCycle.CloseChecks, PilotCycle.Deliver, PilotCycle.Release;
      if p.jobId.None? { o := Settle(); } else { o := FinishRun(); }
      if !o.Returned? { return; }
      var closed;
      closed, o := CloseChecks();
      if !o.Returned? { return; }
      if closed { o := Deliver(true); } else { o := Release(); }
    }

    // ----- The terminal monitor -----

    /** Record the outcome, then clean the allocation up and take the proof. */
    method Settle() returns (o: Ended)
      modifies `log, `script, `trace
      ensures Left(o) == PilotCycle.Settle(old(Here()))
    {
      var number;
      number, o := Call(Outcome(OtherCause));
      if o.Returned? { o := External(Cleanup(p)); }
    }

    /** Poll an ended run until its job proves the end, then settle. */
    method FinishRun() returns (o: Ended)
      modifies `log, `script, `trace
      ensures Left(o) == PilotCycle.FinishRun(old(Here()))
    {
      hide PilotCycle.Call, PilotCycle.Settle;
      while true
        invariant PilotCycle.FinishRun(Here()) == PilotCycle.FinishRun(old(Here()))
        decreases script
      {
        var shape;
        shape, o := Call(Poll);
        if !o.Returned? { return; }
        if shape == 1 {
          o := Settle();
          return;
        }
        if shape != 0 { return Raise(Pilot); }
      }
    }

    /** Watch the run: settle when it ends, or request its cancellation and yield when it is superseded. */
    method Monitor() returns (settled: bool, o: Ended)
      modifies `p, `log, `script, `trace
      ensures PilotCycle.Monitor(old(Here()), setup) == (Left(o), settled)
      ensures Working(old(Here())) && old(p).runId.Some? && Plain(old(p).phase) ==>
        Onward(old(Here()), Left(o)) && p.runId == old(p).runId
        && (o.Returned? ==> if settled then p == old(p) && SettledOnce(old(log), log)
                            else p.phase == Some(CancelRequested) && p.deadline.Some?)
    {
      hide PilotCycle.Call, PilotCycle.Settle, PilotCycle.SupersessionReason, PilotCycle.RequestSupersededCancel, Working, Onward, Plain, SettledOnce;
      if Working(Here()) && p.runId.Some? && Plain(p.phase) { MonitorFacts(Here(), setup); }
      settled := false;
      while true
        invariant !settled && PilotCycle.Monitor(Here(), setup) == PilotCycle.Monitor(old(Here()), setup)
        decreases script
      {
        var shape, a;
        shape, o := Call(Poll);
        if !o.Returned? { return; }
        if shape == 1 { break; }
        if shape != 0 && shape != 2 { return false, Raise(Pilot); }
        if shape == 0 {
          var reason;
          reason, o := SupersessionReason();
          if !o.Returned? { return; }
          if reason {
            o := RequestSupersededCancel();
            return;
          }
        }
        a, o := Query(Timer);
        if !o.Returned? { return; }
        if a.yes { break; }
      }
      settled := true;
      o := Settle();
    }

    // ----- Closing without a run -----

    /** Report the checks of an assignment that never opened any as discarded; each step is recorded. */
    method ReportDiscarded() returns (pending: bool, o: Ended)
      modifies `p, `log, `script, `trace
      ensures PilotCycle.ReportDiscarded(old(Here())) == (Left(o), pending)
    {
      while true
        invariant PilotCycle.ReportDiscarded(Here()) == PilotCycle.ReportDiscarded(old(Here()))
        decreases script
      {
        var a;
        a, o := Query(Report);
        if o.Raise? && CheckFailure(o.exn) { return true, Returned; }
        if !o.Returned? || !a.yes { return false, o; }
        o := Record(p.(phase := Some(DiscardReporting)));
        if !o.Returned? { return false, o; }
      }
    }

    /** The request is obsolete: cancel its run, or report, clean and deliver it. */
    method CompleteSuperseded() returns (o: Ended)
      modifies `state, `p, `log, `script, `trace
      ensures Left(o) == PilotCycle.CompleteSuperseded(old(Here()), setup)
      ensures Working(old(Here())) && Plain(old(p).phase) && Verdict(old(log)) == Some(true) ==>
        Onward(old(Here()), Left(o)) && p.runId == old(p).runId
        && (o.Returned? && p.runId.Some? ==> state == Retry && p.phase == Some(CancelRequested))
    {
      hide PilotCycle.RequestSupersededCancel, PilotCycle.Release, PilotCycle.CloseChecks, PilotCycle.ReportDiscarded,
        PilotCycle.FinishSuperseded, Working, Onward, Plain, Verdict;
      if Working(Here()) && Plain(p.phase) && Verdict(log) == Some(true) { CompleteSupersededFacts(Here(), setup); }
      if p.runId.Some? {
        o := RequestSupersededCancel();
        if o.Returned? { o := Release(); }
        return;
      }
      var pending;
      if p.checks {
        var closed;
        closed, o := CloseChecks();
        pending := !closed;
      } else {
        pending, o := ReportDiscarded();
      }
      if o.Returned? { o := FinishSuperseded(pending); }
    }

    method FinishSuperseded(pending: bool) returns (o: Ended)
      modifies `state, `p, `log, `script, `trace
      ensures Left(o) == PilotCycle.FinishSuperseded(old(Here()), pending)
    {
      hide PilotCycle.Call, PilotCycle.Release, PilotCycle.Deliver;
      var number;
      number, o := Call(Outcome(OtherCause));
      if !o.Returned? { return; }
      if p.reserved { o := External(Recover); }
      if !o.Returned? { return; }
      if pending { o := Release(); } else { o := Deliver(true); }
    }

    /** Release, and go on with the exception at hand. */
    method ReleaseAndThrow(e: Exn) returns (o: Ended)
      modifies `state, `script, `trace
      ensures Left(o) == PilotCycle.ReleaseAndThrow(old(Here()), e)
    {
      o := Release();
      if o.Returned? { o := Raise(e); }
    }

    /** Nothing was dispatched, or what was is beyond use: clean up and fail the request for good. */
    method TerminalReconcile() returns (o: Ended)
      modifies `state, `p, `log, `script, `trace
      ensures Left(o) == PilotCycle.TerminalReconcile(old(Here()))
    {
      hide PilotCycle.Record, PilotCycle.Reconcile;
      var started := p.phase.Some?;
      o := External(Bind);
      if !o.Returned? { return; }
      o := Record(p.(phase := Some(CleanupRequired)));
      if o.Returned? { o := Reconcile(started); }
    }

    method Reconcile(started: bool) returns (o: Ended)
      modifies `state, `p, `log, `script, `trace
      ensures Left(o) == PilotCycle.Reconcile(old(Here()), started)
    {
      hide PilotCycle.CloseChecks, PilotCycle.ReleaseAndThrow, PilotCycle.FailReconciled;
      var closed;
      closed, o := CloseChecks();
      if !o.Returned? { return; }
      if started { o := External(Recover); }
      if o.Raise? {
        o := ReleaseAndThrow(o.exn);
      } else if o.Returned? {
        o := FailReconciled();
      }
    }

    method FailReconciled() returns (o: Ended)
      modifies `state, `p, `log, `script, `trace
      ensures Left(o) == PilotCycle.FailReconciled(old(Here()))
    {
      hide PilotCycle.Abort, PilotCycle.ReleaseAndThrow, PilotCycle.Call;
      o := External(Tell);
      if o.Crash? { return; }
      if o.Raise? && o.exn != Approval {
        o := ReleaseAndThrow(o.exn);
        return;
      }
      o := Abort();
      if o.Returned? {
        var number;
        number, o := Call(Outcome(OtherCause));
      }
    }

    // ----- The assignment proper -----

    /** Issue the package once, while no run is on record, and authenticate it. */
    method IssuePackage() returns (o: Ended)
      modifies `p, `log, `script, `trace
      ensures Left(o) == PilotCycle.IssuePackage(old(Here()))
    {
      hide PilotCycle.Record;
      if !p.package && p.runId.None? {
        o := External(Issue);
        if !o.Returned? { return; }
        o := Record(p.(phase := Some(PackageIssued), package := true));
        if !o.Returned? { return; }
      }
      o := External(Authenticate);
    }

    method ReserveAllocation() returns (o: Ended)
      modifies `p, `log, `script, `trace
      ensures Left(o) == PilotCycle.ReserveAllocation(old(Here()))
    {
      hide PilotCycle.RecordAndClaim;
      if !p.reserved {
        o := External(Reserve);
        if !o.Returned? { return; }
        o := RecordAndClaim(p.(phase := Some(Reserved), reserved := true));
        if !o.Returned? { return; }
      }
      var a;
      a, o := Query(CheckReserved);
      if o.Returned? && !a.yes { o := Raise(WorkerError); }
    }

    /** The one non-idempotent call. `before` is the record as it was read when the assignment was picked up. */
    method DispatchOnce(before: Progress) returns (o: Ended)
      modifies `p, `log, `script, `trace
      ensures Left(o) == PilotCycle.DispatchOnce(old(Here()), before)
      ensures Assigned(old(Here())) && old(p).reserved && (old(p).package || old(p).runId.Some?) && ReadBefore(before, old(p)) ==>
        Onward(old(Here()), Left(o)) && (Shut(old(Here()).s) ==> p == old(p) && log == old(log))
        && (!Shut(old(Here()).s) && o.Returned? ==>
              log == old(log) + [Wrote(Running, old(p).(phase := Some(Dispatching))), Dispatch, Wrote(Running, p)])
    {
      hide PilotCycle.RecordAndClaim, PilotCycle.Call, Assigned, Onward, Shut, ReadBefore;
      if Assigned(Here()) && p.reserved && (p.package || p.runId.Some?) && ReadBefore(before, p) {
        DispatchFacts(Here(), before);
      }
      if p.runId.Some? { return Returned; }
      if !MayDispatch(before) { return Raise(WorkerError); }
      o := RecordAndClaim(p.(phase := Some(Dispatching)));
      if !o.Returned? { return; }
      var receipt;
      receipt, o := Call(Dispatch);
      if !o.Returned? { return; }
      if receipt < 1 { return Raise(WorkerError); }
      o := RecordAndClaim(p.(phase := Some(Dispatched), runId := Some(receipt)));
    }

    method ObserveJob() returns (o: Ended)
      modifies `p, `log, `script, `trace
      ensures Left(o) == PilotCycle.ObserveJob(old(Here()))
    {
      hide PilotCycle.RecordAndClaim, PilotCycle.RecordWindow;
      var a;
      if !p.observed {
        a, o := Query(Observe);
        if !o.Returned? { return; }
        o := RecordAndClaim(p.(phase := Some(Observed), jobId := Some(a.number), observed := true));
        if !o.Returned? { return; }
      }
      a, o := Query(CheckJob);
      if !o.Returned? { return; }
      if !a.yes { return Raise(WorkerError); }
      o := RecordWindow();
    }

    /** A version-two reservation needs a claim window on record before anything is signed for it. */
    method RecordWindow() returns (o: Ended)
      modifies `p, `log, `script, `trace
      ensures Left(o) == PilotCycle.RecordWindow(old(Here()))
    {
      hide PilotCycle.RecordAndClaim;
      var a;
      a, o := Query(Window);
      if o.Returned? && a.yes && !p.window {
        o := RecordAndClaim(p.(phase := Some(AllocationWindow), window := true));
      }
    }

    /** Open the pull request's Check Runs, best effort. */
    method OpenChecks() returns (o: Ended)
      modifies `p, `log, `script, `trace
      ensures Left(o) == PilotCycle.OpenChecks(old(Here()))
    {
      hide PilotCycle.RecordAndClaim;
      if p.checks { return Returned; }
      o := External(StartChecks);
      if o.Raise? && CheckFailure(o.exn) { return Returned; }
      if o.Returned? { o := RecordAndClaim(p.(phase := Some(ChecksOpen), checks := true)); }
    }

    /** Sign and finalize, unless a finalize receipt is on record. */
    method FinalizeOnce() returns (o: Ended)
      modifies `p, `log, `script, `trace
      ensures Left(o) == PilotCycle.FinalizeOnce(old(Here()))
    {
      hide PilotCycle.RecordAndClaim, PilotCycle.Call;
      if p.finalized { return Returned; }
      o := External(Sign);
      if !o.Returned? { return; }
      var exact;
      exact, o := Call(Finalize);
      if !o.Returned? { return; }
      if exact != 0 { return Raise(WorkerError); }
      o := RecordAndClaim(p.(phase := Some(Finalized), finalized := true));
    }

    /** Watch the run to its end, publish, and deliver the result. */
    method WatchAndDeliver() returns (o: Ended)
      modifies `state, `p, `log, `script, `trace
      ensures Left(o) == PilotCycle.WatchAndDeliver(old(Here()), setup)
    {
      hide PilotCycle.Monitor, PilotCycle.Release, PilotCycle.CloseChecks, PilotCycle.Deliver;
      var settled, closed := false, false;
      if p.jobId.None? || p.jobId.value < 1 { return Raise(Pilot); }
      settled, o := Monitor();
      if o == Raise(Transport) {
        o := Release();
        return;
      }
      if !o.Returned? { return; }
      if !settled {
        o := Release();
        return;
      }
      closed, o := CloseChecks();
      if !o.Returned? { return; }
      if closed { o := Deliver(false); } else { o := Release(); }
    }

    /** Everything after the package: reserve, dispatch, observe, finalize, watch. */
    method Drive() returns (o: Ended)
      modifies `state, `p, `log, `script, `trace
      ensures Left(o) == PilotCycle.Drive(old(Here()), setup)
    {
      hide PilotCycle.ReserveAllocation, PilotCycle.DispatchOnce, PilotCycle.ObserveJob, PilotCycle.Admit;
      var before := p;
      o := ReserveAllocation();
      if !o.Returned? { return; }
      o := DispatchOnce(before);
      if !o.Returned? { return; }
      o := ObserveJob();
      if o.Returned? { o := Admit(); }
    }

    method Admit() returns (o: Ended)
      modifies `state, `p, `log, `script, `trace
      ensures Left(o) == PilotCycle.Admit(old(Here()), setup)
    {
      hide PilotCycle.OpenChecks, PilotCycle.SupersessionReason, PilotCycle.CompleteSuperseded,
        PilotCycle.FinalizeOnce, PilotCycle.WatchAndDeliver;
      o := OpenChecks();
      if !o.Returned? { return; }
      var reason;
      reason, o := SupersessionReason();
      if !o.Returned? { return; }
      if reason {
        o := CompleteSuperseded();
        return;
      }
      o := FinalizeOnce();
      if o.Returned? { o := WatchAndDeliver(); }
    }

    /** `except Exception` around the assignment: publish, record, and recover as far as the record allows. */
    method FailureHandler(k: Exn) returns (o: Ended)
      modifies `state, `p, `log, `script, `trace
      ensures Left(o) == PilotCycle.FailureHandler(old(Here()), k)
      ensures On(old(Here())) && Inv(old(Here()).s) && Stopped(old(Here()).s) ==>
        Onward(old(Here()), Left(o)) && !o.Returned?
        && (Published(old(Here())) && o.Raise? ==> Locked(Here().s))
        && (!Published(old(Here())) ==> ChecksOnly(old(p), p) && state == old(state))
    {
      hide PilotCycle.CloseChecks, PilotCycle.Call, PilotCycle.ReleaseAndThrow, PilotCycle.MarkAmbiguous,
        PilotCycle.CleanUpAndFail, Inv, Onward, Stopped, Published, Locked, ChecksOnly;
      if Inv(Here().s) && Stopped(Here().s) { FailureHandlerFacts(Here(), k); }
      var closed, number;
      closed, o := CloseChecks();
      if !o.Returned? { return; }
      number, o := Call(Outcome(OtherCause));
      if !o.Returned? { return; }
      if p.runId.Some? {
        o := External(Postpone);
        if o.Returned? { o := ReleaseAndThrow(k); }
      } else if p.phase == Some(Dispatching) {
        o := MarkAmbiguous(k);
      } else {
        o := CleanUpAndFail(k);
      }
    }

    /** A receipt may be lost: flag it, so that no later cycle dispatches again. */
    method MarkAmbiguous(k: Exn) returns (o: Ended)
      modifies `state, `p, `log, `script, `trace
      ensures Left(o) == PilotCycle.MarkAmbiguous(old(Here()), k)
    {
      hide PilotCycle.RecordAndClaim, PilotCycle.ReleaseAndThrow;
      var recovery := External(Recover);
      if recovery.Crash? { return Crash; }
      o := RecordAndClaim(p.(phase := Some(DispatchAmbiguous), ambiguous := true));
      if !o.Returned? { return; }
      o := External(Postpone);
      if o.Returned? { o := ReleaseAndThrow(if recovery.Raise? then recovery.exn else k); }
    }

    method CleanUpAndFail(k: Exn) returns (o: Ended)
      modifies `state, `p, `log, `script, `trace
      ensures Left(o) == PilotCycle.CleanUpAndFail(old(Here()), k)
    {
      hide PilotCycle.RecordAndClaim, PilotCycle.ReleaseAndThrow, PilotCycle.Abort;
      o := RecordAndClaim(p.(phase := Some(CleanupRequired)));
      if !o.Returned? { return; }
      var recovery := External(Recover);
      if recovery.Crash? { return Crash; }
      o := External(if recovery.Raise? then Postpone else Tell);
      if !o.Returned? { return; }
      if recovery.Raise? {
        o := ReleaseAndThrow(recovery.exn);
      } else {
        o := Abort();
        if o.Returned? { o := Raise(k); }
      }
    }

    /** The phases of a cancellation, and of a cleanup that is due, come before everything else. */
    method Routed() returns (o: Ended)
      modifies `state, `p, `log, `script, `trace
      ensures Left(o) == PilotCycle.Routed(old(Here()), setup)
    {
      hide PilotCycle.Call, PilotCycle.CancelPending, PilotCycle.CancelNotConverged, PilotCycle.ContinueCancelRecovery,
        PilotCycle.ContinueCancelRequested, PilotCycle.TerminalReconcile;
      if p.phase == Some(CancelRequesting) {
        var answer;
        answer, o := Call(Cancel);
        if o.Crash? || (o.Raise? && !GithubFailure(o.exn)) { return; }
        o := CancelPending(o.Returned? && answer != 0);
      } else if p.phase == Some(CancelTimeoutRecording) {
        o := CancelNotConverged();
      } else if p.phase == Some(CancelRecoveryPending) {
        o := ContinueCancelRecovery();
      } else if p.phase == Some(CancelRequested) {
        var sight, now;
        sight, now, o := ContinueCancelRequested();
      } else {
        o := TerminalReconcile();
      }
    }

    /** A delivery that was recorded is made again, and a recorded completion is marked delivered. */
    method Redeliver() returns (o: Ended)
      modifies `state, `script, `trace
      ensures Left(o) == PilotCycle.Redeliver(old(Here()))
    {
      o := External(Complete);
      if o.Returned? && state == Completing { o := Delivered(); }
    }

    /** One cycle's work on the request it was given. */
    method RunAssignment(durable: bool) returns (o: Ended)
      modifies `state, `p, `log, `script, `trace
      ensures Left(o) == PilotCycle.RunAssignment(old(Here()), setup, durable)
    {
      hide PilotCycle.ClaimRow, PilotCycle.Redeliver, PilotCycle.Routed, PilotCycle.SupersessionReason,
        PilotCycle.CompleteSuperseded, PilotCycle.Pursue;
      if !setup.wellFormed { return Raise(WorkerError); }
      var acquired, reason;
      acquired, o := ClaimRow(durable);
      if !o.Returned? { return; }
      if state == Completing || state == Done {
        o := Redeliver();
        return;
      }
      if !acquired { return; }
      if IsRouted(p.phase) {
        o := Routed();
        return;
      }
      reason, o := SupersessionReason();
      if !o.Returned? { return; }
      if reason { o := CompleteSuperseded(); } else { o := Pursue(); }
    }

    /** Resume or claim at the source, take the package, and drive the assignment. */
    method Pursue() returns (o: Ended)
      modifies `state, `p, `log, `script, `trace
      ensures Left(o) == PilotCycle.Pursue(old(Here()), setup)
    {
      hide PilotCycle.TerminalReconcile, PilotCycle.IssuePackage, PilotCycle.Drive, PilotCycle.FailureHandler;
      o := External(Resume);
      if o == Raise(Approval) {
        o := TerminalReconcile();
        return;
      }
      if !o.Returned? { return; }
      o := IssuePackage();
      if o == Raise(Pilot) {
        o := TerminalReconcile();
        return;
      }
      if !o.Returned? { return; }
      o := Drive();
      if o.Raise? && !Contained(o.exn) { o := FailureHandler(o.exn); }
    }

    /** Close the checks and recover the allocation, as far as that works, then fail the request at the source. */
    method Retire() returns (o: Ended)
      modifies `p, `log, `script, `trace
      ensures Left(o) == PilotCycle.Retire(old(Here()))
    {
      hide PilotCycle.CloseChecks;
      var started := p.phase.Some?;
      var closed, cleanup;
      closed, cleanup := CloseChecks();
      if cleanup.Returned? && started { cleanup := External(Recover); }
      if cleanup.Crash? { return Crash; }
      o := External(Tell);
      if o.Returned? && cleanup.Raise? && !CleanupFailure(cleanup.exn) { o := cleanup; }
    }

    /** A request that failed is claimed if it never was, and must be the one on record. */
    method Identify(durable: bool) returns (o: Ended)
      modifies `state, `script, `trace
      ensures Left(o) == PilotCycle.Identify(old(Here()), durable)
    {
      if state == Absent {
        var acquired;
        acquired, o := ClaimRow(durable);
      } else if durable {
        o := Returned;
      } else {
        var a := Pull();
        if a.ended.Crash? {
          trace, o := trace + [Step(Match, Answer(Crash, false, 0))], Crash;
        } else {
          trace := trace + [Step(Match, Answer(Returned, a.yes, 0))];
          o := if a.yes then Raise(Authority) else Returned;
        }
      }
    }

    /** Quarantine the request that failed with `k`: whatever the cleanup does, the row ends failed. */
    method Quarantine(durable: bool, k: Exn) returns (o: Ended)
      modifies `state, `p, `log, `script, `trace
      ensures Left(o) == PilotCycle.Quarantine(old(Here()), durable, k)
    {
      hide PilotCycle.Identify, PilotCycle.Retire, PilotCycle.Terminal;
      o := Identify(durable);
      if !o.Returned? { return; }
      var cleanup := Retire();
      if cleanup.Crash? { return Crash; }
      o := Terminal(if k == Temporal then AllocationExpired else AssignmentFailed);
      if !o.Returned? { return; }
      if cleanup.Raise? { return cleanup; }
      if k != Temporal { o := Raise(k); }
    }

    /** One service cycle. */
    method RunOnce() returns (o: Ended)
      modifies `state, `p, `log, `script, `trace
      ensures Left(o) == PilotCycle.RunOnce(old(Here()), setup)
      ensures Inv(old(Here()).s) ==>
        Onward(old(Here()), Left(o)) && (o.Raise? && Contained(o.exn) ==> state == Failed)
      ensures Inv(old(Here()).s) && old(trace) == [] ==>
        Honest(setup, old(Here()).s, trace) && Recall(setup, old(Here()).s, trace).s == Here().s
        && MayEnd(setup, Recall(setup, old(Here()).s, trace), o)
      ensures Inv(old(Here()).s) && old(trace) == [] && !Concluding(old(state)) ==>
        (Concluding(state) ==>
           OutcomeSince(old(log), log) && NoOpenChecks(p) && LastWrite(log) == Some(Wrote(Completing, p)))
        && (o.Returned? && ProvedClean(trace) ==>
              state == if p.phase == Some(AllocationExpired) then Failed else if NoOpenChecks(p) then Done else Retry)
    {
      hide PilotCycle.RunAssignment, PilotCycle.Quarantine, Inv, Onward, Contained, Honest, Recall, MayEnd, OutcomeSince,
        LastWrite, ProvedClean;
      if Inv(Here().s) {
        RunOnceFacts(Here(), setup);
        if trace == [] {
          RunOnceConduct(Here(), setup);
          if !Concluding(state) {
            DoneIsEarned(Here(), setup);
            SettledIsDelivered(Here(), setup);
          }
        }
      }
      var durable := ReadBack(state);
      o := RunAssignment(durable);
      if o.Raise? && Contained(o.exn) { o := Quarantine(durable, o.exn); }
    }
  }

  /** Any number of cycles and restarts, each ending anywhere. A dispatch is announced, and is not repeated unless a
      discard was reported under a verdict that was then withdrawn; none follows a locking record; recorded run ids and
      cancellation deadlines stand; and a request with a result had its outcome recorded and has no open Check Run. */
  method Serve(setup: Setup, cycles: seq<Cycle>) returns (s: Snapshot)
    ensures s == Served(setup, cycles)
    ensures LogOk(s.log) && s.p == LastRecord(s.log)
    ensures forall i, j :: 0 <= i < j < |s.log| && s.log[i].Dispatch? && s.log[j].Dispatch? ==> Withdrawn(s.log, i, j)
    ensures VerdictsStand(s.log) ==>
      forall i, j :: 0 <= i < |s.log| && 0 <= j < |s.log| && s.log[i].Dispatch? && s.log[j].Dispatch? ==> i == j
    ensures forall i :: 0 <= i < |s.log| && s.log[i].Wrote? ==>
      (s.log[i].p.runId.Some? ==> s.p.runId == s.log[i].p.runId)
      && (s.log[i].p.deadline.Some? ==> s.p.deadline == s.log[i].p.deadline)
    ensures Concluding(s.state) ==>
      OutcomeSince([], s.log) && NoOpenChecks(s.p) && LastWrite(s.log) == Some(Wrote(Completing, s.p))
  {
    hide PilotCycle.RunOnce, Withdrawn, VerdictsStand, LogOk, OutcomeSince, LastWrite;
    var worker := new PilotWorker(setup);
    var n := 0;
    while n < |cycles|
      invariant 0 <= n <= |cycles| && fresh(worker) && worker.setup == setup
      invariant worker.Here().s == Served(setup, cycles[..n])
    {
      assert cycles[..n + 1][..n] == cycles[..n] && cycles[..n + 1][n] == cycles[n];
      if cycles[n].restarted && worker.state == Running { worker.state := Retry; }
      worker.script, worker.trace := cycles[n].script, [];
      var o := worker.RunOnce();
      n := n + 1;
    }
    assert cycles[..n] == cycles;
    s := worker.Here().s;
    ServedRecordsStand(setup, cycles);
    DispatchedAgain(setup, cycles);
    DispatchedOnce(setup, cycles);
    ResultsAreEarned(setup, cycles);
  }
}
