/**
 One cycle of the pilot worker as a function of the request's row and of what the surroundings answer.

 Every call of the broker, GitHub, the approval source or the clock, and every durable write, consumes one answer; an
 answer may be an exception or the end of the process, before or after the effect. When the answers run out the process
 has ended.
 */
module PilotCycle {
  import opened Basics
  import opened PilotLog

  /** The exception classes whose handling differs; `Temporal` is the run-time error that says a window has passed. */
  datatype Exn = WorkerError | RunnerJit | Temporal | Gate | Os | Approval | Authority | Transport | Pilot | OtherExn

  /** How a call ended. A crash runs no handler. */
  datatype Ended = Returned | Crash | Raise(exn: Exn)

  /** `yes` and `number` are whatever the call reports; for a crash, `yes` says that the effect took place. */
  datatype Answer = Answer(ended: Ended, yes: bool, number: int)

  datatype Script = End | More(answer: Answer, rest: Script)

  /** What the worker does: durable writes of the row, calls that are part of its history, and all other calls. */
  datatype Deed =
    | Claim(durable: bool) | Write(p: Progress) | Free | Close(to: State) | Condemn(phase: Phase) | Mark | Match
    | Logged(event: Event) | Ask
    | Resume | Issue | Authenticate | Reserve | CheckReserved | Observe | CheckJob | Window | StartChecks | Renew | Sign
    | Clock | Timer | ShutChecks | Report | Clean | Recover | Bind | Complete | Tell | Postpone

  datatype Step = Step(deed: Deed, answer: Answer)

  /** `trace` is everything done in this cycle, with the answers. */
  datatype World = World(s: Snapshot, script: Script, end: Ended, trace: seq<Step>)

  /** Constants of the worker and of the request it serves. */
  datatype Setup = Setup(wellFormed: bool, convergence: int, pollInterval: int)

  /** What a poll of the run being cancelled showed. */
  datatype Sight = NotDue | PollFailed | Nonterminal | TerminalRun | Unusable

  /** `except (WorkerError, RunnerJitError, GateCheckError, OSError)`. */
  predicate Contained(e: Exn) {
    e == WorkerError || e == RunnerJit || e == Temporal || e == Gate || e == Os
  }

  /** `except (LocalApprovalError, WorkerAuthorityError, OSError)`, transport errors being authority errors. */
  predicate GithubFailure(e: Exn) {
    e == Approval || e == Authority || e == Transport || e == Os
  }

  /** `except (WorkerError, RunnerJitError, OSError)`. */
  predicate RecoveryFailure(e: Exn) {
    e == WorkerError || e == RunnerJit || e == Temporal || e == Os
  }

  /** `except (GateCheckError, OSError)`. */
  predicate CheckFailure(e: Exn) {
    e == Gate || e == Os
  }

  predicate On(w: World) {
    w.end.Returned?
  }

  function Caught(w: World): World {
    w.(end := Returned)
  }

  function Throw(w: World, e: Exn): World {
    w.(end := Raise(e))
  }

  const GONE := Answer(Crash, false, 0)

  // ----- Answers -----

  function Pull(w: World): (World, Answer) {
    match w.script
    case End => (w, GONE)
    case More(a, rest) => (w.(script := rest), a)
  }

  function Noted(w: World, d: Deed, a: Answer): World {
    w.(trace := w.trace + [Step(d, a)], end := a.ended)
  }

  /** A call that reports something. */
  function Query(w: World, d: Deed): (World, Answer) {
    var (v, a) := Pull(w);
    (Noted(v, d, a), a)
  }

  /** A call whose report does not matter here. */
  function External(w: World, d: Deed): World {
    Query(w, d).0
  }

  predicate DiedBefore(a: Answer) {
    a.ended.Crash? && !a.yes
  }

  /** A durable write, refused unless `ok`; the process may die before or after it. */
  function Store(w: World, d: Deed, ok: bool, s: Snapshot): World {
    var (v, a) := Pull(w);
    if DiedBefore(a) then Noted(v, d, Answer(Crash, false, 0))
    else if !ok then Noted(v, d, Answer(Raise(WorkerError), false, 0))
    else Noted(v.(s := s), d, Answer(if a.ended.Crash? then Crash else Returned, true, 0))
  }

  /** Whether the source now calls the request obsolete. */
  function SupersessionReason(w: World): (r: (World, bool))
    ensures On(r.0) ==> r.0.script < w.script
  {
    var (v, a) := Query(w, Ask);
    if !On(v) then (v, false) else (v.(s := Called(v.s, Asked(a.yes))), a.yes)
  }

  // ----- The request's row -----

  predicate Claimable(s: State) {
    s == Absent || s == Running || s == Retry
  }

  /** The row holds other contents under this request's name (1), or the lease of its work has not run out (2). */
  predicate Conflicts(s: State, durable: bool, number: int) {
    !durable && number == 1 && (s == Running || s == Retry)
  }

  /** `durable`: the request was read back from the row. `true` when the row is now this cycle's to work on. */
  function ClaimRow(w: World, durable: bool): (World, bool) {
    var (v, a) := Pull(w);
    if DiedBefore(a) then (Noted(v, Claim(durable), Answer(Crash, false, a.number)), false)
    else if Conflicts(w.s.state, durable, a.number) then
      (Noted(v, Claim(durable), Answer(Raise(WorkerError), false, a.number)), false)
    else
      var acquired := Claimable(w.s.state) && !(w.s.state == Running && a.number == 2);
      (Noted(v.(s := if acquired then v.s.(state := Running) else v.s), Claim(durable),
             Answer(if a.ended.Crash? then Crash else Returned, true, a.number)),
       acquired)
  }

  /** Merge into the progress record and renew the lease; only a running row takes it. */
  function Record(w: World, q: Progress): World {
    Store(w, Write(q), w.s.state == Running, Recorded(w.s, q))
  }

  /** Record, then renew the claim at the source. */
  function RecordAndClaim(w: World, q: Progress): World {
    var v := Record(w, q);
    if On(v) then External(v, Renew) else v
  }

  /** `running` back to `retry`. */
  function Release(w: World): World {
    Store(w, Free, true, if w.s.state == Running then w.s.(state := Retry) else w.s)
  }

  function Abort(w: World): World {
    Store(w, Close(Failed), w.s.state == Running, Closed(w.s, Failed, w.s.p.phase))
  }

  /** `terminal`: failed, whatever the row's state is. */
  function Terminal(w: World, phase: Phase): World {
    Store(w, Condemn(phase), true, Closed(w.s, Failed, Some(phase)))
  }

  function FinishRow(w: World): World {
    Store(w, Close(Completing), w.s.state == Running, Closed(w.s, Completing, w.s.p.phase))
  }

  function Delivered(w: World): World {
    Store(w, Mark, w.s.state == Completing, w.s.(state := Done))
  }

  /** Finish with a result, hand it to the source, and mark it delivered. */
  function Deliver(w: World, toleratesApproval: bool): World {
    var v := FinishRow(w);
    if !On(v) then v
    else
      var x := External(v, Complete);
      if On(x) || (toleratesApproval && x.end == Raise(Approval)) then Delivered(Caught(x)) else x
  }

  /** A logged call, and the number it reports. */
  function Call(w: World, e: Event): (r: (World, int))
    ensures On(r.0) ==> r.0.script < w.script
  {
    var (v, a) := Query(w, Logged(e));
    if DiedBefore(a) then (v, 0) else (v.(s := Called(v.s, e)), a.number)
  }

  // ----- Check Runs -----

  /** Close whatever Check Runs are open; `true` when none is left. */
  function CloseChecks(w: World): (World, bool) {
    if !w.s.p.checks || w.s.p.checksClosed then (w, true)
    else
      var v := External(w, ShutChecks);
      if v.end.Crash? || (v.end.Raise? && !CheckFailure(v.end.exn)) then (v, false)
      else
        var closed := On(v);
        var x := Record(Caught(v), WithChecks(w.s.p, if closed then ChecksClosed else ChecksCloseFailed, closed));
        if x.end == Raise(WorkerError) then (Caught(x), false) else (x, closed)
  }

  // ----- Cancellation -----

  function CancelPending(w: World, setup: Setup, accepted: bool): World {
    var (c, a) := Query(w, Clock);
    if !On(c) then c
    else
      var v := Record(c, c.s.p.(phase := Some(CancelRequested), accepted := accepted,
                                nextPoll := Some(a.number + setup.pollInterval)));
      if On(v) then Release(v) else v
  }

  /** Persist the intent, with its deadline, before the idempotent cancel call. */
  function RequestSupersededCancel(w: World, setup: Setup): World {
    var (c, a) := Query(w, Clock);
    if !On(c) then c
    else
      var v := Record(c, c.s.p.(phase := Some(CancelRequesting), deadline := Some(a.number + setup.convergence)));
      if !On(v) then v
      else
        var (x, answer) := Call(v, Cancel);
        if x.end.Crash? || (x.end.Raise? && !GithubFailure(x.end.exn)) then x
        else Record(Caught(x), x.s.p.(phase := Some(CancelRequested), accepted := On(x) && answer != 0,
                                      nextPoll := Some(a.number + setup.pollInterval)))
  }

  /** Keep the phase, note the failure, and let a later cycle try again. */
  function TryLater(w: World): World {
    var v := Record(w, w.s.p);
    if On(v) then Release(v) else v
  }

  /** Finish an escalated timeout without polling or reclassifying it. */
  function ContinueCancelRecovery(w: World): World {
    if w.s.p.recoveryComplete then CloseTimedOut(w)
    else
      var v := External(w, Recover);
      if v.end.Raise? && RecoveryFailure(v.end.exn) then TryLater(Caught(v))
      else if !On(v) then v
      else
        var x := Record(v, v.s.p.(recoveryComplete := true));
        if On(x) then CloseTimedOut(x) else x
  }

  function CloseTimedOut(w: World): World {
    var (v, closed) := CloseChecks(w);
    if !On(v) then v
    else if !closed then Release(v)
    else
      var x := External(v, Tell);
      if On(x) || x.end == Raise(Approval) then Abort(Caught(x)) else x
  }

  /** The cancellation ran out of time: this phase absorbs, and comes before the outcome is written. */
  function CancelNotConverged(w: World): World {
    var v := Record(w, w.s.p.(phase := Some(CancelTimeoutRecording)));
    if !On(v) then v
    else
      var (x, _) := Call(v, Outcome(NotConverged));
      if x.end.Raise? && RecoveryFailure(x.end.exn) then TryLater(Caught(x))
      else if !On(x) then x
      else
        var y := Record(x, x.s.p.(phase := Some(CancelRecoveryPending)));
        if On(y) then ContinueCancelRecovery(y) else y
  }

  /** One step of a requested cancellation, what it saw, and when. */
  function ContinueCancelRequested(w: World, setup: Setup): (World, Sight, int) {
    var p := w.s.p;
    if p.runId.None? || p.runId.value < 1 || (p.jobId.Some? && p.jobId.value < 1) then (Throw(w, WorkerError), Unusable, 0)
    else
      var (c, a) := Query(w, Clock);
      if !On(c) then (c, Unusable, 0)
      else if p.deadline.None? || p.nextPoll.None? then (Throw(c, WorkerError), Unusable, a.number)
      else
        var now, due := a.number, p.deadline.value;
        if now < p.nextPoll.value && now < due then (Release(c), NotDue, now)
        else
          var (v, shape) := Call(c, Poll);
          if v.end.Raise? && GithubFailure(v.end.exn) then
            (if now >= due then CancelNotConverged(Caught(v)) else CancelPending(Caught(v), setup, p.accepted),
             PollFailed, now)
          else if !On(v) then (v, Unusable, now)
          else if shape == 0 then
            (if now >= due then CancelNotConverged(v) else AskAgain(v, setup), Nonterminal, now)
          else if shape == 1 then (CloseCancelled(v), TerminalRun, now)
          else (Throw(v, WorkerError), Unusable, now)
  }

  /** The run has not ended: repeat the cancel call unless it was accepted. */
  function AskAgain(w: World, setup: Setup): World {
    if w.s.p.accepted then CancelPending(w, setup, true)
    else
      var (v, answer) := Call(w, Cancel);
      if v.end.Crash? || (v.end.Raise? && !GithubFailure(v.end.exn)) then v
      else CancelPending(Caught(v), setup, On(v) && answer != 0)
  }

  /** The cancelled run has ended: record why, clean up, publish, deliver. */
  function CloseCancelled(w: World): World {
    var v := if w.s.p.jobId.None? then Settle(w) else FinishRun(w);
    if !On(v) then v
    else
      var (x, closed) := CloseChecks(v);
      if !On(x) then x else if closed then Deliver(x, true) else Release(x)
  }

  // ----- The terminal monitor -----

  /** What ends the allocation: its exact job's clean-up and proof, or a recovery when no job was observed. */
  function Cleanup(p: Progress): Deed {
    if p.jobId.None? then Recover else Clean
  }

  /** Record the outcome, then clean the allocation up. */
  function Settle(w: World): World {
    var (v, _) := Call(w, Outcome(OtherCause));
    if On(v) then External(v, Cleanup(w.s.p)) else v
  }

  /** Poll an ended run until its job proves the end, then settle. */
  function FinishRun(w: World): World
    decreases w.script
  {
    var (v, shape) := Call(w, Poll);
    if !On(v) then v
    else if shape == 1 then Settle(v)
    else if shape == 0 then FinishRun(v)
    else Throw(v, Pilot)
  }

  /** Watch the run: settle when it ends (`true`), or request its cancellation and yield when it is superseded. A poll
      shows a run that has ended (1), a job that has ended before its run (2), a run at work (0), or something invalid. */
  function Monitor(w: World, setup: Setup): (World, bool)
    decreases w.script, 1
  {
    var (v, shape) := Call(w, Poll);
    if !On(v) then (v, false)
    else if shape == 1 then (Settle(v), true)
    else if shape == 2 then OutOfTimeOr(v, setup)
    else if shape != 0 then (Throw(v, Pilot), false)
    else
      var (x, reason) := SupersessionReason(v);
      if !On(x) then (x, false)
      else if reason then (RequestSupersededCancel(x, setup), false)
      else OutOfTimeOr(x, setup)
  }

  /** The clock of the monitor: settle when its time is up, look again otherwise. */
  function OutOfTimeOr(w: World, setup: Setup): (World, bool)
    decreases w.script, 0
  {
    var (v, a) := Query(w, Timer);
    if !On(v) then (v, false) else if a.yes then (Settle(v), true) else Monitor(v, setup)
  }

  // ----- Closing without a run -----

  /** Report the checks of an assignment that never opened any as discarded; `true` when that is still pending. */
  function ReportDiscarded(w: World): (World, bool)
    decreases w.script
  {
    var (v, a) := Query(w, Report);
    if v.end.Raise? && CheckFailure(v.end.exn) then (Caught(v), true)
    else if !On(v) then (v, false)
    else if !a.yes then (v, false)
    else
      var x := Record(v, v.s.p.(phase := Some(DiscardReporting)));
      if On(x) then ReportDiscarded(x) else (x, false)
  }

  /** The request is obsolete: cancel its run, or report, clean and deliver it. */
  function CompleteSuperseded(w: World, setup: Setup): World {
    if w.s.p.runId.Some? then
      var v := RequestSupersededCancel(w, setup);
      if On(v) then Release(v) else v
    else if w.s.p.checks then
      var (v, closed) := CloseChecks(w);
      if On(v) then FinishSuperseded(v, !closed) else v
    else
      var (v, pending) := ReportDiscarded(w);
      if On(v) then FinishSuperseded(v, pending) else v
  }

  function FinishSuperseded(w: World, pending: bool): World {
    var (v, _) := Call(w, Outcome(OtherCause));
    if !On(v) then v
    else
      var x := if v.s.p.reserved then External(v, Recover) else v;
      if !On(x) then x else if pending then Release(x) else Deliver(x, true)
  }

  /** Release, and go on with the exception at hand. */
  function ReleaseAndThrow(w: World, e: Exn): World {
    var v := Release(w);
    if On(v) then Throw(v, e) else v
  }

  /** Nothing was dispatched, or what was is beyond use: clean up and fail the request for good. */
  function TerminalReconcile(w: World): World {
    var started := w.s.p.phase.Some?;
    var v := External(w, Bind);
    if !On(v) then v
    else
      var x := Record(v, v.s.p.(phase := Some(CleanupRequired)));
      if On(x) then Reconcile(x, started) else x
  }

  function Reconcile(w: World, started: bool): World {
    var (v, _) := CloseChecks(w);
    if !On(v) then v
    else
      var x := if started then External(v, Recover) else v;
      if x.end.Raise? then ReleaseAndThrow(Caught(x), x.end.exn)
      else if !On(x) then x
      else FailReconciled(x)
  }

  function FailReconciled(w: World): World {
    var v := External(w, Tell);
    if v.end.Crash? then v
    else if v.end.Raise? && v.end.exn != Approval then ReleaseAndThrow(Caught(v), v.end.exn)
    else
      var x := Abort(Caught(v));
      if On(x) then Call(x, Outcome(OtherCause)).0 else x
  }

  // ----- The assignment proper -----

  /** Issue the package once, while no run is on record, and authenticate it. */
  function IssuePackage(w: World): World {
    var v := if w.s.p.package || w.s.p.runId.Some? then w
             else
               var x := External(w, Issue);
               if On(x) then Record(x, x.s.p.(phase := Some(PackageIssued), package := true)) else x;
    if On(v) then External(v, Authenticate) else v
  }

  function ReserveAllocation(w: World): World {
    var v := if w.s.p.reserved then w
             else
               var x := External(w, Reserve);
               if On(x) then RecordAndClaim(x, x.s.p.(phase := Some(Reserved), reserved := true)) else x;
    if !On(v) then v
    else
      var (x, a) := Query(v, CheckReserved);
      if On(x) && !a.yes then Throw(x, WorkerError) else x
  }

  /** The one non-idempotent call. `before` is the record as it was read when the assignment was picked up. */
  function DispatchOnce(w: World, before: Progress): World {
    if w.s.p.runId.Some? then w
    else if !MayDispatch(before) then Throw(w, WorkerError)
    else
      var v := RecordAndClaim(w, w.s.p.(phase := Some(Dispatching)));
      if !On(v) then v
      else
        var (x, receipt) := Call(v, Dispatch);
        if !On(x) then x
        else if receipt < 1 then Throw(x, WorkerError)
        else RecordAndClaim(x, x.s.p.(phase := Some(Dispatched), runId := Some(receipt)))
  }

  function ObserveJob(w: World): World {
    var v := if w.s.p.observed then w
             else
               var (x, a) := Query(w, Observe);
               if On(x)
               then RecordAndClaim(x, x.s.p.(phase := Some(Observed), jobId := Some(a.number), observed := true))
               else x;
    if !On(v) then v
    else
      var (x, a) := Query(v, CheckJob);
      if !On(x) then x else if !a.yes then Throw(x, WorkerError) else RecordWindow(x)
  }

  /** A version-two reservation needs a claim window on record before anything is signed for it. */
  function RecordWindow(w: World): World {
    var (v, a) := Query(w, Window);
    if On(v) && a.yes && !v.s.p.window
    then RecordAndClaim(v, v.s.p.(phase := Some(AllocationWindow), window := true))
    else v
  }

  /** Open the pull request's Check Runs, best effort. */
  function OpenChecks(w: World): World {
    if w.s.p.checks then w
    else
      var v := External(w, StartChecks);
      if v.end.Raise? && CheckFailure(v.end.exn) then Caught(v)
      else if On(v) then RecordAndClaim(v, v.s.p.(phase := Some(ChecksOpen), checks := true))
      else v
  }

  /** Sign and finalize, unless a finalize receipt is on record. */
  function FinalizeOnce(w: World): World {
    if w.s.p.finalized then w
    else
      var v := External(w, Sign);
      if !On(v) then v
      else
        var (x, exact) := Call(v, Finalize);
        if !On(x) then x
        else if exact != 0 then Throw(x, WorkerError)
        else RecordAndClaim(x, x.s.p.(phase := Some(Finalized), finalized := true))
  }

  /** Watch the run to its end, publish, and deliver the result. */
  function WatchAndDeliver(w: World, setup: Setup): World {
    var (v, settled) :=
      if w.s.p.jobId.None? || w.s.p.jobId.value < 1 then (Throw(w, Pilot), false) else Monitor(w, setup);
    if v.end == Raise(Transport) then Release(Caught(v))
    else if !On(v) then v
    else if !settled then Release(v)
    else
      var (x, closed) := CloseChecks(v);
      if !On(x) then x else if closed then Deliver(x, false) else Release(x)
  }

  /** Everything after the package: reserve, dispatch, observe, finalize, watch. */
  function Drive(w: World, setup: Setup): World {
    var v := ReserveAllocation(w);
    if !On(v) then v
    else
      var x := DispatchOnce(v, w.s.p);
      if !On(x) then x
      else
        var y := ObserveJob(x);
        if !On(y) then y else Admit(y, setup)
  }

  function Admit(w: World, setup: Setup): World {
    var v := OpenChecks(w);
    if !On(v) then v
    else
      var (x, reason) := SupersessionReason(v);
      if !On(x) then x
      else if reason then CompleteSuperseded(x, setup)
      else
        var y := FinalizeOnce(x);
        if On(y) then WatchAndDeliver(y, setup) else y
  }

  /** `except Exception` around the assignment: publish, record, and recover as far as the record allows. */
  function FailureHandler(w: World, k: Exn): World {
    var (v, _) := CloseChecks(w);
    if !On(v) then v
    else
      var (x, _) := Call(v, Outcome(OtherCause));
      if !On(x) then x
      else if x.s.p.runId.Some? then
        var y := External(x, Postpone);
        if On(y) then ReleaseAndThrow(y, k) else y
      else if x.s.p.phase == Some(Dispatching) then MarkAmbiguous(x, k)
      else CleanUpAndFail(x, k)
  }

  /** A receipt may be lost: flag it, so that no later cycle dispatches again. */
  function MarkAmbiguous(w: World, k: Exn): World {
    var v := External(w, Recover);
    if v.end.Crash? then v
    else
      var x := RecordAndClaim(Caught(v), v.s.p.(phase := Some(DispatchAmbiguous), ambiguous := true));
      if !On(x) then x
      else
        var y := External(x, Postpone);
        if On(y) then ReleaseAndThrow(y, if v.end.Raise? then v.end.exn else k) else y
  }

  function CleanUpAndFail(w: World, k: Exn): World {
    var v := RecordAndClaim(w, w.s.p.(phase := Some(CleanupRequired)));
    if !On(v) then v
    else
      var x := External(v, Recover);
      if x.end.Crash? then x
      else
        var y := External(Caught(x), if x.end.Raise? then Postpone else Tell);
        if !On(y) then y
        else if x.end.Raise? then ReleaseAndThrow(y, x.end.exn)
        else
          var z := Abort(y);
          if On(z) then Throw(z, k) else z
  }

  predicate IsRouted(phase: Option<Phase>) {
    IsCancel(phase) || phase == Some(CleanupRequired)
  }

  /** The phases of a cancellation, and of a cleanup that is due, come before everything else. */
  function Routed(w: World, setup: Setup): World {
    if w.s.p.phase == Some(CancelRequesting) then
      var (v, answer) := Call(w, Cancel);
      if v.end.Crash? || (v.end.Raise? && !GithubFailure(v.end.exn)) then v
      else CancelPending(Caught(v), setup, On(v) && answer != 0)
    else if w.s.p.phase == Some(CancelTimeoutRecording) then CancelNotConverged(w)
    else if w.s.p.phase == Some(CancelRecoveryPending) then ContinueCancelRecovery(w)
    else if w.s.p.phase == Some(CancelRequested) then ContinueCancelRequested(w, setup).0
    else TerminalReconcile(w)
  }

  /** A delivery that was recorded is made again, and a recorded completion is marked delivered. */
  function Redeliver(w: World): World {
    var v := External(w, Complete);
    if On(v) && v.s.state == Completing then Delivered(v) else v
  }

  /** One cycle's work on the request it was given. */
  function RunAssignment(w: World, setup: Setup, durable: bool): World {
    if !setup.wellFormed then Throw(w, WorkerError)
    else
      var (v, acquired) := ClaimRow(w, durable);
      if !On(v) then v
      else if v.s.state == Completing || v.s.state == Done then Redeliver(v)
      else if !acquired then v
      else if IsRouted(v.s.p.phase) then Routed(v, setup)
      else
        var (x, reason) := SupersessionReason(v);
        if !On(x) then x
        else if reason then CompleteSuperseded(x, setup)
        else Pursue(x, setup)
  }

  /** Resume or claim at the source, take the package, and drive the assignment. */
  function Pursue(w: World, setup: Setup): World {
    var v := External(w, Resume);
    if v.end == Raise(Approval) then TerminalReconcile(Caught(v))
    else if !On(v) then v
    else
      var x := IssuePackage(v);
      if x.end == Raise(Pilot) then TerminalReconcile(Caught(x))
      else if !On(x) then x
      else
        var y := Drive(x, setup);
        if y.end.Raise? && !Contained(y.end.exn) then FailureHandler(Caught(y), y.end.exn) else y
  }

  /** `except (WorkerError, RunnerJitError, JitPilotError, GateCheckError, OSError)`. */
  predicate CleanupFailure(e: Exn) {
    Contained(e) || e == Pilot
  }

  /** Close the checks and recover the allocation, as far as that works, then fail the request at the source. */
  function Retire(w: World): World {
    var (v, _) := CloseChecks(w);
    var x := if On(v) && w.s.p.phase.Some? then External(v, Recover) else v;
    if x.end.Crash? then x
    else
      var y := External(Caught(x), Tell);
      if On(y) && x.end.Raise? && !CleanupFailure(x.end.exn) then Throw(y, x.end.exn) else y
  }

  /** A request that failed is claimed if it never was, and must be the one on record. */
  function Identify(w: World, durable: bool): World {
    if w.s.state == Absent then ClaimRow(w, durable).0
    else if durable then w
    else
      var (v, a) := Pull(w);
      if a.ended.Crash? then Noted(v, Match, Answer(Crash, false, 0))
      else
        var x := Noted(v, Match, Answer(Returned, a.yes, 0));
        if a.yes then Throw(x, Authority) else x
  }

  /** Quarantine the request that failed with `k`: whatever the cleanup does, the row ends failed. */
  function Quarantine(w: World, durable: bool, k: Exn): World {
    var v := Identify(w, durable);
    if !On(v) then v
    else
      var r := Retire(v);
      if r.end.Crash? then r
      else
        var t := Terminal(Caught(r), if k == Temporal then AllocationExpired else AssignmentFailed);
        if !On(t) then t
        else if r.end.Raise? then Throw(t, r.end.exn)
        else if k == Temporal then t
        else Throw(t, k)
  }

  /** The row's own request is picked up again before a new one is polled. */
  predicate ReadBack(s: State) {
    s == Retry || s == Completing
  }

  /** One service cycle. */
  function RunOnce(w: World, setup: Setup): World {
    var durable := ReadBack(w.s.state);
    var v := RunAssignment(w, setup, durable);
    if v.end.Raise? && Contained(v.end.exn) then Quarantine(Caught(v), durable, v.end.exn) else v
  }

  // ----- Whole runs -----

  /** One cycle of a run: whether the worker was restarted before it, and what it was answered. */
  datatype Cycle = Cycle(restarted: bool, script: Script)

  function Restarted(s: Snapshot): Snapshot {
    if s.state == Running then s.(state := Retry) else s
  }

  function AfterCycle(s: Snapshot, setup: Setup, c: Cycle): Snapshot {
    RunOnce(World(if c.restarted then Restarted(s) else s, c.script, Returned, []), setup).s
  }

  const START := Snapshot(Absent, EMPTY, [])

  /** The request after any number of cycles and restarts, each ending anywhere. */
  function Served(setup: Setup, cycles: seq<Cycle>): Snapshot {
    if cycles == [] then START
    else AfterCycle(Served(setup, cycles[..|cycles| - 1]), setup, cycles[|cycles| - 1])
  }
}
