/**
 The protocol of a cycle: what the worker must have done, and been answered, before it does anything more, and how a
 cycle may end. It speaks of the row and of what was done so far only; it knows nothing of how the worker is written.
 */
module PilotProtocol {
  import opened Basics
  import opened PilotLog
  import opened PilotCycle

  /** What matters of a cycle so far. `base` is the row it began with and `s` the row now; the flags say what was done
      and returned in this cycle. */
  datatype Memory = Memory(
    base: Snapshot, s: Snapshot, last: Option<Step>, mine: bool, verdict: Option<bool>, resumed: bool, polls: nat,
    now: int, accepted: Option<bool>, outcome: bool, cleaned: bool, recovered: bool, tried: bool, pending: bool,
    bound: bool, begun: bool, postponed: bool, matched: bool, expired: bool, hurt: bool, upset: bool)

  function Begin(b: Snapshot): Memory {
    Memory(b, b, None, false, None, false, 0, 0, None, false, false, false, false, false, false, false, false, false,
           false, false, false)
  }

  /** The states in which a request is read back from its row, before a new one is polled. */
  predicate Recoverable(s: State) {
    s == Retry || s == Completing
  }

  /** No Check Run is on record as open. */
  predicate NoOpenChecks(p: Progress) {
    !p.checks || p.checksClosed
  }

  // ----- What a step does to the row -----

  /** Only a running row takes a record or is closed, and only a completing one is marked delivered. */
  function Effect(s: Snapshot, st: Step): Snapshot {
    var a := st.answer;
    if DiedBefore(a) then s
    else
      match st.deed
      case Claim(_) =>
        if a.ended.Raise? || !Claimable(s.state) || (s.state == Running && a.number == 2) then s else s.(state := Running)
      case Write(q) => if s.state == Running then Recorded(s, q) else s
      case Free => if s.state == Running then s.(state := Retry) else s
      case Close(to) => if s.state == Running then Closed(s, to, s.p.phase) else s
      case Condemn(phase) => Closed(s, Failed, Some(phase))
      case Mark => if s.state == Completing then s.(state := Done) else s
      case Logged(e) => Called(s, e)
      case Ask => if a.ended.Returned? then Called(s, Asked(a.yes)) else s
      case _ => s
  }

  // ----- What was just answered -----

  predicate Just(m: Memory, d: Deed) {
    m.last.Some? && m.last.value.deed == d && m.last.value.answer.ended.Returned?
  }

  predicate Says(m: Memory, d: Deed, yes: bool) {
    Just(m, d) && m.last.value.answer.yes == yes
  }

  predicate Counts(m: Memory, d: Deed, number: int) {
    Just(m, d) && m.last.value.answer.number == number
  }

  predicate Raised(m: Memory, e: Exn) {
    Fault(m) == Some(e)
  }

  /** The last step did `d` and raised something. */
  predicate Fell(m: Memory, d: Deed) {
    m.last.Some? && m.last.value.deed == d && m.last.value.answer.ended.Raise?
  }

  /** What the last step raised. */
  function Fault(m: Memory): Option<Exn> {
    if m.last.Some? && m.last.value.answer.ended.Raise? then Some(m.last.value.answer.ended.exn) else None
  }

  predicate Did(m: Memory, d: Deed) {
    m.last.Some? && m.last.value.deed == d
  }

  predicate Phased(m: Memory, phase: Phase) {
    m.s.p.phase == Some(phase)
  }

  predicate JustWrote(m: Memory) {
    m.last.Some? && m.last.value.deed.Write? && m.last.value.answer.ended.Returned?
  }

  predicate Renewed(m: Memory, phase: Phase) {
    Just(m, Renew) && Phased(m, phase)
  }

  predicate Claimed(m: Memory) {
    m.last.Some? && m.last.value.deed.Claim? && m.last.value.answer.ended.Returned?
  }

  /** The row was just claimed, and is this cycle's to work on. */
  predicate Fresh(m: Memory) {
    Claimed(m) && m.mine
  }

  predicate Cleared(m: Memory) {
    Just(m, Ask) && m.verdict == Some(false)
  }

  predicate Refused(m: Memory) {
    Just(m, Ask) && m.verdict == Some(true)
  }

  const OUTCOME := Logged(Outcome(OtherCause))

  // ----- Stages of an assignment -----

  predicate HasRun(m: Memory) {
    (Says(m, CheckReserved, true) && m.s.p.runId.Some?) || Renewed(m, Dispatched)
  }

  predicate WindowSet(m: Memory) {
    (Just(m, Window) && (m.last.value.answer.yes ==> m.s.p.window)) || Renewed(m, AllocationWindow)
  }

  predicate ChecksSeenTo(m: Memory) {
    (WindowSet(m) && m.s.p.checks) || Renewed(m, ChecksOpen) || (Fell(m, StartChecks) && CheckFailure(Fault(m).value))
  }

  predicate SetToWatch(m: Memory) {
    (Cleared(m) && m.resumed && m.polls == 0 && m.s.p.finalized) || Renewed(m, Finalized)
  }

  predicate KnownIds(p: Progress) {
    p.runId.Some? && p.runId.value >= 1 && (p.jobId.Some? ==> p.jobId.value >= 1)
  }

  predicate InTime(m: Memory) {
    m.s.p.deadline.Some? && m.now < m.s.p.deadline.value
  }

  predicate PollDue(m: Memory) {
    m.s.p.deadline.Some? && m.s.p.nextPoll.Some? && (m.now >= m.s.p.nextPoll.value || m.now >= m.s.p.deadline.value)
  }

  predicate PollEarly(m: Memory) {
    m.s.p.deadline.Some? && m.s.p.nextPoll.Some? && m.now < m.s.p.nextPoll.value && m.now < m.s.p.deadline.value
  }

  /** A poll failed or showed a run still at work, in the one poll of a requested cancellation. */
  predicate StillRunning(m: Memory) {
    Phased(m, CancelRequested) && m.polls == 1 && !m.cleaned
    && (Counts(m, Logged(Poll), 0) || (Fell(m, Logged(Poll)) && GithubFailure(Fault(m).value)))
  }

  predicate CancelAnswered(m: Memory) {
    Just(m, Logged(Cancel)) || (Fell(m, Logged(Cancel)) && GithubFailure(Fault(m).value))
  }

  /** The allocation of an ended run is gone: its clean-up was proved, or without a job it was recovered. */
  predicate Settled(m: Memory) {
    m.outcome && (m.cleaned || (Phased(m, CancelRequested) && m.s.p.jobId.None? && m.recovered))
  }

  /** A discard without a run: reported as far as that went, its allocation recovered. */
  predicate DiscardSettled(m: Memory) {
    m.outcome && m.verdict == Some(true) && m.s.p.runId.None? && (m.s.p.reserved ==> m.recovered)
  }

  // ----- Failures -----

  /** The worker's own check that fails on what was just answered. */
  function Flaw(setup: Setup, m: Memory): Option<Exn> {
    if m.last.None? then if setup.wellFormed then None else Some(WorkerError)
    else if !m.last.value.answer.ended.Returned? then None
    else
      var p, a := m.s.p, m.last.value.answer;
      match m.last.value.deed
      case Claim(_) => if m.mine && Phased(m, CancelRequested) && !KnownIds(p) then Some(WorkerError) else None
      case CheckReserved => if !a.yes || (p.runId.None? && !MayDispatch(p)) then Some(WorkerError) else None
      case CheckJob => if a.yes then None else Some(WorkerError)
      case Clock =>
        if Phased(m, CancelRequested) && m.polls == 0 && (p.deadline.None? || p.nextPoll.None?) then Some(WorkerError)
        else None
      case Match => if a.yes then Some(Authority) else None
      case Logged(Dispatch) => if a.number < 1 then Some(WorkerError) else None
      case Logged(Finalize) => if a.number != 0 then Some(WorkerError) else None
      case Logged(Poll) =>
        if a.number == 0 || a.number == 1 || (a.number == 2 && !Phased(m, CancelRequested)) then None
        else Some(if Phased(m, CancelRequested) && m.polls == 1 then WorkerError else Pilot)
      case _ => if SetToWatch(m) && (p.jobId.None? || p.jobId.value < 1) then Some(Pilot) else None
  }

  predicate Expired(m: Memory) {
    m.expired || Raised(m, Temporal)
  }

  /** Something the service loop contains went wrong in this cycle. */
  predicate Hurt(setup: Setup, m: Memory) {
    m.hurt || Flaw(setup, m) == Some(WorkerError)
    || (Fault(m).Some? && Contained(Fault(m).value) && Fault(m).value != Temporal)
  }

  /** Something it does not contain went wrong. */
  predicate Upset(setup: Setup, m: Memory) {
    m.upset || (Flaw(setup, m).Some? && Flaw(setup, m) != Some(WorkerError))
    || (Fault(m).Some? && !Contained(Fault(m).value))
  }

  /** `e` was raised, or a check of the worker's own failed with it. */
  predicate Known(setup: Setup, m: Memory, e: Exn) {
    if e == Temporal then Expired(m) else if Contained(e) then Hurt(setup, m) else Upset(setup, m)
  }

  /** Watching the run, GitHub could not be reached: a later cycle resumes the watch. */
  predicate OutOfReach(m: Memory) {
    Raised(m, Transport) && m.resumed && m.polls > 0 && !m.cleaned && m.s.p.runId.Some?
  }

  /** The assignment failed with something that the service loop does not contain. */
  predicate Handling(setup: Setup, m: Memory) {
    m.resumed && Upset(setup, m) && !OutOfReach(m) && !m.bound
  }

  /** The request failed with something contained, and is the one on record. */
  predicate Quarantining(setup: Setup, m: Memory) {
    (Hurt(setup, m) || Expired(m))
    && (Recoverable(m.base.state) || m.matched || (m.base.state == Absent && !setup.wellFormed))
  }

  /** Whatever Check Run was open, closing it was attempted. */
  predicate ClosingTried(m: Memory) {
    NoOpenChecks(m.s.p) || m.tried
  }

  // ----- What may be recorded -----

  /** Each record says what was just answered, and nothing else changes. */
  predicate Earned(setup: Setup, m: Memory, q: Progress) {
    ClosingNote(m, q) || Advances(m, q) || Converges(setup, m, q) || TimesOut(m, q) || GivesUp(setup, m, q)
  }

  /** Records of an assignment on its way. */
  predicate Advances(m: Memory, q: Progress) {
    var p := m.s.p;
    m.last.Some?
    && match q.phase {
         case Some(PackageIssued) => Just(m, Issue) && q == p.(phase := q.phase, package := true)
         case Some(Reserved) => Just(m, Reserve) && q == p.(phase := q.phase, reserved := true)
         case Some(Dispatching) => Says(m, CheckReserved, true) && MayDispatch(p) && q == p.(phase := q.phase)
         case Some(Dispatched) =>
           Just(m, Logged(Dispatch)) && m.last.value.answer.number >= 1
           && q == p.(phase := q.phase, runId := Some(m.last.value.answer.number))
         case Some(Observed) =>
           Just(m, Observe) && q == p.(phase := q.phase, jobId := Some(m.last.value.answer.number), observed := true)
         case Some(AllocationWindow) => Says(m, Window, true) && !p.window && q == p.(phase := q.phase, window := true)
         case Some(ChecksOpen) => Just(m, StartChecks) && q == p.(phase := q.phase, checks := true)
         case Some(Finalized) => Counts(m, Logged(Finalize), 0) && q == p.(phase := q.phase, finalized := true)
         case Some(DiscardReporting) => Says(m, Report, true) && q == p.(phase := q.phase)
         case _ => false
       }
  }

  /** Records of a cancellation: its deadline and its next poll are timed from the clock read last, and whether it was
      accepted is what was answered last. */
  predicate Converges(setup: Setup, m: Memory, q: Progress) {
    var p := m.s.p;
    match q.phase
    case Some(CancelRequesting) =>
      Just(m, Clock) && m.verdict == Some(true) && p.runId.Some?
      && q == p.(phase := q.phase, deadline := Some(m.now + setup.convergence))
    case Some(CancelRequested) =>
      (if m.verdict == Some(true) then Phased(m, CancelRequesting) && CancelAnswered(m)
       else Just(m, Clock)
            && if Phased(m, CancelRequested) then m.polls == 1 else Phased(m, CancelRequesting) && m.accepted.Some?)
      && q == p.(phase := q.phase, nextPoll := Some(m.now + setup.pollInterval),
                 accepted := if m.accepted.Some? then m.accepted.value else p.accepted)
    case _ => false
  }

  /** Records of a cancellation that ran out of time. */
  predicate TimesOut(m: Memory, q: Progress) {
    var p := m.s.p;
    match q.phase
    case Some(CancelTimeoutRecording) =>
      q == p.(phase := q.phase)
      && if Phased(m, CancelRequested) then StillRunning(m) && !InTime(m)
         else Phased(m, CancelTimeoutRecording)
              && (Fresh(m) || (Fell(m, Logged(Outcome(NotConverged))) && RecoveryFailure(Fault(m).value)))
    case Some(CancelRecoveryPending) =>
      (Phased(m, CancelTimeoutRecording) && Just(m, Logged(Outcome(NotConverged))) && q == p.(phase := q.phase))
      || (Phased(m, CancelRecoveryPending)
          && ((Just(m, Recover) && q == p.(recoveryComplete := true))
              || (Fell(m, Recover) && RecoveryFailure(Fault(m).value) && q == p)))
    case _ => false
  }

  /** Records of an assignment that failed. */
  predicate GivesUp(setup: Setup, m: Memory, q: Progress) {
    var p := m.s.p;
    match q.phase
    case Some(CleanupRequired) =>
      (Just(m, Bind) || (Handling(setup, m) && Just(m, OUTCOME) && p.runId.None? && !Phased(m, Dispatching)))
      && q == p.(phase := q.phase)
    case Some(DispatchAmbiguous) =>
      Phased(m, Dispatching) && Did(m, Recover) && q == p.(phase := q.phase, ambiguous := true)
    case _ => false
  }

  predicate ClosingNote(m: Memory, q: Progress) {
    (Just(m, ShutChecks) && q == WithChecks(m.s.p, ChecksClosed, true))
    || ((Fell(m, ShutChecks) && CheckFailure(Fault(m).value)) && q == WithChecks(m.s.p, ChecksCloseFailed, false))
  }

  // ----- When the request may be given back, closed or delivered -----

  /** The request is left for a later cycle. Once its allocation is gone, only a Check Run that could not be closed is a
      reason, or a failure that is due to be retried; before that, a cancellation that is converging or could not be
      finished, a run that cannot be watched, and a discard that could not be reported. */
  predicate MayYield(setup: Setup, m: Memory) {
    (m.s.state == Running && !NoOpenChecks(m.s.p) && m.tried
     && (Settled(m) || (Phased(m, CancelRecoveryPending) && m.s.p.recoveryComplete)))
    || (m.bound && (Fell(m, Recover) || Fell(m, Tell)))
    || Just(m, Postpone)
    || (!Settled(m)
        && ((JustWrote(m) && Phased(m, CancelRequested))
            || (Just(m, Clock) && Phased(m, CancelRequested) && m.polls == 0 && PollEarly(m))
            || (JustWrote(m) && IsTimeout(m.s.p.phase) && (Hurt(setup, m) || Expired(m)))
            || OutOfReach(m)
            || (DiscardSettled(m) && m.pending)))
  }

  /** A result is recorded once the outcome is, the allocation is gone, and no Check Run is open. */
  predicate MayComplete(m: Memory) {
    m.s.state == Running && NoOpenChecks(m.s.p) && (Settled(m) || (DiscardSettled(m) && !m.pending))
  }

  /** The allocation was recovered, in this cycle or on record, or there was nothing on record to recover. */
  predicate Recovered(m: Memory) {
    m.recovered || (m.bound && !m.begun) || (Phased(m, CancelRecoveryPending) && m.s.p.recoveryComplete)
  }

  /** The request fails once its allocation was recovered and the source was told; that it was withdrawn there already is
      good enough, except for a failure of the assignment itself. */
  predicate MayFail(m: Memory) {
    m.s.state == Running && Recovered(m)
    && (Just(m, Tell) || (Did(m, Tell) && Raised(m, Approval) && (m.bound || Phased(m, CancelRecoveryPending))))
    && (Phased(m, CancelRecoveryPending) || Phased(m, CleanupRequired))
  }

  /** The source learns of a failure when the allocation was recovered, if there can be one. */
  predicate MayTell(setup: Setup, m: Memory) {
    (Phased(m, CleanupRequired) && m.bound && ClosingTried(m) && (m.begun ==> Just(m, Recover)))
    || (Phased(m, CancelRecoveryPending) && m.s.p.recoveryComplete && NoOpenChecks(m.s.p))
    || (Phased(m, CleanupRequired) && Just(m, Recover) && Handling(setup, m))
    || (Quarantining(setup, m) && ClosingTried(m)
        && (m.s.p.phase.None? || Did(m, Recover) || Fell(m, ShutChecks)))
  }

  predicate MayRecover(setup: Setup, m: Memory) {
    (Just(m, OUTCOME) && Phased(m, CancelRequested) && m.s.p.jobId.None?)
    || (Just(m, OUTCOME) && m.verdict == Some(true) && m.s.p.runId.None? && m.s.p.reserved)
    || (Phased(m, CleanupRequired) && m.bound && m.begun && ClosingTried(m))
    || (Phased(m, CancelRecoveryPending) && !m.s.p.recoveryComplete && (Fresh(m) || JustWrote(m)))
    || (Handling(setup, m) && ((Just(m, OUTCOME) && Phased(m, Dispatching)) || Renewed(m, CleanupRequired)))
    || (Quarantining(setup, m) && m.s.p.phase.Some?)
  }

  predicate MayShutChecks(setup: Setup, m: Memory) {
    !NoOpenChecks(m.s.p)
    && (Just(m, Clean) || (Just(m, Recover) && Phased(m, CancelRequested))
        || (Phased(m, CancelRecoveryPending) && m.s.p.recoveryComplete)
        || (JustWrote(m) && Phased(m, CleanupRequired) && m.bound)
        || Handling(setup, m) || Quarantining(setup, m))
  }

  // ----- What may be called -----

  predicate MayCall(setup: Setup, m: Memory, e: Event) {
    var p := m.s.p;
    match e
    case Dispatch => Renewed(m, Dispatching)
    case Finalize => Just(m, Sign)
    case Cancel =>
      (Phased(m, CancelRequesting) && (Fresh(m) || JustWrote(m)))
      || (StillRunning(m) && Just(m, Logged(Poll)) && InTime(m) && !p.accepted)
    case Poll =>
      if Phased(m, CancelRequested) then
        (m.polls == 0 && Just(m, Clock) && PollDue(m))
        || (m.polls == 1 && Counts(m, Logged(Poll), 1) && p.jobId.Some?)
        || (m.polls >= 2 && Counts(m, Logged(Poll), 0))
      else (SetToWatch(m) && p.jobId.Some? && p.jobId.value >= 1) || Says(m, Timer, false)
    case Outcome(NotConverged) => JustWrote(m) && Phased(m, CancelTimeoutRecording)
    case Outcome(OtherCause) =>
      (if Phased(m, CancelRequested) then Counts(m, Logged(Poll), 1) && (if p.jobId.None? then m.polls == 1 else m.polls >= 2)
       else Counts(m, Logged(Poll), 1) || Says(m, Timer, true))
      || (m.verdict == Some(true) && p.runId.None? && (Says(m, Report, false) || (Fell(m, Report) && CheckFailure(Fault(m).value))))
      || (Just(m, Close(Failed)) && m.bound)
      || (Handling(setup, m) && ClosingTried(m))
    case _ => false
  }

  /** `d` may come next. */
  predicate Allowed(setup: Setup, m: Memory, d: Deed) {
    var p := m.s.p;
    match d
    case Claim(durable) =>
      m.last.None? && (durable <==> Recoverable(m.base.state)) && (setup.wellFormed || m.base.state == Absent)
    case Write(q) => Earned(setup, m, q)
    case Free => MayYield(setup, m)
    case Close(to) => (to == Completing && MayComplete(m)) || (to == Failed && MayFail(m))
    case Condemn(phase) =>
      Quarantining(setup, m) && Did(m, Tell)
      && ((phase == AllocationExpired && Expired(m)) || (phase == AssignmentFailed && Hurt(setup, m)))
    case Mark =>
      m.s.state == Completing
      && (Just(m, Complete)
          || ((Did(m, Complete) && Raised(m, Approval)) && m.outcome && (p.runId.None? || Phased(m, CancelRequested))))
    case Match => (Hurt(setup, m) || Expired(m)) && m.s.state != Absent && !Recoverable(m.base.state)
    case Logged(e) => MayCall(setup, m, e)
    case Ask => (Fresh(m) && !IsRouted(p.phase)) || ChecksSeenTo(m) || (Counts(m, Logged(Poll), 0) && !Phased(m, CancelRequested))
    case Resume => Cleared(m) && m.polls == 0 && !m.resumed
    case Issue => Just(m, Resume) && !p.package && p.runId.None?
    case Authenticate => (Just(m, Resume) && (p.package || p.runId.Some?)) || (JustWrote(m) && Phased(m, PackageIssued))
    case Reserve => Just(m, Authenticate) && !p.reserved && !m.bound
    case CheckReserved => (Just(m, Authenticate) && p.reserved) || Renewed(m, Reserved)
    case Observe => HasRun(m) && !p.observed
    case CheckJob => (HasRun(m) && p.observed) || Renewed(m, Observed)
    case Window => Says(m, CheckJob, true)
    case StartChecks => WindowSet(m) && !p.checks
    case Renew => JustWrote(m)
    case Sign => Cleared(m) && m.resumed && m.polls == 0 && !p.finalized
    case Clock =>
      (Refused(m) && p.runId.Some?)
      || (m.verdict.None? && CancelAnswered(m) && IsCancel(p.phase))
      || (Fresh(m) && Phased(m, CancelRequested) && KnownIds(p))
      || (StillRunning(m) && InTime(m) && (p.accepted || Fell(m, Logged(Poll))))
    case Timer => !Phased(m, CancelRequested) && (Counts(m, Logged(Poll), 2) || (Cleared(m) && m.polls > 0))
    case ShutChecks => MayShutChecks(setup, m)
    case Report =>
      (Refused(m) || (JustWrote(m) && Phased(m, DiscardReporting) && m.verdict == Some(true))) && p.runId.None? && !p.checks
    case Clean => Just(m, OUTCOME) && p.jobId.Some? && m.polls > 0 && !m.bound && !IsTimeout(p.phase)
    case Recover => MayRecover(setup, m)
    case Bind =>
      m.polls == 0
      && ((Fresh(m) && Phased(m, CleanupRequired)) || (Did(m, Resume) && Raised(m, Approval))
          || ((Did(m, Issue) || Did(m, Authenticate)) && Raised(m, Pilot)))
    case Complete => Just(m, Close(Completing)) || (Claimed(m) && (m.s.state == Completing || m.s.state == Done))
    case Tell => MayTell(setup, m)
    case Postpone =>
      Handling(setup, m)
      && ((Just(m, OUTCOME) && p.runId.Some?) || Renewed(m, DispatchAmbiguous)
          || (Fell(m, Recover) && Phased(m, CleanupRequired)))
  }

  // ----- A cycle -----

  function Next(setup: Setup, m: Memory, st: Step): Memory {
    var a := st.answer;
    var ok := a.ended.Returned?;
    m.(s := Effect(m.s, st), last := Some(st),
       mine := m.mine || (st.deed.Claim? && ok && Claimable(m.s.state) && !(m.s.state == Running && a.number == 2)),
       verdict := if st.deed.Ask? && ok then Some(a.yes) else m.verdict,
       resumed := m.resumed || (st.deed.Resume? && ok),
       polls := if st.deed == Logged(Poll) then m.polls + 1 else m.polls,
       now := if st.deed.Clock? && ok then a.number else m.now,
       accepted := if st.deed == Logged(Cancel) then Some(ok && a.number != 0) else m.accepted,
       outcome := m.outcome || (st.deed == OUTCOME && ok),
       cleaned := m.cleaned || (st.deed.Clean? && ok),
       recovered := m.recovered || (st.deed.Recover? && ok),
       tried := m.tried || st.deed.ShutChecks?,
       pending := m.pending || (st.deed.Report? && !ok),
       bound := m.bound || (st.deed.Bind? && ok),
       begun := if st.deed.Bind? then m.s.p.phase.Some? else m.begun,
       postponed := m.postponed || st.deed.Postpone?,
       matched := m.matched || (st.deed.Match? && ok && !a.yes),
       expired := Expired(m), hurt := Hurt(setup, m), upset := Upset(setup, m))
  }

  /** What matters of the steps `t` from the row `b`. */
  function Recall(setup: Setup, b: Snapshot, t: seq<Step>): Memory {
    if t == [] then Begin(b) else Next(setup, Recall(setup, b, t[..|t| - 1]), t[|t| - 1])
  }

  /** Every step was allowed when it was taken. */
  predicate Honest(setup: Setup, b: Snapshot, t: seq<Step>) {
    t == []
    || (Honest(setup, b, t[..|t| - 1]) && Allowed(setup, Recall(setup, b, t[..|t| - 1]), t[|t| - 1].deed))
  }

  /** How a cycle may end: given back, delivered, failed, refused when it was claimed, or with an exception at hand. */
  predicate MayEnd(setup: Setup, m: Memory, end: Ended) {
    match end
    case Returned =>
      (Just(m, Free) && !m.bound && !m.postponed) || Just(m, Mark) || (Just(m, Complete) && m.s.state == Done)
      || (m.s.state == Failed
          && ((Just(m, OUTCOME) && m.bound) || (Just(m, Close(Failed)) && Phased(m, CancelRecoveryPending))
              || Just(m, Condemn(AllocationExpired))))
      || (Claimed(m) && !m.mine && m.s.state != Completing && m.s.state != Done)
    case Crash => MayStop(setup, m, end)
    case Raise(e) => MayStop(setup, m, end) && !MustCatch(m, e)
  }

  /** The process died in the last step, or an exception is at hand. */
  predicate MayStop(setup: Setup, m: Memory, end: Ended) {
    match end
    case Returned => false
    case Crash => m.last.Some? && m.last.value.answer.ended.Crash?
    case Raise(e) => MayRaise(setup, m, e)
  }

  /** What the last step raised is for the worker to deal with: a failing cancel call or poll of a cancellation, a Check Run
      that cannot be opened, closed or reported, a recovery that can be tried again, and what the source refuses because
      the request was withdrawn there. */
  predicate MustCatch(m: Memory, e: Exn) {
    Raised(m, e)
    && match m.last.value.deed {
         case Logged(Cancel) => GithubFailure(e)
         case Logged(Poll) => Phased(m, CancelRequested) && m.polls == 1 && GithubFailure(e)
         case Logged(Outcome(NotConverged)) => RecoveryFailure(e)
         case ShutChecks => CheckFailure(e)
         case StartChecks => CheckFailure(e)
         case Report => CheckFailure(e)
         case Recover =>
           Phased(m, CleanupRequired) || (Phased(m, Dispatching) && m.resumed)
           || (Phased(m, CancelRecoveryPending) && RecoveryFailure(e))
         case Tell => (Phased(m, CleanupRequired) && m.bound) || (Phased(m, CancelRecoveryPending) && e == Approval)
         case Complete => e == Approval && m.outcome && (m.s.p.runId.None? || Phased(m, CancelRequested))
         case Resume => e == Approval
         case Issue => e == Pilot
         case Authenticate => e == Pilot
         case _ => false
       }
  }

  /** An assignment that the source confirmed, and that fails with something the service loop does not contain, is handled
      first: no exception leaves it before something was done about it. */
  predicate MustHandle(m: Memory, e: Exn) {
    m.resumed && !IsRouted(m.base.p.phase) && !m.bound && !Contained(e) && !m.upset && m.last.Some?
    && var d := m.last.value.deed; !d.Resume? && !d.Issue? && !d.Authenticate? && !d.Match? && !d.Bind?
  }

  predicate MayRaise(setup: Setup, m: Memory, e: Exn) {
    Known(setup, m, e)
    && (Raised(m, e) || Flaw(setup, m) == Some(e) || (Just(m, Free) && (m.bound || m.postponed))
        || (Just(m, Close(Failed)) && Phased(m, CleanupRequired) && !m.bound)
        || (m.last.Some? && m.last.value.deed.Condemn?))
  }
}
