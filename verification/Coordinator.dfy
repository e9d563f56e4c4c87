/**
 One outbound dispatch: reserve, dispatch, observe, sign, finalize, with a hosted fallback.

 What the broker, GitHub, the signer and the progress record answer is an input; what the coordinator does to them, in
 order, is the log it returns.
 */
module Coordinator {
  import opened Basics
  import Decimal
  import Ledger

  datatype ReserveReply = ReserveReply(exactFields: bool, allocationId: string, runner: Ledger.Name, state: string)

  /** How the broker answered `reserve`: a reply, one of its two typed failures, or anything else. */
  datatype ReserveAnswer =
    | Replied(reply: ReserveReply)
    | DefinitelyUnavailable
    | PartialFailure(allocationId: string)
    | ReserveRaised

  /** `recover` replied, exactly or not, or raised. */
  datatype RecoverAnswer = Recovered(allocationId: string, state: string, exactFields: bool) | RecoverRaised

  datatype Job = Job(runId: int, attempt: int, jobId: int, jobName: string, dispatchSha: string)

  datatype Phase = NoPhase | Dispatching | Finalizing | PhaseRecovered | OtherPhase

  /** What an earlier attempt left in the worker's record. */
  datatype Resume = Resume(
    phase: Phase, reserved: Option<ReserveReply>, runId: Option<int>, window: Option<(int, int)>, finalized: bool)

  datatype Note =
    | NoteReserved | NoteDispatching | NoteDispatched(runId: int) | NoteObserved | NoteWindow(issued: int, deadline: int)
    | NoteFinalizing | NoteFinalized | NoteRecovered | NoteAmbiguous

  datatype Effect =
    | Reserve
    | Recover(allocationId: string)
    | DispatchHosted
    | DispatchLocal
    | Observe(runId: int)
    | Sign(payload: Ledger.Payload)
    | Finalize(payload: Ledger.Payload)
    | Record(note: Note)

  /** Everything the surroundings answer. A step named in `raises` raises after its effect. */
  datatype Answers = Answers(
    reserve: ReserveAnswer, recover: RecoverAnswer, localPackageValid: bool, hostedPackageValid: bool,
    receipt: Option<int>, job: Option<Job>, signed: bool, finalized: Option<(string, string)>,
    testedSha: string, clock: int, hasProgress: bool, recordFails: set<Note>, hostedSent: bool)

  datatype Exit = Local(job: Job) | Hosted | Raised

  const CLAIM_TTL := 720

  predicate ProvesAbsence(r: RecoverAnswer, allocationId: string) {
    r == Recovered(allocationId, "absent", true)
  }

  /** The reply is exact and is about this reservation. */
  predicate Sound(r: ReserveReply, reservation: Ledger.Reservation) {
    r.exactFields && r.state == "reserved-disabled"
    && r.allocationId == reservation.identity.allocationId && r.runner == reservation.identity.scaleSetName
  }

  function PayloadTerms(t: Ledger.ReservationTerms, window: (int, int)): Ledger.PayloadTerms {
    match t
    case ReservedV1(issued, expires) => Ledger.SignedV1(issued, expires)
    case ReservedV2(pr, base, approved, until) => Ledger.SignedV2(pr, base, approved, until, window.0, window.1)
  }

  /** What is signed: the reservation, with the run and job that were observed. */
  function PayloadFor(r: Ledger.Reservation, job: Job, testedSha: string, window: (int, int)): Ledger.Payload {
    Ledger.Payload(
      r.identity.(jobName := job.jobName), PayloadTerms(r.terms, window),
      Ledger.Observed(Decimal.IntText(job.runId), job.attempt, Decimal.IntText(job.jobId), job.dispatchSha, testedSha))
  }

  /** The ledger will accept the signed payload's projection exactly when GitHub ran the reserved job name. */
  lemma SignedPayloadProjects(r: Ledger.Reservation, job: Job, testedSha: string, window: (int, int))
    ensures Ledger.Projection(PayloadFor(r, job, testedSha, window)) == r <==> job.jobName == r.identity.jobName
  {
    assert job.jobName == r.identity.jobName ==> r.identity.(jobName := job.jobName) == r.identity;
  }

  // ----- What a log may contain -----

  predicate Dispatches(e: Effect) {
    e.DispatchHosted? || e.DispatchLocal?
  }

  /** No effect of the log creates, changes or reads anything outside the worker's own record. */
  /** At most one dispatch of either kind. */
  predicate DispatchesAtMostOnce(log: seq<Effect>) {
    forall i, j :: 0 <= i < |log| && 0 <= j < |log| && Dispatches(log[i]) && Dispatches(log[j]) ==> i == j
  }

  predicate NoHosted(log: seq<Effect>) {
    forall i :: 0 <= i < |log| ==> !log[i].DispatchHosted?
  }

  predicate NoRecover(log: seq<Effect>) {
    forall i :: 0 <= i < |log| ==> !log[i].Recover?
  }

  predicate NoDispatch(log: seq<Effect>) {
    forall i :: 0 <= i < |log| ==> !Dispatches(log[i])
  }

  /** Every local dispatch directly follows the durable `dispatching` record, if records are kept. */
  predicate IntentFirst(log: seq<Effect>, hasProgress: bool) {
    forall i :: 0 <= i < |log| && log[i].DispatchLocal? && hasProgress ==> i > 0 && log[i - 1] == Record(NoteDispatching)
  }

  /** Whatever is finalized was signed, and nothing is finalized twice. */
  ghost predicate SignedFirst(log: seq<Effect>) {
    forall i :: 0 <= i < |log| && log[i].Finalize? ==>
      (exists j :: 0 <= j < i && log[j] == Sign(log[i].payload))
  }

  /** Nothing is said yet about what became of the dispatch. */
  predicate NoVerdict(log: seq<Effect>) {
    forall i :: 0 <= i < |log| ==> log[i] != Record(NoteAmbiguous) && log[i] != Record(NoteRecovered)
  }

  /** The effects of an attempt that is not being cleaned up. */
  ghost predicate LocalLog(log: seq<Effect>, hasProgress: bool) {
    NoHosted(log) && NoRecover(log) && NoVerdict(log) && DispatchesAtMostOnce(log) && IntentFirst(log, hasProgress)
    && SignedFirst(log)
  }

  lemma Join(a: seq<Effect>, b: seq<Effect>, hasProgress: bool)
    requires LocalLog(a, hasProgress) && LocalLog(b, hasProgress) && (NoDispatch(a) || NoDispatch(b))
    ensures LocalLog(a + b, hasProgress) && (NoDispatch(a) && NoDispatch(b) ==> NoDispatch(a + b))
  {
    var t := a + b;
    assert forall i :: 0 <= i < |a| ==> t[i] == a[i];
    assert forall i :: |a| <= i < |t| ==> t[i] == b[i - |a|];
    forall i | 0 <= i < |t| && t[i].Finalize? ensures exists j :: 0 <= j < i && t[j] == Sign(t[i].payload) {
      if i < |a| {
        var j :| 0 <= j < i && a[j] == Sign(a[i].payload);
        assert t[j] == Sign(t[i].payload);
      } else {
        var j :| 0 <= j < i - |a| && b[j] == Sign(b[i - |a|].payload);
        assert t[j + |a|] == Sign(t[i].payload);
      }
    }
  }

  /** How far a local attempt got, for the handler that cleans up after it. */
  datatype Progress = Progress(job: Option<Job>, ambiguous: bool, resumeRead: bool)

  // ----- What the surroundings' answers make of one dispatch -----

  function Noted(answers: Answers, note: Note): seq<Effect> {
    if answers.hasProgress then [Record(note)] else []
  }

  predicate Writes(answers: Answers, note: Note) {
    answers.hasProgress ==> note !in answers.recordFails
  }

  /** The run an attempt is about, and whether a dispatch was made whose receipt is not on record. */
  function ReceiptOf(answers: Answers, resume: Resume): (seq<Effect>, Option<int>, bool) {
    if resume.runId.Some? then ([], if resume.runId.value > 0 then resume.runId else None, false)
    else if resume.phase == Dispatching then ([], None, false)
    else if !Writes(answers, NoteDispatching) then (Noted(answers, NoteDispatching), None, false)
    else
      var sent := Noted(answers, NoteDispatching) + [DispatchLocal];
      if answers.receipt.None? || answers.receipt.value <= 0 then (sent, None, true)
      else
        var recorded := sent + Noted(answers, NoteDispatched(answers.receipt.value));
        if Writes(answers, NoteDispatched(answers.receipt.value)) then (recorded, answers.receipt, false)
        else (recorded, None, true)
  }

  function WindowOf(answers: Answers, reservation: Ledger.Reservation, resume: Resume): (seq<Effect>, Option<(int, int)>) {
    var now := (answers.clock, answers.clock + CLAIM_TTL);
    if !reservation.terms.ReservedV2? then ([], Some(now))
    else if resume.window.Some? then ([], resume.window)
    else
      var note := NoteWindow(now.0, now.1);
      (Noted(answers, note), if Writes(answers, note) then Some(now) else None)
  }

  function FinalizeOf(answers: Answers, a: string, resume: Resume, payload: Ledger.Payload): (seq<Effect>, bool) {
    if !answers.signed || (resume.phase == Finalizing && !resume.finalized) then ([Sign(payload)], false)
    else
      var announced := [Sign(payload)] + Noted(answers, NoteFinalizing);
      if !Writes(answers, NoteFinalizing) then (announced, false)
      else
        var sent := announced + [Finalize(payload)];
        if answers.finalized != Some((a, "enabled-awaiting-claim")) then (sent, false)
        else (sent + Noted(answers, NoteFinalized), Writes(answers, NoteFinalized))
  }

  function AuthoriseOf(answers: Answers, reservation: Ledger.Reservation, resume: Resume, runId: int)
    : (seq<Effect>, Option<Job>)
  {
    var looked := [Observe(runId)];
    if answers.job.None? || answers.job.value.runId != runId then (looked, None)
    else
      var job := answers.job.value;
      var observed := looked + Noted(answers, NoteObserved);
      if !Writes(answers, NoteObserved) then (observed, None)
      else
        var (window, value) := WindowOf(answers, reservation, resume);
        if value.None? then (observed + window, None)
        else
          var payload := PayloadFor(reservation, job, answers.testedSha, value.value);
          var (signed, ok) := FinalizeOf(answers, reservation.identity.allocationId, resume, payload);
          (observed + window + signed, if ok then Some(job) else None)
  }

  function AttemptOf(answers: Answers, reservation: Ledger.Reservation, resume: Resume): (seq<Effect>, Progress) {
    if !answers.localPackageValid then ([], Progress(None, false, false))
    else
      var (receipt, runId, ambiguous) := ReceiptOf(answers, resume);
      if runId.None? then (receipt, Progress(None, ambiguous, true))
      else
        var (authorised, job) := AuthoriseOf(answers, reservation, resume, runId.value);
        (receipt + authorised, Progress(job, ambiguous, true))
  }

  /** What the handler writes once the allocation is proved absent. Naming the resumed run id raises, and nothing is
      written, when the package was refused before that id was read. */
  function Tail(answers: Answers, a: string, resume: Resume, p: Progress): seq<Effect> {
    if !ProvesAbsence(answers.recover, a) then [Recover(a)]
    else if p.ambiguous then [Recover(a)] + Noted(answers, NoteAmbiguous)
    else if resume.phase != Dispatching then [Recover(a)] + Noted(answers, NoteRecovered)
    else if !p.resumeRead then [Recover(a)]
    else [Recover(a)] + Noted(answers, if resume.runId.None? then NoteAmbiguous else NoteRecovered)
  }

  function FallbackOf(answers: Answers, a: string): (seq<Effect>, Exit) {
    if answers.reserve == DefinitelyUnavailable then HostedOf(answers, [])
    else if answers.reserve != PartialFailure(a) then ([], Raised)
    else if !ProvesAbsence(answers.recover, a) then ([Recover(a)], Raised)
    else HostedOf(answers, [Recover(a)])
  }

  function HostedOf(answers: Answers, before: seq<Effect>): (seq<Effect>, Exit) {
    if !answers.hostedPackageValid then (before, Raised)
    else (before + [DispatchHosted], if answers.hostedSent then Hosted else Raised)
  }

  function WithReplyOf(answers: Answers, reply: ReserveReply, reservation: Ledger.Reservation, resume: Resume)
    : (seq<Effect>, Exit)
  {
    if !Sound(reply, reservation) then ([], Raised)
    else
      var noted := Noted(answers, NoteReserved);
      if !Writes(answers, NoteReserved) then (noted, Raised)
      else
        var (tried, p) := AttemptOf(answers, reservation, resume);
        if p.job.Some? then (noted + tried, Local(p.job.value))
        else (noted + tried + Tail(answers, reservation.identity.allocationId, resume, p), Raised)
  }

  /** The whole dispatch: its effects in order, and how it leaves. */
  function DispatchOf(answers: Answers, reservation: Ledger.Reservation, resume: Resume): (seq<Effect>, Exit) {
    if Reserves(resume) then
      if !answers.reserve.Replied? then
        var (effects, exit) := FallbackOf(answers, reservation.identity.allocationId);
        ([Reserve] + effects, exit)
      else
        var (effects, exit) := WithReplyOf(answers, answers.reserve.reply, reservation, resume);
        ([Reserve] + effects, exit)
    else WithReplyOf(answers, resume.reserved.value, reservation, resume)
  }

  /** A recorded reservation is taken up, unless a recovery has since undone it. */
  predicate Reserves(resume: Resume) {
    resume.reserved.None? || resume.phase == PhaseRecovered
  }

  // ----- What an attempt does -----

  /** A dispatch is made whose receipt does not come back valid, or cannot be recorded. */
  predicate LosesReceipt(answers: Answers, resume: Resume) {
    resume.runId.None? && resume.phase != Dispatching && Writes(answers, NoteDispatching)
    && (answers.receipt.None? || answers.receipt.value <= 0 || !Writes(answers, NoteDispatched(answers.receipt.value)))
  }

  /** A dispatch is made exactly when no run and no ambiguous dispatch is on record and the intent can be recorded; it
      is ambiguous exactly when it was made and left no receipt on record. */
  lemma ReceiptFacts(answers: Answers, resume: Resume)
    ensures var (effects, runId, ambiguous) := ReceiptOf(answers, resume);
      LocalLog(effects, answers.hasProgress)
      && (!NoDispatch(effects) <==>
            resume.runId.None? && resume.phase != Dispatching && Writes(answers, NoteDispatching))
      && (ambiguous <==> LosesReceipt(answers, resume)) && (ambiguous <==> !NoDispatch(effects) && runId.None?)
      && (runId.Some? ==> runId.value > 0)
      && (runId.Some? ==>
            if resume.runId.Some? then runId == resume.runId
            else runId == answers.receipt
                 && (answers.hasProgress ==> effects[|effects| - 1] == Record(NoteDispatched(runId.value))))
  {
    hide Noted;
    var (effects, runId, ambiguous) := ReceiptOf(answers, resume);
    NotedFacts(answers, NoteDispatching);
    if resume.runId.None? && resume.phase != Dispatching && Writes(answers, NoteDispatching) {
      assert effects[|Noted(answers, NoteDispatching)|] == DispatchLocal;
    }
    if answers.receipt.Some? { NotedFacts(answers, NoteDispatched(answers.receipt.value)); }
  }

  lemma NotedFacts(answers: Answers, note: Note)
    requires note != NoteAmbiguous && note != NoteRecovered
    ensures LocalLog(Noted(answers, note), answers.hasProgress) && NoDispatch(Noted(answers, note))
    ensures Noted(answers, note) == (if answers.hasProgress then [Record(note)] else [])
  {
  }

  lemma WindowFacts(answers: Answers, reservation: Ledger.Reservation, resume: Resume)
    ensures var (effects, window) := WindowOf(answers, reservation, resume);
      LocalLog(effects, answers.hasProgress) && NoDispatch(effects)
      && (window.Some? && reservation.terms.ReservedV2? ==>
            if resume.window.Some? then window == resume.window
            else window.value.1 == window.value.0 + CLAIM_TTL
                 && (answers.hasProgress ==> Record(NoteWindow(window.value.0, window.value.1)) in effects))
  {
  }

  /** Nothing is finalized that was not signed, nor after an earlier finalize whose receipt is unknown. */
  lemma FinalizeFacts(answers: Answers, a: string, resume: Resume, payload: Ledger.Payload)
    ensures var (effects, ok) := FinalizeOf(answers, a, resume, payload);
      LocalLog(effects, answers.hasProgress) && NoDispatch(effects)
      && (Finalize(payload) in effects ==> answers.signed && (resume.phase == Finalizing ==> resume.finalized))
      && (ok ==> Finalize(payload) in effects && answers.finalized == Some((a, "enabled-awaiting-claim")))
  {
    hide LocalLog, Noted;
    var (effects, ok) := FinalizeOf(answers, a, resume, payload);
    SignedAlone(payload, answers.hasProgress);
    NotedFacts(answers, NoteFinalizing);
    Join([Sign(payload)], Noted(answers, NoteFinalizing), answers.hasProgress);
    var announced := [Sign(payload)] + Noted(answers, NoteFinalizing);
    assert announced[0] == Sign(payload);
    ThenFinalize(announced, payload, answers.hasProgress);
    NotedFacts(answers, NoteFinalized);
    Join(announced + [Finalize(payload)], Noted(answers, NoteFinalized), answers.hasProgress);
    assert (announced + [Finalize(payload)])[|announced|] == Finalize(payload);
  }

  lemma SignedAlone(payload: Ledger.Payload, hasProgress: bool)
    ensures LocalLog([Sign(payload)], hasProgress) && NoDispatch([Sign(payload)])
  {
  }

  lemma ThenFinalize(log: seq<Effect>, payload: Ledger.Payload, hasProgress: bool)
    requires LocalLog(log, hasProgress) && NoDispatch(log) && log != [] && log[0] == Sign(payload)
    ensures LocalLog(log + [Finalize(payload)], hasProgress) && NoDispatch(log + [Finalize(payload)])
  {
    var t := log + [Finalize(payload)];
    assert forall i :: 0 <= i < |log| ==> t[i] == log[i];
    forall i | 0 <= i < |t| && t[i].Finalize? ensures exists j :: 0 <= j < i && t[j] == Sign(t[i].payload) {
      if i < |log| {
        var j :| 0 <= j < i && log[j] == Sign(log[i].payload);
        assert t[j] == Sign(t[i].payload);
      } else {
        assert t[0] == Sign(payload);
      }
    }
  }

  lemma AuthoriseFacts(answers: Answers, reservation: Ledger.Reservation, resume: Resume, runId: int)
    ensures var (effects, job) := AuthoriseOf(answers, reservation, resume, runId);
      LocalLog(effects, answers.hasProgress) && NoDispatch(effects) && (job.Some? ==> job.value.runId == runId)
  {
    hide LocalLog, Noted, WindowOf, FinalizeOf;
    var looked := [Observe(runId)];
    assert LocalLog(looked, answers.hasProgress) && NoDispatch(looked) by { ObservedAlone(runId, answers.hasProgress); }
    NotedFacts(answers, NoteObserved);
    Join(looked, Noted(answers, NoteObserved), answers.hasProgress);
    var observed := looked + Noted(answers, NoteObserved);
    WindowFacts(answers, reservation, resume);
    var (window, value) := WindowOf(answers, reservation, resume);
    Join(observed, window, answers.hasProgress);
    if answers.job.Some? && value.Some? {
      var payload := PayloadFor(reservation, answers.job.value, answers.testedSha, value.value);
      FinalizeFacts(answers, reservation.identity.allocationId, resume, payload);
      Join(observed + window, FinalizeOf(answers, reservation.identity.allocationId, resume, payload).0, answers.hasProgress);
    }
  }

  lemma ObservedAlone(runId: int, hasProgress: bool)
    ensures LocalLog([Observe(runId)], hasProgress) && NoDispatch([Observe(runId)])
  {
  }

  lemma AttemptFacts(answers: Answers, reservation: Ledger.Reservation, resume: Resume)
    ensures var (effects, p) := AttemptOf(answers, reservation, resume);
      LocalLog(effects, answers.hasProgress)
      && (!NoDispatch(effects) ==> resume.runId.None? && resume.phase != Dispatching && answers.localPackageValid)
      && (p.ambiguous <==> answers.localPackageValid && LosesReceipt(answers, resume))
      && (p.resumeRead <==> answers.localPackageValid)
  {
    hide LocalLog, ReceiptOf, AuthoriseOf, LosesReceipt;
    ReceiptFacts(answers, resume);
    assert NoDispatch([]) && LocalLog([], answers.hasProgress) by { EmptyIsLocal(answers.hasProgress); }
    var (receipt, runId, ambiguous) := ReceiptOf(answers, resume);
    if runId.Some? {
      AuthoriseFacts(answers, reservation, resume, runId.value);
      Join(receipt, AuthoriseOf(answers, reservation, resume, runId.value).0, answers.hasProgress);
    }
  }

  lemma EmptyIsLocal(hasProgress: bool)
    ensures LocalLog([], hasProgress) && NoDispatch([]) && LocalLog([Reserve], hasProgress) && NoDispatch([Reserve])
  {
  }

  // ----- What the handler writes -----

  /** The note that says what became of an attempt, if the allocation was proved absent. */
  function FinalNote(answers: Answers, resume: Resume): Option<Note> {
    if !answers.hasProgress || (!answers.localPackageValid && resume.phase == Dispatching) then None
    else if answers.localPackageValid
            && (LosesReceipt(answers, resume) || (resume.phase == Dispatching && resume.runId.None?))
    then Some(NoteAmbiguous)
    else Some(NoteRecovered)
  }

  /** Recovery, and the note if there is one to write. */
  function CleaningUp(answers: Answers, a: string, resume: Resume): seq<Effect> {
    var note := FinalNote(answers, resume);
    [Recover(a)] + if ProvesAbsence(answers.recover, a) && note.Some? then [Record(note.value)] else []
  }

  lemma TailFacts(answers: Answers, reservation: Ledger.Reservation, resume: Resume)
    ensures Tail(answers, reservation.identity.allocationId, resume, AttemptOf(answers, reservation, resume).1)
      == CleaningUp(answers, reservation.identity.allocationId, resume)
  {
    hide AttemptOf, LosesReceipt, ProvesAbsence;
    AttemptFacts(answers, reservation, resume);
    if LosesReceipt(answers, resume) { LostReceiptHasNoRun(answers, resume); }
  }

  lemma LostReceiptHasNoRun(answers: Answers, resume: Resume)
    requires LosesReceipt(answers, resume)
    ensures resume.runId.None? && resume.phase != Dispatching
  {
  }

  // ----- What each exit promises -----

  /** A hosted package went out only because `reserve` had no durable effect, or its absence was then proved. */
  predicate FallbackJustified(log: seq<Effect>, answers: Answers, reservation: Ledger.Reservation) {
    var a := reservation.identity.allocationId;
    (log == [Reserve, DispatchHosted] && answers.reserve == DefinitelyUnavailable)
    || (log == [Reserve, Recover(a), DispatchHosted] && answers.reserve == PartialFailure(a)
        && ProvesAbsence(answers.recover, a))
  }

  /** The reply was accepted and recorded, so the allocation is now this attempt's to clean up. */
  predicate Accepted(answers: Answers, reservation: Ledger.Reservation, resume: Resume) {
    var reply := if Reserves(resume) then (if answers.reserve.Replied? then Some(answers.reserve.reply) else None)
                 else resume.reserved;
    reply.Some? && Sound(reply.value, reservation) && Writes(answers, NoteReserved)
  }

  /** An attempt without recovery, then recovery and the one note that is due. */
  ghost predicate CleanedUp(log: seq<Effect>, answers: Answers, a: string, resume: Resume) {
    exists tried :: LocalLog(tried, answers.hasProgress) && log == tried + CleaningUp(answers, a, resume)
  }

  /** Leaving by exception: an accepted allocation has been put through recovery, and so has one that `reserve` half
      made. A reply that was refused, or could not be recorded, has not: the worker's own handler has to do that. */
  ghost predicate RaiseJustified(log: seq<Effect>, answers: Answers, reservation: Ledger.Reservation, resume: Resume) {
    var a := reservation.identity.allocationId;
    if Accepted(answers, reservation, resume) then CleanedUp(log, answers, a, resume)
    else if Reserves(resume) && answers.reserve == PartialFailure(a) then
      log == [Reserve, Recover(a)] || log == [Reserve, Recover(a), DispatchHosted]
    else NoRecover(log) && (NoDispatch(log) || log == [Reserve, DispatchHosted])
  }

  // ----- What one dispatch does -----

  /** The attempt behind a reply that was accepted. */
  lemma WithReplyFacts(answers: Answers, before: seq<Effect>, reply: ReserveReply, reservation: Ledger.Reservation,
                       resume: Resume)
    returns (tried: seq<Effect>)
    requires before == [] || before == [Reserve]
    ensures LocalLog(tried, answers.hasProgress)
    ensures !NoDispatch(tried) ==> resume.runId.None? && resume.phase != Dispatching
    ensures var (effects, exit) := WithReplyOf(answers, reply, reservation, resume);
      exit != Hosted
      && (exit.Local? ==> before + effects == tried)
      && (exit == Raised ==>
            if Sound(reply, reservation) && Writes(answers, NoteReserved)
            then before + effects == tried + CleaningUp(answers, reservation.identity.allocationId, resume)
            else before + effects == tried && NoDispatch(tried))
  {
    hide LocalLog, AttemptOf, CleaningUp, Tail, Noted, Sound, NoDispatch;
    EmptyIsLocal(answers.hasProgress);
    var noted := Noted(answers, NoteReserved);
    NotedFacts(answers, NoteReserved);
    Join(before, noted, answers.hasProgress);
    if !Sound(reply, reservation) {
      tried := before;
    } else if !Writes(answers, NoteReserved) {
      tried := before + noted;
    } else {
      AttemptFacts(answers, reservation, resume);
      TailFacts(answers, reservation, resume);
      var (effects, p) := AttemptOf(answers, reservation, resume);
      Join(before + noted, effects, answers.hasProgress);
      tried := before + noted + effects;
      DispatchIsIn(before + noted, effects);
      assert before + (noted + effects) == tried;
      var tail := Tail(answers, reservation.identity.allocationId, resume, p);
      assert before + (noted + effects + tail) == tried + tail;
    }
  }

  lemma DispatchIsIn(a: seq<Effect>, b: seq<Effect>)
    requires NoDispatch(a)
    ensures NoDispatch(b) ==> NoDispatch(a + b)
  {
  }

  /** What an attempt leaves behind when it is cleaned up. */
  lemma CleanedUpFacts(tried: seq<Effect>, answers: Answers, a: string, resume: Resume)
    requires LocalLog(tried, answers.hasProgress)
    ensures var log := tried + CleaningUp(answers, a, resume);
      NoHosted(log) && DispatchesAtMostOnce(log) && IntentFirst(log, answers.hasProgress) && SignedFirst(log)
      && (Record(NoteAmbiguous) in log <==>
            ProvesAbsence(answers.recover, a) && FinalNote(answers, resume) == Some(NoteAmbiguous))
      && (Record(NoteRecovered) in log <==>
            ProvesAbsence(answers.recover, a) && FinalNote(answers, resume) == Some(NoteRecovered))
      && (!NoDispatch(log) ==> !NoDispatch(tried))
  {
    hide ProvesAbsence, FinalNote, LosesReceipt;
    var log := tried + CleaningUp(answers, a, resume);
    assert forall i :: 0 <= i < |tried| ==> log[i] == tried[i];
    assert forall i :: |tried| <= i < |log| ==> log[i] == CleaningUp(answers, a, resume)[i - |tried|];
    FinalNoteIs(answers, resume);
    if ProvesAbsence(answers.recover, a) && FinalNote(answers, resume).Some? {
      assert log[|tried| + 1] == Record(FinalNote(answers, resume).value);
    }
    forall i | 0 <= i < |log| && log[i].Finalize? ensures exists j :: 0 <= j < i && log[j] == Sign(log[i].payload) {
      var j :| 0 <= j < i && tried[j] == Sign(tried[i].payload);
      assert log[j] == Sign(log[i].payload);
    }
  }

  lemma FinalNoteIs(answers: Answers, resume: Resume)
    ensures var n := FinalNote(answers, resume); n == None || n == Some(NoteAmbiguous) || n == Some(NoteRecovered)
  {
  }

  /** At most one dispatch of either kind, made after its intent and only when none is on record; a hosted one only
      with justification; what is finalized was signed; and every exit by exception is justified. */
  lemma DispatchFacts(answers: Answers, reservation: Ledger.Reservation, resume: Resume)
    ensures var (log, exit) := DispatchOf(answers, reservation, resume); Outcome(log, exit, answers, reservation, resume)
  {
    hide LocalLog, WithReplyOf, CleaningUp, Sound;
    EmptyIsLocal(answers.hasProgress);
    var (log, exit) := DispatchOf(answers, reservation, resume);
    if !Reserves(resume) {
      var tried := WithReplyFacts(answers, [], resume.reserved.value, reservation, resume);
      var (effects, e) := WithReplyOf(answers, resume.reserved.value, reservation, resume);
      assert [] + effects == effects;
      RepliedOutcome(tried, log, exit, answers, reservation, resume);
    } else if answers.reserve.Replied? {
      var tried := WithReplyFacts(answers, [Reserve], answers.reserve.reply, reservation, resume);
      RepliedOutcome(tried, log, exit, answers, reservation, resume);
    }
  }

  ghost predicate Outcome(log: seq<Effect>, exit: Exit, answers: Answers, reservation: Ledger.Reservation, resume: Resume) {
    DispatchesAtMostOnce(log) && IntentFirst(log, answers.hasProgress) && SignedFirst(log)
    && (DispatchHosted in log ==> FallbackJustified(log, answers, reservation))
    && (exit == Hosted ==> DispatchHosted in log)
    && (exit.Local? ==> NoHosted(log) && NoRecover(log))
    && (exit == Raised ==> RaiseJustified(log, answers, reservation, resume))
    && (DispatchLocal in log ==> resume.runId.None? && resume.phase != Dispatching)
  }

  lemma RepliedOutcome(tried: seq<Effect>, log: seq<Effect>, exit: Exit, answers: Answers,
                       reservation: Ledger.Reservation, resume: Resume)
    requires LocalLog(tried, answers.hasProgress) && exit != Hosted
    requires !NoDispatch(tried) ==> resume.runId.None? && resume.phase != Dispatching
    requires !Reserves(resume) || answers.reserve.Replied?
    requires exit.Local? ==> log == tried
    requires exit == Raised ==>
      if Accepted(answers, reservation, resume)
      then log == tried + CleaningUp(answers, reservation.identity.allocationId, resume)
      else log == tried && NoDispatch(tried)
    ensures Outcome(log, exit, answers, reservation, resume)
  {
    hide CleaningUp, Accepted, FinalNote;
    if exit == Raised && Accepted(answers, reservation, resume) {
      CleanedUpFacts(tried, answers, reservation.identity.allocationId, resume);
    }
  }

  /** What the record says after an accepted allocation was cleaned up, in terms of what was answered. It says nothing
      when there is no record, when absence was not proved, and when the local package was refused while the record
      said `dispatching`: the handler then raises before it writes. */
  lemma FinalNoteWritten(answers: Answers, reservation: Ledger.Reservation, resume: Resume)
    requires Accepted(answers, reservation, resume) && DispatchOf(answers, reservation, resume).1 == Raised
    ensures var log, proved := DispatchOf(answers, reservation, resume).0,
                               ProvesAbsence(answers.recover, reservation.identity.allocationId);
      (Record(NoteAmbiguous) in log <==>
         proved && answers.hasProgress && answers.localPackageValid
         && (LosesReceipt(answers, resume) || (resume.phase == Dispatching && resume.runId.None?)))
      && (Record(NoteRecovered) in log <==>
            proved && answers.hasProgress
            && (if answers.localPackageValid
                then !LosesReceipt(answers, resume) && (resume.phase == Dispatching ==> resume.runId.Some?)
                else resume.phase != Dispatching))
      && (Recover(reservation.identity.allocationId) == log[|log| - 1] <==>
            !proved || !answers.hasProgress || (!answers.localPackageValid && resume.phase == Dispatching))
  {
    hide LocalLog, DispatchOf, Accepted, LosesReceipt, ProvesAbsence;
    DispatchFacts(answers, reservation, resume);
    var a, log := reservation.identity.allocationId, DispatchOf(answers, reservation, resume).0;
    var tried :| LocalLog(tried, answers.hasProgress) && log == tried + CleaningUp(answers, a, resume);
    CleanedUpFacts(tried, answers, a, resume);
    assert log[|log| - 1] == CleaningUp(answers, a, resume)[|CleaningUp(answers, a, resume)| - 1];
  }

  /** An exit by exception goes without recovery exactly when no reply was accepted and `reserve` did not say that it
      half made this allocation. */
  lemma RaisedWithoutRecovery(answers: Answers, reservation: Ledger.Reservation, resume: Resume)
    requires DispatchOf(answers, reservation, resume).1 == Raised
    ensures NoRecover(DispatchOf(answers, reservation, resume).0) <==>
      !Accepted(answers, reservation, resume)
      && !(Reserves(resume) && answers.reserve == PartialFailure(reservation.identity.allocationId))
  {
    hide LocalLog, DispatchOf, Accepted, FinalNote;
    DispatchFacts(answers, reservation, resume);
    var a, log := reservation.identity.allocationId, DispatchOf(answers, reservation, resume).0;
    if Accepted(answers, reservation, resume) {
      var tried :| LocalLog(tried, answers.hasProgress) && log == tried + CleaningUp(answers, a, resume);
      assert log[|tried|] == Recover(a);
    } else if Reserves(resume) && answers.reserve == PartialFailure(a) {
      assert log[1] == Recover(a);
    }
  }

  // ----- What is signed and finalized -----

  predicate ReadsAs(text: string, n: int) {
    text != [] && Decimal.AllDigits(if text[0] == '-' then text[1..] else text) && Decimal.ReadInt(text) == n
  }

  /** The window of a version-two payload: the recorded one, or the full claim TTL from now. */
  function DueWindow(answers: Answers, resume: Resume): (int, int) {
    if resume.window.Some? then resume.window.value else (answers.clock, answers.clock + 720)
  }

  /** The payload is the reservation's, for the job GitHub showed, with its run and job numbers, commits and window. */
  predicate Describes(p: Ledger.Payload, answers: Answers, reservation: Ledger.Reservation, resume: Resume, job: Job) {
    answers.job == Some(job)
    && ReadsAs(p.observed.runId, job.runId) && ReadsAs(p.observed.jobId, job.jobId)
    && p.observed.attempt == job.attempt && p.observed.dispatchSha == job.dispatchSha
    && p.observed.testedSha == answers.testedSha
    && p.identity.jobName == job.jobName && p.identity == reservation.identity.(jobName := p.identity.jobName)
    && match reservation.terms
       case ReservedV1(issued, expires) => p.terms == Ledger.SignedV1(issued, expires)
       case ReservedV2(pr, base, approved, until) =>
         p.terms == Ledger.SignedV2(pr, base, approved, until, DueWindow(answers, resume).0, DueWindow(answers, resume).1)
  }

  lemma PayloadDescribes(answers: Answers, reservation: Ledger.Reservation, resume: Resume, job: Job, window: (int, int))
    requires answers.job == Some(job) && (reservation.terms.ReservedV2? ==> window == DueWindow(answers, resume))
    ensures Describes(PayloadFor(reservation, job, answers.testedSha, window), answers, reservation, resume, job)
  {
    Decimal.ReadIntText(job.runId);
    Decimal.ReadIntText(job.jobId);
  }

  predicate Carries(e: Effect) {
    e.Sign? || e.Finalize?
  }

  /** Whatever is signed or finalized describes the job of the run that was observed before. */
  ghost predicate PayloadsOk(log: seq<Effect>, answers: Answers, reservation: Ledger.Reservation, resume: Resume) {
    forall i :: 0 <= i < |log| && Carries(log[i]) ==>
      answers.job.Some? && Describes(log[i].payload, answers, reservation, resume, answers.job.value)
      && exists k :: 0 <= k < i && log[k] == Observe(answers.job.value.runId)
  }

  predicate NoPayload(log: seq<Effect>) {
    forall i :: 0 <= i < |log| ==> !Carries(log[i])
  }

  lemma JoinPayloads(a: seq<Effect>, b: seq<Effect>, answers: Answers, reservation: Ledger.Reservation, resume: Resume)
    requires PayloadsOk(a, answers, reservation, resume) && PayloadsOk(b, answers, reservation, resume)
    ensures PayloadsOk(a + b, answers, reservation, resume)
  {
    hide Describes;
    var t := a + b;
    forall i | 0 <= i < |t| && Carries(t[i])
      ensures answers.job.Some? && Describes(t[i].payload, answers, reservation, resume, answers.job.value)
        && exists k :: 0 <= k < i && t[k] == Observe(answers.job.value.runId)
    {
      if i < |a| {
        assert Carries(a[i]);
        var k :| 0 <= k < i && a[k] == Observe(answers.job.value.runId);
        assert t[k] == a[k];
      } else {
        assert Carries(b[i - |a|]);
        var k :| 0 <= k < i - |a| && b[k] == Observe(answers.job.value.runId);
        assert t[k + |a|] == b[k];
      }
    }
  }

  lemma NotedHasNoPayload(answers: Answers, note: Note)
    ensures NoPayload(Noted(answers, note))
  {
  }

  /** The effects up to the signature, and from it: the payload is the same throughout. */
  lemma FinalizePayloads(answers: Answers, a: string, resume: Resume, payload: Ledger.Payload)
    ensures var (effects, ok) := FinalizeOf(answers, a, resume, payload);
      (forall i :: 0 <= i < |effects| && Carries(effects[i]) ==> effects[i].payload == payload)
      && (ok ==>
            answers.finalized == Some((a, "enabled-awaiting-claim"))
            && effects[0] == Sign(payload) && exists j :: 0 < j < |effects| && effects[j] == Finalize(payload))
  {
    hide Noted;
    NotedHasNoPayload(answers, NoteFinalizing);
    NotedHasNoPayload(answers, NoteFinalized);
    var (effects, ok) := FinalizeOf(answers, a, resume, payload);
    if ok {
      var announced := [Sign(payload)] + Noted(answers, NoteFinalizing);
      assert effects[|announced|] == Finalize(payload);
    }
  }

  /** The payload was signed and then finalized, in this log. */
  ghost predicate Granted(log: seq<Effect>, p: Ledger.Payload) {
    exists i, j :: 0 <= i < j < |log| && log[i] == Sign(p) && log[j] == Finalize(p)
  }

  lemma GrantedWithin(a: seq<Effect>, b: seq<Effect>, c: seq<Effect>, p: Ledger.Payload)
    requires Granted(b, p)
    ensures Granted(a + b + c, p)
  {
    var i, j :| 0 <= i < j < |b| && b[i] == Sign(p) && b[j] == Finalize(p);
    assert (a + b + c)[|a| + i] == b[i] && (a + b + c)[|a| + j] == b[j];
  }

  /** What a job that is handed back has behind it. */
  ghost predicate Enabled(log: seq<Effect>, answers: Answers, reservation: Ledger.Reservation, resume: Resume, job: Job) {
    answers.finalized == Some((reservation.identity.allocationId, "enabled-awaiting-claim"))
    && exists p :: Describes(p, answers, reservation, resume, job) && Granted(log, p)
  }

  lemma EnabledWithin(a: seq<Effect>, b: seq<Effect>, answers: Answers, reservation: Ledger.Reservation, resume: Resume, job: Job)
    requires Enabled(b, answers, reservation, resume, job)
    ensures Enabled(a + b, answers, reservation, resume, job)
  {
    hide Describes, Granted;
    var p :| Describes(p, answers, reservation, resume, job) && Granted(b, p);
    GrantedWithin(a, b, [], p);
    assert a + b + [] == a + b;
  }

  lemma WindowIsDue(answers: Answers, reservation: Ledger.Reservation, resume: Resume)
    ensures var (effects, window) := WindowOf(answers, reservation, resume);
      NoPayload(effects)
      && (window.Some? && reservation.terms.ReservedV2? ==> window.value == DueWindow(answers, resume))
  {
  }

  lemma ObservedThenPayloads(before: seq<Effect>, signed: seq<Effect>, answers: Answers, reservation: Ledger.Reservation,
                             resume: Resume, payload: Ledger.Payload)
    requires answers.job.Some? && Describes(payload, answers, reservation, resume, answers.job.value)
    requires before != [] && before[0] == Observe(answers.job.value.runId) && NoPayload(before)
    requires forall i :: 0 <= i < |signed| && Carries(signed[i]) ==> signed[i].payload == payload
    ensures PayloadsOk(before + signed, answers, reservation, resume)
  {
    hide Describes;
    var t := before + signed;
    assert t[0] == Observe(answers.job.value.runId);
    assert forall i :: 0 <= i < |before| ==> t[i] == before[i];
    forall i | 0 <= i < |t| && Carries(t[i]) ensures i >= |before| && t[i].payload == payload {
      assert t[i] == signed[i - |before|];
    }
  }

  lemma AuthorisePayloads(answers: Answers, reservation: Ledger.Reservation, resume: Resume, runId: int)
    ensures var (effects, job) := AuthoriseOf(answers, reservation, resume, runId);
      PayloadsOk(effects, answers, reservation, resume)
      && (job.Some? ==> job == answers.job && job.value.runId == runId && Enabled(effects, answers, reservation, resume, job.value))
  {
    hide Noted, WindowOf, FinalizeOf, Describes, Granted, PayloadFor, Writes;
    var (effects, job) := AuthoriseOf(answers, reservation, resume, runId);
    NotedHasNoPayload(answers, NoteObserved);
    WindowIsDue(answers, reservation, resume);
    var observed := [Observe(runId)] + Noted(answers, NoteObserved);
    var (window, value) := WindowOf(answers, reservation, resume);
    assert NoPayload(observed) && NoPayload(observed + window);
    if answers.job.Some? && answers.job.value.runId == runId && Writes(answers, NoteObserved) && value.Some? {
      var a := reservation.identity.allocationId;
      var payload := PayloadFor(reservation, answers.job.value, answers.testedSha, value.value);
      var (signed, ok) := FinalizeOf(answers, a, resume, payload);
      PayloadDescribes(answers, reservation, resume, answers.job.value, value.value);
      FinalizePayloads(answers, a, resume, payload);
      ObservedThenPayloads(observed + window, signed, answers, reservation, resume, payload);
      if ok {
        GrantedNow(signed, payload);
        GrantedWithin(observed + window, signed, [], payload);
        assert observed + window + signed + [] == effects;
      }
    } else {
      assert NoPayload(effects);
    }
  }

  lemma GrantedNow(signed: seq<Effect>, p: Ledger.Payload)
    requires signed != [] && signed[0] == Sign(p) && exists j :: 0 < j < |signed| && signed[j] == Finalize(p)
    ensures Granted(signed, p)
  {
  }

  /** The run an attempt is about: the one on record, or the one its own dispatch was answered with. */
  predicate RunIs(answers: Answers, resume: Resume, runId: int) {
    if resume.runId.Some? then resume.runId == Some(runId) else answers.receipt == Some(runId)
  }

  lemma AttemptPayloads(answers: Answers, reservation: Ledger.Reservation, resume: Resume)
    ensures var (effects, p) := AttemptOf(answers, reservation, resume);
      PayloadsOk(effects, answers, reservation, resume)
      && (p.job.Some? ==>
            p.job == answers.job && RunIs(answers, resume, p.job.value.runId)
            && Enabled(effects, answers, reservation, resume, p.job.value))
  {
    hide AuthoriseOf, PayloadsOk, Enabled;
    NothingIsOk(answers, reservation, resume);
    ReceiptHasNoPayload(answers, reservation, resume);
    var (receipt, runId, ambiguous) := ReceiptOf(answers, resume);
    if runId.Some? {
      AuthorisePayloads(answers, reservation, resume, runId.value);
      var (authorised, job) := AuthoriseOf(answers, reservation, resume, runId.value);
      JoinPayloads(receipt, authorised, answers, reservation, resume);
      if job.Some? { EnabledWithin(receipt, authorised, answers, reservation, resume, job.value); }
    }
  }

  lemma NothingIsOk(answers: Answers, reservation: Ledger.Reservation, resume: Resume)
    ensures PayloadsOk([], answers, reservation, resume) && PayloadsOk([Reserve], answers, reservation, resume)
  {
  }

  lemma ReceiptHasNoPayload(answers: Answers, reservation: Ledger.Reservation, resume: Resume)
    ensures PayloadsOk(ReceiptOf(answers, resume).0, answers, reservation, resume)
  {
  }

  lemma NoPayloadIsOk(log: seq<Effect>, answers: Answers, reservation: Ledger.Reservation, resume: Resume)
    requires NoPayload(log)
    ensures PayloadsOk(log, answers, reservation, resume)
  {
  }

  /** The reply the whole dispatch rests on: the broker's, or the recorded one. */
  function ReplyOf(answers: Answers, resume: Resume): Option<ReserveReply> {
    if !Reserves(resume) then resume.reserved
    else match answers.reserve case Replied(reply) => Some(reply) case _ => None
  }

  /** Nothing is dispatched, signed or finalized locally, and no job handed back, unless the reply is exactly the
      reservation's own; and a job is handed back only when it is what GitHub showed for the right run, and its payload
      was signed and finalized with the exact answer. */
  ghost predicate Rests(log: seq<Effect>, exit: Exit, answers: Answers, reservation: Ledger.Reservation, resume: Resume) {
    PayloadsOk(log, answers, reservation, resume)
    && (exit.Local? || DispatchLocal in log || (exists i :: 0 <= i < |log| && Carries(log[i])) ==>
          ReplyOf(answers, resume)
          == Some(ReserveReply(true, reservation.identity.allocationId, reservation.identity.scaleSetName, "reserved-disabled")))
    && (exit.Local? ==>
          answers.job == Some(exit.job) && RunIs(answers, resume, exit.job.runId)
          && Enabled(log, answers, reservation, resume, exit.job))
  }

  lemma WithReplyRests(answers: Answers, before: seq<Effect>, reply: ReserveReply, reservation: Ledger.Reservation, resume: Resume)
    requires before == [] || before == [Reserve]
    requires ReplyOf(answers, resume) == Some(reply)
    ensures var (effects, exit) := WithReplyOf(answers, reply, reservation, resume);
      Rests(before + effects, exit, answers, reservation, resume)
  {
    hide AttemptOf, PayloadsOk, Enabled, Noted, Tail;
    var (effects, exit) := WithReplyOf(answers, reply, reservation, resume);
    NothingIsOk(answers, reservation, resume);
    var noted := Noted(answers, NoteReserved);
    NotedHasNoPayload(answers, NoteReserved);
    NoPayloadIsOk(noted, answers, reservation, resume);
    NotedFacts(answers, NoteReserved);
    JoinPayloads(before, noted, answers, reservation, resume);
    if !Sound(reply, reservation) {
      assert before + [] == before;
    } else if Writes(answers, NoteReserved) {
      AttemptPayloads(answers, reservation, resume);
      var (tried, p) := AttemptOf(answers, reservation, resume);
      JoinPayloads(before + noted, tried, answers, reservation, resume);
      if p.job.Some? {
        EnabledWithin(before + noted, tried, answers, reservation, resume, p.job.value);
        assert before + noted + tried == before + (noted + tried);
      } else {
        var tail := Tail(answers, reservation.identity.allocationId, resume, p);
        TailHasNoPayload(answers, reservation.identity.allocationId, resume, p);
        NoPayloadIsOk(tail, answers, reservation, resume);
        JoinPayloads(before + noted + tried, tail, answers, reservation, resume);
        assert before + noted + tried + tail == before + (noted + tried + tail);
      }
    }
  }

  lemma TailHasNoPayload(answers: Answers, a: string, resume: Resume, p: Progress)
    ensures NoPayload(Tail(answers, a, resume, p))
  {
  }

  /** What every dispatch signs, finalizes and hands back. */
  lemma DispatchRests(answers: Answers, reservation: Ledger.Reservation, resume: Resume)
    ensures var (log, exit) := DispatchOf(answers, reservation, resume); Rests(log, exit, answers, reservation, resume)
  {
    hide WithReplyOf, PayloadsOk, Enabled;
    if !Reserves(resume) {
      WithReplyRests(answers, [], resume.reserved.value, reservation, resume);
      var effects := WithReplyOf(answers, resume.reserved.value, reservation, resume).0;
      assert [] + effects == effects;
    } else if answers.reserve.Replied? {
      WithReplyRests(answers, [Reserve], answers.reserve.reply, reservation, resume);
    } else {
      var log := DispatchOf(answers, reservation, resume).0;
      assert NoPayload(log);
      NoPayloadIsOk(log, answers, reservation, resume);
    }
  }

  /** The record keeps all of these notes. */
  predicate Keeps(answers: Answers, notes: set<Note>) {
    answers.hasProgress ==> notes !! answers.recordFails
  }

  /** A valid run id is on record, or one dispatch brings one that is recorded. */
  predicate HasRun(answers: Answers, resume: Resume, runId: int) {
    runId > 0 && RunIs(answers, resume, runId)
    && (resume.runId.None? ==>
          resume.phase != Dispatching && Keeps(answers, {NoteDispatching, NoteDispatched(runId)}))
  }

  /** Everything that has to go well after the reply. */
  predicate Succeeds(answers: Answers, reservation: Ledger.Reservation, resume: Resume, job: Job) {
    answers.localPackageValid && answers.job == Some(job) && HasRun(answers, resume, job.runId)
    && Keeps(answers, {NoteReserved, NoteObserved, NoteFinalizing, NoteFinalized})
    && (reservation.terms.ReservedV2? && resume.window.None? ==>
          Keeps(answers, {NoteWindow(answers.clock, answers.clock + 720)}))
    && answers.signed && (resume.phase == Finalizing ==> resume.finalized)
    && answers.finalized == Some((reservation.identity.allocationId, "enabled-awaiting-claim"))
  }

  lemma AuthoriseIff(answers: Answers, reservation: Ledger.Reservation, resume: Resume, runId: int)
    ensures AuthoriseOf(answers, reservation, resume, runId).1.Some? <==>
      answers.job.Some? && answers.job.value.runId == runId
      && Keeps(answers, {NoteObserved, NoteFinalizing, NoteFinalized})
      && (reservation.terms.ReservedV2? && resume.window.None? ==>
            Keeps(answers, {NoteWindow(answers.clock, answers.clock + 720)}))
      && answers.signed && (resume.phase == Finalizing ==> resume.finalized)
      && answers.finalized == Some((reservation.identity.allocationId, "enabled-awaiting-claim"))
  {
    hide Noted, PayloadFor;
    assert Writes(answers, NoteObserved) && Writes(answers, NoteFinalizing) && Writes(answers, NoteFinalized) <==>
      Keeps(answers, {NoteObserved, NoteFinalizing, NoteFinalized});
    assert Writes(answers, NoteWindow(answers.clock, answers.clock + CLAIM_TTL)) <==>
      Keeps(answers, {NoteWindow(answers.clock, answers.clock + 720)});
  }

  lemma ReceiptIff(answers: Answers, resume: Resume, runId: int)
    ensures ReceiptOf(answers, resume).1 == Some(runId) <==> HasRun(answers, resume, runId)
  {
    hide Noted;
    assert Writes(answers, NoteDispatching) && Writes(answers, NoteDispatched(runId)) <==>
      Keeps(answers, {NoteDispatching, NoteDispatched(runId)});
  }

  /** A local job is handed back exactly when the reply is the reservation's own and everything after it goes well. */
  lemma LocalIff(answers: Answers, reservation: Ledger.Reservation, resume: Resume, job: Job)
    ensures DispatchOf(answers, reservation, resume).1 == Local(job) <==>
      ReplyOf(answers, resume)
        == Some(ReserveReply(true, reservation.identity.allocationId, reservation.identity.scaleSetName, "reserved-disabled"))
      && Succeeds(answers, reservation, resume, job)
  {
    hide Noted, Tail, ReceiptOf, AuthoriseOf, HasRun;
    DispatchRests(answers, reservation, resume);
    AuthoriseIff(answers, reservation, resume, job.runId);
    AuthorisePayloads(answers, reservation, resume, job.runId);
    ReceiptIff(answers, resume, job.runId);
    var run := ReceiptOf(answers, resume).1;
    if run.Some? {
      ReceiptIff(answers, resume, run.value);
      AuthorisePayloads(answers, reservation, resume, run.value);
    }
    assert Writes(answers, NoteReserved) && Keeps(answers, {NoteObserved, NoteFinalizing, NoteFinalized}) <==>
      Keeps(answers, {NoteReserved, NoteObserved, NoteFinalizing, NoteFinalized});
  }

  // ----- Two exits worth knowing -----

  const SILENT := Answers(ReserveRaised, RecoverRaised, false, false, None, None, false, None, "", 0, true, {}, false)

  /** A resumed dispatch whose local package no longer validates: the allocation is recovered, and the record still says
      `dispatching`. */
  lemma RecoveredWithoutNote(reservation: Ledger.Reservation)
    ensures var a := reservation.identity.allocationId;
      var reply := ReserveReply(true, a, reservation.identity.scaleSetName, "reserved-disabled");
      DispatchOf(SILENT.(recover := Recovered(a, "absent", true)), reservation,
                 Resume(Dispatching, Some(reply), None, None, false))
        == ([Record(NoteReserved), Recover(a)], Raised)
  {
    var a := reservation.identity.allocationId;
    assert [Record(NoteReserved)] + [] + [Recover(a)] == [Record(NoteReserved), Recover(a)];
  }

  /** A reply with a field too many: the broker has reserved, and nothing is recovered. */
  lemma InexactReplyIsNotRecovered(reservation: Ledger.Reservation)
    ensures var a := reservation.identity.allocationId;
      var reply := ReserveReply(false, a, reservation.identity.scaleSetName, "reserved-disabled");
      DispatchOf(SILENT.(reserve := Replied(reply), recover := Recovered(a, "absent", true)), reservation,
                 Resume(NoPhase, None, None, None, false))
        == ([Reserve], Raised)
  {
    assert [Reserve] + [] == [Reserve];
  }

  // ----- The dispatch, step by step -----

  class Dispatcher {
    var log: seq<Effect>
    const answers: Answers

    constructor (answers: Answers)
      ensures this.answers == answers && log == []
    {
      this.answers, log := answers, [];
    }

    /** Write one note into the worker's record, when there is one; the write may raise. */
    method Note(note: Note) returns (ok: bool)
      modifies this
      ensures log == old(log) + Noted(answers, note)
      ensures ok <==> Writes(answers, note)
    {
      if !answers.hasProgress { return true; }
      log := log + [Record(note)];
      ok := note !in answers.recordFails;
    }

    /** The run this attempt is about: the recorded one, or the one a single dispatch answers with. */
    method Receipt(resume: Resume) returns (runId: Option<int>, ambiguous: bool)
      modifies this
      ensures var (effects, run, lost) := ReceiptOf(answers, resume);
        log == old(log) + effects && runId == run && ambiguous == lost
      ensures ambiguous <==> LosesReceipt(answers, resume)
      ensures ambiguous <==> !NoDispatch(log[|old(log)|..]) && runId.None?
      ensures runId.Some? ==>
        runId.value > 0 && if resume.runId.Some? then runId == resume.runId else runId == answers.receipt
    {
      hide LosesReceipt, NoDispatch, LocalLog, Noted, Writes;
      ReceiptFacts(answers, resume);
      assert (log + ReceiptOf(answers, resume).0)[|log|..] == ReceiptOf(answers, resume).0;
      runId, ambiguous := None, false;
      if resume.runId.Some? {
        return if resume.runId.value > 0 then resume.runId else None, false;
      }
      if resume.phase == Dispatching { return; }
      var ok := Note(NoteDispatching);
      if !ok { return; }
      ambiguous := true;
      log := log + [DispatchLocal];
      if answers.receipt.None? || answers.receipt.value <= 0 { return; }
      ok := Note(NoteDispatched(answers.receipt.value));
      if !ok { return; }
      ambiguous := false;
      runId := answers.receipt;
    }

    /** The window the payload is signed for: the recorded one, or a fresh one that is recorded first. */
    method ClaimWindow(reservation: Ledger.Reservation, resume: Resume) returns (window: Option<(int, int)>)
      modifies this
      ensures var (effects, value) := WindowOf(answers, reservation, resume);
        log == old(log) + effects && window == value
    {
      var now := (answers.clock, answers.clock + CLAIM_TTL);
      window := Some(now);
      if reservation.terms.ReservedV2? {
        if resume.window.Some? { return resume.window; }
        var ok := Note(NoteWindow(now.0, now.1));
        if !ok { window := None; }
      }
    }

    /** Observe the run's job, sign for it, and finalize once. */
    method Authorise(reservation: Ledger.Reservation, resume: Resume, runId: int) returns (observed: Option<Job>)
      modifies this
      ensures var (effects, job) := AuthoriseOf(answers, reservation, resume, runId);
        log == old(log) + effects && observed == job
    {
      hide Noted, WindowOf, FinalizeOf, Writes;
      observed := None;
      log := log + [Observe(runId)];
      if answers.job.None? || answers.job.value.runId != runId { return; }
      var job := answers.job.value;
      var ok := Note(NoteObserved);
      if !ok { return; }
      var window := ClaimWindow(reservation, resume);
      if window.None? { return; }
      var payload := PayloadFor(reservation, job, answers.testedSha, window.value);
      ok := SignAndFinalize(reservation.identity.allocationId, resume, payload);
      if ok { observed := Some(job); }
    }

    method SignAndFinalize(allocationId: string, resume: Resume, payload: Ledger.Payload) returns (ok: bool)
      modifies this
      ensures var (effects, done) := FinalizeOf(answers, allocationId, resume, payload);
        log == old(log) + effects && ok == done
    {
      hide Noted, Writes;
      log := log + [Sign(payload)];
      if !answers.signed { return false; }
      if resume.phase == Finalizing && !resume.finalized { return false; }
      ok := Note(NoteFinalizing);
      if !ok { return; }
      log := log + [Finalize(payload)];
      if answers.finalized != Some((allocationId, "enabled-awaiting-claim")) { return false; }
      ok := Note(NoteFinalized);
    }

    /** From the accepted reservation to the enabled scale set; the first step that fails ends it. */
    method Attempt(reservation: Ledger.Reservation, resume: Resume) returns (p: Progress)
      modifies this
      ensures var (effects, progress) := AttemptOf(answers, reservation, resume);
        log == old(log) + effects && p == progress
    {
      hide ReceiptOf, AuthoriseOf;
      p := Progress(None, false, false);
      if !answers.localPackageValid { return; }
      var runId, ambiguous := Receipt(resume);
      p := Progress(None, ambiguous, true);
      if runId.None? { return; }
      var job := Authorise(reservation, resume, runId.value);
      p := Progress(job, ambiguous, true);
    }

    /** `reserve` failed with one of its typed failures, or in a way that says nothing about what it did. A hosted
        package is sent exactly when reserve had no durable effect, or exact recovery proved absence. */
    method Fallback(a: string) returns (exit: Exit)
      requires log == [Reserve] && !answers.reserve.Replied?
      modifies this
      ensures (log, exit) == ([Reserve] + FallbackOf(answers, a).0, FallbackOf(answers, a).1)
      ensures exit == Raised || (exit == Hosted && answers.hostedSent && DispatchHosted in log)
      ensures log == [Reserve] || log == [Reserve, DispatchHosted] || log == [Reserve, Recover(a)]
        || log == [Reserve, Recover(a), DispatchHosted]
      ensures Recover(a) in log <==> answers.reserve == PartialFailure(a)
      ensures DispatchHosted in log <==>
        answers.hostedPackageValid
        && (answers.reserve == DefinitelyUnavailable
            || (answers.reserve == PartialFailure(a) && ProvesAbsence(answers.recover, a)))
    {
      assert [Reserve] + [] == [Reserve] && [Reserve] + ([] + [DispatchHosted]) == [Reserve] + [DispatchHosted];
      assert [Reserve] + ([Recover(a)] + [DispatchHosted]) == [Reserve] + [Recover(a)] + [DispatchHosted];
      exit := Raised;
      if answers.reserve == ReserveRaised { return; }
      if answers.reserve.PartialFailure? {
        if answers.reserve.allocationId != a { return; }
        log := log + [Recover(a)];
        if !ProvesAbsence(answers.recover, a) { return; }
      }
      if !answers.hostedPackageValid { return; }
      log := log + [DispatchHosted];
      if answers.hostedSent { exit := Hosted; }
    }

    /** The handler: prove the allocation absent, then say in the record what became of the dispatch. */
    method CleanUp(allocationId: string, resume: Resume, p: Progress)
      modifies this
      ensures log == old(log) + Tail(answers, allocationId, resume, p)
    {
      log := log + [Recover(allocationId)];
      if !ProvesAbsence(answers.recover, allocationId) { return; }
      if p.ambiguous {
        var _ := Note(NoteAmbiguous);
      } else if resume.phase == Dispatching && (!p.resumeRead || resume.runId.None?) {
        // An unreadable package leaves the resumed run id unset, and naming it raises before the record is written.
        if p.resumeRead { var _ := Note(NoteAmbiguous); }
      } else {
        var _ := Note(NoteRecovered);
      }
    }

    /** With a reply in hand, new or recorded: attempt the local run, and clean up if it fails. */
    method WithReply(reply: ReserveReply, reservation: Ledger.Reservation, resume: Resume) returns (exit: Exit)
      modifies this
      ensures var (effects, leaves) := WithReplyOf(answers, reply, reservation, resume);
        log == old(log) + effects && exit == leaves
    {
      hide Sound, Noted, Writes, AttemptOf, Tail;
      if !Sound(reply, reservation) { return Raised; }
      var ok := Note(NoteReserved);
      if !ok { return Raised; }
      var p := Attempt(reservation, resume);
      if p.job.Some? { return Local(p.job.value); }
      CleanUp(reservation.identity.allocationId, resume, p);
      exit := Raised;
    }

    /** One whole outbound dispatch. */
    method OutboundLocalDispatch(reservation: Ledger.Reservation, resume: Resume) returns (exit: Exit)
      requires log == []
      modifies this
      ensures (log, exit) == DispatchOf(answers, reservation, resume)
      ensures DispatchesAtMostOnce(log)
      ensures DispatchHosted in log ==> FallbackJustified(log, answers, reservation)
      ensures exit == Hosted ==> DispatchHosted in log
      ensures exit.Local? ==> NoHosted(log) && NoRecover(log)
      ensures exit == Raised ==> RaiseJustified(log, answers, reservation, resume)
      ensures DispatchLocal in log ==> resume.runId.None? && resume.phase != Dispatching
      ensures IntentFirst(log, answers.hasProgress) && SignedFirst(log)
      ensures Rests(log, exit, answers, reservation, resume)
    {
      hide Accepted, CleanedUp, LocalLog, WithReplyOf, FallbackOf, PayloadsOk, Enabled;
      DispatchFacts(answers, reservation, resume);
      DispatchRests(answers, reservation, resume);
      var reply;
      if Reserves(resume) {
        log := [Reserve];
        if !answers.reserve.Replied? {
          exit := Fallback(reservation.identity.allocationId);
          return;
        }
        reply := answers.reserve.reply;
      } else {
        reply := resume.reserved.value;
      }
      ghost var effects := WithReplyOf(answers, reply, reservation, resume).0;
      assert [] + effects == effects;
      exit := WithReply(reply, reservation, resume);
    }
  }
}
