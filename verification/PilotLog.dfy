/**
 What the pilot worker writes durably about one request, and which event may follow which.

 The log interleaves the durable writes of the request's row with the external calls that matter: the workflow
 dispatch, the broker's finalize, the call that cancels the workflow run, polls of that run, recorded outcomes, and the approval source's answers to
 the question whether the request is superseded.
 */
module PilotLog {
  import opened Basics

  datatype Phase =
    | PackageIssued | Reserved | Dispatching | Dispatched | Observed | AllocationWindow | ChecksOpen | Finalized
    | DispatchAmbiguous | CleanupRequired | DiscardReporting | ChecksClosed | ChecksCloseFailed
    | CancelRequesting | CancelRequested | CancelTimeoutRecording | CancelRecoveryPending
    | AssignmentFailed | AllocationExpired

  /** The merged progress record. No phase yet means an empty record. */
  datatype Progress = Progress(
    phase: Option<Phase>, package: bool, reserved: bool, runId: Option<int>, jobId: Option<int>, observed: bool,
    window: bool, finalized: bool, ambiguous: bool, checks: bool, checksClosed: bool,
    deadline: Option<int>, nextPoll: Option<int>, accepted: bool, recoveryComplete: bool)

  const EMPTY := Progress(None, false, false, None, None, false, false, false, false, false, false, None, None, false, false)

  datatype State = Absent | Running | Retry | Completing | Done | Failed

  datatype Cause = NotConverged | OtherCause

  datatype Event =
    | Wrote(state: State, p: Progress)
    | Dispatch
    | Finalize
    | Cancel
    | Poll
    | Outcome(cause: Cause)
    | Asked(superseded: bool)

  predicate IsTimeout(ph: Option<Phase>) {
    ph == Some(CancelTimeoutRecording) || ph == Some(CancelRecoveryPending)
  }

  predicate IsCancel(ph: Option<Phase>) {
    ph == Some(CancelRequesting) || ph == Some(CancelRequested) || IsTimeout(ph)
  }

  /** The phases of a request that was quarantined. */
  predicate IsRetired(ph: Option<Phase>) {
    ph == Some(AssignmentFailed) || ph == Some(AllocationExpired)
  }

  /** A write after which the request must never be dispatched. */
  predicate Blocking(e: Event) {
    e.Wrote? && (e.state == Failed || e.state == Completing || e.p.runId.Some? || e.p.ambiguous
                 || e.p.phase == Some(CleanupRequired) || e.p.phase == Some(DispatchAmbiguous)
                 || IsCancel(e.p.phase))
  }

  /** A write that carries a cancellation deadline: the intent to cancel is durable. */
  predicate Intent(e: Event) {
    e.Wrote? && e.p.deadline.Some?
  }

  predicate Timeout(e: Event) {
    e.Wrote? && IsTimeout(e.p.phase)
  }

  predicate IsDiscard(p: Progress) {
    p.phase == Some(DiscardReporting) && p.runId.None? && !p.ambiguous
  }

  /** The one kind of record that can make a dispatched request dispatchable again. */
  predicate Reopens(e: Event) {
    e.Wrote? && e.state == Running && IsDiscard(e.p)
  }

  /** `b` is a legitimate event some time after `a`. */
  predicate Follows(a: Event, b: Event) {
    (Blocking(a) ==> !b.Dispatch?)
    && (Intent(a) ==> !b.Dispatch? && !b.Finalize?)
    && (Timeout(a) ==> !b.Cancel? && !b.Poll? && (b.Outcome? ==> b.cause == NotConverged))
    && (a.Wrote? && b.Wrote? ==>
          (a.p.runId.Some? ==> b.p.runId == a.p.runId) && (a.p.deadline.Some? ==> b.p.deadline == a.p.deadline))
  }

  /** What the source last answered. */
  function Verdict(log: seq<Event>): Option<bool> {
    if log == [] then None
    else
      var e := log[|log| - 1];
      if e.Asked? then Some(e.superseded) else Verdict(log[..|log| - 1])
  }

  /** The record that was written last. */
  function LastRecord(log: seq<Event>): Progress {
    if log == [] then EMPTY
    else
      var e := log[|log| - 1];
      if e.Wrote? then e.p else LastRecord(log[..|log| - 1])
  }

  /** No dispatch since the beginning, or since the last record that reopens one. */
  predicate Armed(log: seq<Event>) {
    if log == [] then true
    else
      var e := log[|log| - 1];
      if e.Dispatch? then false else Reopens(e) || Armed(log[..|log| - 1])
  }

  /** The record that announces a dispatch. */
  predicate Announces(e: Event) {
    e.Wrote? && e.p.phase == Some(Dispatching) && e.p.package && e.p.reserved && e.p.runId.None?
  }

  /** `e` may come right after `log`. */
  predicate MayCome(log: seq<Event>, e: Event) {
    (e.Dispatch? ==> log != [] && Announces(log[|log| - 1]) && Armed(log) && Verdict(log) == Some(false))
    && (Reopens(e) ==> Verdict(log) == Some(true))
    && (e.Cancel? ==> LastRecord(log).deadline.Some?)
  }

  /** The whole history is legitimate. A dispatch comes right after the record that announces it and while the source
      does not call the request superseded, and never twice without a reopening record in between; none comes after a
      blocking write; the run is cancelled only once the intent, with its deadline, is on record; after the intent there is
      no dispatch and no finalize, and the deadline stands; after a cancellation timed out there is no further cancel
      call, no poll, and no outcome but `cancel-not-converged`; and a recorded run id is for good. */
  predicate LogOk(log: seq<Event>) {
    (forall i, j :: 0 <= i < j < |log| ==> Follows(log[i], log[j]))
    && forall i :: 0 <= i < |log| ==> MayCome(log[..i], log[i])
  }

  // ----- The row, and what it remembers of the log -----

  datatype Snapshot = Snapshot(state: State, p: Progress, log: seq<Event>)

  predicate Live(s: State) {
    s == Absent || s == Running || s == Retry
  }

  /** Nothing the worker can do with this row leads to a dispatch, whatever the source says. */
  predicate Locked(s: Snapshot) {
    !Live(s.state) || s.p.runId.Some? || s.p.ambiguous || s.p.phase == Some(CleanupRequired)
  }

  ghost predicate Blocked(log: seq<Event>) {
    exists i :: 0 <= i < |log| && Blocking(log[i])
  }

  /** A row that will not be dispatched as it stands. */
  predicate Shut(s: Snapshot) {
    Locked(s) || s.p.phase == Some(Dispatching)
  }

  /** The row still accounts for an event of its log. */
  predicate Backs(e: Event, s: Snapshot) {
    (Blocking(e) ==> Locked(s))
    && (Timeout(e) ==> IsTimeout(s.p.phase) || IsRetired(s.p.phase))
    && (e.Wrote? && e.p.runId.Some? ==> s.p.runId == e.p.runId)
    && (e.Wrote? && e.p.deadline.Some? ==> s.p.deadline == e.p.deadline)
  }

  predicate RowOk(s: Snapshot) {
    (s.p.phase == Some(Dispatching) ==> s.p.reserved && s.p.package && s.p.runId.None?)
    && (s.p.checks ==> s.p.runId.Some?)
    && (s.p.deadline.Some? ==> s.p.runId.Some? && (Live(s.state) ==> IsCancel(s.p.phase)))
    && (s.p.phase == Some(DispatchAmbiguous) ==> s.p.ambiguous)
    && (IsCancel(s.p.phase) ==> s.p.runId.Some? && s.p.deadline.Some?)
    && (IsRetired(s.p.phase) ==> s.state == Failed)
    && (s.state == Absent ==> s.p == EMPTY && s.log == [])
    && (s.p.phase.None? ==> s.p == EMPTY)
  }

  ghost predicate Inv(s: Snapshot) {
    LogOk(s.log) && LastRecord(s.log) == s.p && RowOk(s) && (Armed(s.log) || Shut(s))
    && (Locked(s) ==> Blocked(s.log)) && forall i :: 0 <= i < |s.log| ==> Backs(s.log[i], s)
  }

  /** Everything the row accounted for, it accounts for after the change, and `e` may come next. */
  ghost predicate Carries(s: Snapshot, t: Snapshot, e: Event) {
    (forall x :: Backs(x, s) ==> Backs(x, t) && Follows(x, e)) && Backs(e, t)
  }

  /** The last event of a longer log, and what came before it. */
  lemma Append(log: seq<Event>, e: Event)
    ensures (log + [e])[..|log|] == log && (log + [e])[|log|] == e
    ensures Verdict(log + [e]) == if e.Asked? then Some(e.superseded) else Verdict(log)
    ensures LastRecord(log + [e]) == if e.Wrote? then e.p else LastRecord(log)
    ensures Armed(log + [e]) == (!e.Dispatch? && (Reopens(e) || Armed(log)))
  {
    assert (log + [e])[..|log|] == log;
  }

  lemma BlockedExtends(log: seq<Event>, e: Event)
    ensures Blocked(log) || Blocking(e) ==> Blocked(log + [e])
  {
    if Blocked(log) {
      var i :| 0 <= i < |log| && Blocking(log[i]);
      assert (log + [e])[i] == log[i];
    } else if Blocking(e) {
      assert (log + [e])[|log|] == e;
    }
  }

  lemma Extend(s: Snapshot, t: Snapshot, e: Event)
    requires Inv(s) && RowOk(t) && t.log == s.log + [e] && Carries(s, t, e)
    requires MayCome(s.log, e) && LastRecord(t.log) == t.p && (Armed(t.log) || Shut(t))
    requires Locked(t) ==> Locked(s) || Blocking(e)
    ensures Inv(t)
  {
    if Locked(t) { BlockedExtends(s.log, e); }
    hide Backs, Follows, RowOk, Armed, LastRecord, Verdict, MayCome, Shut, Locked, Blocking, Blocked;
    forall i, j | 0 <= i < j < |t.log| ensures Follows(t.log[i], t.log[j]) {
      if j < |s.log| {
        assert Follows(s.log[i], s.log[j]);
      } else {
        assert Backs(s.log[i], s);
      }
    }
    forall i | 0 <= i < |t.log| ensures MayCome(t.log[..i], t.log[i]) {
      if i < |s.log| {
        assert t.log[..i] == s.log[..i];
        assert MayCome(s.log[..i], s.log[i]);
      } else {
        assert t.log[..i] == s.log;
      }
    }
    forall i | 0 <= i < |t.log| ensures Backs(t.log[i], t) {
      if i < |s.log| { assert Backs(s.log[i], s); }
    }
  }

  lemma InvMeansRowOk(s: Snapshot)
    requires Inv(s)
    ensures RowOk(s)
  {
  }

  /** A change of the row that writes no event. */
  lemma Shift(s: Snapshot, t: Snapshot)
    requires Inv(s) && RowOk(t) && t.log == s.log && t.p == s.p && forall x :: Backs(x, s) ==> Backs(x, t)
    requires (Shut(s) ==> Shut(t)) && (Locked(t) ==> Locked(s))
    ensures Inv(t)
  {
    hide Backs, Follows, RowOk, Armed, LastRecord, MayCome, Shut, Locked, Blocked;
  }

  // ----- Durable writes -----

  /** `q` may be recorded over the row of `s`. */
  predicate Recordable(s: Snapshot, q: Progress) {
    (s.p.runId.Some? ==> q.runId == s.p.runId)
    && (s.p.deadline.Some? ==> q.deadline == s.p.deadline)
    && (s.p.ambiguous ==> q.ambiguous)
    && (q.phase == Some(Dispatching) ==> q.reserved && q.package && q.runId.None?)
    && (q.checks ==> q.runId.Some?)
    && (q.deadline.Some? ==> q.runId.Some? && IsCancel(q.phase))
    && (IsTimeout(s.p.phase) ==> IsTimeout(q.phase))
    && (s.p.phase == Some(CleanupRequired) ==> q.phase == Some(CleanupRequired))
    && (s.p.phase == Some(Dispatching) ==>
          q.runId.Some? || q.ambiguous || q.phase == Some(CleanupRequired) || q.phase == Some(Dispatching)
          || q.phase == Some(DiscardReporting))
    && (IsDiscard(q) ==> Verdict(s.log) == Some(true))
    && (q.phase == Some(DispatchAmbiguous) ==> q.ambiguous)
    && (IsCancel(q.phase) ==> q.runId.Some? && q.deadline.Some?)
    && !IsRetired(q.phase) && q.phase.Some?
  }

  /** Notes about Check Runs ride on whatever phase the row is in. */
  function WithChecks(p: Progress, note: Phase, closed: bool): Progress {
    p.(phase := if p.phase.Some? then p.phase else Some(note), checksClosed := p.checksClosed || closed)
  }

  function Recorded(s: Snapshot, q: Progress): Snapshot {
    s.(p := q, log := s.log + [Wrote(s.state, q)])
  }

  lemma RecordKeeps(s: Snapshot, q: Progress)
    requires Inv(s) && s.state == Running && Recordable(s, q)
    ensures Inv(Recorded(s, q))
  {
    hide Armed, LastRecord, Verdict, LogOk, Blocked;
    var t, e := Recorded(s, q), Wrote(s.state, q);
    Append(s.log, e);
    forall x | Backs(x, s) ensures Backs(x, t) && Follows(x, e) {
    }
    Extend(s, t, e);
  }

  /** What a record over an announced dispatch does: it leaves the request dispatchable if and only if it reports a
      discard while neither a run id nor the ambiguity flag is on record. */
  lemma DiscardReopensDispatch(s: Snapshot, q: Progress)
    requires Inv(s) && s.state == Running && s.p.phase == Some(Dispatching) && Recordable(s, q)
    ensures Shut(s) && (!Shut(Recorded(s, q)) <==> Reopens(Wrote(Running, q)))
    ensures !Shut(Recorded(s, q)) ==> MayDispatch(q) && Verdict(s.log) == Some(true)
  {
  }

  /** The row becomes terminal: nothing live is left to account for. */
  function Closed(s: Snapshot, state: State, phase: Option<Phase>): Snapshot {
    var q := s.p.(phase := phase);
    s.(state := state, p := q, log := s.log + [Wrote(state, q)])
  }

  lemma CloseKeeps(s: Snapshot, state: State, phase: Option<Phase>)
    requires Inv(s) && (state == Completing || state == Failed)
    requires (phase == s.p.phase && s.state == Running) || (state == Failed && IsRetired(phase) && s.state != Absent)
    ensures Inv(Closed(s, state, phase))
  {
    hide Armed, LastRecord, Verdict, LogOk, Blocked;
    var t := Closed(s, state, phase);
    var e := Wrote(state, t.p);
    Append(s.log, e);
    forall x | Backs(x, s) ensures Backs(x, t) && Follows(x, e) {
    }
    Extend(s, t, e);
  }

  lemma ReleaseKeeps(s: Snapshot, state: State)
    requires Inv(s) && (s.state == Running || s.state == Retry) && (state == Running || state == Retry)
    ensures Inv(s.(state := state))
  {
    hide Armed, LastRecord, Verdict, LogOk, Blocked;
    var t := s.(state := state);
    forall x | Backs(x, s) ensures Backs(x, t) {
    }
    Shift(s, t);
  }

  lemma DeliverKeeps(s: Snapshot)
    requires Inv(s) && s.state == Completing
    ensures Inv(s.(state := Done))
  {
    hide Armed, LastRecord, Verdict, LogOk, Blocked;
    var t := s.(state := Done);
    forall x | Backs(x, s) ensures Backs(x, t) {
    }
    Shift(s, t);
  }

  lemma FirstClaimKeeps(s: Snapshot)
    requires Inv(s) && s.state == Absent
    ensures Inv(s.(state := Running))
  {
  }

  lemma ChecksAreRecordable(s: Snapshot, note: Phase, closed: bool)
    requires RowOk(s) && s.state == Running && s.p.checks && (note == ChecksClosed || note == ChecksCloseFailed)
    ensures Recordable(s, WithChecks(s.p, note, closed))
  {
  }

  // ----- External calls -----

  function Called(s: Snapshot, e: Event): Snapshot {
    s.(log := s.log + [e])
  }

  /** No cancellation timed out. */
  predicate Untimed(log: seq<Event>) {
    forall i :: 0 <= i < |log| ==> !Timeout(log[i])
  }

  lemma PhaseMeansUntimed(s: Snapshot)
    requires Inv(s) && !IsTimeout(s.p.phase) && !IsRetired(s.p.phase)
    ensures Untimed(s.log)
  {
    hide LogOk, Armed, LastRecord;
    forall i | 0 <= i < |s.log| ensures !Timeout(s.log[i]) {
      assert Backs(s.log[i], s);
    }
  }

  /** A call other than the dispatch. */
  lemma CallKeeps(s: Snapshot, e: Event)
    requires Inv(s) && s.state != Absent && !e.Wrote? && !e.Dispatch?
    requires e.Finalize? ==> s.p.deadline.None?
    requires e.Cancel? ==> s.p.deadline.Some?
    requires e.Cancel? || e.Poll? || (e.Outcome? && e.cause != NotConverged) ==> Untimed(s.log)
    ensures Inv(Called(s, e))
  {
    hide Verdict, Armed, LastRecord, Blocked;
    BlockedExtends(s.log, e);
    var t := Called(s, e);
    Append(s.log, e);
    forall i | 0 <= i < |s.log| ensures Follows(s.log[i], e) && Backs(s.log[i], t) {
      assert Backs(s.log[i], s);
    }
    Lengthen(s, t, e);
  }

  lemma Lengthen(s: Snapshot, t: Snapshot, e: Event)
    requires LogOk(s.log) && t.log == s.log + [e] && MayCome(s.log, e)
    requires forall i :: 0 <= i < |s.log| ==> Follows(s.log[i], e)
    ensures LogOk(t.log)
  {
    hide Follows, MayCome, Backs, LastRecord;
    forall i, j | 0 <= i < j < |t.log| ensures Follows(t.log[i], t.log[j]) {
      if j < |s.log| { assert Follows(s.log[i], s.log[j]); }
    }
    forall i | 0 <= i < |t.log| ensures MayCome(t.log[..i], t.log[i]) {
      if i < |s.log| {
        assert t.log[..i] == s.log[..i];
        assert MayCome(s.log[..i], s.log[i]);
      } else {
        assert t.log[..i] == s.log;
      }
    }
  }

  /** A row that is locked against a dispatch is locked for good. */
  lemma LockedForGood(s: Snapshot, t: Snapshot)
    requires Inv(s) && Inv(t) && s.log <= t.log && Locked(s)
    ensures Locked(t) && forall i :: |s.log| <= i < |t.log| ==> !t.log[i].Dispatch?
  {
    hide Armed, LastRecord, Verdict, Locked, Blocking;
    var i :| 0 <= i < |s.log| && Blocking(s.log[i]);
    assert t.log[i] == s.log[i] && Backs(t.log[i], t);
    forall j | |s.log| <= j < |t.log| ensures !t.log[j].Dispatch? {
      assert Follows(t.log[i], t.log[j]);
    }
  }

  /** The guard in front of the dispatch. */
  predicate MayDispatch(p: Progress) {
    p.runId.None? && p.phase != Some(Dispatching) && !p.ambiguous
  }

  /** From a row that is not shut and that the source stands by, intent and dispatch are legitimate. */
  lemma DispatchKeeps(s: Snapshot, q: Progress)
    requires Inv(s) && s.state == Running && !Shut(s) && Verdict(s.log) == Some(false)
    requires q == s.p.(phase := Some(Dispatching)) && s.p.reserved && s.p.package && !IsCancel(s.p.phase)
    ensures Inv(Recorded(s, q)) && Inv(Called(Recorded(s, q), Dispatch))
  {
    hide Armed, LastRecord, Verdict, Blocked;
    var m, e := Recorded(s, q), Wrote(s.state, q);
    var t := Called(m, Dispatch);
    RecordKeeps(s, q);
    Append(s.log, e);
    Append(m.log, Dispatch);
    forall i | 0 <= i < |m.log| ensures Follows(m.log[i], Dispatch) {
      if i < |s.log| { assert Backs(s.log[i], s); }
    }
    Lengthen(m, t, Dispatch);
    forall i | 0 <= i < |t.log| ensures Backs(t.log[i], t) {
      if i < |m.log| { assert Backs(m.log[i], m); }
    }
  }

  // ----- What the history says -----

  /** Between two dispatches the source called the request superseded, a discard was reported over the announced
      dispatch, and the source took the verdict back. */
  ghost predicate Withdrawn(log: seq<Event>, i: int, j: int) {
    exists a, k, m :: i < a < k < m < j < |log| && 0 <= i
      && log[a] == Asked(true) && Reopens(log[k]) && log[m] == Asked(false)
  }

  /** Every verdict stands: once superseded, always superseded. */
  predicate VerdictsStand(log: seq<Event>) {
    forall a, m :: 0 <= a < m < |log| && log[a] == Asked(true) && log[m].Asked? ==> log[m].superseded
  }

  lemma {:induction false} LastReopening(log: seq<Event>, i: nat) returns (k: nat)
    requires i < |log| && log[i].Dispatch? && Armed(log)
    ensures i < k < |log| && Reopens(log[k])
  {
    var n := |log| - 1;
    if Reopens(log[n]) {
      k := n;
    } else {
      k := LastReopening(log[..n], i);
    }
  }

  lemma {:induction false} WhereAsked(log: seq<Event>, from: nat, answer: bool) returns (m: nat)
    requires from < |log| && Verdict(log) == Some(answer) && Verdict(log[..from + 1]) != Some(answer)
    ensures from < m < |log| && log[m] == Asked(answer)
  {
    var n := |log| - 1;
    assert from < n by {
      assert log[..|log|] == log;
    }
    if log[n].Asked? {
      m := n;
    } else {
      assert log[..n][..from + 1] == log[..from + 1];
      m := WhereAsked(log[..n], from, answer);
    }
  }

  /** The verdict changed between two points of the log, so the source was asked in between. */
  lemma AskedSince(log: seq<Event>, i: nat, k: nat, answer: bool) returns (m: nat)
    requires i < k < |log| && !log[i].Asked?
    requires Verdict(log[..i]) != Some(answer) && Verdict(log[..k]) == Some(answer)
    ensures i < m < k && log[m] == Asked(answer)
  {
    Append(log[..i], log[i]);
    assert log[..i] + [log[i]] == log[..i + 1];
    assert log[..k][..i + 1] == log[..i + 1];
    m := WhereAsked(log[..k], i, answer);
  }

  /** A second dispatch needs a discard reported under a verdict that was later withdrawn. */
  lemma SecondDispatchNeedsWithdrawal(log: seq<Event>, i: nat, j: nat)
    requires LogOk(log) && i < j < |log| && log[i].Dispatch? && log[j].Dispatch?
    ensures Withdrawn(log, i, j)
  {
    hide Follows, Armed, LastRecord, Verdict;
    assert MayCome(log[..i], log[i]) && MayCome(log[..j], log[j]);
    var k := LastReopening(log[..j], i);
    assert MayCome(log[..k], log[k]);
    var a := AskedSince(log, i, k, true);
    var m := AskedSince(log, k, j, false);
    assert i < a < k < m < j && log[a] == Asked(true) && Reopens(log[k]) && log[m] == Asked(false);
  }

  /** At most one dispatch, as long as verdicts stand. */
  lemma OneDispatch(log: seq<Event>, i: nat, j: nat)
    requires LogOk(log) && VerdictsStand(log)
    requires i < |log| && j < |log| && log[i].Dispatch? && log[j].Dispatch?
    ensures i == j
  {
    if i < j {
      SecondDispatchNeedsWithdrawal(log, i, j);
    } else if j < i {
      SecondDispatchNeedsWithdrawal(log, j, i);
    }
  }
}
