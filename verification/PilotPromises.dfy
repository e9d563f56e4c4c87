/**
 What the protocol promises: about any cycle that keeps to it, and so about every cycle and every run of the worker.
 */
module PilotPromises {
  import opened Basics
  import opened PilotLog
  import opened PilotCycle
  import opened PilotProtocol
  import opened PilotRuns
  import opened PilotService

  /** A result is on record. */
  predicate Concluding(s: State) {
    s == Completing || s == Done
  }

  /** The last write of a log. */
  function LastWrite(log: seq<Event>): Option<Event> {
    if log == [] then None
    else if log[|log| - 1].Wrote? then Some(log[|log| - 1])
    else LastWrite(log[..|log| - 1])
  }

  lemma LastWriteOf(log: seq<Event>, e: Event)
    ensures LastWrite(log + [e]) == if e.Wrote? then Some(e) else LastWrite(log)
  {
    assert (log + [e])[..|log|] == log;
  }

  /** An outcome was recorded between the two logs. */
  ghost predicate OutcomeSince(a: seq<Event>, b: seq<Event>) {
    exists i :: |a| <= i < |b| && b[i] == Outcome(OtherCause)
  }

  /** The history of a request with a result: its outcome was recorded, no Check Run is open, and the result was the last
      thing written about it. */
  ghost predicate WellEarned(a: seq<Event>, s: Snapshot) {
    OutcomeSince(a, s.log) && NoOpenChecks(s.p) && LastWrite(s.log) == Some(Wrote(Completing, s.p))
  }

  // ----- One step -----

  /** Every step of an honest trace was allowed by the steps before it. */
  lemma {:induction false} EveryStepWasAllowed(setup: Setup, b: Snapshot, t: seq<Step>, i: nat)
    requires Honest(setup, b, t) && i < |t|
    ensures Allowed(setup, Recall(setup, b, t[..i]), t[i].deed)
  {
    hide Allowed, Recall;
    var r := t[..|t| - 1];
    if i < |r| {
      EveryStepWasAllowed(setup, b, r, i);
      assert r[..i] == t[..i];
    }
  }

  /** The last step of an honest trace, and what came before it. */
  lemma Split(setup: Setup, b: Snapshot, t: seq<Step>)
    requires Honest(setup, b, t) && t != []
    ensures var r, st := t[..|t| - 1], t[|t| - 1];
      Honest(setup, b, r) && Allowed(setup, Recall(setup, b, r), st.deed)
      && Recall(setup, b, t) == Next(setup, Recall(setup, b, r), st)
  {
    hide Allowed, Next;
  }

  lemma NextFlags(setup: Setup, m: Memory, st: Step)
    ensures var n := Next(setup, m, st);
      n.s == Effect(m.s, st) && n.last == Some(st)
      && n.outcome == (m.outcome || (st.deed == OUTCOME && st.answer.ended.Returned?))
      && n.cleaned == (m.cleaned || (st.deed.Clean? && st.answer.ended.Returned?))
      && n.bound == (m.bound || (st.deed.Bind? && st.answer.ended.Returned?))
      && n.postponed == (m.postponed || st.deed.Postpone?)
      && n.polls == if st.deed == Logged(Poll) then m.polls + 1 else m.polls
  {
    hide Hurt, Upset, Expired, Effect;
  }

  /** No write hides behind a call, and a request is closed with a result or as failed. */
  predicate Sound(d: Deed) {
    (d.Logged? ==> !d.event.Wrote?) && (d.Close? ==> d.to == Completing || d.to == Failed)
  }

  lemma AllowedIsSound(setup: Setup, m: Memory, d: Deed)
    requires Allowed(setup, m, d)
    ensures Sound(d) && (d == Close(Completing) ==> MayComplete(m))
  {
    hide MayComplete, MayFail, Earned, MayYield;
  }

  lemma EffectGrows(s: Snapshot, st: Step)
    ensures s.log <= Effect(s, st).log
    ensures st.deed == OUTCOME && st.answer.ended.Returned? ==> Effect(s, st).log == s.log + [Outcome(OtherCause)]
  {
  }

  /** A request gets a result by being closed with one, and keeps it unless it is condemned. */
  lemma EffectKeeps(s: Snapshot, st: Step)
    requires Sound(st.deed)
    ensures var t := Effect(s, st);
      (Concluding(t.state) && Concluding(s.state) ==> t.p == s.p && LastWrite(t.log) == LastWrite(s.log))
      && (Concluding(t.state) && !Concluding(s.state) ==>
            s.state == Running && st.deed == Close(Completing) && t.p == s.p
            && LastWrite(t.log) == Some(Wrote(Completing, t.p)))
      && (Concluding(s.state) && !Concluding(t.state) ==> t.state == Failed)
      && (s.state == Failed ==> t.state == Failed)
  {
    hide LastWrite;
    match st.deed {
      case Logged(e) => LastWriteOf(s.log, e);
      case Ask => LastWriteOf(s.log, Asked(st.answer.yes));
      case Close(to) => LastWriteOf(s.log, Wrote(to, s.p));
      case _ =>
    }
  }

  lemma OutcomeStands(a: seq<Event>, b: seq<Event>, c: seq<Event>)
    requires b <= c && OutcomeSince(a, b)
    ensures OutcomeSince(a, c)
  {
    var i :| |a| <= i < |b| && b[i] == Outcome(OtherCause);
    assert c[i] == Outcome(OtherCause);
  }

  lemma OutcomeLast(a: seq<Event>, b: seq<Event>, c: seq<Event>)
    requires a <= b && c == b + [Outcome(OtherCause)]
    ensures OutcomeSince(a, c)
  {
    assert c[|b|] == Outcome(OtherCause);
  }

  // ----- One cycle -----

  lemma {:induction false} OutcomesAreLogged(setup: Setup, b: Snapshot, t: seq<Step>)
    requires Honest(setup, b, t)
    ensures var m := Recall(setup, b, t);
      b.log <= m.s.log && (m.outcome ==> OutcomeSince(b.log, m.s.log))
  {
    hide Honest, Allowed, Next, Effect, OutcomeSince;
    if t != [] {
      var r, st := t[..|t| - 1], t[|t| - 1];
      Split(setup, b, t);
      OutcomesAreLogged(setup, b, r);
      var m := Recall(setup, b, r);
      NextFlags(setup, m, st);
      EffectGrows(m.s, st);
      if m.outcome { OutcomeStands(b.log, m.s.log, Effect(m.s, st).log); }
      if st.deed == OUTCOME && st.answer.ended.Returned? { OutcomeLast(b.log, m.s.log, Effect(m.s, st).log); }
    }
  }

  /** Within a cycle, a request gets a result only when its outcome was recorded in this cycle and no Check Run of it is
      open; and the result is the last thing written about it. */
  lemma {:induction false} ResultIsEarned(setup: Setup, b: Snapshot, t: seq<Step>)
    requires Honest(setup, b, t) && !Concluding(b.state)
    ensures var m := Recall(setup, b, t);
      Concluding(m.s.state) ==> m.outcome && WellEarned(b.log, m.s)
  {
    hide Honest, Allowed, Next, Effect, OutcomeSince, LastWrite;
    if t != [] {
      var r, st := t[..|t| - 1], t[|t| - 1];
      Split(setup, b, t);
      ResultIsEarned(setup, b, r);
      OutcomesAreLogged(setup, b, t);
      var m := Recall(setup, b, r);
      NextFlags(setup, m, st);
      AllowedIsSound(setup, m, st.deed);
      EffectKeeps(m.s, st);
    }
  }

  /** A result that was on record when the cycle began stands, unless the request is condemned. */
  lemma {:induction false} ResultStands(setup: Setup, b: Snapshot, t: seq<Step>)
    requires Honest(setup, b, t) && Concluding(b.state)
    ensures var m := Recall(setup, b, t);
      b.log <= m.s.log && if Concluding(m.s.state) then m.s.p == b.p && LastWrite(m.s.log) == LastWrite(b.log)
                          else m.s.state == Failed
  {
    hide Honest, Allowed, Next, Effect, LastWrite;
    if t != [] {
      var r, st := t[..|t| - 1], t[|t| - 1];
      Split(setup, b, t);
      ResultStands(setup, b, r);
      var m := Recall(setup, b, r);
      NextFlags(setup, m, st);
      AllowedIsSound(setup, m, st.deed);
      EffectKeeps(m.s, st);
      EffectGrows(m.s, st);
    }
  }

  // ----- Settled runs -----

  /** What is known of a cycle in which an allocation was cleaned up. */
  predicate CleanedUp(m: Memory) {
    (Just(m, OUTCOME) ==> m.outcome) && (Just(m, Postpone) ==> m.postponed) && (Claimed(m) ==> !m.cleaned)
    && (m.cleaned ==> m.outcome && !m.bound && !IsTimeout(m.s.p.phase) && m.polls > 0)
  }

  lemma SettledStep(setup: Setup, m: Memory, st: Step)
    requires Allowed(setup, m, st.deed) && CleanedUp(m) && (m.last.None? ==> !m.cleaned)
    ensures CleanedUp(Next(setup, m, st))
  {
    hide Hurt, Upset, Expired, Flaw, MayYield, MayComplete, MayFail, MayTell, MayRecover, MayShutChecks, MayCall, Quarantining,
      Handling, Earned;
    NextFlags(setup, m, st);
    if m.cleaned { EarnedKeepsTime(setup, m, st.deed); }
    CleanAllowed(setup, m, st.deed);
  }

  lemma CleanAllowed(setup: Setup, m: Memory, d: Deed)
    requires Allowed(setup, m, d)
    ensures d.Clean? ==> Just(m, OUTCOME) && !m.bound && !IsTimeout(m.s.p.phase) && m.polls > 0
    ensures d.Bind? ==> m.polls == 0
    ensures d.Condemn? ==> !IsTimeout(Some(d.phase))
  {
    hide Hurt, Upset, Expired, Flaw, MayYield, MayComplete, MayFail, MayTell, MayRecover, MayShutChecks, MayCall, Quarantining,
      Handling, Earned;
  }

  lemma EarnedKeepsTime(setup: Setup, m: Memory, d: Deed)
    requires Allowed(setup, m, d) && m.cleaned && !IsTimeout(m.s.p.phase)
    ensures d.Write? ==> !IsTimeout(d.p.phase)
  {
    hide ClosingNote, Advances, Converges, TimesOut, GivesUp, Hurt, Upset, Expired, Flaw, MayYield, MayComplete, MayFail, MayTell,
      MayRecover, MayShutChecks, MayCall;
    if d.Write? {
      if ClosingNote(m, d.p) {
        NotesAreOnTime(m, d.p);
      } else if Advances(m, d.p) {
        AdvancesAreOnTime(m, d.p);
      } else if Converges(setup, m, d.p) {
        ConvergingIsOnTime(setup, m, d.p);
      } else if GivesUp(setup, m, d.p) {
        GivingUpIsOnTime(setup, m, d.p);
      } else {
        LateRecords(m, d.p);
      }
    }
  }

  lemma NotesAreOnTime(m: Memory, q: Progress)
    requires ClosingNote(m, q)
    ensures IsTimeout(q.phase) ==> q.phase == m.s.p.phase
  {
    hide Just, Fell, Fault, WithChecks, CheckFailure;
    NotePhase(m.s.p, ChecksClosed, true);
    NotePhase(m.s.p, ChecksCloseFailed, false);
  }

  lemma NotePhase(p: Progress, note: Phase, closed: bool)
    ensures WithChecks(p, note, closed).phase == if p.phase.Some? then p.phase else Some(note)
  {
  }

  lemma AdvancesAreOnTime(m: Memory, q: Progress)
    requires Advances(m, q)
    ensures !IsTimeout(q.phase)
  {
  }

  lemma ConvergingIsOnTime(setup: Setup, m: Memory, q: Progress)
    requires Converges(setup, m, q)
    ensures !IsTimeout(q.phase)
  {
  }

  lemma GivingUpIsOnTime(setup: Setup, m: Memory, q: Progress)
    requires GivesUp(setup, m, q)
    ensures !IsTimeout(q.phase)
  {
  }

  lemma LateRecords(m: Memory, q: Progress)
    requires TimesOut(m, q) && m.cleaned
    ensures IsTimeout(m.s.p.phase)
  {
    hide Just, Fell, Fault, Fresh;
  }

  lemma {:induction false} CleanedUpHolds(setup: Setup, b: Snapshot, t: seq<Step>)
    requires Honest(setup, b, t)
    ensures CleanedUp(Recall(setup, b, t)) && (t == [] ==> !Recall(setup, b, t).cleaned)
    ensures t != [] ==> Recall(setup, b, t).last == Some(t[|t| - 1])
  {
    hide Honest, Allowed, Next, CleanedUp;
    if t == [] {
      BeginCleanedUp(b);
    } else {
      var r, st := t[..|t| - 1], t[|t| - 1];
      Split(setup, b, t);
      CleanedUpHolds(setup, b, r);
      SettledStep(setup, Recall(setup, b, r), st);
      NextFlags(setup, Recall(setup, b, r), st);
    }
  }

  lemma BeginCleanedUp(b: Snapshot)
    ensures CleanedUp(Begin(b)) && !Begin(b).cleaned
  {
  }

  /** Giving the request back. */
  lemma FreedEnds(setup: Setup, m: Memory, st: Step)
    requires MayYield(setup, m) && st.deed.Free? && st.answer.ended.Returned? && CleanedUp(m) && m.cleaned && !m.postponed
    requires Concluding(m.s.state) ==> NoOpenChecks(m.s.p)
    ensures var s := Effect(m.s, st); s.p == m.s.p && s.state == Retry && !NoOpenChecks(s.p)
  {
    hide Hurt, Upset, Expired, Flaw;
  }

  /** A settled run whose allocation was proved clean: when the cycle returns, the request is delivered if no Check Run is
      on record as open, and held back for another cycle if one is, unless the allocation was found to have expired. */
  lemma SettledEnds(setup: Setup, b: Snapshot, t: seq<Step>)
    requires Honest(setup, b, t) && !Concluding(b.state)
    requires var m := Recall(setup, b, t); m.cleaned && MayEnd(setup, m, Returned)
    ensures var m := Recall(setup, b, t);
      m.s.state == (if Just(m, Condemn(AllocationExpired)) then Failed else if NoOpenChecks(m.s.p) then Done else Retry)
      && (m.s.state == Failed ==> m.s.p.phase == Some(AllocationExpired))
  {
    hide Honest, Allowed, Next, Effect, MayRaise, MayYield;
    var m := Recall(setup, b, t);
    CleanedUpHolds(setup, b, t);
    ResultIsEarned(setup, b, t);
    if t != [] {
      var r, st := t[..|t| - 1], t[|t| - 1];
      Split(setup, b, t);
      CleanedUpHolds(setup, b, r);
      ResultIsEarned(setup, b, r);
      NextFlags(setup, Recall(setup, b, r), st);
      LastDeedEnds(setup, Recall(setup, b, r), st);
    }
  }

  lemma LastDeedEnds(setup: Setup, m: Memory, st: Step)
    requires Allowed(setup, m, st.deed) && CleanedUp(m) && CleanedUp(Next(setup, m, st)) && st.answer.ended.Returned?
    requires var n := Next(setup, m, st); n.cleaned && MayEnd(setup, n, Returned)
    requires Concluding(m.s.state) ==> NoOpenChecks(m.s.p)
    ensures var n := Next(setup, m, st);
      n.s.state == (if Just(n, Condemn(AllocationExpired)) then Failed else if NoOpenChecks(n.s.p) then Done else Retry)
      && (n.s.state == Failed ==> n.s.p.phase == Some(AllocationExpired))
  {
    hide MayRaise, MayYield, Hurt, Upset, Expired, Flaw, MayComplete, MayFail, MayTell, MayRecover, MayShutChecks, MayCall,
      Quarantining, Handling, Earned;
    NextFlags(setup, m, st);
    if st.deed.Free? { FreedEnds(setup, m, st); }
  }

  // ----- The worker -----

  /** A cycle delivers a request, or records its result, only when in this very cycle an outcome was recorded, no Check Run
      is on record as open, and the result was the last thing written. */
  lemma DoneIsEarned(w: World, setup: Setup)
    requires On(w) && Inv(w.s) && w.trace == [] && !Concluding(w.s.state)
    ensures var v := RunOnce(w, setup);
      Concluding(v.s.state) ==>
        OutcomeSince(w.s.log, v.s.log) && NoOpenChecks(v.s.p) && LastWrite(v.s.log) == Some(Wrote(Completing, v.s.p))
  {
    hide Honest, Recall, Inv, MayEnd, RunOnce, OutcomeSince;
    RunOnceConduct(w, setup);
    ResultIsEarned(setup, w.s, RunOnce(w, setup).trace);
  }

  /** The allocation's clean-up was proved in this cycle. */
  predicate ProvedClean(t: seq<Step>) {
    exists i :: 0 <= i < |t| && t[i].deed.Clean? && t[i].answer.ended.Returned?
  }

  lemma {:induction false} CleanIsRemembered(setup: Setup, b: Snapshot, t: seq<Step>)
    ensures ProvedClean(t) <==> Recall(setup, b, t).cleaned
  {
    hide Next;
    if t != [] {
      var r, st := t[..|t| - 1], t[|t| - 1];
      CleanIsRemembered(setup, b, r);
      NextFlags(setup, Recall(setup, b, r), st);
      if ProvedClean(r) {
        var i :| 0 <= i < |r| && r[i].deed.Clean? && r[i].answer.ended.Returned?;
        assert t[i] == r[i];
      }
      if ProvedClean(t) {
        var i :| 0 <= i < |t| && t[i].deed.Clean? && t[i].answer.ended.Returned?;
        if i < |r| { assert r[i] == t[i]; }
      }
    }
  }

  lemma OnlyFailedExpires(s: Snapshot)
    requires Inv(s)
    ensures s.p.phase == Some(AllocationExpired) ==> s.state == Failed
  {
    hide LogOk, Armed, LastRecord;
  }

  /** A cycle in which the clean-up was proved, and which returns, delivers the request exactly when no Check Run is on
      record as open and holds it back otherwise; only an allocation that expired meanwhile ends it failed. */
  lemma SettledIsDelivered(w: World, setup: Setup)
    requires On(w) && Inv(w.s) && w.trace == [] && !Concluding(w.s.state)
    ensures var v := RunOnce(w, setup);
      On(v) && ProvedClean(v.trace) ==>
        v.s.state == if v.s.p.phase == Some(AllocationExpired) then Failed
                     else if NoOpenChecks(v.s.p) then Done else Retry
  {
    hide Honest, Recall, Inv, MayEnd, RunOnce, ProvedClean;
    RunOnceConduct(w, setup);
    var v := RunOnce(w, setup);
    CleanIsRemembered(setup, w.s, v.trace);
    RunOnceFacts(w, setup);
    OnlyFailedExpires(v.s);
    if On(v) && ProvedClean(v.trace) { SettledEnds(setup, w.s, v.trace); }
  }

  // ----- Allocations -----

  /** The allocation is gone: its clean-up was proved or it was recovered in this cycle, its recovery is on record, or
      there was none. */
  predicate AllocationGone(m: Memory) {
    m.cleaned || m.recovered || !m.s.p.reserved || (Phased(m, CancelRecoveryPending) && m.s.p.recoveryComplete)
  }

  predicate IsClosed(s: State) {
    Concluding(s) || s == Failed
  }

  /** An empty row reserves nothing until it is recorded, and a closed request left no allocation behind. */
  predicate Tidy(m: Memory) {
    (m.s.p.phase.None? ==> m.s.p == EMPTY) && (Just(m, Reserve) ==> !m.bound)
    && (m.bound && !m.begun ==> !m.s.p.reserved)
    && (IsClosed(m.s.state) && !IsRetired(m.s.p.phase) ==> AllocationGone(m))
  }

  lemma ClosingFindsItGone(setup: Setup, m: Memory, d: Deed)
    requires Allowed(setup, m, d) && d.Close? && Tidy(m)
    ensures AllocationGone(m) && m.s.state == Running
  {
    hide Hurt, Upset, Expired, Flaw, MayYield, MayTell, MayRecover, MayShutChecks, MayCall, Quarantining, Handling, Earned;
  }

  lemma ReserveComesFirst(setup: Setup, m: Memory, d: Deed)
    requires Allowed(setup, m, d)
    ensures d.Reserve? ==> !m.bound
    ensures d.Write? ==> Earned(setup, m, d.p)
    ensures d.Condemn? ==> IsRetired(Some(d.phase))
  {
    hide Hurt, Upset, Expired, Flaw, MayYield, MayComplete, MayFail, MayTell, MayRecover, MayShutChecks, MayCall, Quarantining,
      Handling, Earned;
  }

  /** A record names a phase, and reserves only what was just reserved. */
  predicate Named(m: Memory, q: Progress) {
    q.phase.Some? && (q.reserved ==> m.s.p.reserved || Just(m, Reserve))
  }

  lemma RecordsReserve(setup: Setup, m: Memory, q: Progress)
    requires Earned(setup, m, q)
    ensures Named(m, q)
  {
    hide ClosingNote, Advances, Converges, TimesOut, GivesUp, Named;
    if ClosingNote(m, q) {
      NotesReserve(m, q);
    } else if Advances(m, q) {
      AdvancesReserve(m, q);
    } else if Converges(setup, m, q) {
      ConvergingReserves(setup, m, q);
    } else if TimesOut(m, q) {
      LateReserves(m, q);
    } else {
      GivingUpReserves(setup, m, q);
    }
  }

  lemma NotesReserve(m: Memory, q: Progress)
    requires ClosingNote(m, q)
    ensures Named(m, q)
  {
    hide Just, Fell, Fault, WithChecks, CheckFailure;
    NoteReserved(m.s.p, ChecksClosed, true);
    NoteReserved(m.s.p, ChecksCloseFailed, false);
  }

  lemma NoteReserved(p: Progress, note: Phase, closed: bool)
    ensures WithChecks(p, note, closed).phase.Some? && WithChecks(p, note, closed).reserved == p.reserved
  {
  }

  predicate BeforeRun(q: Progress) {
    q.phase == Some(PackageIssued) || q.phase == Some(Reserved) || q.phase == Some(Dispatching) || q.phase == Some(Dispatched)
  }

  lemma AdvancesReserve(m: Memory, q: Progress)
    requires Advances(m, q)
    ensures Named(m, q)
  {
    hide Advances, BeforeRun, Named;
    if BeforeRun(q) { EarlyReserves(m, q); } else { LaterReserves(m, q); }
  }

  lemma EarlyReserves(m: Memory, q: Progress)
    requires Advances(m, q) && BeforeRun(q)
    ensures Named(m, q)
  {
  }

  lemma LaterReserves(m: Memory, q: Progress)
    requires Advances(m, q) && !BeforeRun(q)
    ensures Named(m, q)
  {
    hide Advances, Named;
    if q.phase == Some(Observed) || q.phase == Some(AllocationWindow) { RunReserves(m, q); } else { LastReserves(m, q); }
  }

  lemma RunReserves(m: Memory, q: Progress)
    requires Advances(m, q) && (q.phase == Some(Observed) || q.phase == Some(AllocationWindow))
    ensures Named(m, q)
  {
  }

  lemma LastReserves(m: Memory, q: Progress)
    requires Advances(m, q) && !BeforeRun(q) && q.phase != Some(Observed) && q.phase != Some(AllocationWindow)
    ensures Named(m, q)
  {
  }

  lemma ConvergingReserves(setup: Setup, m: Memory, q: Progress)
    requires Converges(setup, m, q)
    ensures Named(m, q)
  {
  }

  lemma LateReserves(m: Memory, q: Progress)
    requires TimesOut(m, q)
    ensures Named(m, q)
  {
    hide Fell, Fault, Fresh, StillRunning;
  }

  lemma GivingUpReserves(setup: Setup, m: Memory, q: Progress)
    requires GivesUp(setup, m, q)
    ensures Named(m, q)
  {
    hide Handling;
  }

  lemma NextMore(setup: Setup, m: Memory, st: Step)
    ensures var n := Next(setup, m, st);
      n.s == Effect(m.s, st) && n.last == Some(st) && (m.cleaned ==> n.cleaned) && (m.recovered ==> n.recovered)
      && n.bound == (m.bound || (st.deed.Bind? && st.answer.ended.Returned?))
      && n.begun == if st.deed.Bind? then m.s.p.phase.Some? else m.begun
  {
    hide Hurt, Upset, Expired, Effect;
  }

  /** What a step does to the row. */
  lemma EffectOnRow(s: Snapshot, st: Step)
    ensures var t := Effect(s, st);
      (t.p == s.p || (st.deed.Write? && t.p == st.deed.p && s.state == Running && t.state == Running)
       || (st.deed.Condemn? && t.state == Failed && t.p == s.p.(phase := Some(st.deed.phase))))
      && (IsClosed(t.state) && !IsClosed(s.state) ==>
            st.deed.Close? || (st.deed.Condemn? && t.p.phase == Some(st.deed.phase)))
  {
  }

  lemma TidyStep(setup: Setup, m: Memory, st: Step)
    requires Allowed(setup, m, st.deed) && Tidy(m)
    ensures Tidy(Next(setup, m, st))
  {
    hide Allowed, Next, Effect, Earned;
    NextMore(setup, m, st);
    EffectOnRow(m.s, st);
    ReserveComesFirst(setup, m, st.deed);
    if st.deed.Write? { RecordsReserve(setup, m, st.deed.p); }
    if st.deed.Close? { ClosingFindsItGone(setup, m, st.deed); }
  }

  lemma {:induction false} TidyHolds(setup: Setup, b: Snapshot, t: seq<Step>)
    requires Honest(setup, b, t) && RowOk(b) && !IsClosed(b.state)
    ensures Tidy(Recall(setup, b, t))
  {
    hide Honest, Allowed, Next, Tidy;
    if t == [] {
      BeginTidy(b);
    } else {
      var r, st := t[..|t| - 1], t[|t| - 1];
      Split(setup, b, t);
      TidyHolds(setup, b, r);
      TidyStep(setup, Recall(setup, b, r), st);
    }
  }

  lemma BeginTidy(b: Snapshot)
    requires RowOk(b) && !IsClosed(b.state)
    ensures Tidy(Begin(b))
  {
  }

  /** The allocation was proved clean or recovered in these steps. */
  predicate Released(t: seq<Step>) {
    exists i :: 0 <= i < |t| && (t[i].deed.Clean? || t[i].deed.Recover?) && t[i].answer.ended.Returned?
  }

  lemma {:induction false} ReleaseIsRemembered(setup: Setup, b: Snapshot, t: seq<Step>)
    ensures Recall(setup, b, t).cleaned || Recall(setup, b, t).recovered ==> Released(t)
  {
    hide Next;
    if t != [] {
      var r, st := t[..|t| - 1], t[|t| - 1];
      ReleaseIsRemembered(setup, b, r);
      ReleasedLater(r, st);
      assert r + [st] == t;
      NextReleases(setup, Recall(setup, b, r), st);
    }
  }

  lemma NextReleases(setup: Setup, m: Memory, st: Step)
    ensures var n := Next(setup, m, st);
      n.cleaned || n.recovered ==>
        m.cleaned || m.recovered || ((st.deed.Clean? || st.deed.Recover?) && st.answer.ended.Returned?)
  {
    hide Hurt, Upset, Expired, Effect;
  }

  lemma ReleasedLater(t: seq<Step>, st: Step)
    ensures Released(t) || ((st.deed.Clean? || st.deed.Recover?) && st.answer.ended.Returned?) ==> Released(t + [st])
  {
    if Released(t) {
      var i :| 0 <= i < |t| && (t[i].deed.Clean? || t[i].deed.Recover?) && t[i].answer.ended.Returned?;
      assert (t + [st])[i] == t[i];
    } else {
      assert (t + [st])[|t|] == st;
    }
  }

  /** A cycle closes a request, with a result or as failed, only when its allocation was proved clean or recovered in this
      very cycle, its recovery is on record, or there was none; only a quarantine may leave one behind. */
  lemma NothingIsLeftBehind(w: World, setup: Setup)
    requires On(w) && Inv(w.s) && w.trace == [] && !IsClosed(w.s.state)
    ensures var v := RunOnce(w, setup);
      IsClosed(v.s.state) && !IsRetired(v.s.p.phase) ==>
        Released(v.trace) || !v.s.p.reserved || v.s.p.recoveryComplete
  {
    hide Honest, Recall, Inv, MayEnd, RunOnce, Released;
    RunOnceConduct(w, setup);
    InvMeansRowOk(w.s);
    TidyHolds(setup, w.s, RunOnce(w, setup).trace);
    ReleaseIsRemembered(setup, w.s, RunOnce(w, setup).trace);
  }

  // ----- Whole runs -----

  /** Over any cycles, answers, crashes and restarts: a request whose result is on record, delivered or not, had an
      outcome recorded, has no Check Run on record as open, and nothing was written about it after its result. */
  lemma {:induction false} ResultsAreEarned(setup: Setup, cycles: seq<Cycle>)
    ensures var s := Served(setup, cycles);
      Concluding(s.state) ==>
        OutcomeSince([], s.log) && NoOpenChecks(s.p) && LastWrite(s.log) == Some(Wrote(Completing, s.p))
  {
    hide Honest, Recall, Inv, MayEnd, RunOnce, OutcomeSince, LastWrite;
    if cycles != [] {
      var before := cycles[..|cycles| - 1];
      var c := cycles[|cycles| - 1];
      ResultsAreEarned(setup, before);
      ServedKeeps(setup, before, |before|);
      var s := Served(setup, before);
      RestartKeeps(s);
      var w := World(if c.restarted then Restarted(s) else s, c.script, Returned, []);
      RunOnceConduct(w, setup);
      var t := RunOnce(w, setup).s;
      if Concluding(w.s.state) {
        ResultStands(setup, w.s, RunOnce(w, setup).trace);
        if Concluding(t.state) { OutcomeStands([], w.s.log, t.log); }
      } else {
        DoneIsEarned(w, setup);
        if Concluding(t.state) { OutcomeEver(w.s.log, t.log); }
      }
    }
  }

  lemma OutcomeEver(a: seq<Event>, b: seq<Event>)
    requires OutcomeSince(a, b)
    ensures OutcomeSince([], b)
  {
    var i :| |a| <= i < |b| && b[i] == Outcome(OtherCause);
  }
}
