/** What every admission has behind it, in every interleaving: the claim, the live proof, the disabled set. */
module BrokerAdmission {
  import opened Basics
  import opened Ledger
  import opened Garm
  import opened BrokerSteps
  import opened BrokerRuns
  import opened HostedFallback

  // ----- What a call has seen -----

  /** Event `k` is a step of call `pid`. */
  predicate StepOf(run: seq<Event>, k: int, pid: int) {
    0 <= k < |run| && run[k].Advance? && run[k].pid == pid
  }

  /** One call has been in progress under `pid` from `i` to `j`. */
  ghost predicate SameCall(w0: World, run: seq<Event>, i: int, j: int, pid: int) {
    0 <= i <= j <= |run| && forall m :: i <= m <= j ==> pid in After(w0, run[..m]).calls
  }

  /** At step `k` the call met the allocation's own set enabled, with this runner as its only registration. */
  ghost predicate SawClaim(w0: World, run: seq<Event>, k: int, pid: int, name: Name, id: int, runner: string) {
    StepOf(run, k, pid)
    && var g := After(w0, run[..k]).shared.garm;
       id in g && g[id].name == name && g[id].enabled && g[id].runners == [runner]
  }

  /** At step `k` the live-job check succeeded. */
  predicate SawProof(run: seq<Event>, k: int, pid: int) {
    StepOf(run, k, pid) && run[k].given.verified
  }

  /** Step `k` left the set disabled. */
  ghost predicate LeftDisabled(w0: World, run: seq<Event>, k: int, pid: int, name: Name, id: int) {
    StepOf(run, k, pid)
    && var g := After(w0, run[..k + 1]).shared.garm;
       id in g && g[id].name == name && !g[id].enabled
  }

  ghost predicate HasClaim(w0: World, run: seq<Event>, pid: int, name: Name, id: int, runner: string) {
    exists i :: SawClaim(w0, run, i, pid, name, id, runner) && SameCall(w0, run, i, |run|, pid)
  }

  ghost predicate HasProof(w0: World, run: seq<Event>, pid: int, name: Name, id: int, runner: string) {
    exists i, j :: i < j && SawClaim(w0, run, i, pid, name, id, runner) && SawProof(run, j, pid)
      && SameCall(w0, run, i, |run|, pid)
  }

  /** Claim, proof and disabled set, in this order, in one call that is still in progress. */
  ghost predicate Earned(w0: World, run: seq<Event>, pid: int, name: Name, id: int, runner: string) {
    exists i, j, k :: i < j < k && SawClaim(w0, run, i, pid, name, id, runner) && SawProof(run, j, pid)
      && LeftDisabled(w0, run, k, pid, name, id) && SameCall(w0, run, i, |run|, pid)
  }

  /** What a call in progress has earned so far. */
  ghost predicate CallEarned(w0: World, run: seq<Event>, pid: int, rows: Rows, call: Call) {
    match call
    case StartVerify(_, c, _, _, name, id) => HasClaim(w0, run, pid, name, id, c.runnerName)
    case StartDisable(_, c, _, _, name, id) => HasProof(w0, run, pid, name, id, c.runnerName)
    case StartAdmit(a, c, _, _) =>
      a in rows && rows[a].garmId.Some?
      && Earned(w0, run, pid, rows[a].scaleSetName, rows[a].garmId.value, c.runnerName)
    case _ => true
  }

  // ----- It stays earned -----

  lemma Prefixes(run: seq<Event>, e: Event)
    ensures forall m :: 0 <= m <= |run| ==> (run + [e])[..m] == run[..m]
    ensures (run + [e])[|run|] == e && (run + [e])[..|run|] == run && (run + [e])[..|run| + 1] == run + [e]
  {
  }

  lemma SameCallExtends(w0: World, run: seq<Event>, e: Event, i: int, pid: int)
    requires SameCall(w0, run, i, |run|, pid) && pid in After(w0, run + [e]).calls
    ensures SameCall(w0, run + [e], i, |run| + 1, pid)
  {
    hide After;
    Prefixes(run, e);
    forall m | i <= m <= |run| + 1 ensures pid in After(w0, (run + [e])[..m]).calls {
      if m <= |run| { assert (run + [e])[..m] == run[..m]; }
    }
  }

  lemma ClaimExtends(w0: World, run: seq<Event>, e: Event, k: int, pid: int, name: Name, id: int, runner: string)
    requires SawClaim(w0, run, k, pid, name, id, runner)
    ensures SawClaim(w0, run + [e], k, pid, name, id, runner)
  {
    hide After;
    assert (run + [e])[..k] == run[..k];
  }

  lemma DisabledExtends(w0: World, run: seq<Event>, e: Event, k: int, pid: int, name: Name, id: int)
    requires LeftDisabled(w0, run, k, pid, name, id)
    ensures LeftDisabled(w0, run + [e], k, pid, name, id)
  {
    hide After;
    assert (run + [e])[..k + 1] == run[..k + 1];
  }

  lemma EarnedExtends(w0: World, run: seq<Event>, e: Event, pid: int, name: Name, id: int, runner: string)
    requires pid in After(w0, run + [e]).calls
    ensures HasClaim(w0, run, pid, name, id, runner) ==> HasClaim(w0, run + [e], pid, name, id, runner)
    ensures HasProof(w0, run, pid, name, id, runner) ==> HasProof(w0, run + [e], pid, name, id, runner)
    ensures Earned(w0, run, pid, name, id, runner) ==> Earned(w0, run + [e], pid, name, id, runner)
  {
    hide After, SawClaim, LeftDisabled, SameCall;
    if HasClaim(w0, run, pid, name, id, runner) {
      var i :| SawClaim(w0, run, i, pid, name, id, runner) && SameCall(w0, run, i, |run|, pid);
      ClaimExtends(w0, run, e, i, pid, name, id, runner);
      SameCallExtends(w0, run, e, i, pid);
    }
    if HasProof(w0, run, pid, name, id, runner) {
      var i, j :| i < j && SawClaim(w0, run, i, pid, name, id, runner) && SawProof(run, j, pid)
        && SameCall(w0, run, i, |run|, pid);
      ClaimExtends(w0, run, e, i, pid, name, id, runner);
      SameCallExtends(w0, run, e, i, pid);
      assert SawProof(run + [e], j, pid);
    }
    if Earned(w0, run, pid, name, id, runner) {
      var i, j, k :| i < j < k && SawClaim(w0, run, i, pid, name, id, runner) && SawProof(run, j, pid)
        && LeftDisabled(w0, run, k, pid, name, id) && SameCall(w0, run, i, |run|, pid);
      ClaimExtends(w0, run, e, i, pid, name, id, runner);
      DisabledExtends(w0, run, e, k, pid, name, id);
      SameCallExtends(w0, run, e, i, pid);
      assert SawProof(run + [e], j, pid);
    }
  }

  // ----- Each step earns its part -----

  /** The call that is about to look at the claim. */
  lemma ClaimIsEarned(w0: World, run: seq<Event>, e: Event, name: Name, id: int, runner: string)
    requires e.Advance? && e.pid in After(w0, run).calls && e.pid in After(w0, run + [e]).calls
    requires Claimed(After(w0, run).shared.garm, id, name, runner)
    ensures HasClaim(w0, run + [e], e.pid, name, id, runner)
  {
    hide After;
    Prefixes(run, e);
    assert SawClaim(w0, run + [e], |run|, e.pid, name, id, runner);
    forall m | |run| <= m <= |run| + 1 ensures e.pid in After(w0, (run + [e])[..m]).calls {
      assert m == |run| || m == |run| + 1;
    }
    assert SameCall(w0, run + [e], |run|, |run| + 1, e.pid);
  }

  lemma ProofIsEarned(w0: World, run: seq<Event>, e: Event, name: Name, id: int, runner: string)
    requires e.Advance? && e.given.verified && e.pid in After(w0, run + [e]).calls
    requires HasClaim(w0, run, e.pid, name, id, runner)
    ensures HasProof(w0, run + [e], e.pid, name, id, runner)
  {
    hide After, SawClaim, SameCall;
    var i :| SawClaim(w0, run, i, e.pid, name, id, runner) && SameCall(w0, run, i, |run|, e.pid);
    assert i < |run| by { ClaimIsBefore(w0, run, i, e.pid, name, id, runner); }
    ClaimExtends(w0, run, e, i, e.pid, name, id, runner);
    SameCallExtends(w0, run, e, i, e.pid);
    assert SawProof(run + [e], |run|, e.pid);
  }

  lemma ClaimIsBefore(w0: World, run: seq<Event>, i: int, pid: int, name: Name, id: int, runner: string)
    requires SawClaim(w0, run, i, pid, name, id, runner)
    ensures 0 <= i < |run|
  {
  }

  lemma DisabledIsEarned(w0: World, run: seq<Event>, e: Event, name: Name, id: int, runner: string)
    requires e.Advance? && e.pid in After(w0, run + [e]).calls
    requires HasProof(w0, run, e.pid, name, id, runner)
    requires var g := After(w0, run + [e]).shared.garm; id in g && g[id].name == name && !g[id].enabled
    ensures Earned(w0, run + [e], e.pid, name, id, runner)
  {
    hide After, SawClaim, SameCall;
    var i, j :| i < j && SawClaim(w0, run, i, e.pid, name, id, runner) && SawProof(run, j, e.pid)
      && SameCall(w0, run, i, |run|, e.pid);
    ClaimExtends(w0, run, e, i, e.pid, name, id, runner);
    SameCallExtends(w0, run, e, i, e.pid);
    assert SawProof(run + [e], j, e.pid);
    Prefixes(run, e);
    assert LeftDisabled(w0, run + [e], |run|, e.pid, name, id);
  }

  lemma StepAfter(w0: World, run: seq<Event>, e: Event)
    ensures After(w0, run + [e]) == Apply(After(w0, run), e)
  {
    hide Apply;
    assert (run + [e])[..|run|] == run;
  }

  predicate Starting(call: Call) {
    call.StartPayload? || call.StartBinding? || call.StartClaim? || call.StartVerify? || call.StartDisable?
    || call.StartAdmit?
  }

  /** Only a start step leads to one. */
  lemma OthersStartNothing(s: Shared, call: Call, given: Given)
    requires !Starting(call) && Step(s, call, given).Go?
    ensures !Starting(Step(s, call, given).call)
  {
    hide Reserve, Finalize, Transition, Install, Enable, Disable, Claimed, Matches, Drained, BoundName, Absent, Find,
         Bind, Delete, EnsureDisabled;
  }

  lemma StartStepIs(s: Shared, call: Call, given: Given)
    requires Starting(call)
    ensures Step(s, call, given) == StartStep(s, call, given)
  {
    hide ReserveStep, FinalizeStep, StartStep, FinishStep, RecoverStep, DeleteStep, SettleStep;
  }

  /** The calling process earns what its next step relies on. */
  lemma AdvanceEarns(w0: World, run: seq<Event>, e: Event)
    requires e.Advance? && e.pid in After(w0, run).calls && WorldOk(After(w0, run))
    requires Step(After(w0, run).shared, After(w0, run).calls[e.pid], e.given).Go?
    requires CallEarned(w0, run, e.pid, After(w0, run).shared.rows, After(w0, run).calls[e.pid])
    ensures var n := Step(After(w0, run).shared, After(w0, run).calls[e.pid], e.given);
      CallEarned(w0, run + [e], e.pid, n.s.rows, n.call)
  {
    hide After, Step, HasClaim, HasProof, Earned, Transition, Matches, RowsOk;
    var w := After(w0, run);
    var s, call := w.shared, w.calls[e.pid];
    var n := Step(s, call, e.given);
    StepAfter(w0, run, e);
    assert After(w0, run + [e]) == World(n.s, w.calls[e.pid := n.call]);
    if !Starting(call) {
      OthersStartNothing(s, call, e.given);
    } else {
      assert CallOk(s.rows, call);
      StartStepIs(s, call, e.given);
      match call {
        case StartClaim(a, c, _, _, name, id) => ClaimIsEarned(w0, run, e, name, id, c.runnerName);
        case StartVerify(a, c, _, _, name, id) => ProofIsEarned(w0, run, e, name, id, c.runnerName);
        case StartDisable(a, c, _, _, name, id) => DisabledIsEarned(w0, run, e, name, id, c.runnerName);
        case _ =>
      }
    }
  }

  lemma EarnedStays(w0: World, run: seq<Event>, e: Event, pid: int, call: Call)
    requires var w, x := After(w0, run), After(w0, run + [e]);
      pid in x.calls && CallEarned(w0, run, pid, w.shared.rows, call) && RowsAge(w.shared.rows, x.shared.rows)
    ensures CallEarned(w0, run + [e], pid, After(w0, run + [e]).shared.rows, call)
  {
    hide After, HasClaim, HasProof, Earned, RowsAge;
    if call.StartVerify? || call.StartDisable? {
      EarnedExtends(w0, run, e, pid, call.name, call.id, call.c.runnerName);
    } else if call.StartAdmit? {
      var rows := After(w0, run).shared.rows;
      HeldStays(rows, After(w0, run + [e]).shared.rows, call.a);
      EarnedExtends(w0, run, e, pid, rows[call.a].scaleSetName, rows[call.a].garmId.value, call.c.runnerName);
    }
  }

  ghost predicate AllEarned(w0: World, run: seq<Event>) {
    var w := After(w0, run);
    forall pid :: pid in w.calls ==> CallEarned(w0, run, pid, w.shared.rows, w.calls[pid])
  }

  lemma EventEarns(w0: World, run: seq<Event>, e: Event)
    requires WorldOk(After(w0, run)) && AllEarned(w0, run)
    ensures AllEarned(w0, run + [e])
  {
    hide After, Step, CallEarned, WorldOk, RowsAge;
    var w, x := After(w0, run), After(w0, run + [e]);
    StepAfter(w0, run, e);
    ApplyKeeps(w, e);
    forall pid | pid in x.calls ensures CallEarned(w0, run + [e], pid, x.shared.rows, x.calls[pid]) {
      if e.Advance? && e.pid == pid && pid in w.calls && Step(w.shared, w.calls[pid], e.given).Go? {
        AdvanceEarns(w0, run, e);
      } else if e.Begin? && e.pid == pid && pid !in w.calls {
        EntryEarnsNothing(w0, run + [e], pid, x.shared.rows, e.call);
      } else {
        EarnedStays(w0, run, e, pid, w.calls[pid]);
      }
    }
  }

  lemma EntryEarnsNothing(w0: World, run: seq<Event>, pid: int, rows: Rows, call: Call)
    requires Entry(call)
    ensures CallEarned(w0, run, pid, rows, call)
  {
  }

  lemma {:induction false} RunEarns(garm: Sets, instances: set<Name>, run: seq<Event>)
    ensures AllEarned(Start(garm, instances), run)
  {
    hide Apply, CallEarned, WorldOk;
    if run != [] {
      var init := run[..|run| - 1];
      RunEarns(garm, instances, init);
      RunKeeps(garm, instances, init);
      EventEarns(Start(garm, instances), init, run[|run| - 1]);
      assert init + [run[|run| - 1]] == run;
    }
  }

  /** Every admission, in every run: the same call has earlier met the allocation's own set enabled with its runner as
      the only registration, then had the live job proved, then left that set disabled. */
  lemma AdmissionIsEarned(garm: Sets, instances: set<Name>, run: seq<Event>, m: nat, a: string)
    requires m < |run| && Admits(After(Start(garm, instances), run[..m]), run[m], a)
    ensures var w := After(Start(garm, instances), run[..m]);
      a in w.shared.rows && w.shared.rows[a].garmId.Some?
      && Earned(Start(garm, instances), run[..m], run[m].pid, w.shared.rows[a].scaleSetName,
                w.shared.rows[a].garmId.value, w.calls[run[m].pid].c.runnerName)
  {
    hide After, Step, Earned;
    RunEarns(garm, instances, run[..m]);
  }

  // ----- Nothing else sets a job running -----

  predicate RunsOn(rows: Rows, a: string) {
    a in rows && rows[a].state == Running
  }

  lemma OnlyAdmitJobRuns(rows: Rows, b: string, action: Action, a: string)
    requires !RunsOn(rows, a) && Transition(rows, b, action).Ok? && RunsOn(Transition(rows, b, action).value, a)
    ensures action.AdmitJob? && a == b
  {
  }

  lemma FrontStepsRunNothing(s: Shared, call: Call, given: Given, a: string)
    requires !RunsOn(s.rows, a)
    ensures (call.ReserveLedger? || call.ReserveEnsure? || call.ReserveBind?) ==>
      !RunsOn(SharedAfter(s, ReserveStep(s, call, given)).rows, a)
    ensures (call.FinalizeLedger? || call.FinalizeBinding? || call.FinalizeInstall? || call.FinalizeEnable?) ==>
      !RunsOn(SharedAfter(s, FinalizeStep(s, call)).rows, a)
    ensures (call.FinishGet? || call.FinishMove? || call.FinishBinding? || call.FinishMeasure? || call.FinishCleanup?) ==>
      !RunsOn(SharedAfter(s, FinishStep(s, call)).rows, a)
  {
    hide ValidReservation, ValidPayload, EnsureDisabled, Install, Enable, Absent, Transition;
    if call.FinishMove? && Transition(s.rows, call.a, Finish(call.outcome, call.cancelAttempted)).Ok? {
      assert RunsOn(Transition(s.rows, call.a, Finish(call.outcome, call.cancelAttempted)).value, a) ==> false by {
        if RunsOn(Transition(s.rows, call.a, Finish(call.outcome, call.cancelAttempted)).value, a) {
          OnlyAdmitJobRuns(s.rows, call.a, Finish(call.outcome, call.cancelAttempted), a);
        }
      }
    }
    if call.FinishCleanup? && Transition(s.rows, call.a, Cleanup).Ok?
       && RunsOn(Transition(s.rows, call.a, Cleanup).value, a) {
      OnlyAdmitJobRuns(s.rows, call.a, Cleanup, a);
    }
  }

  lemma BackStepsRunNothing(s: Shared, call: Call, a: string)
    requires !RunsOn(s.rows, a)
    ensures (call.RecoverGet? || call.RecoverName? || call.RecoverBinding? || call.RecoverFind? || call.RecoverBind?) ==>
      !RunsOn(SharedAfter(s, RecoverStep(s, call)).rows, a)
    ensures (call.DeleteFind? || call.DeleteDisable? || call.DeleteDrain? || call.DeleteDelete? || call.DeleteAbsent?) ==>
      !RunsOn(SharedAfter(s, DeleteStep(s, call)).rows, a)
    ensures (call.RecoverMove? || call.RecoverMeasure? || call.RecoverAcknowledge? || call.RecoverCleanup?
             || call.RecoverFinal?) ==> !RunsOn(SharedAfter(s, SettleStep(s, call)).rows, a)
  {
    hide Transition, Find, Disable, Delete, Drained, Absent, Named, BoundName;
    if call.RecoverMove? && Transition(s.rows, call.a, Action.Recover).Ok?
       && RunsOn(Transition(s.rows, call.a, Action.Recover).value, a) {
      OnlyAdmitJobRuns(s.rows, call.a, Action.Recover, a);
    }
    if call.RecoverAcknowledge? && Transition(s.rows, call.a, Acknowledge(call.key, call.evidence)).Ok?
       && RunsOn(Transition(s.rows, call.a, Acknowledge(call.key, call.evidence)).value, a) {
      OnlyAdmitJobRuns(s.rows, call.a, Acknowledge(call.key, call.evidence), a);
    }
    if call.RecoverCleanup? && Transition(s.rows, call.a, Cleanup).Ok?
       && RunsOn(Transition(s.rows, call.a, Cleanup).value, a) {
      OnlyAdmitJobRuns(s.rows, call.a, Cleanup, a);
    }
  }

  lemma StartStepsRun(s: Shared, call: Call, given: Given, a: string)
    requires Starting(call) && !RunsOn(s.rows, a) && RunsOn(SharedAfter(s, StartStep(s, call, given)).rows, a)
    ensures call.StartAdmit? && call.a == a && StartStep(s, call, given).Return?
  {
    hide Transition, Disable, Claimed, Matches;
    if call.StartAdmit? && Transition(s.rows, call.a, AdmitJob(call.now + given.elapsed)).Ok? {
      OnlyAdmitJobRuns(s.rows, call.a, AdmitJob(call.now + given.elapsed), a);
    }
  }

  /** A row that comes to run a job has just been admitted: there is no other way. */
  lemma OnlyAdmissionsRun(w: World, e: Event, a: string)
    requires !RunsOn(w.shared.rows, a) && RunsOn(Apply(w, e).shared.rows, a)
    ensures Admits(w, e, a)
  {
    hide Step, ReserveStep, FinalizeStep, StartStep, FinishStep, RecoverStep, DeleteStep, SettleStep;
    if e.Advance? && e.pid in w.calls {
      var s, call := w.shared, w.calls[e.pid];
      assert Apply(w, e).shared.rows == SharedAfter(s, Step(s, call, e.given)).rows;
      FamilyOf(s, call, e.given);
      if Starting(call) {
        StartStepsRun(s, call, e.given, a);
      } else {
        FrontStepsRunNothing(s, call, e.given, a);
        BackStepsRunNothing(s, call, a);
      }
    }
  }

  lemma FamilyOf(s: Shared, call: Call, given: Given)
    ensures Starting(call) ==> Step(s, call, given) == StartStep(s, call, given)
    ensures (call.ReserveLedger? || call.ReserveEnsure? || call.ReserveBind?) ==>
      Step(s, call, given) == ReserveStep(s, call, given)
    ensures (call.FinalizeLedger? || call.FinalizeBinding? || call.FinalizeInstall? || call.FinalizeEnable?) ==>
      Step(s, call, given) == FinalizeStep(s, call)
    ensures (call.FinishGet? || call.FinishMove? || call.FinishBinding? || call.FinishMeasure? || call.FinishCleanup?) ==>
      Step(s, call, given) == FinishStep(s, call)
    ensures (call.RecoverGet? || call.RecoverName? || call.RecoverBinding? || call.RecoverFind? || call.RecoverBind?) ==>
      Step(s, call, given) == RecoverStep(s, call)
    ensures (call.DeleteFind? || call.DeleteDisable? || call.DeleteDrain? || call.DeleteDelete? || call.DeleteAbsent?) ==>
      Step(s, call, given) == DeleteStep(s, call)
    ensures (call.RecoverMove? || call.RecoverMeasure? || call.RecoverAcknowledge? || call.RecoverCleanup?
             || call.RecoverFinal?) ==> Step(s, call, given) == SettleStep(s, call)
  {
    hide ReserveStep, FinalizeStep, StartStep, FinishStep, RecoverStep, DeleteStep, SettleStep;
  }

  // ----- A nonce is good for one allocation -----

  predicate NoncesDistinct(rows: Rows) {
    forall a, b :: a in rows && b in rows && rows[a].reservation.identity.nonce == rows[b].reservation.identity.nonce ==> a == b
  }

  lemma ReserveKeepsNonces(rows: Rows, r: Reservation, now: int)
    requires NoncesDistinct(rows) && Reserve(rows, r, now).Ok?
    ensures NoncesDistinct(Reserve(rows, r, now).value)
  {
    hide ValidReservation;
  }

  lemma OldRowsKeepNonces(before: Rows, after: Rows)
    requires NoncesDistinct(before) && RowsAge(before, after) && forall a :: a in after ==> a in before
    ensures NoncesDistinct(after)
  {
  }

  lemma ApplyKeepsNonces(w: World, e: Event)
    requires WorldOk(w) && NoncesDistinct(w.shared.rows)
    ensures NoncesDistinct(Apply(w, e).shared.rows)
  {
    hide Step, RowsAge, WorldOk, NoncesDistinct, ReserveStep;
    ApplyKeeps(w, e);
    if e.Advance? && e.pid in w.calls {
      var s, call, x := w.shared, w.calls[e.pid], Apply(w, e);
      if call.ReserveLedger? {
        FamilyOf(s, call, e.given);
        ReserveFirstStep(s, call, e.given);
        if Reserve(s.rows, call.r, call.now).Ok? { ReserveKeepsNonces(s.rows, call.r, call.now); }
      } else {
        forall a | a in x.shared.rows ensures a in s.rows {
          if a !in s.rows { StepAddsNoRow(s, call, e.given, a); }
        }
        OldRowsKeepNonces(s.rows, x.shared.rows);
      }
    }
  }

  lemma ReserveFirstStep(s: Shared, call: Call, given: Given)
    requires call.ReserveLedger?
    ensures ReserveStep(s, call, given) == WithRows(s, Reserve(s.rows, call.r, call.now), ReserveEnsure(call.r))
  {
    hide Reserve;
  }

  /** No two allocations of a run were ever reserved with one nonce. */
  lemma {:induction false} RunKeepsNonces(garm: Sets, instances: set<Name>, run: seq<Event>)
    ensures NoncesDistinct(After(Start(garm, instances), run).shared.rows)
  {
    hide Apply, WorldOk;
    if run != [] {
      RunKeepsNonces(garm, instances, run[..|run| - 1]);
      RunKeeps(garm, instances, run[..|run| - 1]);
      ApplyKeepsNonces(After(Start(garm, instances), run[..|run| - 1]), run[|run| - 1]);
    }
  }
}
