/** What each broker call achieves when nothing disturbs it, and exactly when it returns. */
module BrokerOutcomes {
  import opened Basics
  import opened Ledger
  import opened Garm
  import opened BrokerSteps
  import opened BrokerRuns
  import opened BrokerRecovery

  // ----- Reserve -----

  /** The reservation names the allocation's own scale set, and its short approval window is open. */
  predicate InApproval(r: Reservation, now: int) {
    var (issued, expires) := match r.terms
      case ReservedV1(issued, expires) => (issued, expires)
      case ReservedV2(_, _, issued, expires) => (issued, expires);
    r.identity.scaleSetName == Transient(r.identity.allocationId, r.identity.nonce)
    && (r.terms.ReservedV2? ==> r.terms.pr >= 1)
    && 0 < expires - issued <= 300 && issued - 30 <= now < expires
  }

  /** The ledger has, or will take, this very reservation; a nonce is good for one allocation. */
  predicate Reservable(rows: Rows, r: Reservation, now: int) {
    InApproval(r, now)
    && if r.identity.allocationId in rows then rows[r.identity.allocationId].reservation == r
       else forall b :: b in rows ==> rows[b].reservation.identity.nonce != r.identity.nonce
  }

  /** The allocation is not bound elsewhere than to `id`. */
  predicate BoundAt(rows: Rows, a: string, id: int) {
    id >= 1 && (a in rows ==> rows[a].garmId == None || rows[a].garmId == Some(id))
  }

  predicate CanReserve(s: Shared, r: Reservation, now: int, freshId: int) {
    var a, name := r.identity.allocationId, r.identity.scaleSetName;
    Reservable(s.rows, r, now) && !Duplicated(s.garm, name)
    && if Absent(s.garm, name) then freshId !in s.garm && BoundAt(s.rows, a, freshId)
       else forall id :: id in s.garm && s.garm[id].name == name ==> BoundAt(s.rows, a, id)
  }

  /** The reservation has its row, bound to the one scale set of its name, which is disabled; a row that was there has
      only been bound, a set that was there only been disabled, and nothing else has changed. */
  predicate ReservedAt(s: Shared, t: Shared, r: Reservation, id: int) {
    var a, name := r.identity.allocationId, r.identity.scaleSetName;
    a in t.rows && t.rows == s.rows[a := t.rows[a]] && t.rows[a].reservation == r && t.rows[a].garmId == Some(id)
    && t.rows[a].scaleSetName == name
    && (if a in s.rows then t.rows[a] == s.rows[a].(garmId := Some(id))
        else t.rows[a].state == Reserved && t.rows[a].payload == None && t.rows[a].jobs == 0)
    && id in t.garm && t.garm == s.garm[id := t.garm[id]]
    && (if id in s.garm then s.garm[id].name == name && t.garm[id] == s.garm[id].(enabled := false)
        else Absent(s.garm, name) && t.garm[id] == ScaleSet(name, false, [], None))
    && t.instances == s.instances
  }

  lemma ReserveIff(s: Shared, r: Reservation, now: int, given: Given)
    requires RowsOk(s.rows)
    ensures var e := Solo(s, ReserveLedger(r, now), given);
      (e.returned <==> CanReserve(s, r, now, given.freshId))
      && (e.returned ==> exists id :: ReservedAt(s, e.s, r, id))
  {
    hide Step, Solo, RowsOk, Find, Duplicated, Absent;
    var a, name := r.identity.allocationId, r.identity.scaleSetName;
    StepFront(s, ReserveLedger(r, now), given);
    if Reservable(s.rows, r, now) {
      var t := s.(rows := if a in s.rows then s.rows else s.rows[a := Fresh(r)]);
      assert ReserveStep(s, ReserveLedger(r, now), given) == Go(t, ReserveEnsure(r));
      SoloGoes(s, ReserveLedger(r, now), given, t, ReserveEnsure(r));
      if a in s.rows { ReservationName(s.rows, r); }
      EnsureAlone(s, t, r, given);
    } else {
      SoloStops(s, ReserveLedger(r, now), given);
    }
  }

  /** The reservation has its row; the scale set is ensured and bound. */
  lemma EnsureAlone(s: Shared, t: Shared, r: Reservation, given: Given)
    requires var a := r.identity.allocationId;
      t == s.(rows := if a in s.rows then s.rows else s.rows[a := Fresh(r)])
      && t.rows[a].reservation == r && t.rows[a].scaleSetName == r.identity.scaleSetName
    ensures var a, name := r.identity.allocationId, r.identity.scaleSetName;
      var e := Solo(t, ReserveEnsure(r), given);
      (e.returned <==>
         !Duplicated(s.garm, name)
         && if Absent(s.garm, name) then given.freshId !in s.garm && BoundAt(s.rows, a, given.freshId)
            else forall id :: id in s.garm && s.garm[id].name == name ==> BoundAt(s.rows, a, id))
      && (e.returned ==> exists id :: ReservedAt(s, e.s, r, id))
  {
    hide Step, Solo, Find, Duplicated, Absent;
    var a, name := r.identity.allocationId, r.identity.scaleSetName;
    StepFront(t, ReserveEnsure(r), given);
    var ensured := EnsureDisabled(t.garm, name, given.freshId);
    if ensured.Err? {
      SoloStops(t, ReserveEnsure(r), given);
    } else {
      var (garm, id) := ensured.value;
      SoloGoes(t, ReserveEnsure(r), given, t.(garm := garm), ReserveBind(r, id));
      if !Absent(s.garm, name) { OnlyOneNamed(s.garm, id, name); }
      BindAlone(s, t, r, garm, id, given);
    }
  }

  lemma BindAlone(s: Shared, t: Shared, r: Reservation, garm: Sets, id: int, given: Given)
    requires var a := r.identity.allocationId;
      t == s.(rows := if a in s.rows then s.rows else s.rows[a := Fresh(r)])
      && t.rows[a].reservation == r && t.rows[a].scaleSetName == r.identity.scaleSetName
    requires id in garm && garm == s.garm[id := garm[id]]
    requires if id in s.garm then s.garm[id].name == r.identity.scaleSetName && garm[id] == s.garm[id].(enabled := false)
             else Absent(s.garm, r.identity.scaleSetName) && garm[id] == ScaleSet(r.identity.scaleSetName, false, [], None)
    ensures var e := Solo(t.(garm := garm), ReserveBind(r, id), given);
      (e.returned <==> BoundAt(s.rows, r.identity.allocationId, id)) && (e.returned ==> ReservedAt(s, e.s, r, id))
  {
    hide Step, Solo, Absent;
    var a, u := r.identity.allocationId, t.(garm := garm);
    StepFront(u, ReserveBind(r, id), given);
    if BoundAt(s.rows, a, id) {
      SoloReturns(u, ReserveBind(r, id), given);
    } else {
      SoloStops(u, ReserveBind(r, id), given);
    }
  }

  lemma StepFront(s: Shared, call: Call, given: Given)
    ensures (call.ReserveLedger? || call.ReserveEnsure? || call.ReserveBind?) ==>
      Step(s, call, given) == ReserveStep(s, call, given)
    ensures (call.FinalizeLedger? || call.FinalizeBinding? || call.FinalizeInstall? || call.FinalizeEnable?) ==>
      Step(s, call, given) == FinalizeStep(s, call)
    ensures (call.StartPayload? || call.StartBinding? || call.StartClaim? || call.StartVerify? || call.StartDisable?
             || call.StartAdmit?) ==> Step(s, call, given) == StartStep(s, call, given)
    ensures (call.FinishGet? || call.FinishMove? || call.FinishBinding? || call.FinishMeasure? || call.FinishCleanup?) ==>
      Step(s, call, given) == FinishStep(s, call)
  {
    hide ReserveStep, FinalizeStep, StartStep, FinishStep, RecoverStep, DeleteStep, SettleStep;
  }

  // ----- Finalize -----

  /** The payload's claim window is open, and was signed inside the limits. */
  predicate InClaimWindow(p: Payload, now: int) {
    p.identity.scaleSetName == Transient(p.identity.allocationId, p.identity.nonce) && p.observed.attempt >= 1
    && match p.terms
       case SignedV1(issued, expires) => 0 < expires - issued <= 300 && issued - 30 <= now < expires
       case SignedV2(pr, _, approved, until, issued, deadline) =>
         pr >= 1 && 0 < until - approved <= 300 && 0 < deadline - issued <= 900 && issued - 30 <= now < deadline
  }

  /** The payload is the reservation with a run and a claim window added. */
  predicate Extends(p: Payload, r: Reservation) {
    p.identity == r.identity
    && match p.terms
       case SignedV1(issued, expires) => r.terms == ReservedV1(issued, expires)
       case SignedV2(pr, base, approved, until, _, _) => r.terms == ReservedV2(pr, base, approved, until)
  }

  /** The ledger has, or will take, this very payload. */
  predicate Finalizable(rows: Rows, e: Envelope, now: int) {
    var p, a := e.payload, e.payload.identity.allocationId;
    InClaimWindow(p, now) && e.authentic && a in rows
    && (rows[a].payload == Some(p)
        || (rows[a].payload == None && rows[a].state == Reserved && Extends(p, rows[a].reservation)))
  }

  predicate CanFinalize(s: Shared, e: Envelope, now: int) {
    var p, a := e.payload, e.payload.identity.allocationId;
    Finalizable(s.rows, e, now)
    && s.rows[a].garmId.Some? && Named(s.garm, s.rows[a].garmId.value, p.identity.scaleSetName)
    && s.rows[a].scaleSetName == p.identity.scaleSetName && !s.garm[s.rows[a].garmId.value].enabled
  }

  /** The row holds the payload, issued for its window; the bound scale set carries it and is enabled. */
  predicate Finalized(s: Shared, t: Shared, p: Payload) {
    var a := p.identity.allocationId;
    a in s.rows && s.rows[a].garmId.Some? && a in t.rows && t.rows == s.rows[a := t.rows[a]]
    && t.rows[a].payload == Some(p)
    && (s.rows[a].payload == None ==>
          t.rows[a] == s.rows[a].(payload := Some(p), state := Issued, issuedAt := p.terms.issuedAt,
                                  claimDeadline := Some(ClaimDeadline(p.terms))))
    && (s.rows[a].payload.Some? ==> t.rows[a] == s.rows[a])
    && var id := s.rows[a].garmId.value;
       id in s.garm && s.garm[id].name == p.identity.scaleSetName
       && t.garm == s.garm[id := s.garm[id].(enabled := true, bootstrap := Some(p))]
       && t.instances == s.instances
  }

  lemma FinalizeIff(s: Shared, e: Envelope, now: int, given: Given)
    ensures var end := Solo(s, FinalizeLedger(e, now), given);
      (end.returned <==> CanFinalize(s, e, now)) && (end.returned ==> Finalized(s, end.s, e.payload))
  {
    hide Step, Solo;
    var p, a := e.payload, e.payload.identity.allocationId;
    var call := FinalizeLedger(e, now);
    StepFront(s, call, given);
    if !Finalizable(s.rows, e, now) {
      SoloStops(s, call, given);
    } else {
      var rows := Ledger.Finalize(s.rows, e, now).value;
      var t := s.(rows := rows);
      SoloGoes(s, call, given, t, FinalizeBinding(p));
      StepFront(t, FinalizeBinding(p), given);
      if s.rows[a].garmId.None? {
        SoloStops(t, FinalizeBinding(p), given);
      } else {
        var name, id := s.rows[a].scaleSetName, s.rows[a].garmId.value;
        SoloGoes(t, FinalizeBinding(p), given, t, FinalizeInstall(p, name, id));
        InstallAlone(s, t, p, name, id, given);
      }
    }
  }

  lemma InstallAlone(s: Shared, t: Shared, p: Payload, name: Name, id: int, given: Given)
    requires t.garm == s.garm && t.instances == s.instances
    ensures var end := Solo(t, FinalizeInstall(p, name, id), given);
      (end.returned <==> Named(s.garm, id, p.identity.scaleSetName) && name == p.identity.scaleSetName && !s.garm[id].enabled)
      && (end.returned ==>
            end.s == t.(garm := s.garm[id := s.garm[id].(enabled := true, bootstrap := Some(p))]))
  {
    hide Step, Solo;
    var call := FinalizeInstall(p, name, id);
    StepFront(t, call, given);
    if Install(t.garm, id, p).Err? {
      SoloStops(t, call, given);
    } else {
      var u := t.(garm := t.garm[id := t.garm[id].(bootstrap := Some(p))]);
      SoloGoes(t, call, given, u, FinalizeEnable(p, name, id));
      StepFront(u, FinalizeEnable(p, name, id), given);
      if Enable(u.garm, id, name).Ok? {
        SoloReturns(u, FinalizeEnable(p, name, id), given);
        assert u.garm[id := u.garm[id].(enabled := true)]
          == s.garm[id := s.garm[id].(enabled := true, bootstrap := Some(p))];
      } else {
        SoloStops(u, FinalizeEnable(p, name, id), given);
      }
    }
  }

  // ----- Job started -----

  /** What the hook of the payload's own job, run by this runner, claims. */
  function ContextOf(p: Payload, runnerName: string): Context {
    Context(p.identity.repositoryId, p.identity.repository, p.observed.dispatchSha, p.observed.testedSha,
            p.identity.workflowRef, p.observed.runId, p.observed.attempt, p.identity.jobName, runnerName,
            p.identity.scaleSetName)
  }

  /** The set is the allocation's own, enabled, and registered by this runner alone. */
  predicate ClaimedBy(g: Sets, id: int, name: Name, runner: string) {
    id in g && g[id].name == name && g[id].enabled && g[id].runners == [runner]
  }

  predicate CanStart(s: Shared, a: string, c: Context, now: int, given: Given) {
    a in s.rows && s.rows[a].payload.Some? && c == ContextOf(s.rows[a].payload.value, c.runnerName)
    && s.rows[a].garmId.Some? && ClaimedBy(s.garm, s.rows[a].garmId.value, s.rows[a].scaleSetName, c.runnerName)
    && given.verified
    && s.rows[a].state == Issued && s.rows[a].jobs == 0
    && s.rows[a].issuedAt - CLOCK_SKEW <= now + given.elapsed
    && now + given.elapsed < (if s.rows[a].claimDeadline.Some? then s.rows[a].claimDeadline.value else s.rows[a].expiresAt)
  }

  /** The row runs its one job, and no further runner can claim the scale set. */
  predicate Started(s: Shared, t: Shared, a: string) {
    a in s.rows && s.rows[a].garmId.Some? && s.rows[a].garmId.value in s.garm
    && t.rows == s.rows[a := s.rows[a].(state := Running, jobs := 1)]
    && t.garm == s.garm[s.rows[a].garmId.value := s.garm[s.rows[a].garmId.value].(enabled := false)]
    && t.instances == s.instances
  }

  /** A hook that denies the job leaves every row alone; at most the claimed set has been disabled. */
  predicate Denied(s: Shared, t: Shared, a: string) {
    t.rows == s.rows && t.instances == s.instances
    && (t.garm == s.garm
        || (a in s.rows && s.rows[a].garmId.Some? && s.rows[a].garmId.value in s.garm
            && t.garm == s.garm[s.rows[a].garmId.value := s.garm[s.rows[a].garmId.value].(enabled := false)]))
  }

  lemma StartIff(s: Shared, a: string, c: Context, now: int, given: Given)
    ensures var end := Solo(s, StartPayload(a, c, now), given);
      (end.returned <==> CanStart(s, a, c, now, given))
      && (if end.returned then Started(s, end.s, a) else Denied(s, end.s, a))
  {
    hide Step, Solo;
    StepFront(s, StartPayload(a, c, now), given);
    if a in s.rows && s.rows[a].payload.Some? && Matches(c, s.rows[a].payload.value) {
      var p := s.rows[a].payload.value;
      SoloGoes(s, StartPayload(a, c, now), given, s, StartBinding(a, c, now, p));
      StepFront(s, StartBinding(a, c, now, p), given);
      if s.rows[a].garmId.Some? {
        var name, id := s.rows[a].scaleSetName, s.rows[a].garmId.value;
        SoloGoes(s, StartBinding(a, c, now, p), given, s, StartClaim(a, c, now, p, name, id));
        ClaimAlone(s, a, c, now, p, name, id, given);
      } else {
        SoloStops(s, StartBinding(a, c, now, p), given);
      }
    } else {
      SoloStops(s, StartPayload(a, c, now), given);
    }
  }

  lemma ClaimAlone(s: Shared, a: string, c: Context, now: int, p: Payload, name: Name, id: int, given: Given)
    requires HeldName(s.rows, a, name) && HeldId(s.rows, a, id) && HeldPayload(s.rows, a, p) && Matches(c, p)
    ensures var end := Solo(s, StartClaim(a, c, now, p, name, id), given);
      (end.returned <==> CanStart(s, a, c, now, given))
      && (if end.returned then Started(s, end.s, a) else Denied(s, end.s, a))
  {
    hide Step, Solo;
    var claim, verify := StartClaim(a, c, now, p, name, id), StartVerify(a, c, now, p, name, id);
    var disable := StartDisable(a, c, now, p, name, id);
    StepFront(s, claim, given);
    if !Claimed(s.garm, id, name, c.runnerName) {
      SoloStops(s, claim, given);
    } else {
      SoloGoes(s, claim, given, s, verify);
      StepFront(s, verify, given);
      if !given.verified {
        SoloStops(s, verify, given);
      } else {
        SoloGoes(s, verify, given, s, disable);
        var t := s.(garm := s.garm[id := s.garm[id].(enabled := false)]);
        StepFront(s, disable, given);
        SoloGoes(s, disable, given, t, StartAdmit(a, c, now, p));
        StepFront(t, StartAdmit(a, c, now, p), given);
        if Transition(t.rows, a, AdmitJob(now + given.elapsed)).Ok? {
          SoloReturns(t, StartAdmit(a, c, now, p), given);
        } else {
          SoloStops(t, StartAdmit(a, c, now, p), given);
        }
      }
    }
  }

  // ----- Finish -----

  predicate AcceptsOutcome(outcome: string, cancelAttempted: bool) {
    (outcome == "success" || outcome == "failure" || outcome == "cancel" || outcome == "timeout"
     || outcome == "force-cancel" || outcome == "reboot")
    && (outcome == "force-cancel" ==> cancelAttempted)
  }

  /** The scale set is gone, or is the bound one, the only one of its name, and has no runner left. */
  predicate Removable(s: Shared, a: string)
    requires a in s.rows
  {
    var name := s.rows[a].scaleSetName;
    s.rows[a].garmId.Some?
    && (Absent(s.garm, name)
        || (!Duplicated(s.garm, name) && Named(s.garm, s.rows[a].garmId.value, name)
            && s.garm[s.rows[a].garmId.value].runners == []))
  }

  predicate CanFinish(s: Shared, a: string, outcome: string, cancelAttempted: bool)
    requires a in s.rows
  {
    AcceptsOutcome(outcome, cancelAttempted) && Removable(s, a) && s.rows[a].scaleSetName !in s.instances
  }

  /** The row is cleaned with the outcome that was reported, and its scale set is gone. */
  predicate FinishedWith(s: Shared, t: Shared, a: string, outcome: string) {
    a in s.rows && t.rows == s.rows[a := s.rows[a].(state := Cleaned, outcome := Some(outcome), cleaned := true)]
    && Absent(t.garm, s.rows[a].scaleSetName) && SameElsewhere(s.garm, t.garm, s.rows[a].scaleSetName)
    && t.instances == s.instances
  }

  /** Finishing an allocation that runs its job; any other one is recovered, or unknown. */
  lemma FinishIff(s: Shared, a: string, outcome: string, cancelAttempted: bool, given: Given)
    ensures var end := Solo(s, FinishGet(a, outcome, cancelAttempted), given);
      if a !in s.rows then end == Ending(s, false)
      else if s.rows[a].state != Running || s.rows[a].jobs != 1 then end == Solo(s, RecoverGet(a), given)
      else (end.returned <==> CanFinish(s, a, outcome, cancelAttempted)) && (end.returned ==> FinishedWith(s, end.s, a, outcome))
  {
    hide Step, Solo, Absent, Duplicated, SameElsewhere;
    var call := FinishGet(a, outcome, cancelAttempted);
    StepFront(s, call, given);
    if a !in s.rows {
      SoloStops(s, call, given);
    } else if s.rows[a].state != Running || s.rows[a].jobs != 1 {
      SoloGoes(s, call, given, s, RecoverGet(a));
    } else {
      SoloGoes(s, call, given, s, FinishMove(a, outcome, cancelAttempted));
      MoveAlone(s, a, outcome, cancelAttempted, given);
    }
  }

  lemma MoveAlone(s: Shared, a: string, outcome: string, cancelAttempted: bool, given: Given)
    requires a in s.rows && s.rows[a].state == Running && s.rows[a].jobs == 1
    ensures var end := Solo(s, FinishMove(a, outcome, cancelAttempted), given);
      (end.returned <==> CanFinish(s, a, outcome, cancelAttempted)) && (end.returned ==> FinishedWith(s, end.s, a, outcome))
  {
    hide Step, Solo, Absent, Duplicated, SameElsewhere;
    var call := FinishMove(a, outcome, cancelAttempted);
    StepFront(s, call, given);
    if !AcceptsOutcome(outcome, cancelAttempted) {
      SoloStops(s, call, given);
    } else {
      var t := s.(rows := s.rows[a := s.rows[a].(state := Terminal, outcome := Some(outcome))]);
      SoloGoes(s, call, given, t, FinishBinding(a));
      StepFront(t, FinishBinding(a), given);
      if s.rows[a].garmId.None? {
        SoloStops(t, FinishBinding(a), given);
      } else {
        var name, id := s.rows[a].scaleSetName, s.rows[a].garmId.value;
        SoloGoes(t, FinishBinding(a), given, t, DeleteFind(a, name, id, Conclude));
        ConcludeAlone(s, t, a, outcome, given);
      }
    }
  }

  lemma ConcludeAlone(s: Shared, t: Shared, a: string, outcome: string, given: Given)
    requires a in s.rows && s.rows[a].jobs == 1 && s.rows[a].garmId.Some? && outcome in TERMINAL_OUTCOMES
    requires t == s.(rows := s.rows[a := s.rows[a].(state := Terminal, outcome := Some(outcome))])
    ensures var name, id := s.rows[a].scaleSetName, s.rows[a].garmId.value;
      var end := Solo(t, DeleteFind(a, name, id, Conclude), given);
      (end.returned <==> Removable(s, a) && name !in s.instances) && (end.returned ==> FinishedWith(s, end.s, a, outcome))
  {
    hide Step, Solo, Absent, Duplicated, SameElsewhere;
    var name, id := s.rows[a].scaleSetName, s.rows[a].garmId.value;
    if Absent(s.garm, name) {
      AbsentAlone(t, a, name, id, Conclude, given);
      SameIsSameElsewhere(s.garm, name);
      MeasureAlone(s, t, a, name, outcome, given);
    } else {
      DeleteAlone(t, a, name, id, Conclude, given);
      if !Duplicated(s.garm, name) && Named(s.garm, id, name) && s.garm[id].runners == [] {
        var u := t.(garm := s.garm - {id});
        RemovedElsewhere(s.garm, id, name);
        MeasureAlone(s, u, a, name, outcome, given);
      }
    }
  }

  lemma RemovedElsewhere(g: Sets, id: int, name: Name)
    requires Named(g, id, name)
    ensures SameElsewhere(g, g - {id}, name)
  {
  }

  lemma MeasureAlone(s: Shared, t: Shared, a: string, name: Name, outcome: string, given: Given)
    requires a in s.rows && s.rows[a].jobs == 1 && s.rows[a].scaleSetName == name && outcome in TERMINAL_OUTCOMES
    requires t.rows == s.rows[a := s.rows[a].(state := Terminal, outcome := Some(outcome))] && t.instances == s.instances
    requires Absent(t.garm, name) && SameElsewhere(s.garm, t.garm, name)
    ensures var end := Solo(t, FinishMeasure(a, name), given);
      (end.returned <==> name !in s.instances) && (end.returned ==> FinishedWith(s, end.s, a, outcome))
  {
    hide Step, Solo, Absent, SameElsewhere;
    StepFront(t, FinishMeasure(a, name), given);
    if name in s.instances {
      SoloStops(t, FinishMeasure(a, name), given);
    } else {
      SoloGoes(t, FinishMeasure(a, name), given, t, FinishCleanup(a));
      StepFront(t, FinishCleanup(a), given);
      SoloReturns(t, FinishCleanup(a), given);
      assert t.rows[a := t.rows[a].(state := Cleaned, cleaned := true)]
        == s.rows[a := s.rows[a].(state := Cleaned, outcome := Some(outcome), cleaned := true)];
    }
  }
}
