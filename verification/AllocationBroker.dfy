/**
 The ledger, the driver and the broker as objects updated in place.

 Every ledger and driver method is proved to do what the function of the same name says; every broker method is proved
 to do what its step machine does when it runs undisturbed. A method that answers `false` has raised.
 */
module AllocationBroker {
  import opened Basics
  import Ledger
  import Garm
  import opened BrokerSteps
  import opened BrokerRecovery
  import opened BrokerOutcomes

  type Rows = Ledger.Rows
  type Name = Ledger.Name
  type LedgerError = Ledger.LedgerError

  /** The transaction committed `r`, or left the rows alone and raised its error. */
  predicate Ran(r: Result<Rows, LedgerError>, before: Rows, after: Rows, error: Option<LedgerError>) {
    match r
    case Ok(rows) => error == None && after == rows
    case Err(e) => error == Some(e) && after == before
  }

  class AllocationLedger {
    var rows: Rows

    constructor ()
      ensures rows == map[]
    {
      rows := map[];
    }

    method Reserve(r: Ledger.Reservation, now: int) returns (error: Option<LedgerError>)
      modifies this
      ensures Ran(Ledger.Reserve(old(rows), r, now), old(rows), rows, error)
    {
      error := Ledger.ValidReservation(r, now);
      if error.Some? { return; }
      var a := r.identity.allocationId;
      if a in rows {
        return if rows[a].reservation == r then None else Some(Ledger.ReplayedDifferently);
      }
      if Ledger.NonceTaken(rows, r.identity.nonce) {
        return Some(Ledger.NonceReplay);
      }
      rows := rows[a := Ledger.Fresh(r)];
    }

    method Finalize(e: Ledger.Envelope, now: int) returns (error: Option<LedgerError>)
      modifies this
      ensures Ran(Ledger.Finalize(old(rows), e, now), old(rows), rows, error)
    {
      var p := e.payload;
      if !Ledger.ValidPayload(p, now) { return Some(Ledger.Invalid); }
      if !e.authentic { return Some(Ledger.Unsigned); }
      var a := p.identity.allocationId;
      if a !in rows { return Some(Ledger.NoReservation); }
      var row := rows[a];
      if row.payload.Some? {
        return if row.payload == Some(p) then None else Some(Ledger.ReplayedDifferently);
      }
      if row.state != Ledger.Reserved || Ledger.Projection(p) != row.reservation {
        return Some(Ledger.CrossedReservation);
      }
      rows := rows[a := row.(payload := Some(p), state := Ledger.Issued, issuedAt := p.terms.issuedAt,
                             claimDeadline := Some(Ledger.ClaimDeadline(p.terms)))];
      error := None;
    }

    method BindScaleSet(a: string, id: int, name: Name) returns (error: Option<LedgerError>)
      modifies this
      ensures Ran(Ledger.Bind(old(rows), a, id, name), old(rows), rows, error)
    {
      if id < 1 { return Some(Ledger.Invalid); }
      if a !in rows { return Some(Ledger.Unknown); }
      if rows[a].scaleSetName != name { return Some(Ledger.CrossedName); }
      if rows[a].garmId.Some? {
        return if rows[a].garmId == Some(id) then None else Some(Ledger.BoundElsewhere);
      }
      rows := rows[a := rows[a].(garmId := Some(id))];
      error := None;
    }

    method Transition(a: string, action: Ledger.Action) returns (error: Option<LedgerError>)
      modifies this
      ensures Ran(Ledger.Transition(old(rows), a, action), old(rows), rows, error)
    {
      if a !in rows { return Some(Ledger.Unknown); }
      var row := rows[a];
      if action.AdmitJob? && row.state != Ledger.Issued { return Some(Ledger.InvalidTransition); }
      if action.AdmitJob? {
        var deadline := if row.claimDeadline.Some? then row.claimDeadline.value else row.expiresAt;
        if action.now < row.issuedAt - Ledger.CLOCK_SKEW || action.now >= deadline { return Some(Ledger.ClaimExpired); }
      }
      if action.AdmitJob? && row.jobs == 0 {
        row := row.(state := Ledger.Running, jobs := 1);
      } else if action.Finish? && row.state == Ledger.Running && row.jobs == 1
                && action.outcome in Ledger.TERMINAL_OUTCOMES
                && (action.outcome != "force-cancel" || action.cancelAttempted) {
        row := row.(state := Ledger.Terminal, outcome := Some(action.outcome));
      } else if action.Cleanup? && row.state == Ledger.Terminal && row.jobs == 1
                && row.outcome.Some? && row.outcome.value in Ledger.TERMINAL_OUTCOMES {
        row := row.(state := Ledger.Cleaned, cleaned := true);
      } else if action.Cleanup? && row.state == Ledger.Cleaned {
        SameRow(rows, a);
        return None;
      } else if action.Recover? && row.state in {Ledger.Reserved, Ledger.Issued, Ledger.Running} && row.jobs in {0, 1} {
        row := row.(state := Ledger.RecoveryRequired, outcome := Some("reboot"), recoveryRequired := true,
                    cleanupPending := true, cleanupKey := Some(Ledger.CleanupKey(a, Ledger.BodyOf(row))));
      } else if action.Recover? && row.state == Ledger.RecoveryRequired && row.outcome == Some("reboot") {
        SameRow(rows, a);
        return None;
      } else if action.Acknowledge? {
        if !Ledger.Acknowledges(a, row, action.key, action.evidence) { return Some(Ledger.BadAcknowledgement); }
        if row.state == Ledger.RecoveryRequired && row.recoveryRequired && row.cleanupPending {
          row := row.(state := Ledger.Cleaned, cleaned := true, recoveryRequired := false, cleanupPending := false,
                      evidence := Some(action.evidence));
        } else if row.state == Ledger.Cleaned && row.outcome == Some("reboot")
                  && row.evidence == Some(action.evidence) {
          SameRow(rows, a);
          return None;
        } else {
          return Some(Ledger.BadAcknowledgement);
        }
      } else {
        return Some(Ledger.InvalidTransition);
      }
      rows := rows[a := row];
      error := None;
    }
  }

  lemma SameRow(rows: Rows, a: string)
    requires a in rows
    ensures rows[a := rows[a]] == rows
  {
  }

  /** The driver did `r`, or raised and changed nothing. */
  predicate Drove(r: Result<Garm.Sets, ()>, before: Garm.Sets, after: Garm.Sets, ok: bool) {
    match r case Ok(sets) => ok && after == sets case Err(_) => !ok && after == before
  }

  lemma SomeMember(ids: set<int>)
    requires ids != {}
    ensures exists i :: i in ids
  {
    assert (forall i :: i !in ids) ==> ids == {};
  }

  class GarmDriver {
    var sets: Garm.Sets
    var instances: set<Name>

    constructor (sets: Garm.Sets, instances: set<Name>)
      ensures this.sets == sets && this.instances == instances
    {
      this.sets, this.instances := sets, instances;
    }

    method FindScaleSet(name: Name) returns (found: Option<int>, ok: bool)
      ensures ok <==> Garm.Find(sets, name).Ok?
      ensures ok ==> found == Garm.Find(sets, name).value
    {
      found, ok := None, true;
      var rest := sets.Keys;
      while rest != {}
        invariant rest <= sets.Keys && ok
        invariant found.Some? ==> found.value !in rest && Garm.Named(sets, found.value, name)
        invariant forall i :: i in sets && i !in rest && sets[i].name == name ==> found == Some(i)
        decreases |rest|
      {
        SomeMember(rest);
        var i :| i in rest;
        rest := rest - {i};
        if sets[i].name == name {
          if found.Some? {
            return None, false;
          }
          found := Some(i);
        }
      }
    }

    method EnsureDisabled(name: Name, freshId: int) returns (id: int, ok: bool)
      modifies this
      ensures instances == old(instances)
      ensures match Garm.EnsureDisabled(old(sets), name, freshId)
        case Ok((after, at)) => ok && sets == after && id == at
        case Err(_) => !ok && sets == old(sets)
    {
      id := 0;
      var found;
      found, ok := FindScaleSet(name);
      if !ok { return; }
      if found.Some? {
        id := found.value;
        ok := DisableScaleSet(id, name);
        return;
      }
      if freshId < 1 || freshId in sets { return 0, false; }
      id := freshId;
      sets := sets[id := Garm.ScaleSet(name, false, [], None)];
    }

    method InstallBootstrap(id: int, p: Ledger.Payload) returns (ok: bool)
      modifies this
      ensures instances == old(instances) && Drove(Garm.Install(old(sets), id, p), old(sets), sets, ok)
    {
      ok := Garm.Named(sets, id, p.identity.scaleSetName) && !sets[id].enabled;
      if ok { sets := sets[id := sets[id].(bootstrap := Some(p))]; }
    }

    method EnableScaleSet(id: int, name: Name) returns (ok: bool)
      modifies this
      ensures instances == old(instances) && Drove(Garm.Enable(old(sets), id, name), old(sets), sets, ok)
    {
      ok := Garm.Named(sets, id, name) && !sets[id].enabled;
      if ok { sets := sets[id := sets[id].(enabled := true)]; }
    }

    method DisableScaleSet(id: int, name: Name) returns (ok: bool)
      modifies this
      ensures instances == old(instances) && Drove(Garm.Disable(old(sets), id, name), old(sets), sets, ok)
    {
      ok := Garm.Named(sets, id, name);
      if ok { sets := sets[id := sets[id].(enabled := false)]; }
    }

    method DeleteScaleSet(id: int, name: Name) returns (ok: bool)
      modifies this
      ensures instances == old(instances) && Drove(Garm.Delete(old(sets), id, name), old(sets), sets, ok)
    {
      ok := Garm.Named(sets, id, name) && !sets[id].enabled;
      if ok { sets := sets - {id}; }
    }

    method AssertAbsent(name: Name) returns (ok: bool)
      ensures ok <==> Garm.Absent(sets, name)
    {
      var found;
      found, ok := FindScaleSet(name);
      ok := ok && found.None?;
    }
  }

  class AllocationBroker {
    const ledger: AllocationLedger
    const driver: GarmDriver

    ghost function State(): Shared
      reads ledger, driver
    {
      Shared(ledger.rows, driver.sets, driver.instances)
    }

    constructor (ledger: AllocationLedger, driver: GarmDriver)
      ensures this.ledger == ledger && this.driver == driver
    {
      this.ledger, this.driver := ledger, driver;
    }

    method Reserve(r: Ledger.Reservation, now: int, given: Given) returns (ok: bool)
      modifies ledger, driver
      ensures Ending(State(), ok) == Solo(old(State()), ReserveLedger(r, now), given)
      ensures Ledger.RowsOk(old(State()).rows) ==>
        (ok <==> CanReserve(old(State()), r, now, given.freshId))
        && (ok ==> exists id :: ReservedAt(old(State()), State(), r, id))
    {
      hide Step, Solo, Ledger.Reserve, Ledger.Bind, Garm.EnsureDisabled, CanReserve, ReservedAt, Ledger.RowsOk;
      ghost var s0 := State();
      if Ledger.RowsOk(s0.rows) { ReserveIff(s0, r, now, given); }
      var refused := ledger.Reserve(r, now);
      FrontSteps(s0, ReserveLedger(r, now), given);
      if refused.Some? { return false; }
      ghost var s1 := State();
      var id;
      id, ok := driver.EnsureDisabled(r.identity.scaleSetName, given.freshId);
      FrontSteps(s1, ReserveEnsure(r), given);
      if !ok { return; }
      ghost var s2 := State();
      refused := ledger.BindScaleSet(r.identity.allocationId, id, r.identity.scaleSetName);
      FrontSteps(s2, ReserveBind(r, id), given);
      ok := refused.None?;
    }

    method Finalize(e: Ledger.Envelope, now: int, given: Given) returns (ok: bool)
      modifies ledger, driver
      ensures Ending(State(), ok) == Solo(old(State()), FinalizeLedger(e, now), given)
      ensures ok <==> CanFinalize(old(State()), e, now)
      ensures ok ==> Finalized(old(State()), State(), e.payload)
    {
      hide Step, Solo, Ledger.Finalize, Garm.Install, Garm.Enable, CanFinalize, Finalized;
      ghost var s0 := State();
      FinalizeIff(s0, e, now, given);
      var refused := ledger.Finalize(e, now);
      FrontSteps(s0, FinalizeLedger(e, now), given);
      if refused.Some? { return false; }
      ghost var s1 := State();
      var p, a := e.payload, e.payload.identity.allocationId;
      FrontSteps(s1, FinalizeBinding(p), given);
      if a !in ledger.rows || ledger.rows[a].garmId.None? { return false; }
      var name, id := ledger.rows[a].scaleSetName, ledger.rows[a].garmId.value;
      ok := driver.InstallBootstrap(id, p);
      FrontSteps(s1, FinalizeInstall(p, name, id), given);
      if !ok { return; }
      ghost var s2 := State();
      ok := driver.EnableScaleSet(id, name);
      FrontSteps(s2, FinalizeEnable(p, name, id), given);
    }

    method JobStarted(a: string, c: Context, now: int, given: Given) returns (ok: bool)
      modifies ledger, driver
      ensures Ending(State(), ok) == Solo(old(State()), StartPayload(a, c, now), given)
      ensures ok <==> CanStart(old(State()), a, c, now, given)
      ensures if ok then Started(old(State()), State(), a) else Denied(old(State()), State(), a)
    {
      hide Step, Solo, Ledger.Transition, Garm.Disable, Garm.Claimed, Matches, CanStart, Started, Denied;
      ghost var s0 := State();
      StartIff(s0, a, c, now, given);
      FrontSteps(s0, StartPayload(a, c, now), given);
      if a !in ledger.rows || ledger.rows[a].payload.None? || !Matches(c, ledger.rows[a].payload.value) { return false; }
      var p := ledger.rows[a].payload.value;
      FrontSteps(s0, StartBinding(a, c, now, p), given);
      if ledger.rows[a].garmId.None? { return false; }
      var name, id := ledger.rows[a].scaleSetName, ledger.rows[a].garmId.value;
      FrontSteps(s0, StartClaim(a, c, now, p, name, id), given);
      if !Garm.Claimed(driver.sets, id, name, c.runnerName) { return false; }
      FrontSteps(s0, StartVerify(a, c, now, p, name, id), given);
      if !given.verified { return false; }
      ok := driver.DisableScaleSet(id, name);
      FrontSteps(s0, StartDisable(a, c, now, p, name, id), given);
      if !ok { return; }
      ghost var s1 := State();
      var refused := ledger.Transition(a, Ledger.AdmitJob(now + given.elapsed));
      FrontSteps(s1, StartAdmit(a, c, now, p), given);
      ok := refused.None?;
    }

    /** Disable, drain and delete the set of that name under that id, unless it is gone already. */
    method DeleteExact(ghost a: string, name: Name, id: int, ghost goal: Goal, ghost given: Given) returns (ok: bool)
      modifies driver
      ensures Solo(old(State()), DeleteFind(a, name, id, goal), given)
        == if ok then Solo(State(), Afterwards(a, name, goal), given) else Ending(State(), false)
    {
      hide Step, Solo, Garm.Find, Garm.Disable, Garm.Delete, Garm.Absent, Afterwards;
      ghost var s0 := State();
      var found;
      found, ok := driver.FindScaleSet(name);
      BackSteps(s0, DeleteFind(a, name, id, goal), given);
      if !ok { return; }
      if found.Some? {
        ok := driver.DisableScaleSet(id, name);
        BackSteps(s0, DeleteDisable(a, name, id, goal), given);
        if !ok { return; }
        ghost var s1 := State();
        BackSteps(s1, DeleteDrain(a, name, id, goal), given);
        if !Garm.Drained(driver.sets, id, name) { return false; }
        ok := driver.DeleteScaleSet(id, name);
        BackSteps(s1, DeleteDelete(a, name, id, goal), given);
        if !ok { return; }
      }
      ghost var s2 := State();
      ok := driver.AssertAbsent(name);
      BackSteps(s2, DeleteAbsent(a, name, goal), given);
    }

    method Finish(a: string, outcome: string, cancelAttempted: bool, ghost given: Given) returns (ok: bool)
      modifies ledger, driver
      ensures Ending(State(), ok) == Solo(old(State()), FinishGet(a, outcome, cancelAttempted), given)
      ensures a in old(State()).rows && old(State()).rows[a].state == Ledger.Running && old(State()).rows[a].jobs == 1 ==>
        (ok <==> CanFinish(old(State()), a, outcome, cancelAttempted))
        && (ok ==> FinishedWith(old(State()), State(), a, outcome))
    {
      hide Step, Solo, Ledger.Transition, Garm.Absent, CanFinish, FinishedWith;
      ghost var s0 := State();
      FinishIff(s0, a, outcome, cancelAttempted, given);
      MiddleSteps(s0, FinishGet(a, outcome, cancelAttempted), given);
      if a !in ledger.rows { return false; }
      if ledger.rows[a].state != Ledger.Running || ledger.rows[a].jobs != 1 {
        ok := Recover(a, given);
        return;
      }
      var refused := ledger.Transition(a, Ledger.Finish(outcome, cancelAttempted));
      MiddleSteps(s0, FinishMove(a, outcome, cancelAttempted), given);
      if refused.Some? { return false; }
      ghost var s1 := State();
      MiddleSteps(s1, FinishBinding(a), given);
      if ledger.rows[a].garmId.None? { return false; }
      var name, id := ledger.rows[a].scaleSetName, ledger.rows[a].garmId.value;
      ok := DeleteExact(a, name, id, Conclude, given);
      if !ok { return; }
      ghost var s2 := State();
      ok := driver.AssertAbsent(name);
      MiddleSteps(s2, FinishMeasure(a, name), given);
      if !ok || name in driver.instances { return false; }
      refused := ledger.Transition(a, Ledger.Cleanup);
      MiddleSteps(s2, FinishCleanup(a), given);
      ok := refused.None?;
    }

    method Recover(a: string, ghost given: Given) returns (ok: bool)
      modifies ledger, driver
      ensures Ending(State(), ok) == Solo(old(State()), RecoverGet(a), given)
      ensures Ledger.RowsOk(old(State()).rows) && PositiveIds(old(State()).garm) && a in old(State()).rows ==>
        (ok <==> Coherent(old(State()), a) && Quiet(old(State()), a)) && (ok ==> CleanedUp(old(State()), State(), a))
    {
      hide Step, Solo, Ledger.Transition, Ledger.Bind, Garm.Absent, Garm.Find, BoundName, Ledger.RowsOk, PositiveIds,
        Coherent, Quiet, CleanedUp;
      ghost var s0 := State();
      if Ledger.RowsOk(s0.rows) && PositiveIds(s0.garm) && a in s0.rows { RecoverIff(s0, a, given); }
      BackSteps(s0, RecoverGet(a), given);
      if a !in ledger.rows { return false; }
      var seen, name := ledger.rows[a].state, BoundName(ledger.rows[a]);
      BackSteps(s0, RecoverName(a, seen), given);
      BackSteps(s0, RecoverBinding(a, seen, name), given);
      if ledger.rows[a].garmId.Some? {
        ok := DeleteExact(a, name, ledger.rows[a].garmId.value, Settle(seen), given);
      } else {
        var found;
        found, ok := driver.FindScaleSet(name);
        BackSteps(s0, RecoverFind(a, seen, name), given);
        if !ok { return; }
        if found.Some? {
          var refused := ledger.BindScaleSet(a, found.value, name);
          BackSteps(s0, RecoverBind(a, seen, name, found.value), given);
          if refused.Some? { return false; }
          ok := DeleteExact(a, name, found.value, Settle(seen), given);
        } else {
          ok := driver.AssertAbsent(name);
          BackSteps(s0, DeleteAbsent(a, name, Settle(seen)), given);
        }
      }
      if ok {
        ok := SettleAbsent(a, seen, name, given);
      }
    }

    /** What the row still needs once its scale set is proved absent. */
    method SettleAbsent(a: string, seen: Ledger.State, name: Name, ghost given: Given) returns (ok: bool)
      modifies ledger
      ensures Ending(State(), ok) == Solo(old(State()), Afterwards(a, name, Settle(seen)), given)
    {
      hide Step, Solo, Ledger.Transition, Garm.Absent;
      ghost var s0 := State();
      if seen == Ledger.Terminal {
        var refused := ledger.Transition(a, Ledger.Cleanup);
        EndSteps(s0, RecoverCleanup(a, name), given);
        if refused.Some? { return false; }
      } else if seen != Ledger.Cleaned {
        var refused := ledger.Transition(a, Ledger.Recover);
        EndSteps(s0, RecoverMove(a, name), given);
        if refused.Some? { return false; }
        ghost var s1 := State();
        var key, jobs := ledger.rows[a].cleanupKey, ledger.rows[a].jobs;
        ok := driver.AssertAbsent(name);
        EndSteps(s1, RecoverMeasure(a, name, key, jobs), given);
        if !ok || name in driver.instances { return false; }
        var evidence := Ledger.Evidence(a, key, jobs, true, 0);
        refused := ledger.Transition(a, Ledger.Acknowledge(key, evidence));
        EndSteps(s1, RecoverAcknowledge(a, name, key, evidence), given);
        if refused.Some? { return false; }
      }
      ghost var s2 := State();
      ok := driver.AssertAbsent(name);
      EndSteps(s2, RecoverFinal(a, name), given);
    }
  }

  // ----- One step of a call that runs alone, family by family -----

  ghost predicate Unfolds(s: Shared, call: Call, given: Given, n: Next) {
    match n
    case Go(t, next) => Solo(s, call, given) == Solo(t, next, given)
    case Return(t) => Solo(s, call, given) == Ending(t, true)
    case Raise => Solo(s, call, given) == Ending(s, false)
    case Wait => Solo(s, call, given) == Ending(s, false)
  }

  lemma SoloUnfolds(s: Shared, call: Call, given: Given)
    ensures Unfolds(s, call, given, Step(s, call, given))
  {
    hide Step;
  }

  lemma FrontSteps(s: Shared, call: Call, given: Given)
    ensures (call.ReserveLedger? || call.ReserveEnsure? || call.ReserveBind?) ==>
      Unfolds(s, call, given, ReserveStep(s, call, given))
    ensures (call.FinalizeLedger? || call.FinalizeBinding? || call.FinalizeInstall? || call.FinalizeEnable?) ==>
      Unfolds(s, call, given, FinalizeStep(s, call))
    ensures (call.StartPayload? || call.StartBinding? || call.StartClaim? || call.StartVerify? || call.StartDisable?
             || call.StartAdmit?) ==> Unfolds(s, call, given, StartStep(s, call, given))
  {
    hide Unfolds, ReserveStep, FinalizeStep, StartStep, FinishStep, RecoverStep, DeleteStep, SettleStep;
    SoloUnfolds(s, call, given);
  }

  lemma MiddleSteps(s: Shared, call: Call, given: Given)
    ensures (call.FinishGet? || call.FinishMove? || call.FinishBinding? || call.FinishMeasure? || call.FinishCleanup?) ==>
      Unfolds(s, call, given, FinishStep(s, call))
  {
    hide Unfolds, ReserveStep, FinalizeStep, StartStep, FinishStep, RecoverStep, DeleteStep, SettleStep;
    SoloUnfolds(s, call, given);
  }

  lemma BackSteps(s: Shared, call: Call, given: Given)
    ensures Recovering(call) ==> Unfolds(s, call, given, RecoverStep(s, call))
    ensures Deleting(call) ==> Unfolds(s, call, given, DeleteStep(s, call))
  {
    hide Unfolds, RecoverStep, DeleteStep;
    SoloUnfolds(s, call, given);
    StepIs(s, call, given);
  }

  lemma EndSteps(s: Shared, call: Call, given: Given)
    requires Settling(call)
    ensures Unfolds(s, call, given, SettleStep(s, call))
  {
    hide Unfolds, SettleStep;
    SoloUnfolds(s, call, given);
    StepIs(s, call, given);
  }
}
