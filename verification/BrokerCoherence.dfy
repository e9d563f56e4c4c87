/**
 The ledger and GARM keep agreeing over every run, so recovery converges from every state a crash can leave.

 One hypothesis is the caller's: a `reserve` replayed for a row that is already bound must not create its scale set
 again. Without it recovery gets stuck, and `ReplayOnABoundRow` says exactly when.
 */
module BrokerCoherence {
  import opened Basics
  import opened Ledger
  import opened Garm
  import opened BrokerSteps
  import opened BrokerRuns
  import opened BrokerRecovery

  /** The surroundings leave allocation-named scale sets where they are. */
  predicate LeavesAllocations(g: Sets, h: Sets) {
    (forall i :: i in g && g[i].name.Transient? ==> i in h && h[i].name == g[i].name)
    && (forall i :: i in h && h[i].name.Transient? ==> i in g && g[i].name == h[i].name)
  }

  /** The event is no replayed creation and no interference with allocation-named sets. */
  predicate Fair(w: World, e: Event) {
    match e
    case Outside(garm, _) => LeavesAllocations(w.shared.garm, garm) && PositiveIds(garm)
    case Advance(pid, _) =>
      pid in w.calls && w.calls[pid].ReserveEnsure? ==>
        var r := w.calls[pid].r;
        r.identity.allocationId in w.shared.rows && Absent(w.shared.garm, r.identity.scaleSetName) ==>
          w.shared.rows[r.identity.allocationId].garmId.None?
    case _ => true
  }

  ghost predicate FairRun(w: World, run: seq<Event>) {
    forall k: nat :: k < |run| ==> FairAt(w, run, k)
  }

  ghost predicate FairAt(w: World, run: seq<Event>, k: nat)
    requires k < |run|
  {
    Fair(After(w, run[..k]), run[k])
  }

  /** An id a call has in hand but not yet bound is where its allocation's name lives. */
  predicate InHand(s: Shared, call: Call) {
    match call
    case ReserveBind(r, id) => Holds(s, r.identity.allocationId, id)
    case RecoverBind(a, _, _, id) => Holds(s, a, id)
    case _ => true
  }

  predicate Holds(s: Shared, a: string, id: int) {
    a in s.rows && (s.rows[a].garmId == Some(id) || (s.rows[a].garmId.None? && Named(s.garm, id, s.rows[a].scaleSetName)))
  }

  predicate NoDuplicates(g: Sets) {
    forall i, j :: i in g && j in g && i != j && g[i].name.Transient? ==> g[i].name != g[j].name
  }

  predicate AllCoherent(s: Shared) {
    forall a :: a in s.rows ==> Coherent(s, a)
  }

  ghost predicate Agree(w: World) {
    WorldOk(w) && PositiveIds(w.shared.garm) && NoDuplicates(w.shared.garm) && AllCoherent(w.shared)
    && forall pid :: pid in w.calls ==> InHand(w.shared, w.calls[pid])
  }

  /** The stores agree, and whatever held before holds still. */
  ghost predicate StillAgree(s: Shared, t: Shared) {
    PositiveIds(t.garm) && NoDuplicates(t.garm) && AllCoherent(t)
    && forall call :: CallOk(s.rows, call) && InHand(s, call) ==> InHand(t, call)
  }

  // ----- Names keep their place -----

  predicate SamePlaces(g: Sets, h: Sets) {
    (forall i :: i in g ==> i in h && h[i].name == g[i].name) && forall i :: i in h ==> i in g
  }

  lemma PlacesDecide(g: Sets, h: Sets)
    requires LeavesAllocations(g, h)
    ensures NoDuplicates(g) ==> NoDuplicates(h)
    ensures forall name: Name :: name.Transient? ==> Duplicated(h, name) == Duplicated(g, name)
    ensures forall name: Name :: name.Transient? ==> Absent(h, name) == Absent(g, name)
    ensures forall name: Name, i :: name.Transient? ==> Named(h, i, name) == Named(g, i, name)
  {
    forall name: Name | name.Transient? ensures Duplicated(h, name) == Duplicated(g, name) {
      if Duplicated(g, name) {
        var i, j :| i in g && j in g && i != j && g[i].name == name && g[j].name == name;
        assert i in h && j in h && h[i].name == name && h[j].name == name;
      }
      if Duplicated(h, name) {
        var i, j :| i in h && j in h && i != j && h[i].name == name && h[j].name == name;
        assert i in g && j in g && g[i].name == name && g[j].name == name;
      }
    }
  }

  /** Rows keep their names and ids. */
  predicate SameBindings(r: Rows, t: Rows) {
    r.Keys <= t.Keys && forall a :: a in t ==>
      if a in r then t[a].scaleSetName == r[a].scaleSetName && t[a].garmId == r[a].garmId else t[a].garmId.None?
  }

  lemma RowNameIsTransient(rows: Rows, a: string)
    requires RowsOk(rows) && a in rows
    ensures rows[a].scaleSetName.Transient? && rows[a].scaleSetName.allocationId == a
  {
    assert RowOk(a, rows[a]);
  }

  lemma NothingMoved(s: Shared, t: Shared)
    requires RowsOk(s.rows) && RowsOk(t.rows) && NoDuplicates(s.garm) && AllCoherent(s)
    requires SameBindings(s.rows, t.rows) && LeavesAllocations(s.garm, t.garm) && PositiveIds(t.garm)
    ensures StillAgree(s, t)
  {
    hide Duplicated, Absent, Named, RowsOk, LeavesAllocations, CallOk;
    PlacesDecide(s.garm, t.garm);
    forall a | a in t.rows ensures Coherent(t, a) {
      RowNameIsTransient(t.rows, a);
      NoDuplicatesMeans(t.garm, t.rows[a].scaleSetName);
      if a in s.rows { assert Coherent(s, a); }
    }
    forall call | CallOk(s.rows, call) && InHand(s, call) ensures InHand(t, call) {
      forall a, id | Holds(s, a, id) ensures Holds(t, a, id) {
        RowNameIsTransient(s.rows, a);
      }
    }
  }

  lemma NoDuplicatesMeans(g: Sets, name: Name)
    requires NoDuplicates(g) && name.Transient?
    ensures !Duplicated(g, name)
  {
  }

  // ----- The three steps that do move something -----

  lemma BindingAgrees(s: Shared, a: string, id: int)
    requires RowsOk(s.rows) && PositiveIds(s.garm) && NoDuplicates(s.garm) && AllCoherent(s)
    requires Holds(s, a, id) && s.rows[a].garmId.None?
    ensures StillAgree(s, Bound(s, a, id))
  {
    hide Duplicated, Absent, RowsOk, CallOk;
    var t := Bound(s, a, id);
    RowNameIsTransient(s.rows, a);
    forall b | b in t.rows ensures Coherent(t, b) {
      assert Coherent(s, b);
    }
    NoDuplicatesMeans(s.garm, s.rows[a].scaleSetName);
    OnlyOneNamed(s.garm, id, s.rows[a].scaleSetName);
    forall call | CallOk(s.rows, call) && InHand(s, call) ensures InHand(t, call) {
      forall b, held | Holds(s, b, held) ensures Holds(t, b, held) {
      }
    }
  }

  lemma CreatingAgrees(s: Shared, a: string, freshId: int)
    requires RowsOk(s.rows) && PositiveIds(s.garm) && NoDuplicates(s.garm) && AllCoherent(s)
    requires a in s.rows && Absent(s.garm, s.rows[a].scaleSetName) && s.rows[a].garmId.None?
    requires freshId >= 1 && freshId !in s.garm
    ensures var t := s.(garm := s.garm[freshId := ScaleSet(s.rows[a].scaleSetName, false, [], None)]);
      StillAgree(s, t) && Holds(t, a, freshId)
  {
    hide RowsOk, CallOk;
    var name := s.rows[a].scaleSetName;
    var t := s.(garm := s.garm[freshId := ScaleSet(name, false, [], None)]);
    forall b | b in t.rows ensures Coherent(t, b) {
      RowNameIsTransient(s.rows, b);
      RowNameIsTransient(s.rows, a);
      assert Coherent(s, b);
    }
  }

  lemma DeletingAgrees(s: Shared, a: string, id: int)
    requires RowsOk(s.rows) && PositiveIds(s.garm) && NoDuplicates(s.garm) && AllCoherent(s)
    requires HeldId(s.rows, a, id) && Named(s.garm, id, s.rows[a].scaleSetName)
    ensures StillAgree(s, s.(garm := s.garm - {id}))
  {
    hide RowsOk, CallOk;
    var t := s.(garm := s.garm - {id});
    forall b | b in t.rows ensures Coherent(t, b) {
      RowNameIsTransient(s.rows, b);
      RowNameIsTransient(s.rows, a);
      assert Coherent(s, b);
    }
    forall call | CallOk(s.rows, call) && InHand(s, call) ensures InHand(t, call) {
      forall b, held | Holds(s, b, held) ensures Holds(t, b, held) {
        RowNameIsTransient(s.rows, b);
        RowNameIsTransient(s.rows, a);
      }
    }
  }

  // ----- Every step -----

  lemma SamePlacesLeaves(g: Sets, h: Sets)
    requires SamePlaces(g, h)
    ensures LeavesAllocations(g, h) && (PositiveIds(g) ==> PositiveIds(h))
  {
  }

  /** A step that neither binds, creates nor deletes. */
  lemma Stationary(s: Shared, t: Shared)
    requires RowsOk(s.rows) && RowsOk(t.rows) && PositiveIds(s.garm) && NoDuplicates(s.garm) && AllCoherent(s)
    requires SameBindings(s.rows, t.rows) && SamePlaces(s.garm, t.garm)
    ensures StillAgree(s, t)
  {
    hide RowsOk, StillAgree, SamePlaces, SameBindings;
    SamePlacesLeaves(s.garm, t.garm);
    NothingMoved(s, t);
  }

  predicate Moves(call: Call) {
    call.ReserveEnsure? || call.ReserveBind? || call.RecoverBind? || call.DeleteDelete?
  }

  lemma TransitionKeepsBindings(rows: Rows, a: string, action: Action)
    ensures Transition(rows, a, action).Ok? ==> SameBindings(rows, Transition(rows, a, action).value)
  {
  }

  lemma ReserveKeepsBindings(rows: Rows, r: Reservation, now: int)
    ensures Reserve(rows, r, now).Ok? ==> SameBindings(rows, Reserve(rows, r, now).value)
  {
  }

  lemma FinalizeKeepsBindings(rows: Rows, e: Envelope, now: int)
    ensures Finalize(rows, e, now).Ok? ==> SameBindings(rows, Finalize(rows, e, now).value)
  {
  }

  lemma DriversKeepPlaces(g: Sets, id: int, name: Name, p: Payload)
    ensures Disable(g, id, name).Ok? ==> SamePlaces(g, Disable(g, id, name).value)
    ensures Enable(g, id, name).Ok? ==> SamePlaces(g, Enable(g, id, name).value)
    ensures Install(g, id, p).Ok? ==> SamePlaces(g, Install(g, id, p).value)
  {
  }

  lemma BindingsRefl(s: Shared)
    ensures SameBindings(s.rows, s.rows) && SamePlaces(s.garm, s.garm)
  {
  }

  predicate Still(s: Shared, n: Next) {
    SameBindings(s.rows, SharedAfter(s, n).rows) && SamePlaces(s.garm, SharedAfter(s, n).garm)
  }

  lemma ReserveAndFinalizeAreStill(s: Shared, call: Call, given: Given)
    ensures call.ReserveLedger? ==> Still(s, ReserveStep(s, call, given))
    ensures (call.FinalizeLedger? || call.FinalizeBinding? || call.FinalizeInstall? || call.FinalizeEnable?) ==>
      Still(s, FinalizeStep(s, call))
  {
    hide Reserve, Finalize, Install, Enable, SameBindings, SamePlaces, EnsureDisabled, Bind;
    BindingsRefl(s);
    if call.ReserveLedger? { ReserveKeepsBindings(s.rows, call.r, call.now); }
    if call.FinalizeLedger? { FinalizeKeepsBindings(s.rows, call.e, call.now); }
    if call.FinalizeInstall? || call.FinalizeEnable? { DriversKeepPlaces(s.garm, call.id, call.name, call.p); }
  }

  lemma StartIsStill(s: Shared, call: Call, given: Given)
    requires call.StartPayload? || call.StartBinding? || call.StartClaim? || call.StartVerify? || call.StartDisable?
      || call.StartAdmit?
    ensures Still(s, StartStep(s, call, given))
  {
    hide Transition, Disable, Enable, Install, Claimed, Matches, SameBindings, SamePlaces;
    BindingsRefl(s);
    if call.StartAdmit? { TransitionKeepsBindings(s.rows, call.a, AdmitJob(call.now + given.elapsed)); }
    if call.StartDisable? { DriversKeepPlaces(s.garm, call.id, call.name, call.p); }
  }

  lemma FinishIsStill(s: Shared, call: Call)
    requires call.FinishGet? || call.FinishMove? || call.FinishBinding? || call.FinishMeasure? || call.FinishCleanup?
    ensures Still(s, FinishStep(s, call))
  {
    hide Transition, Absent, SameBindings, SamePlaces;
    BindingsRefl(s);
    if call.FinishMove? { TransitionKeepsBindings(s.rows, call.a, Finish(call.outcome, call.cancelAttempted)); }
    if call.FinishCleanup? { TransitionKeepsBindings(s.rows, call.a, Cleanup); }
  }

  lemma RecoverAndDeleteAreStill(s: Shared, call: Call, p: Payload)
    requires !Moves(call)
    ensures Recovering(call) ==> Still(s, RecoverStep(s, call))
    ensures Deleting(call) ==> Still(s, DeleteStep(s, call))
  {
    hide Find, Bind, Disable, Enable, Install, Delete, Absent, Drained, BoundName, Afterwards, SameBindings, SamePlaces;
    BindingsRefl(s);
    if call.DeleteDisable? { DriversKeepPlaces(s.garm, call.id, call.name, p); }
  }

  lemma SettleIsStill(s: Shared, call: Call)
    requires Settling(call)
    ensures Still(s, SettleStep(s, call))
  {
    hide Transition, Absent, SameBindings, SamePlaces;
    BindingsRefl(s);
    if call.RecoverMove? { TransitionKeepsBindings(s.rows, call.a, Recover); }
    if call.RecoverCleanup? { TransitionKeepsBindings(s.rows, call.a, Cleanup); }
    if call.RecoverAcknowledge? { TransitionKeepsBindings(s.rows, call.a, Acknowledge(call.key, call.evidence)); }
  }

  lemma MostStepsAreStill(s: Shared, call: Call, given: Given, p: Payload)
    requires !Moves(call)
    ensures Still(s, Step(s, call, given))
  {
    hide Still, ReserveStep, FinalizeStep, StartStep, FinishStep, RecoverStep, DeleteStep, SettleStep;
    if call.ReserveLedger? || call.FinalizeLedger? || call.FinalizeBinding? || call.FinalizeInstall? || call.FinalizeEnable? {
      ReserveAndFinalizeAreStill(s, call, given);
    } else if call.StartPayload? || call.StartBinding? || call.StartClaim? || call.StartVerify? || call.StartDisable?
              || call.StartAdmit? { StartIsStill(s, call, given); }
    else if call.FinishGet? || call.FinishMove? || call.FinishBinding? || call.FinishMeasure? || call.FinishCleanup? {
      FinishIsStill(s, call);
    } else if Settling(call) { SettleIsStill(s, call); }
    else { RecoverAndDeleteAreStill(s, call, p); }
  }

  /** The stores still agree after the step, and so does what its call now has in hand. */
  ghost predicate AgreesAfter(s: Shared, n: Next) {
    StillAgree(s, SharedAfter(s, n)) && (n.Go? ==> InHand(n.s, n.call))
  }

  ghost predicate SharedAgrees(s: Shared) {
    RowsOk(s.rows) && PositiveIds(s.garm) && NoDuplicates(s.garm) && AllCoherent(s)
  }

  lemma NothingChanged(s: Shared)
    requires SharedAgrees(s)
    ensures StillAgree(s, s)
  {
  }

  lemma BindAgrees(s: Shared, a: string, id: int, name: Name)
    requires SharedAgrees(s) && Holds(s, a, id) && Bind(s.rows, a, id, name).Ok?
    ensures StillAgree(s, s.(rows := Bind(s.rows, a, id, name).value))
  {
    hide StillAgree;
    NothingChanged(s);
    if s.rows[a].garmId.None? {
      BindingAgrees(s, a, id);
    } else {
      assert s.(rows := Bind(s.rows, a, id, name).value) == s;
    }
  }

  lemma EnsureAgrees(s: Shared, r: Reservation, freshId: int)
    requires SharedAgrees(s)
    requires r.identity.allocationId in s.rows && s.rows[r.identity.allocationId].reservation == r
    requires Absent(s.garm, r.identity.scaleSetName) ==> s.rows[r.identity.allocationId].garmId.None?
    requires EnsureDisabled(s.garm, r.identity.scaleSetName, freshId).Ok?
    ensures var (garm, id) := EnsureDisabled(s.garm, r.identity.scaleSetName, freshId).value;
      StillAgree(s, s.(garm := garm)) && Holds(s.(garm := garm), r.identity.allocationId, id)
  {
    hide RowsOk, Duplicated, StillAgree, NoDuplicates;
    var a, name := r.identity.allocationId, r.identity.scaleSetName;
    ReservationName(s.rows, r);
    if Absent(s.garm, name) {
      CreatingAgrees(s, a, freshId);
    } else {
      var (garm, id) := EnsureDisabled(s.garm, name, freshId).value;
      BindingsRefl(s);
      Stationary(s, s.(garm := garm));
      assert Coherent(s, a);
      OnlyOneNamed(s.garm, id, name);
    }
  }

  lemma MovingStepsAgree(s: Shared, call: Call, given: Given)
    requires SharedAgrees(s) && CallOk(s.rows, call) && InHand(s, call) && Moves(call)
    requires call.ReserveEnsure? && Absent(s.garm, call.r.identity.scaleSetName) ==>
      s.rows[call.r.identity.allocationId].garmId.None?
    ensures AgreesAfter(s, Step(s, call, given))
  {
    hide SharedAgrees, StillAgree, Bind, EnsureDisabled, Holds, SameElsewhere, Absent;
    NothingChanged(s);
    match call {
      case ReserveEnsure(r) =>
        if EnsureDisabled(s.garm, r.identity.scaleSetName, given.freshId).Ok? { EnsureAgrees(s, r, given.freshId); }
      case ReserveBind(r, id) =>
        if Bind(s.rows, r.identity.allocationId, id, r.identity.scaleSetName).Ok? {
          BindAgrees(s, r.identity.allocationId, id, r.identity.scaleSetName);
        }
      case RecoverBind(a, _, name, id) =>
        if Bind(s.rows, a, id, name).Ok? { BindAgrees(s, a, id, name); }
      case DeleteDelete(a, name, id, _) =>
        if Delete(s.garm, id, name).Ok? {
          assert PositiveIds(s.garm) && NoDuplicates(s.garm) && AllCoherent(s) && RowsOk(s.rows) by { AgreesMeans(s); }
          DeletingAgrees(s, a, id);
        }
    }
  }

  lemma AgreesMeans(s: Shared)
    requires SharedAgrees(s)
    ensures RowsOk(s.rows) && PositiveIds(s.garm) && NoDuplicates(s.garm) && AllCoherent(s)
  {
  }

  lemma FoundIsHeld(s: Shared, a: string, id: int)
    requires a in s.rows && Coherent(s, a) && Named(s.garm, id, s.rows[a].scaleSetName)
    ensures Holds(s, a, id)
  {
  }

  /** A call that goes on to `RecoverBind` has just found its scale set by name. */
  lemma FoundIsInHand(s: Shared, call: Call, given: Given)
    requires CallOk(s.rows, call) && !Moves(call)
    requires call.RecoverFind? ==> call.a in s.rows && Coherent(s, call.a)
    requires Step(s, call, given).Go?
    ensures InHand(Step(s, call, given).s, Step(s, call, given).call)
  {
    if call.RecoverFind? {
      hide Coherent, Duplicated, Absent, Named, Holds, SameElsewhere;
      var r := Find(s.garm, call.name);
      if r.Ok? && r.value.Some? { FoundIsHeld(s, call.a, r.value.value); }
    } else {
      OthersHoldNothing(s, call, given);
    }
  }

  predicate Empty(call: Call) {
    !call.ReserveBind? && !call.RecoverBind?
  }

  lemma OthersHoldNothing(s: Shared, call: Call, given: Given)
    requires !Moves(call) && !call.RecoverFind? && Step(s, call, given).Go?
    ensures Empty(Step(s, call, given).call)
  {
    hide Reserve, Finalize, Transition, Install, Enable, Disable, Claimed, Matches, Drained, BoundName, Absent, Find,
         Bind, Delete, EnsureDisabled;
  }

  lemma StepAgrees(s: Shared, call: Call, given: Given, p: Payload)
    requires SharedAgrees(s) && CallOk(s.rows, call) && InHand(s, call)
    requires call.ReserveEnsure? && Absent(s.garm, call.r.identity.scaleSetName) ==>
      s.rows[call.r.identity.allocationId].garmId.None?
    ensures AgreesAfter(s, Step(s, call, given))
  {
    hide Step, StillAgree, CallOk, InHand, Still, PositiveIds, NoDuplicates, RowsOk;
    if Moves(call) {
      MovingStepsAgree(s, call, given);
    } else {
      var n := Step(s, call, given);
      MostStepsAreStill(s, call, given, p);
      StepKeeps(s, call, given);
      StillMeansAgree(s, call, n);
      if n.Go? {
        if call.RecoverFind? { HeldHere(s.rows, call); }
        FoundIsInHand(s, call, given);
      }
    }
  }

  lemma HeldHere(rows: Rows, call: Call)
    requires CallOk(rows, call) && call.RecoverFind?
    ensures call.a in rows
  {
  }

  lemma StillMeansAgree(s: Shared, call: Call, n: Next)
    requires SharedAgrees(s) && Still(s, n) && Kept(s, n)
    ensures StillAgree(s, SharedAfter(s, n))
  {
    hide StillAgree, CallOk, RowsAge, RowsOk, SameBindings, SamePlaces, PositiveIds, NoDuplicates, AllCoherent;
    Stationary(s, SharedAfter(s, n));
  }

  // ----- Every fair run -----

  lemma AdvanceAgrees(w: World, pid: int, given: Given, p: Payload)
    requires Agree(w) && Fair(w, Advance(pid, given)) && pid in w.calls
    ensures Agree(Apply(w, Advance(pid, given)))
  {
    hide Step, StillAgree, RowsOk, CallOk, InHand, PositiveIds, NoDuplicates, AllCoherent, RowsAge;
    var s, call := w.shared, w.calls[pid];
    var n, x := Step(s, call, given), Apply(w, Advance(pid, given));
    ApplyKeeps(w, Advance(pid, given));
    if call.ReserveEnsure? { EnsuresItsRow(s.rows, call); }
    StepAgrees(s, call, given, p);
    assert x.shared == SharedAfter(s, n);
    StillAgreeMeans(s, x.shared);
    forall q | q in x.calls ensures InHand(x.shared, x.calls[q]) {
      if q != pid { assert CallOk(s.rows, w.calls[q]) && InHand(s, w.calls[q]); }
    }
  }

  lemma EnsuresItsRow(rows: Rows, call: Call)
    requires CallOk(rows, call) && call.ReserveEnsure?
    ensures call.r.identity.allocationId in rows
  {
  }

  lemma StillAgreeMeans(s: Shared, t: Shared)
    requires StillAgree(s, t)
    ensures PositiveIds(t.garm) && NoDuplicates(t.garm) && AllCoherent(t)
    ensures forall call :: CallOk(s.rows, call) && InHand(s, call) ==> InHand(t, call)
  {
  }

  lemma OutsideAgrees(w: World, garm: Sets, instances: set<Name>)
    requires Agree(w) && Fair(w, Outside(garm, instances))
    ensures Agree(Apply(w, Outside(garm, instances)))
  {
    hide RowsOk, CallOk, InHand, PositiveIds, NoDuplicates, AllCoherent, StillAgree, LeavesAllocations;
    var t := w.shared.(garm := garm, instances := instances);
    assert SameBindings(w.shared.rows, t.rows);
    NothingMoved(w.shared, t);
    StillAgreeMeans(w.shared, t);
  }

  lemma BeginAgrees(w: World, pid: int, call: Call)
    requires Agree(w)
    ensures Agree(Apply(w, Begin(pid, call)))
  {
    hide RowsOk, CallOk, PositiveIds, NoDuplicates, AllCoherent, Holds;
    ApplyKeeps(w, Begin(pid, call));
  }

  lemma ApplyAgrees(w: World, e: Event, p: Payload)
    requires Agree(w) && Fair(w, e)
    ensures Agree(Apply(w, e))
  {
    match e {
      case Advance(pid, given) =>
        hide WorldOk, PositiveIds, NoDuplicates, AllCoherent, InHand, Step;
        if pid in w.calls { AdvanceAgrees(w, pid, given, p); }
      case Outside(garm, instances) =>
        hide Agree, Fair;
        OutsideAgrees(w, garm, instances);
      case Begin(pid, call) =>
        hide Agree, Fair;
        BeginAgrees(w, pid, call);
      case Stop(pid) =>
        hide PositiveIds, NoDuplicates, AllCoherent, InHand, CallOk, RowsOk;
    }
  }

  lemma {:induction false} FairRunAgrees(garm: Sets, instances: set<Name>, run: seq<Event>, p: Payload)
    requires NoDuplicates(garm) && PositiveIds(garm) && FairRun(Start(garm, instances), run)
    ensures Agree(After(Start(garm, instances), run))
  {
    hide Apply, Fair, NoDuplicates, PositiveIds;
    var w0 := Start(garm, instances);
    if run == [] {
      assert RowsOk(w0.shared.rows) && AllCoherent(w0.shared);
    } else {
      var init := run[..|run| - 1];
      forall k: nat | k < |init| ensures FairAt(w0, init, k) {
        assert FairAt(w0, run, k);
        assert run[..k] == init[..k];
      }
      FairRunAgrees(garm, instances, init, p);
      assert FairAt(w0, run, |run| - 1);
      ApplyAgrees(After(w0, init), run[|run| - 1], p);
    }
  }

  /** From every state a run can leave - whatever was interrupted where - one undisturbed `recover` returns, the row
      ends `cleaned` with no scale set of its name, nothing else has changed, and a second `recover` changes nothing. */
  lemma RecoveryConverges(garm: Sets, instances: set<Name>, run: seq<Event>, a: string, given: Given, p: Payload)
    requires NoDuplicates(garm) && PositiveIds(garm) && FairRun(Start(garm, instances), run)
    requires var s := After(Start(garm, instances), run).shared; a in s.rows && Quiet(s, a)
    ensures var s := After(Start(garm, instances), run).shared;
      var e := Solo(s, RecoverGet(a), given);
      e.returned && CleanedUp(s, e.s, a) && Solo(e.s, RecoverGet(a), given) == Ending(e.s, true)
  {
    hide After, Solo, FairRun, Quiet, RowsOk, NoDuplicates, CleanedUp, CallOk, Coherent;
    EntryOk(After(Start(garm, instances), run).shared.rows, RecoverGet(a));
    FairRunAgrees(garm, instances, run, p);
    var s := After(Start(garm, instances), run).shared;
    RecoverIff(s, a, given);
    var e := Solo(s, RecoverGet(a), given);
    assert Coherent(s, a);
    SoloKeeps(s, RecoverGet(a), given);
    CleanedUpMeans(s, e.s, a);
    RecoverTwice(e.s, a, given);
  }

  lemma CleanedUpMeans(s: Shared, t: Shared, a: string)
    requires a in s.rows && CleanedUp(s, t, a) && PositiveIds(s.garm) && RowsOk(s.rows) && RowsAge(s.rows, t.rows)
    ensures a in t.rows && t.rows[a].state == Cleaned && Absent(t.garm, t.rows[a].scaleSetName) && PositiveIds(t.garm)
  {
    assert RowAges(s.rows[a], t.rows[a]);
    hide RowsOk, RowsAge, RowAges;
    var name := s.rows[a].scaleSetName;
    forall i | i in t.garm ensures i >= 1 {
      assert t.garm[i].name != name;
    }
  }

  lemma {:induction false} SoloKeeps(s: Shared, call: Call, given: Given)
    requires RowsOk(s.rows) && CallOk(s.rows, call)
    ensures RowsOk(Solo(s, call, given).s.rows) && RowsAge(s.rows, Solo(s, call, given).s.rows)
    decreases Remaining(call)
  {
    hide Step, RowsOk, CallOk, RowsAge, Remaining;
    AgesRefls(s.rows);
    StepKeeps(s, call, given);
    StepAdvances(s, call, given);
    if Step(s, call, given).Go? {
      var n := Step(s, call, given);
      SoloKeeps(n.s, n.call, given);
      AgesTransitively(s.rows, n.s.rows, Solo(n.s, n.call, given).s.rows);
    }
  }

  /** Why the hypothesis is needed: replaying `reserve` for a bound row whose scale set is gone raises, but not before
      GARM has created the set again. From then on `recover` works if and only if GARM reused the very id on record. */
  lemma ReplayOnABoundRow(s: Shared, r: Reservation, now: int, given: Given, later: Given)
    requires RowsOk(s.rows) && PositiveIds(s.garm)
    requires var a := r.identity.allocationId; a in s.rows && s.rows[a].reservation == r && s.rows[a].garmId.Some?
    requires Absent(s.garm, r.identity.scaleSetName) && r.identity.scaleSetName !in s.instances
    requires ValidReservation(r, now).None? && given.freshId >= 1 && given.freshId !in s.garm
    ensures var a := r.identity.allocationId;
      var e := Solo(s, ReserveLedger(r, now), given);
      (e.returned <==> s.rows[a].garmId == Some(given.freshId))
      && a in e.s.rows
      && (Solo(e.s, RecoverGet(a), later).returned <==> s.rows[a].garmId == Some(given.freshId))
  {
    hide RowsOk, ValidReservation, Duplicated, Absent, Solo, CleanedUp;
    var a, name := r.identity.allocationId, r.identity.scaleSetName;
    ReservationName(s.rows, r);
    var t := s.(garm := s.garm[given.freshId := ScaleSet(name, false, [], None)]);
    assert Step(s, ReserveLedger(r, now), given) == Go(s, ReserveEnsure(r));
    SoloGoes(s, ReserveLedger(r, now), given, s, ReserveEnsure(r));
    assert Step(s, ReserveEnsure(r), given) == Go(t, ReserveBind(r, given.freshId));
    SoloGoes(s, ReserveEnsure(r), given, t, ReserveBind(r, given.freshId));
    ReplayedBind(t, r, given);
    RecoverIff(t, a, later);
    OnlyTheNewOne(s.garm, given.freshId, name);
    assert Coherent(t, a) <==> t.rows[a].garmId == Some(given.freshId);
    QuietNow(t, a, given.freshId);
  }

  lemma QuietNow(t: Shared, a: string, id: int)
    requires a in t.rows && t.rows[a].scaleSetName !in t.instances && Named(t.garm, id, t.rows[a].scaleSetName)
    requires t.garm[id].runners == [] && forall i :: Named(t.garm, i, t.rows[a].scaleSetName) <==> i == id
    ensures Quiet(t, a)
  {
    forall i | i in t.garm && t.garm[i].name == t.rows[a].scaleSetName ensures t.garm[i].runners == [] {
      assert Named(t.garm, i, t.rows[a].scaleSetName);
    }
  }

  lemma ReplayedBind(t: Shared, r: Reservation, given: Given)
    requires RowsOk(t.rows)
    requires var a := r.identity.allocationId; a in t.rows && t.rows[a].reservation == r && t.rows[a].garmId.Some?
    requires given.freshId >= 1
    ensures Solo(t, ReserveBind(r, given.freshId), given)
      == Ending(t, t.rows[r.identity.allocationId].garmId == Some(given.freshId))
  {
    hide RowsOk;
    ReservationName(t.rows, r);
  }

  lemma OnlyTheNewOne(g: Sets, id: int, name: Name)
    requires Absent(g, name) && id !in g
    ensures var h := g[id := ScaleSet(name, false, [], None)];
      !Duplicated(h, name) && !Absent(h, name) && forall i :: Named(h, i, name) <==> i == id
  {
    assert g[id := ScaleSet(name, false, [], None)][id].name == name;
  }

  // ----- A run that gets stuck -----

  lemma {:induction false} AfterJoined(w: World, first: seq<Event>, second: seq<Event>)
    ensures After(w, first + second) == After(After(w, first), second)
    decreases |second|
  {
    hide Apply;
    if second == [] {
      assert first + second == first;
    } else {
      var init := second[..|second| - 1];
      AfterJoined(w, first, init);
      assert (first + second)[..|first + second| - 1] == first + init;
    }
  }

  /** A call made and run to its end with nothing in between. */
  function Alone(pid: int, call: Call, given: Given): seq<Event> {
    [Begin(pid, call)] + Advances(pid, given, Remaining(call))
  }

  lemma {:induction false} AdvancesBeginNothing(w: World, pid: int, given: Given, n: nat)
    ensures After(w, Advances(pid, given, n)).calls.Keys <= w.calls.Keys
    decreases n
  {
    hide Step;
    if n > 0 {
      AfterFirst(w, Advance(pid, given), Advances(pid, given, n - 1));
      AdvancesBeginNothing(Apply(w, Advance(pid, given)), pid, given, n - 1);
    }
  }

  lemma AloneRuns(w: World, pid: int, call: Call, given: Given)
    requires pid !in w.calls && Entry(call)
    ensures var x := After(w, Alone(pid, call, given));
      x.shared == Solo(w.shared, call, given).s && x.calls.Keys <= w.calls.Keys + {pid}
  {
    hide Step, Solo, After, Remaining;
    var v := w.(calls := w.calls[pid := call]);
    assert Apply(w, Begin(pid, call)) == v;
    AfterFirst(w, Begin(pid, call), Advances(pid, given, Remaining(call)));
    SoloIsARun(v, pid, given, Remaining(call));
    AdvancesBeginNothing(v, pid, given, Remaining(call));
  }

  /** An undisturbed reserve on empty stores: one reserved row, bound to the one disabled set of its name. */
  lemma ReserveOnEmptyStores(r: Reservation, now: int, given: Given)
    requires ValidReservation(r, now).None? && given.freshId >= 1
    ensures Solo(Shared(map[], map[], {}), ReserveLedger(r, now), given)
      == Ending(Shared(map[r.identity.allocationId := Fresh(r).(garmId := Some(given.freshId))],
                       map[given.freshId := ScaleSet(r.identity.scaleSetName, false, [], None)], {}), true)
  {
    hide ValidReservation, Solo;
    var a, id := r.identity.allocationId, given.freshId;
    var s0 := Shared(map[], map[], {});
    var s1 := Shared(map[a := Fresh(r)], map[], {});
    var s2 := s1.(garm := map[id := ScaleSet(r.identity.scaleSetName, false, [], None)]);
    assert Step(s0, ReserveLedger(r, now), given) == Go(s1, ReserveEnsure(r));
    SoloGoes(s0, ReserveLedger(r, now), given, s1, ReserveEnsure(r));
    assert Step(s1, ReserveEnsure(r), given) == Go(s2, ReserveBind(r, id));
    SoloGoes(s1, ReserveEnsure(r), given, s2, ReserveBind(r, id));
    assert s2.rows[a := s2.rows[a].(garmId := Some(id))] == map[a := Fresh(r).(garmId := Some(id))];
    assert Step(s2, ReserveBind(r, id), given)
      == Return(s2.(rows := map[a := Fresh(r).(garmId := Some(id))]));
    SoloReturns(s2, ReserveBind(r, id), given);
  }

  /** Reserve, recover, and reserve again, each undisturbed. */
  function ReplayRun(r: Reservation, now: int): seq<Event> {
    Alone(0, ReserveLedger(r, now), Given(1, 0, true))
    + Alone(1, RecoverGet(r.identity.allocationId), Given(1, 0, true))
    + Alone(2, ReserveLedger(r, now), Given(2, 0, true))
  }

  /** From empty stores, a reservation that is made, recovered and replayed leaves an allocation that no `recover`
      cleans any more, as GARM does not hand out the first id again. */
  lemma ReplayGetsStuck(r: Reservation, now: int, later: Given)
    requires ValidReservation(r, now).None?
    ensures var s := After(Start(map[], {}), ReplayRun(r, now)).shared;
      r.identity.allocationId in s.rows && !Solo(s, RecoverGet(r.identity.allocationId), later).returned
  {
    hide After, Solo, Alone, ValidReservation, CleanedUp, Coherent, Quiet, RowsOk, CallOk, Entry;
    var a, first, second := r.identity.allocationId, Given(1, 0, true), Given(2, 0, true);
    var w0 := Start(map[], {});
    assert Entry(ReserveLedger(r, now)) && Entry(RecoverGet(a)) by { EntriesAre(r, now, a); }
    var e1, e2, e3 := Alone(0, ReserveLedger(r, now), first), Alone(1, RecoverGet(a), first),
                      Alone(2, ReserveLedger(r, now), second);
    assert ReplayRun(r, now) == e1 + e2 + e3;
    AfterJoined(w0, e1 + e2, e3);
    AfterJoined(w0, e1, e2);
    AfterIsWorld(w0);
    AloneRuns(w0, 0, ReserveLedger(r, now), first);
    var w1 := After(w0, e1);
    ReserveOnEmptyStores(r, now, first);
    AloneRuns(w1, 1, RecoverGet(a), first);
    var w2 := After(w1, e2);
    RecoveredAfterReserve(r, now, w1.shared, first);
    AloneRuns(w2, 2, ReserveLedger(r, now), second);
    ReplayOnABoundRow(w2.shared, r, now, second, later);
  }

  lemma EntriesAre(r: Reservation, now: int, a: string)
    ensures Entry(ReserveLedger(r, now)) && Entry(RecoverGet(a))
  {
  }

  lemma AfterIsWorld(w: World)
    ensures After(w, []) == w
  {
  }

  /** What recovery leaves of a fresh reservation: the row, bound as it was, and no scale set at all. */
  lemma RecoveredAfterReserve(r: Reservation, now: int, s: Shared, given: Given)
    requires ValidReservation(r, now).None?
    requires var a := r.identity.allocationId;
      s == Shared(map[a := Fresh(r).(garmId := Some(1))], map[1 := ScaleSet(r.identity.scaleSetName, false, [], None)], {})
    ensures var a, t := r.identity.allocationId, Solo(s, RecoverGet(r.identity.allocationId), given).s;
      RowsOk(t.rows) && t.garm == map[] && t.instances == {}
      && a in t.rows && t.rows[a].reservation == r && t.rows[a].garmId == Some(1)
  {
    hide Solo, CallOk;
    var a := r.identity.allocationId;
    assert RowOk(a, s.rows[a]);
    assert RowsOk(s.rows);
    assert Coherent(s, a) && Quiet(s, a);
    RecoverIff(s, a, given);
    EntryOk(s.rows, RecoverGet(a));
    SoloKeeps(s, RecoverGet(a), given);
    var t := Solo(s, RecoverGet(a), given).s;
    assert RowAges(s.rows[a], t.rows[a]);
    NothingLeft(s.garm, t.garm, 1, r.identity.scaleSetName);
  }

  lemma NothingLeft(g: Sets, h: Sets, id: int, name: Name)
    requires g == map[id := ScaleSet(name, false, [], None)] && Absent(h, name) && SameElsewhere(g, h, name)
    ensures h == map[]
  {
    assert forall i :: i in h ==> h[i].name != name && i in g;
    assert h.Keys == {};
  }
}
