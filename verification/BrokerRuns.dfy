/** What every interleaving of broker calls keeps, and why no allocation runs a second job. */
module BrokerRuns {
  import opened Basics
  import opened Ledger
  import opened Garm
  import opened BrokerSteps

  // ----- What a call in progress may rely on -----

  predicate HeldName(rows: Rows, a: string, name: Name) {
    a in rows && rows[a].scaleSetName == name
  }

  predicate HeldId(rows: Rows, a: string, id: int) {
    a in rows && rows[a].garmId == Some(id)
  }

  predicate HeldPayload(rows: Rows, a: string, p: Payload) {
    a in rows && rows[a].payload == Some(p)
  }

  /** Every local variable of a call still agrees with the allocation's row, however long ago it was read. */
  predicate CallOk(rows: Rows, call: Call) {
    match call
    case ReserveLedger(_, _) => true
    case ReserveEnsure(r) => r.identity.allocationId in rows && rows[r.identity.allocationId].reservation == r
    case ReserveBind(r, _) => r.identity.allocationId in rows && rows[r.identity.allocationId].reservation == r
    case FinalizeLedger(_, _) => true
    case FinalizeBinding(p) => HeldPayload(rows, p.identity.allocationId, p)
    case FinalizeInstall(p, name, id) =>
      HeldPayload(rows, p.identity.allocationId, p) && HeldName(rows, p.identity.allocationId, name)
      && HeldId(rows, p.identity.allocationId, id)
    case FinalizeEnable(p, name, id) =>
      HeldPayload(rows, p.identity.allocationId, p) && HeldName(rows, p.identity.allocationId, name)
      && HeldId(rows, p.identity.allocationId, id)
    case StartPayload(_, _, _) => true
    case StartBinding(a, c, _, p) => HeldPayload(rows, a, p) && Matches(c, p)
    case StartClaim(a, c, _, p, name, id) =>
      HeldPayload(rows, a, p) && Matches(c, p) && HeldName(rows, a, name) && HeldId(rows, a, id)
    case StartVerify(a, c, _, p, name, id) =>
      HeldPayload(rows, a, p) && Matches(c, p) && HeldName(rows, a, name) && HeldId(rows, a, id)
    case StartDisable(a, c, _, p, name, id) =>
      HeldPayload(rows, a, p) && Matches(c, p) && HeldName(rows, a, name) && HeldId(rows, a, id)
    case StartAdmit(a, c, _, p) => HeldPayload(rows, a, p) && Matches(c, p)
    case FinishGet(_, _, _) => true
    case FinishMove(a, _, _) => a in rows
    case FinishBinding(a) => a in rows
    case FinishMeasure(a, name) => HeldName(rows, a, name)
    case FinishCleanup(a) => a in rows
    case RecoverGet(_) => true
    case RecoverName(a, _) => a in rows
    case RecoverBinding(a, _, name) => HeldName(rows, a, name)
    case RecoverFind(a, _, name) => HeldName(rows, a, name)
    case RecoverBind(a, _, name, _) => HeldName(rows, a, name)
    case DeleteFind(a, name, id, _) => HeldName(rows, a, name) && HeldId(rows, a, id)
    case DeleteDisable(a, name, id, _) => HeldName(rows, a, name) && HeldId(rows, a, id)
    case DeleteDrain(a, name, id, _) => HeldName(rows, a, name) && HeldId(rows, a, id)
    case DeleteDelete(a, name, id, _) => HeldName(rows, a, name) && HeldId(rows, a, id)
    case DeleteAbsent(a, name, _) => HeldName(rows, a, name)
    case RecoverMove(a, name) => HeldName(rows, a, name)
    case RecoverMeasure(a, name, _, _) => HeldName(rows, a, name)
    case RecoverAcknowledge(a, name, _, _) => HeldName(rows, a, name)
    case RecoverCleanup(a, name) => HeldName(rows, a, name)
    case RecoverFinal(a, name) => HeldName(rows, a, name)
  }

  predicate WorldOk(w: World) {
    RowsOk(w.shared.rows) && forall pid :: pid in w.calls ==> CallOk(w.shared.rows, w.calls[pid])
  }

  lemma CallOkStays(before: Rows, after: Rows, call: Call)
    requires RowsAge(before, after) && CallOk(before, call)
    ensures CallOk(after, call)
  {
    hide Matches, RowsAge;
    if AllocationOf(call) in before { HeldStays(before, after, AllocationOf(call)); }
  }

  lemma HeldStays(before: Rows, after: Rows, a: string)
    requires RowsAge(before, after) && a in before
    ensures a in after && after[a].reservation == before[a].reservation
    ensures after[a].scaleSetName == before[a].scaleSetName
    ensures before[a].payload.Some? ==> after[a].payload == before[a].payload
    ensures before[a].garmId.Some? ==> after[a].garmId == before[a].garmId
  {
  }

  predicate Kept(s: Shared, n: Next) {
    match n
    case Go(t, call) => RowsOk(t.rows) && RowsAge(s.rows, t.rows) && CallOk(t.rows, call)
    case Return(t) => RowsOk(t.rows) && RowsAge(s.rows, t.rows)
    case Raise => true
    case Wait => true
  }

  lemma ReserveStepKeeps(s: Shared, call: Call, given: Given)
    requires call.ReserveLedger? || call.ReserveEnsure? || call.ReserveBind?
    requires RowsOk(s.rows) && CallOk(s.rows, call)
    ensures Kept(s, ReserveStep(s, call, given))
  {
    hide RowsOk, RowsAge, Reserve, Bind, EnsureDisabled;
    AgesRefls(s.rows);
    match call {
      case ReserveLedger(r, now) =>
        if Reserve(s.rows, r, now).Ok? { ReserveKeeps(s.rows, r, now); }
      case ReserveBind(r, id) =>
        if Bind(s.rows, r.identity.allocationId, id, r.identity.scaleSetName).Ok? {
          BindKeeps(s.rows, r.identity.allocationId, id, r.identity.scaleSetName);
        }
      case _ =>
    }
  }

  lemma FinalizeStepKeeps(s: Shared, call: Call)
    requires call.FinalizeLedger? || call.FinalizeBinding? || call.FinalizeInstall? || call.FinalizeEnable?
    requires RowsOk(s.rows) && CallOk(s.rows, call)
    ensures Kept(s, FinalizeStep(s, call))
  {
    hide RowsOk, RowsAge, Finalize, Install, Enable;
    AgesRefls(s.rows);
    if call.FinalizeLedger? && Finalize(s.rows, call.e, call.now).Ok? {
      FinalizeKeeps(s.rows, call.e, call.now);
    }
  }

  lemma StartStepKeeps(s: Shared, call: Call, given: Given)
    requires call.StartPayload? || call.StartBinding? || call.StartClaim? || call.StartVerify? || call.StartDisable?
      || call.StartAdmit?
    requires RowsOk(s.rows) && CallOk(s.rows, call)
    ensures Kept(s, StartStep(s, call, given))
  {
    hide RowsOk, RowsAge, Transition, Disable, Claimed, Matches;
    AgesRefls(s.rows);
    if call.StartAdmit? && Transition(s.rows, call.a, AdmitJob(call.now + given.elapsed)).Ok? {
      TransitionKeeps(s.rows, call.a, AdmitJob(call.now + given.elapsed));
    }
  }

  lemma FinishStepKeeps(s: Shared, call: Call)
    requires call.FinishGet? || call.FinishMove? || call.FinishBinding? || call.FinishMeasure? || call.FinishCleanup?
    requires RowsOk(s.rows) && CallOk(s.rows, call)
    ensures Kept(s, FinishStep(s, call))
  {
    hide RowsOk, RowsAge, Transition, Absent;
    AgesRefls(s.rows);
    if call.FinishMove? && Transition(s.rows, call.a, Finish(call.outcome, call.cancelAttempted)).Ok? {
      TransitionKeeps(s.rows, call.a, Finish(call.outcome, call.cancelAttempted));
    } else if call.FinishCleanup? && Transition(s.rows, call.a, Cleanup).Ok? {
      TransitionKeeps(s.rows, call.a, Cleanup);
    }
  }

  lemma BoundNameIsTheRows(rows: Rows, a: string)
    requires RowsOk(rows) && a in rows
    ensures BoundName(rows[a]) == rows[a].scaleSetName
  {
    assert RowOk(a, rows[a]);
  }

  lemma RecoverStepKeeps(s: Shared, call: Call)
    requires call.RecoverGet? || call.RecoverName? || call.RecoverBinding? || call.RecoverFind? || call.RecoverBind?
    requires RowsOk(s.rows) && CallOk(s.rows, call)
    ensures Kept(s, RecoverStep(s, call))
  {
    hide RowsOk, RowsAge, Bind, Find, BoundName, RowAges;
    AgesRefls(s.rows);
    if call.RecoverBind? && Bind(s.rows, call.a, call.id, call.name).Ok? {
      BindKeeps(s.rows, call.a, call.id, call.name);
      BindKeepsNames(s.rows, call.a, call.id, call.name);
    } else if call.RecoverName? {
      BoundNameIsTheRows(s.rows, call.a);
    }
  }

  lemma BindKeepsNames(rows: Rows, a: string, id: int, name: Name)
    requires Bind(rows, a, id, name).Ok?
    ensures HeldName(Bind(rows, a, id, name).value, a, name)
  {
  }

  lemma DeleteStepKeeps(s: Shared, call: Call)
    requires call.DeleteFind? || call.DeleteDisable? || call.DeleteDrain? || call.DeleteDelete? || call.DeleteAbsent?
    requires RowsOk(s.rows) && CallOk(s.rows, call)
    ensures Kept(s, DeleteStep(s, call))
  {
    hide RowsOk, RowsAge, Find, Disable, Delete, Drained, Absent;
    AgesRefls(s.rows);
  }

  lemma TransitionKeepsNames(rows: Rows, a: string, action: Action, name: Name)
    requires Transition(rows, a, action).Ok? && HeldName(rows, a, name)
    ensures HeldName(Transition(rows, a, action).value, a, name)
  {
  }

  lemma SettleStepKeeps(s: Shared, call: Call)
    requires call.RecoverMove? || call.RecoverMeasure? || call.RecoverAcknowledge? || call.RecoverCleanup?
      || call.RecoverFinal?
    requires RowsOk(s.rows) && CallOk(s.rows, call)
    ensures Kept(s, SettleStep(s, call))
  {
    hide RowsOk, RowsAge, Transition, Absent, HeldName;
    AgesRefls(s.rows);
    if call.RecoverMove? && Transition(s.rows, call.a, Recover).Ok? {
      TransitionKeeps(s.rows, call.a, Recover);
      TransitionKeepsNames(s.rows, call.a, Recover, call.name);
    } else if call.RecoverCleanup? && Transition(s.rows, call.a, Cleanup).Ok? {
      TransitionKeeps(s.rows, call.a, Cleanup);
      TransitionKeepsNames(s.rows, call.a, Cleanup, call.name);
    } else if call.RecoverAcknowledge? && Transition(s.rows, call.a, Acknowledge(call.key, call.evidence)).Ok? {
      TransitionKeeps(s.rows, call.a, Acknowledge(call.key, call.evidence));
      TransitionKeepsNames(s.rows, call.a, Acknowledge(call.key, call.evidence), call.name);
    }
  }

  lemma StepKeeps(s: Shared, call: Call, given: Given)
    requires RowsOk(s.rows) && CallOk(s.rows, call)
    ensures Kept(s, Step(s, call, given))
  {
    hide RowsOk, CallOk, Kept, ReserveStep, FinalizeStep, StartStep, FinishStep, RecoverStep, DeleteStep, SettleStep;
    if call.ReserveLedger? || call.ReserveEnsure? || call.ReserveBind? { ReserveStepKeeps(s, call, given); }
    else if call.FinalizeLedger? || call.FinalizeBinding? || call.FinalizeInstall? || call.FinalizeEnable? {
      FinalizeStepKeeps(s, call);
    } else if call.StartPayload? || call.StartBinding? || call.StartClaim? || call.StartVerify? || call.StartDisable?
              || call.StartAdmit? { StartStepKeeps(s, call, given); }
    else if call.FinishGet? || call.FinishMove? || call.FinishBinding? || call.FinishMeasure? || call.FinishCleanup? {
      FinishStepKeeps(s, call);
    } else if call.RecoverGet? || call.RecoverName? || call.RecoverBinding? || call.RecoverFind? || call.RecoverBind? {
      RecoverStepKeeps(s, call);
    } else if call.DeleteFind? || call.DeleteDisable? || call.DeleteDrain? || call.DeleteDelete? || call.DeleteAbsent? {
      DeleteStepKeeps(s, call);
    } else { SettleStepKeeps(s, call); }
  }

  lemma ApplyKeeps(w: World, e: Event)
    requires WorldOk(w)
    ensures WorldOk(Apply(w, e)) && RowsAge(w.shared.rows, Apply(w, e).shared.rows)
  {
    hide RowsOk, CallOk, RowsAge, Step;
    AgesRefls(w.shared.rows);
    match e {
      case Begin(pid, call) =>
        assert Entry(call) ==> CallOk(w.shared.rows, call) by { EntryOk(w.shared.rows, call); }
      case Advance(pid, given) =>
        if pid in w.calls {
          var after := Apply(w, e);
          StepKeeps(w.shared, w.calls[pid], given);
          forall q | q in w.calls ensures CallOk(after.shared.rows, w.calls[q]) {
            CallOkStays(w.shared.rows, after.shared.rows, w.calls[q]);
          }
        }
      case _ =>
    }
  }

  lemma EntryOk(rows: Rows, call: Call)
    ensures Entry(call) ==> CallOk(rows, call)
  {
  }

  lemma {:induction false} RunKeeps(garm: Sets, instances: set<Name>, run: seq<Event>)
    ensures WorldOk(After(Start(garm, instances), run))
  {
    hide Apply;
    if run != [] {
      RunKeeps(garm, instances, run[..|run| - 1]);
      ApplyKeeps(After(Start(garm, instances), run[..|run| - 1]), run[|run| - 1]);
    }
  }

  /** Between any two points of a run, every row only ages: no lifecycle state is re-entered, the finalized payload
      and the scale-set id are write-once. */
  lemma {:induction false} RunAges(garm: Sets, instances: set<Name>, run: seq<Event>, i: nat, j: nat)
    requires i <= j <= |run|
    ensures RowsAge(After(Start(garm, instances), run[..i]).shared.rows, After(Start(garm, instances), run[..j]).shared.rows)
    decreases j
  {
    hide Apply, RowsAge, WorldOk;
    var w0 := Start(garm, instances);
    if i == j {
      AgesRefls(After(w0, run[..i]).shared.rows);
    } else {
      RunAges(garm, instances, run, i, j - 1);
      assert run[..j][..j - 1] == run[..j - 1];
      RunKeeps(garm, instances, run[..j - 1]);
      ApplyKeeps(After(w0, run[..j - 1]), run[j - 1]);
      AgesTransitively(After(w0, run[..i]).shared.rows, After(w0, run[..j - 1]).shared.rows, After(w0, run[..j]).shared.rows);
    }
  }

  // ----- At most one job -----

  /** The event commits a job's admission on allocation `a`. */
  ghost predicate Admits(w: World, e: Event, a: string) {
    e.Advance? && e.pid in w.calls && w.calls[e.pid].StartAdmit? && w.calls[e.pid].a == a
    && Step(w.shared, w.calls[e.pid], e.given).Return?
  }

  lemma AdmissionMovesTheRow(w: World, e: Event, a: string)
    requires WorldOk(w) && Admits(w, e, a)
    ensures a in w.shared.rows && w.shared.rows[a].state == Issued
    ensures Apply(w, e).shared.rows == w.shared.rows[a := w.shared.rows[a].(state := Running, jobs := 1)]
    ensures var call, row := w.calls[e.pid], w.shared.rows[a];
      row.payload == Some(call.p) && Matches(call.c, call.p) && Projection(call.p) == row.reservation
      && call.p.terms.issuedAt - CLOCK_SKEW <= call.now + e.given.elapsed < ClaimDeadline(call.p.terms)
  {
    var call := w.calls[e.pid];
    assert CallOk(w.shared.rows, call);
    assert RowOk(a, w.shared.rows[a]);
  }

  /** In every interleaving, with a crash possible at every step, an allocation admits at most one job. */
  lemma AtMostOneAdmission(garm: Sets, instances: set<Name>, run: seq<Event>, i: nat, j: nat, a: string)
    requires i < |run| && j < |run|
    requires Admits(After(Start(garm, instances), run[..i]), run[i], a)
    requires Admits(After(Start(garm, instances), run[..j]), run[j], a)
    ensures i == j
  {
    if i < j {
      AdmissionIsLast(garm, instances, run, i, j, a);
    } else if j < i {
      AdmissionIsLast(garm, instances, run, j, i, a);
    }
  }

  lemma AdmissionIsLast(garm: Sets, instances: set<Name>, run: seq<Event>, i: nat, j: nat, a: string)
    requires i < j < |run|
    requires Admits(After(Start(garm, instances), run[..i]), run[i], a)
    ensures !Admits(After(Start(garm, instances), run[..j]), run[j], a)
  {
    hide Apply, WorldOk, Admits;
    var w0 := Start(garm, instances);
    var w, x := After(w0, run[..i]), After(w0, run[..j]);
    RunKeeps(garm, instances, run[..i]);
    RunKeeps(garm, instances, run[..j]);
    AdmissionMovesTheRow(w, run[i], a);
    assert run[..i + 1][..i] == run[..i];
    RunAges(garm, instances, run, i + 1, j);
    assert RowAges(After(w0, run[..i + 1]).shared.rows[a], x.shared.rows[a]);
    if Admits(x, run[j], a) {
      AdmissionMovesTheRow(x, run[j], a);
    }
  }

  /** Once an allocation has left `issued`, no job is admitted on it again. */
  lemma NoAdmissionAfterIssued(garm: Sets, instances: set<Name>, run: seq<Event>, i: nat, j: nat, a: string)
    requires i <= j < |run| && a in After(Start(garm, instances), run[..i]).shared.rows
    requires After(Start(garm, instances), run[..i]).shared.rows[a].state !in {Reserved, Issued}
    ensures !Admits(After(Start(garm, instances), run[..j]), run[j], a)
  {
    hide Apply, After, WorldOk, Admits;
    RunKeeps(garm, instances, run[..j]);
    RunAges(garm, instances, run, i, j);
    var x := After(Start(garm, instances), run[..j]);
    if Admits(x, run[j], a) {
      AdmissionMovesTheRow(x, run[j], a);
    }
  }

  /** The admitted job is the one the finalized payload signed: the hook's context matches it, it projects to the stored
      reservation, the admission falls in its claim window, and no other payload is ever stored for the allocation. */
  lemma AdmissionIsAuthorised(garm: Sets, instances: set<Name>, run: seq<Event>, i: nat, k: nat, a: string)
    requires i < |run| && k <= |run| && Admits(After(Start(garm, instances), run[..i]), run[i], a)
    ensures var w := After(Start(garm, instances), run[..i]);
      a in w.shared.rows && var call := w.calls[run[i].pid];
      Matches(call.c, call.p) && w.shared.rows[a].payload == Some(call.p)
      && Projection(call.p) == w.shared.rows[a].reservation
      && call.p.terms.issuedAt - CLOCK_SKEW <= call.now + run[i].given.elapsed < ClaimDeadline(call.p.terms)
      && (a in After(Start(garm, instances), run[..k]).shared.rows ==>
            var row := After(Start(garm, instances), run[..k]).shared.rows[a];
            row.payload in {None, Some(call.p)} && row.reservation == Projection(call.p))
  {
    hide After, Apply, WorldOk, Step;
    var w := After(Start(garm, instances), run[..i]);
    RunKeeps(garm, instances, run[..i]);
    AdmissionMovesTheRow(w, run[i], a);
    if a in After(Start(garm, instances), run[..k]).shared.rows {
      if i <= k { RunAges(garm, instances, run, i, k); } else { RunAges(garm, instances, run, k, i); }
    }
  }

  // ----- Every mutation stays on the allocation's own scale set -----

  /** Sets of other names are the same in `g` and `h`. */
  predicate SameElsewhere(g: Sets, h: Sets, name: Name) {
    (forall i :: i in g && g[i].name != name ==> i in h && h[i] == g[i])
    && forall i :: i in h && h[i].name != name ==> i in g && g[i] == h[i]
  }

  function SharedAfter(s: Shared, n: Next): Shared {
    match n case Go(t, _) => t case Return(t) => t case Raise => s case Wait => s
  }

  lemma OwnName(rows: Rows, p: Payload)
    requires RowsOk(rows) && HeldPayload(rows, p.identity.allocationId, p)
    ensures HeldName(rows, p.identity.allocationId, p.identity.scaleSetName)
  {
    assert RowOk(p.identity.allocationId, rows[p.identity.allocationId]);
  }

  lemma DisableStaysOnName(g: Sets, id: int, name: Name)
    requires Disable(g, id, name).Ok?
    ensures SameElsewhere(g, Disable(g, id, name).value, name)
  {
  }

  lemma DeleteStaysOnName(g: Sets, id: int, name: Name)
    requires Delete(g, id, name).Ok?
    ensures SameElsewhere(g, Delete(g, id, name).value, name)
  {
  }

  lemma EnableStaysOnName(g: Sets, id: int, p: Payload, name: Name)
    ensures Enable(g, id, name).Ok? ==> SameElsewhere(g, Enable(g, id, name).value, name)
    ensures Install(g, id, p).Ok? ==> SameElsewhere(g, Install(g, id, p).value, p.identity.scaleSetName)
  {
  }

  lemma EnsureStaysOnName(g: Sets, name: Name, freshId: int)
    requires EnsureDisabled(g, name, freshId).Ok?
    ensures SameElsewhere(g, EnsureDisabled(g, name, freshId).value.0, name)
  {
  }

  lemma ReservationName(rows: Rows, r: Reservation)
    requires RowsOk(rows) && r.identity.allocationId in rows && rows[r.identity.allocationId].reservation == r
    ensures rows[r.identity.allocationId].scaleSetName == r.identity.scaleSetName
  {
    assert RowOk(r.identity.allocationId, rows[r.identity.allocationId]);
  }

  /** Either the step leaves GARM alone or it stays on its allocation's name. */
  predicate OnName(s: Shared, call: Call, n: Next) {
    SharedAfter(s, n).garm == s.garm
    || (AllocationOf(call) in s.rows
        && SameElsewhere(s.garm, SharedAfter(s, n).garm, s.rows[AllocationOf(call)].scaleSetName))
  }

  lemma ReserveStepOnName(s: Shared, call: Call, given: Given)
    requires call.ReserveLedger? || call.ReserveEnsure? || call.ReserveBind?
    requires RowsOk(s.rows) && CallOk(s.rows, call)
    ensures OnName(s, call, ReserveStep(s, call, given))
  {
    hide SameElsewhere, EnsureDisabled, RowsOk, Reserve, Bind;
    if call.ReserveEnsure? && EnsureDisabled(s.garm, call.r.identity.scaleSetName, given.freshId).Ok? {
      ReservationName(s.rows, call.r);
      EnsureStaysOnName(s.garm, call.r.identity.scaleSetName, given.freshId);
    }
  }

  lemma FinalizeStepOnName(s: Shared, call: Call)
    requires call.FinalizeLedger? || call.FinalizeBinding? || call.FinalizeInstall? || call.FinalizeEnable?
    requires RowsOk(s.rows) && CallOk(s.rows, call)
    ensures OnName(s, call, FinalizeStep(s, call))
  {
    hide SameElsewhere, Install, Enable, RowsOk, Finalize;
    if call.FinalizeInstall? || call.FinalizeEnable? {
      OwnName(s.rows, call.p);
      EnableStaysOnName(s.garm, call.id, call.p, call.name);
    }
  }

  lemma StartStepOnName(s: Shared, call: Call, given: Given)
    requires call.StartPayload? || call.StartBinding? || call.StartClaim? || call.StartVerify? || call.StartDisable?
      || call.StartAdmit?
    requires CallOk(s.rows, call)
    ensures OnName(s, call, StartStep(s, call, given))
  {
    hide SameElsewhere, Disable, Transition, Claimed, Matches;
    if call.StartDisable? && Disable(s.garm, call.id, call.name).Ok? {
      DisableStaysOnName(s.garm, call.id, call.name);
    }
  }

  lemma DeleteStepOnName(s: Shared, call: Call)
    requires call.DeleteFind? || call.DeleteDisable? || call.DeleteDrain? || call.DeleteDelete? || call.DeleteAbsent?
    requires CallOk(s.rows, call)
    ensures OnName(s, call, DeleteStep(s, call))
  {
    hide SameElsewhere, Disable, Delete, Find, Absent, Drained, Named, Afterwards;
    if call.DeleteDisable? && Disable(s.garm, call.id, call.name).Ok? {
      DisableStaysOnName(s.garm, call.id, call.name);
    } else if call.DeleteDelete? && Delete(s.garm, call.id, call.name).Ok? {
      DeleteStaysOnName(s.garm, call.id, call.name);
    }
  }

  lemma ReadersLeaveSetsAlone(s: Shared, call: Call)
    ensures (call.FinishGet? || call.FinishMove? || call.FinishBinding? || call.FinishMeasure? || call.FinishCleanup?) ==>
      SharedAfter(s, FinishStep(s, call)).garm == s.garm
    ensures (call.RecoverGet? || call.RecoverName? || call.RecoverBinding? || call.RecoverFind? || call.RecoverBind?) ==>
      SharedAfter(s, RecoverStep(s, call)).garm == s.garm
    ensures (call.RecoverMove? || call.RecoverMeasure? || call.RecoverAcknowledge? || call.RecoverCleanup?
             || call.RecoverFinal?) ==> SharedAfter(s, SettleStep(s, call)).garm == s.garm
  {
    hide Bind, Transition, Absent, Find, BoundName;
  }

  /** Whatever GARM deleted or whichever ids it reused since the id was read, a step changes no scale set but the one
      carrying its own allocation's name. */
  lemma StepStaysOnItsName(s: Shared, call: Call, given: Given)
    requires RowsOk(s.rows) && CallOk(s.rows, call)
    ensures OnName(s, call, Step(s, call, given))
  {
    hide SharedAfter, RowsOk, CallOk, SameElsewhere, ReserveStep, FinalizeStep, StartStep, FinishStep, RecoverStep,
         DeleteStep, SettleStep;
    if call.ReserveLedger? || call.ReserveEnsure? || call.ReserveBind? { ReserveStepOnName(s, call, given); }
    else if call.FinalizeLedger? || call.FinalizeBinding? || call.FinalizeInstall? || call.FinalizeEnable? {
      FinalizeStepOnName(s, call);
    } else if call.StartPayload? || call.StartBinding? || call.StartClaim? || call.StartVerify? || call.StartDisable?
              || call.StartAdmit? { StartStepOnName(s, call, given); }
    else if call.DeleteFind? || call.DeleteDisable? || call.DeleteDrain? || call.DeleteDelete? || call.DeleteAbsent? {
      DeleteStepOnName(s, call);
    } else { ReadersLeaveSetsAlone(s, call); }
  }

  /** Over any run: no broker call on one allocation ever creates, enables, disables or deletes another name's set. */
  lemma MutationsStayOnTheirName(garm: Sets, instances: set<Name>, run: seq<Event>, i: nat)
    requires i < |run| && run[i].Advance? && run[i].pid in After(Start(garm, instances), run[..i]).calls
    ensures var w := After(Start(garm, instances), run[..i]); var a := AllocationOf(w.calls[run[i].pid]);
      var h := After(Start(garm, instances), run[..i + 1]).shared.garm;
      h == w.shared.garm || (a in w.shared.rows && SameElsewhere(w.shared.garm, h, w.shared.rows[a].scaleSetName))
  {
    hide Step, CallOk, RowsOk, SameElsewhere;
    RunKeeps(garm, instances, run[..i]);
    var w := After(Start(garm, instances), run[..i]);
    assert run[..i + 1][..i] == run[..i];
    StepStaysOnItsName(w.shared, w.calls[run[i].pid], run[i].given);
  }
}
