/** Recovery converges from every state a crash can leave, exactly when the ledger and GARM still agree. */
module BrokerRecovery {
  import opened Basics
  import opened Ledger
  import opened Garm
  import opened BrokerSteps
  import opened BrokerRuns

  // ----- A call that runs alone -----

  /** An upper bound on the steps a call still takes when nothing goes wrong. */
  function Remaining(call: Call): nat {
    match call
    case ReserveLedger(_, _) => 3
    case ReserveEnsure(_) => 2
    case ReserveBind(_, _) => 1
    case FinalizeLedger(_, _) => 4
    case FinalizeBinding(_) => 3
    case FinalizeInstall(_, _, _) => 2
    case FinalizeEnable(_, _, _) => 1
    case StartPayload(_, _, _) => 6
    case StartBinding(_, _, _, _) => 5
    case StartClaim(_, _, _, _, _, _) => 4
    case StartVerify(_, _, _, _, _, _) => 3
    case StartDisable(_, _, _, _, _, _) => 2
    case StartAdmit(_, _, _, _) => 1
    case FinishGet(_, _, _) => 15
    case FinishMove(_, _, _) => 11
    case FinishBinding(_) => 10
    case FinishMeasure(_, _) => 2
    case FinishCleanup(_) => 1
    case RecoverGet(_) => 14
    case RecoverName(_, _) => 13
    case RecoverBinding(_, _, _) => 12
    case RecoverFind(_, _, _) => 11
    case RecoverBind(_, _, _, _) => 10
    case DeleteFind(_, _, _, _) => 9
    case DeleteDisable(_, _, _, _) => 8
    case DeleteDrain(_, _, _, _) => 7
    case DeleteDelete(_, _, _, _) => 6
    case DeleteAbsent(_, _, _) => 5
    case RecoverMove(_, _) => 4
    case RecoverMeasure(_, _, _, _) => 3
    case RecoverAcknowledge(_, _, _, _) => 2
    case RecoverCleanup(_, _) => 2
    case RecoverFinal(_, _) => 1
  }

  lemma StepAdvances(s: Shared, call: Call, given: Given)
    ensures Step(s, call, given).Go? ==> Remaining(Step(s, call, given).call) < Remaining(call)
  {
    hide Reserve, Finalize, Bind, Transition, Disable, EnsureDisabled, Install, Enable, Delete, Find, Claimed, Drained,
         Absent, Matches, BoundName;
  }

  /** How a call ends: the stores it leaves, and whether it returned rather than raised (or gave up waiting). */
  datatype Ending = Ending(s: Shared, returned: bool)

  ghost function Solo(s: Shared, call: Call, given: Given): Ending
    decreases Remaining(call)
  {
    StepAdvances(s, call, given);
    match Step(s, call, given)
    case Go(t, next) => Solo(t, next, given)
    case Return(t) => Ending(t, true)
    case Raise => Ending(s, false)
    case Wait => Ending(s, false)
  }

  lemma SoloGoes(s: Shared, call: Call, given: Given, t: Shared, next: Call)
    requires Step(s, call, given) == Go(t, next)
    ensures Solo(s, call, given) == Solo(t, next, given)
  {
    hide Step;
  }

  lemma SoloStops(s: Shared, call: Call, given: Given)
    requires Step(s, call, given).Raise? || Step(s, call, given).Wait?
    ensures Solo(s, call, given) == Ending(s, false)
  {
    hide Step;
  }

  lemma SoloReturns(s: Shared, call: Call, given: Given)
    requires Step(s, call, given).Return?
    ensures Solo(s, call, given) == Ending(Step(s, call, given).s, true)
  {
    hide Step;
  }

  predicate Recovering(call: Call) {
    call.RecoverGet? || call.RecoverName? || call.RecoverBinding? || call.RecoverFind? || call.RecoverBind?
  }

  predicate Deleting(call: Call) {
    call.DeleteFind? || call.DeleteDisable? || call.DeleteDrain? || call.DeleteDelete? || call.DeleteAbsent?
  }

  predicate Settling(call: Call) {
    call.RecoverMove? || call.RecoverMeasure? || call.RecoverAcknowledge? || call.RecoverCleanup? || call.RecoverFinal?
  }

  lemma StepIs(s: Shared, call: Call, given: Given)
    ensures Recovering(call) ==> Step(s, call, given) == RecoverStep(s, call)
    ensures Deleting(call) ==> Step(s, call, given) == DeleteStep(s, call)
    ensures Settling(call) ==> Step(s, call, given) == SettleStep(s, call)
  {
    hide ReserveStep, FinalizeStep, StartStep, FinishStep, RecoverStep, DeleteStep, SettleStep;
  }

  // ----- When recovery can work -----

  /** The ledger and GARM agree on where the allocation's scale set is. */
  predicate Coherent(s: Shared, a: string)
    requires a in s.rows
  {
    var row := s.rows[a];
    !Duplicated(s.garm, row.scaleSetName)
    && (row.garmId.Some? ==> Absent(s.garm, row.scaleSetName) || Named(s.garm, row.garmId.value, row.scaleSetName))
  }

  /** The surroundings have let go of the allocation: no runner, and no instance where recovery measures that. */
  predicate Quiet(s: Shared, a: string)
    requires a in s.rows
  {
    var row := s.rows[a];
    (forall i :: i in s.garm && s.garm[i].name == row.scaleSetName ==> s.garm[i].runners == [])
    && (row.state in {Terminal, Cleaned} || row.scaleSetName !in s.instances)
  }

  /** The allocation is cleaned, its scale set gone, and nothing else has changed. */
  predicate CleanedUp(s: Shared, t: Shared, a: string)
    requires a in s.rows
  {
    a in t.rows && t.rows == s.rows[a := t.rows[a]]
    && t.rows[a].state == Cleaned && t.rows[a].cleaned
    && Absent(t.garm, s.rows[a].scaleSetName)
    && SameElsewhere(s.garm, t.garm, s.rows[a].scaleSetName)
    && t.instances == s.instances
  }

  lemma FinalAlone(s: Shared, a: string, name: Name, given: Given)
    ensures Solo(s, RecoverFinal(a, name), given) == Ending(s, Absent(s.garm, name))
  {
    hide Absent;
  }

  /** Fencing, measuring and acknowledging: the row that results, if the instance is gone. */
  lemma FencedRow(a: string, row: Row)
    requires RowOk(a, row) && row.state in {Reserved, Issued, Running, RecoveryRequired}
    ensures Move(a, row, Recover).Ok?
    ensures var fenced := Move(a, row, Recover).value;
      var evidence := Evidence(a, fenced.cleanupKey, fenced.jobs, true, 0);
      var acknowledged := Move(a, fenced, Acknowledge(fenced.cleanupKey, evidence));
      acknowledged.Ok? && acknowledged.value.state == Cleaned && acknowledged.value.cleaned
      && RowAges(row, acknowledged.value)
  {
  }

  /** With the scale set gone and no instance left, what the row's state calls for ends `cleaned`. */
  lemma SettleAlone(s: Shared, a: string, given: Given)
    requires RowsOk(s.rows) && a in s.rows && Absent(s.garm, s.rows[a].scaleSetName)
    ensures var name := s.rows[a].scaleSetName;
      var e := Solo(s, Afterwards(a, name, Settle(s.rows[a].state)), given);
      (e.returned <==> s.rows[a].state in {Terminal, Cleaned} || name !in s.instances)
      && (e.returned ==> CleanedUp(s, e.s, a))
  {
    hide Step, Solo, Absent, RowsOk, Move, Acknowledges, RowAges, SameElsewhere;
    RowIsOk(s.rows, a);
    SameIsSameElsewhere(s.garm, s.rows[a].scaleSetName);
    var row, name := s.rows[a], s.rows[a].scaleSetName;
    if row.state == Cleaned {
      FinalAlone(s, a, name, given);
      RowOkCleaned(a, row);
      assert s.rows == s.rows[a := row];
    } else if row.state == Terminal {
      CleanedRow(a, row);
      var t := s.(rows := s.rows[a := Move(a, row, Cleanup).value]);
      FinalAlone(t, a, name, given);
      StepIs(s, RecoverCleanup(a, name), given);
      SoloGoes(s, RecoverCleanup(a, name), given, t, RecoverFinal(a, name));
    } else {
      FencedRow(a, row);
      FenceAlone(s, a, given);
    }
  }

  lemma SameIsSameElsewhere(g: Sets, name: Name)
    ensures SameElsewhere(g, g, name)
  {
  }

  lemma RowOkCleaned(a: string, row: Row)
    requires RowOk(a, row)
    ensures row.cleaned <==> row.state == Cleaned
  {
  }

  lemma CleanedRow(a: string, row: Row)
    requires RowOk(a, row) && row.state == Terminal
    ensures Move(a, row, Cleanup).Ok?
    ensures Move(a, row, Cleanup).value.state == Cleaned && Move(a, row, Cleanup).value.cleaned
  {
  }

  lemma FenceAlone(s: Shared, a: string, given: Given)
    requires a in s.rows && Absent(s.garm, s.rows[a].scaleSetName) && RowOk(a, s.rows[a])
    requires s.rows[a].state in {Reserved, Issued, Running, RecoveryRequired}
    ensures var name := s.rows[a].scaleSetName;
      var e := Solo(s, RecoverMove(a, name), given);
      (e.returned <==> name !in s.instances)
      && (e.returned ==> CleanedUp(s, e.s, a))
  {
    hide Step, Solo, Absent, RowOk, Move, Acknowledges, RowAges, SameElsewhere;
    SameIsSameElsewhere(s.garm, s.rows[a].scaleSetName);
    FencedRow(a, s.rows[a]);
    var row, name := s.rows[a], s.rows[a].scaleSetName;
    var fenced := Move(a, row, Recover).value;
    var s1 := s.(rows := s.rows[a := fenced]);
    var measure := RecoverMeasure(a, name, fenced.cleanupKey, fenced.jobs);
    StepIs(s, RecoverMove(a, name), given);
    SoloGoes(s, RecoverMove(a, name), given, s1, measure);
    if name !in s.instances {
      var evidence := Evidence(a, fenced.cleanupKey, fenced.jobs, true, 0);
      var acknowledge := RecoverAcknowledge(a, name, fenced.cleanupKey, evidence);
      StepIs(s1, measure, given);
      SoloGoes(s1, measure, given, s1, acknowledge);
      var done := Move(a, fenced, Acknowledge(fenced.cleanupKey, evidence)).value;
      var s2 := s.(rows := s.rows[a := done]);
      assert s1.rows[a := done] == s2.rows;
      StepIs(s1, acknowledge, given);
      SoloGoes(s1, acknowledge, given, s2, RecoverFinal(a, name));
      FinalAlone(s2, a, name, given);
    } else {
      StepIs(s1, measure, given);
      SoloStops(s1, measure, given);
    }
  }

  /** Deleting by the bound id: it works exactly when the name lives at that id, drained, and leaves the name absent. */
  lemma DeleteAlone(s: Shared, a: string, name: Name, id: int, goal: Goal, given: Given)
    requires !Absent(s.garm, name)
    ensures var e := Solo(s, DeleteFind(a, name, id, goal), given);
      if !Duplicated(s.garm, name) && Named(s.garm, id, name) && s.garm[id].runners == [] then
        Absent(s.garm - {id}, name) && e == Solo(s.(garm := s.garm - {id}), Afterwards(a, name, goal), given)
      else !e.returned
  {
    hide Step, Solo, Find, Afterwards, Absent, Duplicated;
    var find := DeleteFind(a, name, id, goal);
    if Duplicated(s.garm, name) {
      StepIs(s, find, given);
      SoloStops(s, find, given);
    } else {
      StepIs(s, find, given);
      SoloGoes(s, find, given, s, DeleteDisable(a, name, id, goal));
      if Named(s.garm, id, name) {
        DisabledAlone(s, a, name, id, goal, given);
      } else {
        StepIs(s, DeleteDisable(a, name, id, goal), given);
        SoloStops(s, DeleteDisable(a, name, id, goal), given);
      }
    }
  }

  lemma RemovingTheOnlyOne(g: Sets, id: int, name: Name)
    requires !Duplicated(g, name) && Named(g, id, name)
    ensures Absent(g - {id}, name)
  {
  }

  lemma DisabledAlone(s: Shared, a: string, name: Name, id: int, goal: Goal, given: Given)
    requires !Duplicated(s.garm, name) && Named(s.garm, id, name)
    ensures var e := Solo(s, DeleteDisable(a, name, id, goal), given);
      if s.garm[id].runners == [] then
        Absent(s.garm - {id}, name) && e == Solo(s.(garm := s.garm - {id}), Afterwards(a, name, goal), given)
      else !e.returned
  {
    hide Step, Solo, Find, Afterwards, Absent, Duplicated;
    RemovingTheOnlyOne(s.garm, id, name);
    var t := s.(garm := s.garm[id := s.garm[id].(enabled := false)]);
    StepIs(s, DeleteDisable(a, name, id, goal), given);
    SoloGoes(s, DeleteDisable(a, name, id, goal), given, t, DeleteDrain(a, name, id, goal));
    if s.garm[id].runners == [] {
      StepIs(t, DeleteDrain(a, name, id, goal), given);
      SoloGoes(t, DeleteDrain(a, name, id, goal), given, t, DeleteDelete(a, name, id, goal));
      var u := s.(garm := s.garm - {id});
      assert t.garm - {id} == u.garm;
      StepIs(t, DeleteDelete(a, name, id, goal), given);
      SoloGoes(t, DeleteDelete(a, name, id, goal), given, u, DeleteAbsent(a, name, goal));
      StepIs(u, DeleteAbsent(a, name, goal), given);
      SoloGoes(u, DeleteAbsent(a, name, goal), given, u, Afterwards(a, name, goal));
    } else {
      StepIs(t, DeleteDrain(a, name, id, goal), given);
      SoloStops(t, DeleteDrain(a, name, id, goal), given);
    }
  }

  lemma AbsentAlone(s: Shared, a: string, name: Name, id: int, goal: Goal, given: Given)
    requires Absent(s.garm, name)
    ensures Solo(s, DeleteAbsent(a, name, goal), given) == Solo(s, Afterwards(a, name, goal), given)
    ensures Solo(s, DeleteFind(a, name, id, goal), given) == Solo(s, Afterwards(a, name, goal), given)
  {
    hide Step, Solo, Find, Afterwards, Absent;
    StepIs(s, DeleteFind(a, name, id, goal), given);
    SoloGoes(s, DeleteFind(a, name, id, goal), given, s, DeleteAbsent(a, name, goal));
    StepIs(s, DeleteAbsent(a, name, goal), given);
    SoloGoes(s, DeleteAbsent(a, name, goal), given, s, Afterwards(a, name, goal));
  }

  lemma RecoverReads(s: Shared, a: string, given: Given)
    requires RowsOk(s.rows) && a in s.rows
    ensures var row := s.rows[a];
      Solo(s, RecoverGet(a), given) == Solo(s, RecoverBinding(a, row.state, row.scaleSetName), given)
  {
    hide Step, Solo, BoundName, RowsOk, Find;
    BoundNameIsTheRows(s.rows, a);
    var row := s.rows[a];
    StepIs(s, RecoverGet(a), given);
    SoloGoes(s, RecoverGet(a), given, s, RecoverName(a, row.state));
    StepIs(s, RecoverName(a, row.state), given);
    SoloGoes(s, RecoverName(a, row.state), given, s, RecoverBinding(a, row.state, row.scaleSetName));
  }

  /** The stores after an unbound row was bound to the set that carries its name. */
  function Bound(s: Shared, a: string, id: int): Shared
    requires a in s.rows
  {
    s.(rows := s.rows[a := s.rows[a].(garmId := Some(id))])
  }

  /** Recovery went on with the scale set it found, or could not record an id that is not one. */
  ghost predicate EndsAsBound(s: Shared, a: string, id: int, e: Ending, given: Given)
    requires a in s.rows
  {
    var row := s.rows[a];
    if id >= 1 then e == Solo(Bound(s, a, id), DeleteFind(a, row.scaleSetName, id, Settle(row.state)), given)
    else !e.returned
  }

  lemma BindingReads(s: Shared, a: string, given: Given)
    requires a in s.rows
    ensures var row := s.rows[a]; var name, seen := row.scaleSetName, Settle(row.state);
      var e := Solo(s, RecoverBinding(a, row.state, name), given);
      if row.garmId.Some? then e == Solo(s, DeleteFind(a, name, row.garmId.value, seen), given)
      else if Duplicated(s.garm, name) then !e.returned
      else if Absent(s.garm, name) then e == Solo(s, Afterwards(a, name, seen), given)
      else exists id :: Named(s.garm, id, name) && EndsAsBound(s, a, id, e, given)
  {
    hide Step, Solo, Find, Absent, Duplicated, Afterwards;
    var row := s.rows[a];
    var name := row.scaleSetName;
    if row.garmId.None? {
      StepIs(s, RecoverBinding(a, row.state, name), given);
      SoloGoes(s, RecoverBinding(a, row.state, name), given, s, RecoverFind(a, row.state, name));
      if Duplicated(s.garm, name) {
        StepIs(s, RecoverFind(a, row.state, name), given);
        SoloStops(s, RecoverFind(a, row.state, name), given);
      } else if Absent(s.garm, name) {
        StepIs(s, RecoverFind(a, row.state, name), given);
        SoloGoes(s, RecoverFind(a, row.state, name), given, s, DeleteAbsent(a, name, Settle(row.state)));
        AbsentAlone(s, a, name, 0, Settle(row.state), given);
      } else {
        var id := Find(s.garm, name).value.value;
        var bind := RecoverBind(a, row.state, name, id);
        StepIs(s, RecoverFind(a, row.state, name), given);
        SoloGoes(s, RecoverFind(a, row.state, name), given, s, bind);
        if id >= 1 {
          StepIs(s, bind, given);
          SoloGoes(s, bind, given, Bound(s, a, id), DeleteFind(a, name, id, Settle(row.state)));
        } else {
          StepIs(s, bind, given);
          SoloStops(s, bind, given);
        }
        assert Named(s.garm, id, name);
      }
    } else {
      StepIs(s, RecoverBinding(a, row.state, name), given);
      SoloGoes(s, RecoverBinding(a, row.state, name), given, s, DeleteFind(a, name, row.garmId.value, Settle(row.state)));
    }
  }

  /** GARM numbers its scale sets from one. */
  predicate PositiveIds(g: Sets) {
    forall i :: i in g ==> i >= 1
  }

  lemma DeleteAndSettle(s: Shared, a: string, id: int, given: Given)
    requires RowsOk(s.rows) && a in s.rows && s.rows[a].garmId == Some(id) && !Absent(s.garm, s.rows[a].scaleSetName)
    ensures var row := s.rows[a];
      var e := Solo(s, DeleteFind(a, row.scaleSetName, id, Settle(row.state)), given);
      (e.returned <==> Coherent(s, a) && Quiet(s, a)) && (e.returned ==> CleanedUp(s, e.s, a))
  {
    hide RowsOk, RowOk, Absent, Duplicated, Afterwards, Solo;
    var row := s.rows[a];
    var name := row.scaleSetName;
    DeleteAlone(s, a, name, id, Settle(row.state), given);
    if !Duplicated(s.garm, name) && Named(s.garm, id, name) {
      OnlyOneNamed(s.garm, id, name);
      if s.garm[id].runners == [] {
        var t := s.(garm := s.garm - {id});
        SettleAlone(t, a, given);
      }
    }
  }

  lemma OnlyOneNamed(g: Sets, id: int, name: Name)
    requires !Duplicated(g, name) && Named(g, id, name)
    ensures forall i :: i in g && g[i].name == name ==> i == id
  {
  }

  lemma BoundStaysOk(s: Shared, a: string, id: int)
    requires RowsOk(s.rows) && a in s.rows && s.rows[a].garmId.None? && id >= 1
    ensures RowsOk(Bound(s, a, id).rows)
  {
    hide RowsOk;
    BindKeeps(s.rows, a, id, s.rows[a].scaleSetName);
  }

  /** One fault-free `recover` returns exactly when the stores agree on the scale set and the surroundings have let go;
      it then leaves the row `cleaned`, no scale set of that name, and everything else as it was. */
  lemma RecoverIff(s: Shared, a: string, given: Given)
    requires RowsOk(s.rows) && a in s.rows && PositiveIds(s.garm)
    ensures var e := Solo(s, RecoverGet(a), given);
      (e.returned <==> Coherent(s, a) && Quiet(s, a)) && (e.returned ==> CleanedUp(s, e.s, a))
  {
    hide RowsOk, RowOk, Duplicated, Afterwards, Solo, CleanedUp, Quiet;
    var row := s.rows[a];
    var name := row.scaleSetName;
    RecoverReads(s, a, given);
    BindingReads(s, a, given);
    if Absent(s.garm, name) {
      SettleAlone(s, a, given);
      AbsentIsCoherent(s, a);
      if row.garmId.Some? { AbsentAlone(s, a, name, row.garmId.value, Settle(row.state), given); }
    } else if row.garmId.Some? {
      DeleteAndSettle(s, a, row.garmId.value, given);
    } else if !Duplicated(s.garm, name) {
      var id :| Named(s.garm, id, name)
        && EndsAsBound(s, a, id, Solo(s, RecoverBinding(a, row.state, name), given), given);
      BoundStaysOk(s, a, id);
      DeleteAndSettle(Bound(s, a, id), a, id, given);
      BoundChangesNothingElse(s, a, id, Solo(s, RecoverBinding(a, row.state, name), given).s);
    }
  }

  lemma AbsentIsCoherent(s: Shared, a: string)
    requires a in s.rows && Absent(s.garm, s.rows[a].scaleSetName)
    ensures Coherent(s, a)
    ensures Quiet(s, a) <==> s.rows[a].state in {Terminal, Cleaned} || s.rows[a].scaleSetName !in s.instances
  {
  }

  lemma BoundChangesNothingElse(s: Shared, a: string, id: int, t: Shared)
    requires a in s.rows
    ensures Quiet(Bound(s, a, id), a) == Quiet(s, a)
    ensures CleanedUp(Bound(s, a, id), t, a) ==> CleanedUp(s, t, a)
  {
    hide Absent, SameElsewhere;
  }

  /** A second `recover` returns and changes nothing. */
  lemma RecoverTwice(s: Shared, a: string, given: Given)
    requires RowsOk(s.rows) && a in s.rows && PositiveIds(s.garm)
    requires s.rows[a].state == Cleaned && Absent(s.garm, s.rows[a].scaleSetName)
    ensures Solo(s, RecoverGet(a), given) == Ending(s, true)
  {
    hide RowsOk, RowOk, Duplicated, Solo, Absent;
    var row := s.rows[a];
    RecoverReads(s, a, given);
    BindingReads(s, a, given);
    AbsentAlone(s, a, row.scaleSetName, if row.garmId.Some? then row.garmId.value else 0, Settle(row.state), given);
    FinalAlone(s, a, row.scaleSetName, given);
    AbsentIsNotDuplicated(s.garm, row.scaleSetName);
  }

  lemma AbsentIsNotDuplicated(g: Sets, name: Name)
    requires Absent(g, name)
    ensures !Duplicated(g, name)
  {
  }

  // ----- A call that runs alone is a run of the machine -----

  lemma {:induction false} AfterFirst(w: World, e: Event, run: seq<Event>)
    ensures After(w, [e] + run) == After(Apply(w, e), run)
    decreases |run|
  {
    hide Apply;
    if run == [] {
      assert ([e] + run)[..0] == [];
    } else {
      AfterFirst(w, e, run[..|run| - 1]);
      assert ([e] + run)[..|run|] == [e] + run[..|run| - 1];
    }
  }

  function Advances(pid: int, given: Given, n: nat): seq<Event> {
    if n == 0 then [] else [Advance(pid, given)] + Advances(pid, given, n - 1)
  }

  lemma {:induction false} SoloIsARun(w: World, pid: int, given: Given, n: nat)
    requires pid in w.calls && Remaining(w.calls[pid]) <= n
    ensures After(w, Advances(pid, given, n)).shared == Solo(w.shared, w.calls[pid], given).s
    decreases n
  {
    hide Step, Remaining;
    StepAdvances(w.shared, w.calls[pid], given);
    RemainingPositive(w.calls[pid]);
    var x := Apply(w, Advance(pid, given));
    AfterFirst(w, Advance(pid, given), Advances(pid, given, n - 1));
    match Step(w.shared, w.calls[pid], given) {
      case Go(t, next) => SoloIsARun(x, pid, given, n - 1);
      case Return(t) => GoneStays(x, pid, given, n - 1);
      case Raise => GoneStays(x, pid, given, n - 1);
      case Wait => StuckStays(w, pid, given, n - 1);
    }
  }

  lemma RemainingPositive(call: Call)
    ensures Remaining(call) >= 1
  {
  }

  lemma {:induction false} GoneStays(w: World, pid: int, given: Given, n: nat)
    requires pid !in w.calls
    ensures After(w, Advances(pid, given, n)) == w
  {
    hide Step;
    if n > 0 {
      AfterFirst(w, Advance(pid, given), Advances(pid, given, n - 1));
      GoneStays(w, pid, given, n - 1);
    }
  }

  lemma {:induction false} StuckStays(w: World, pid: int, given: Given, n: nat)
    requires pid in w.calls && Step(w.shared, w.calls[pid], given).Wait?
    ensures After(w, Advances(pid, given, n)) == w
  {
    hide Step;
    if n > 0 {
      AfterFirst(w, Advance(pid, given), Advances(pid, given, n - 1));
      StuckStays(w, pid, given, n - 1);
    }
  }
}
