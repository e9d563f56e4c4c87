/**
 The broker as a step machine over two stores that fail independently.

 Each ledger transaction and each driver call is one atomic step. Any number of calls run at once, any of them may
 stop between two steps (a crash, or an exception of the step), and GARM and Incus may change in between.
 */
module BrokerSteps {
  import opened Basics
  import opened Ledger
  import opened Garm

  datatype Shared = Shared(rows: Rows, garm: Sets, instances: set<Name>)

  /** What a runner's job-started hook claims about the job it is about to run. */
  datatype Context = Context(
    repositoryId: string, repository: string, dispatchSha: string, testedSha: string, workflowRef: string,
    runId: string, attempt: int, jobName: string, runnerName: string, scaleSetName: Name)

  predicate Matches(c: Context, p: Payload) {
    c.repositoryId == p.identity.repositoryId && c.repository == p.identity.repository
    && c.dispatchSha == p.observed.dispatchSha && c.testedSha == p.observed.testedSha
    && c.workflowRef == p.identity.workflowRef && c.runId == p.observed.runId
    && c.attempt == p.observed.attempt && c.jobName == p.identity.jobName
    && c.scaleSetName == p.identity.scaleSetName
  }

  /** Why a scale set is being deleted. */
  datatype Goal = Settle(seen: State) | Conclude

  /** A call in progress: the next step it will take, and its local variables. */
  datatype Call =
    | ReserveLedger(r: Reservation, now: int)
    | ReserveEnsure(r: Reservation)
    | ReserveBind(r: Reservation, id: int)
    | FinalizeLedger(e: Envelope, now: int)
    | FinalizeBinding(p: Payload)
    | FinalizeInstall(p: Payload, name: Name, id: int)
    | FinalizeEnable(p: Payload, name: Name, id: int)
    | StartPayload(a: string, c: Context, now: int)
    | StartBinding(a: string, c: Context, now: int, p: Payload)
    | StartClaim(a: string, c: Context, now: int, p: Payload, name: Name, id: int)
    | StartVerify(a: string, c: Context, now: int, p: Payload, name: Name, id: int)
    | StartDisable(a: string, c: Context, now: int, p: Payload, name: Name, id: int)
    | StartAdmit(a: string, c: Context, now: int, p: Payload)
    | FinishGet(a: string, outcome: string, cancelAttempted: bool)
    | FinishMove(a: string, outcome: string, cancelAttempted: bool)
    | FinishBinding(a: string)
    | FinishMeasure(a: string, name: Name)
    | FinishCleanup(a: string)
    | RecoverGet(a: string)
    | RecoverName(a: string, seen: State)
    | RecoverBinding(a: string, seen: State, name: Name)
    | RecoverFind(a: string, seen: State, name: Name)
    | RecoverBind(a: string, seen: State, name: Name, id: int)
    | DeleteFind(a: string, name: Name, id: int, goal: Goal)
    | DeleteDisable(a: string, name: Name, id: int, goal: Goal)
    | DeleteDrain(a: string, name: Name, id: int, goal: Goal)
    | DeleteDelete(a: string, name: Name, id: int, goal: Goal)
    | DeleteAbsent(a: string, name: Name, goal: Goal)
    | RecoverMove(a: string, name: Name)
    | RecoverMeasure(a: string, name: Name, key: Option<CleanupKey>, jobs: int)
    | RecoverAcknowledge(a: string, name: Name, key: Option<CleanupKey>, evidence: Evidence)
    | RecoverCleanup(a: string, name: Name)
    | RecoverFinal(a: string, name: Name)

  /** What the surroundings contribute to a step: GARM's next id, seconds elapsed since the call, the live verdict. */
  datatype Given = Given(freshId: int, elapsed: nat, verified: bool)

  datatype Next = Go(s: Shared, call: Call) | Return(s: Shared) | Raise | Wait

  function WithRows(s: Shared, r: Result<Rows, LedgerError>, call: Call): Next {
    match r case Ok(rows) => Go(s.(rows := rows), call) case Err(_) => Raise
  }

  function WithSets(s: Shared, r: Result<Sets, ()>, call: Call): Next {
    match r case Ok(garm) => Go(s.(garm := garm), call) case Err(_) => Raise
  }

  function Finished(s: Shared, r: Result<Rows, LedgerError>): Next {
    match r case Ok(rows) => Return(s.(rows := rows)) case Err(_) => Raise
  }

  ghost function ReserveStep(s: Shared, call: Call, given: Given): Next
    requires call.ReserveLedger? || call.ReserveEnsure? || call.ReserveBind?
  {
    match call
    case ReserveLedger(r, now) => WithRows(s, Reserve(s.rows, r, now), ReserveEnsure(r))
    case ReserveEnsure(r) =>
      (match EnsureDisabled(s.garm, r.identity.scaleSetName, given.freshId)
       case Ok((garm, id)) => Go(s.(garm := garm), ReserveBind(r, id))
       case Err(_) => Raise)
    case ReserveBind(r, id) => Finished(s, Bind(s.rows, r.identity.allocationId, id, r.identity.scaleSetName))
  }

  function FinalizeStep(s: Shared, call: Call): Next
    requires call.FinalizeLedger? || call.FinalizeBinding? || call.FinalizeInstall? || call.FinalizeEnable?
  {
    match call
    case FinalizeLedger(e, now) => WithRows(s, Finalize(s.rows, e, now), FinalizeBinding(e.payload))
    case FinalizeBinding(p) =>
      var a := p.identity.allocationId;
      if a in s.rows && s.rows[a].garmId.Some?
      then Go(s, FinalizeInstall(p, s.rows[a].scaleSetName, s.rows[a].garmId.value)) else Raise
    case FinalizeInstall(p, name, id) => WithSets(s, Install(s.garm, id, p), FinalizeEnable(p, name, id))
    case FinalizeEnable(p, name, id) =>
      (match Enable(s.garm, id, name) case Ok(garm) => Return(s.(garm := garm)) case Err(_) => Raise)
  }

  function StartStep(s: Shared, call: Call, given: Given): Next
    requires call.StartPayload? || call.StartBinding? || call.StartClaim? || call.StartVerify? || call.StartDisable?
      || call.StartAdmit?
  {
    match call
    case StartPayload(a, c, now) =>
      if a in s.rows && s.rows[a].payload.Some? && Matches(c, s.rows[a].payload.value)
      then Go(s, StartBinding(a, c, now, s.rows[a].payload.value)) else Raise
    case StartBinding(a, c, now, p) =>
      if a in s.rows && s.rows[a].garmId.Some?
      then Go(s, StartClaim(a, c, now, p, s.rows[a].scaleSetName, s.rows[a].garmId.value)) else Raise
    case StartClaim(a, c, now, p, name, id) =>
      if Claimed(s.garm, id, name, c.runnerName) then Go(s, StartVerify(a, c, now, p, name, id)) else Wait
    case StartVerify(a, c, now, p, name, id) =>
      if given.verified then Go(s, StartDisable(a, c, now, p, name, id)) else Wait
    case StartDisable(a, c, now, p, name, id) => WithSets(s, Disable(s.garm, id, name), StartAdmit(a, c, now, p))
    case StartAdmit(a, c, now, p) => Finished(s, Transition(s.rows, a, AdmitJob(now + given.elapsed)))
  }

  function FinishStep(s: Shared, call: Call): Next
    requires call.FinishGet? || call.FinishMove? || call.FinishBinding? || call.FinishMeasure? || call.FinishCleanup?
  {
    match call
    case FinishGet(a, outcome, attempted) =>
      if a !in s.rows then Raise
      else if s.rows[a].state != Running || s.rows[a].jobs != 1 then Go(s, RecoverGet(a))
      else Go(s, FinishMove(a, outcome, attempted))
    case FinishMove(a, outcome, attempted) =>
      WithRows(s, Transition(s.rows, a, Finish(outcome, attempted)), FinishBinding(a))
    case FinishBinding(a) =>
      if a in s.rows && s.rows[a].garmId.Some?
      then Go(s, DeleteFind(a, s.rows[a].scaleSetName, s.rows[a].garmId.value, Conclude)) else Raise
    case FinishMeasure(a, name) =>
      if Absent(s.garm, name) && name !in s.instances then Go(s, FinishCleanup(a)) else Wait
    case FinishCleanup(a) => Finished(s, Transition(s.rows, a, Cleanup))
  }

  function BoundName(row: Row): Name {
    if row.payload.Some? then row.payload.value.identity.scaleSetName else row.reservation.identity.scaleSetName
  }

  ghost function RecoverStep(s: Shared, call: Call): Next
    requires call.RecoverGet? || call.RecoverName? || call.RecoverBinding? || call.RecoverFind? || call.RecoverBind?
  {
    match call
    case RecoverGet(a) => if a in s.rows then Go(s, RecoverName(a, s.rows[a].state)) else Raise
    case RecoverName(a, seen) =>
      if a in s.rows then Go(s, RecoverBinding(a, seen, BoundName(s.rows[a]))) else Raise
    case RecoverBinding(a, seen, name) =>
      if a in s.rows && s.rows[a].garmId.Some?
      then Go(s, DeleteFind(a, name, s.rows[a].garmId.value, Settle(seen)))
      else Go(s, RecoverFind(a, seen, name))
    case RecoverFind(a, seen, name) =>
      (match Find(s.garm, name)
       case Err(_) => Raise
       case Ok(None) => Go(s, DeleteAbsent(a, name, Settle(seen)))
       case Ok(Some(id)) => Go(s, RecoverBind(a, seen, name, id)))
    case RecoverBind(a, seen, name, id) =>
      WithRows(s, Bind(s.rows, a, id, name), DeleteFind(a, name, id, Settle(seen)))
  }

  /** What follows once the scale set is proved absent. */
  function Afterwards(a: string, name: Name, goal: Goal): Call {
    match goal
    case Conclude => FinishMeasure(a, name)
    case Settle(seen) =>
      if seen == Terminal then RecoverCleanup(a, name)
      else if seen != Cleaned then RecoverMove(a, name)
      else RecoverFinal(a, name)
  }

  ghost function DeleteStep(s: Shared, call: Call): Next
    requires call.DeleteFind? || call.DeleteDisable? || call.DeleteDrain? || call.DeleteDelete? || call.DeleteAbsent?
  {
    match call
    case DeleteFind(a, name, id, goal) =>
      (match Find(s.garm, name)
       case Err(_) => Raise
       case Ok(None) => Go(s, DeleteAbsent(a, name, goal))
       case Ok(Some(_)) => Go(s, DeleteDisable(a, name, id, goal)))
    case DeleteDisable(a, name, id, goal) => WithSets(s, Disable(s.garm, id, name), DeleteDrain(a, name, id, goal))
    case DeleteDrain(a, name, id, goal) =>
      if !Named(s.garm, id, name) || s.garm[id].enabled then Raise
      else if Drained(s.garm, id, name) then Go(s, DeleteDelete(a, name, id, goal))
      else Wait
    case DeleteDelete(a, name, id, goal) => WithSets(s, Delete(s.garm, id, name), DeleteAbsent(a, name, goal))
    case DeleteAbsent(a, name, goal) =>
      if Absent(s.garm, name) then Go(s, Afterwards(a, name, goal)) else Raise
  }

  function SettleStep(s: Shared, call: Call): Next
    requires call.RecoverMove? || call.RecoverMeasure? || call.RecoverAcknowledge? || call.RecoverCleanup?
      || call.RecoverFinal?
  {
    match call
    case RecoverMove(a, name) =>
      (match Transition(s.rows, a, Recover)
       case Ok(rows) => Go(s.(rows := rows), RecoverMeasure(a, name, rows[a].cleanupKey, rows[a].jobs))
       case Err(_) => Raise)
    case RecoverMeasure(a, name, key, jobs) =>
      if Absent(s.garm, name) && name !in s.instances
      then Go(s, RecoverAcknowledge(a, name, key, Evidence(a, key, jobs, true, 0))) else Raise
    case RecoverAcknowledge(a, name, key, evidence) =>
      WithRows(s, Transition(s.rows, a, Acknowledge(key, evidence)), RecoverFinal(a, name))
    case RecoverCleanup(a, name) => WithRows(s, Transition(s.rows, a, Cleanup), RecoverFinal(a, name))
    case RecoverFinal(a, name) => if Absent(s.garm, name) then Return(s) else Raise
  }

  ghost function Step(s: Shared, call: Call, given: Given): Next {
    if call.ReserveLedger? || call.ReserveEnsure? || call.ReserveBind? then ReserveStep(s, call, given)
    else if call.FinalizeLedger? || call.FinalizeBinding? || call.FinalizeInstall? || call.FinalizeEnable? then
      FinalizeStep(s, call)
    else if call.StartPayload? || call.StartBinding? || call.StartClaim? || call.StartVerify? || call.StartDisable?
            || call.StartAdmit? then StartStep(s, call, given)
    else if call.FinishGet? || call.FinishMove? || call.FinishBinding? || call.FinishMeasure? || call.FinishCleanup? then
      FinishStep(s, call)
    else if call.RecoverGet? || call.RecoverName? || call.RecoverBinding? || call.RecoverFind? || call.RecoverBind? then
      RecoverStep(s, call)
    else if call.DeleteFind? || call.DeleteDisable? || call.DeleteDrain? || call.DeleteDelete? || call.DeleteAbsent? then
      DeleteStep(s, call)
    else SettleStep(s, call)
  }

  /** A call as the broker's callers make it. */
  predicate Entry(call: Call) {
    call.ReserveLedger? || call.FinalizeLedger? || call.StartPayload? || call.FinishGet? || call.RecoverGet?
  }

  function AllocationOf(call: Call): string {
    match call
    case ReserveLedger(r, _) => r.identity.allocationId
    case ReserveEnsure(r) => r.identity.allocationId
    case ReserveBind(r, _) => r.identity.allocationId
    case FinalizeLedger(e, _) => e.payload.identity.allocationId
    case FinalizeBinding(p) => p.identity.allocationId
    case FinalizeInstall(p, _, _) => p.identity.allocationId
    case FinalizeEnable(p, _, _) => p.identity.allocationId
    case _ => call.a
  }

  // ----- Worlds and runs -----

  datatype World = World(shared: Shared, calls: map<int, Call>)

  datatype Event =
    | Begin(pid: int, call: Call)
    | Advance(pid: int, given: Given)
    | Stop(pid: int)
    | Outside(garm: Sets, instances: set<Name>)

  ghost function Apply(w: World, e: Event): World {
    match e
    case Begin(pid, call) => if pid in w.calls || !Entry(call) then w else w.(calls := w.calls[pid := call])
    case Stop(pid) => w.(calls := w.calls - {pid})
    case Outside(garm, instances) => w.(shared := w.shared.(garm := garm, instances := instances))
    case Advance(pid, given) =>
      if pid !in w.calls then w
      else
        match Step(w.shared, w.calls[pid], given)
        case Go(s, call) => World(s, w.calls[pid := call])
        case Return(s) => World(s, w.calls - {pid})
        case Raise => w.(calls := w.calls - {pid})
        case Wait => w
  }

  ghost function After(w: World, run: seq<Event>): World {
    if run == [] then w else Apply(After(w, run[..|run| - 1]), run[|run| - 1])
  }

  /** An empty ledger and whatever GARM and Incus hold at that moment. */
  function Start(garm: Sets, instances: set<Name>): World {
    World(Shared(map[], garm, instances), map[])
  }
}
