/** Where a gate's result comes from: what each transaction commits, and which report decided a generation. */
module GateVerdicts {
  import opened Basics
  import opened GateTables
  import opened GateRuns

  // ----- What each guarded transaction commits, and when -----

  /** The newest generation of its key belongs to this owner at this epoch, and the lease has not run out. */
  predicate HoldsLease(s: Tables, lease: Lease, now: int) {
    lease.gate in s.gates && s.gates[lease.gate].owner == lease.owner && s.gates[lease.gate].epoch == lease.epoch
    && now < s.gates[lease.gate].expiresAt
    && forall id :: id in s.gates && id.key == lease.gate.key ==> id.generation <= lease.gate.generation
  }

  lemma OwnedIff(s: Tables, lease: Lease, now: int)
    ensures Owned(s, lease, now) <==> HoldsLease(s, lease, now)
  {
    hide Latest;
    var key := lease.gate.key;
    assert lease.gate == GateId(key, lease.gate.generation);
    if HoldsLease(s, lease, now) {
      assert IsLatest(s.gates, key, lease.gate.generation);
      var g := Latest(s.gates, key);
      assert IsLatest(s.gates, key, g.value);
    }
  }

  /** No call that does not hold the lease at that moment changes anything: not with an expired, foreign or superseded
      one. */
  lemma ChangesNeedTheLease(s: Tables, op: Op)
    requires Guarded(op) && Apply(s, op) != s
    ensures HoldsLease(s, LeaseOf(op), NowOf(op))
  {
    hide Owned, Apply, HoldsLease;
    if !Owned(s, LeaseOf(op), NowOf(op)) { StaleLeaseChangesNothing(s, op); }
    OwnedIff(s, LeaseOf(op), NowOf(op));
  }

  /** The generation is undecided or already has exactly this result, and nothing faults on the way. */
  predicate Decidable(g: Gate, winner: Winner, result: ResultKind, digest: Hex, fault: set<Stage>) {
    (g.winner == None || g.winner == Some(winner))
    && if g.result.Some? then g.result == Some(result) && g.digest == Some(digest)
       else AfterWinner !in fault && AfterTerminal !in fault && AfterOutbox !in fault
  }

  /** The result is recorded and queued, once, and nothing else has changed. */
  predicate Recorded(s: Tables, t: Tables, id: GateId, winner: Winner, result: ResultKind, digest: Hex)
    requires id in s.gates
  {
    var g := s.gates[id];
    if g.result.Some? then t == s
    else
      t == s.(gates := s.gates[id := g.(winner := Some(winner), result := Some(result), digest := Some(digest))],
              outbox := s.outbox[OutboxKey(id, winner, digest) :=
                OutboxRow(id, winner, result, digest, g.checkRun, false, 0)])
  }

  lemma CompleteIff(s: Tables, id: GateId, winner: Winner, result: ResultKind, digest: Hex, fault: set<Stage>)
    requires Inv(s) && id in s.gates
    ensures var o := Complete(s, id, winner, result, digest, fault);
      (o.Committed? <==> Decidable(s.gates[id], winner, result, digest, fault))
      && (o.Committed? ==>
            Recorded(s, o.tables, id, winner, result, digest)
            && o.value == Completion(s.gates[id].result.None?, winner, result, digest, OutboxKey(id, winner, digest)))
  {
    hide OutboxKey, OutboxSound, OutboxComplete, NoncesOk, HeadsOk, AdmissionsOk, LocalAdmitted;
    assert GateOk(s.gates, id);
    if s.gates[id].result.None? { OutboxInsertNeverCollides(s, id, winner, digest); }
  }

  /** A local success is recorded exactly for the holder of the lease, the gate's own admission, and a valid attestation
      still in time. */
  lemma LocalSuccessIff(s: Tables, lease: Lease, admissionId: string, admission: AdmissionRecord, digest: Hex,
                        attested: bool, until: int, fault: set<Stage>, now: int)
    requires Inv(s)
    ensures var o := CompleteLocalSuccess(s, lease, admissionId, admission, digest, attested, until, fault, now);
      (o.Committed? <==>
         attested && now < until && HoldsLease(s, lease, now)
         && lease.gate in s.admissions && s.admissions[lease.gate].admissionId == admissionId
         && s.admissions[lease.gate].digest == admission
         && Decidable(s.gates[lease.gate], Local, Success, digest, fault))
      && (o.Committed? ==> Recorded(s, o.tables, lease.gate, Local, Success, digest) && o.value.result == Success)
  {
    hide Inv, Complete, Owned, HoldsLease, Recorded, Decidable;
    OwnedIff(s, lease, now);
    assert HoldsLease(s, lease, now) ==> lease.gate in s.gates by { LeaseNamesAGate(s, lease, now); }
    if lease.gate in s.gates { CompleteIff(s, lease.gate, Local, Success, digest, fault); }
  }

  lemma LeaseNamesAGate(s: Tables, lease: Lease, now: int)
    ensures HoldsLease(s, lease, now) ==> lease.gate in s.gates
  {
  }

  /** The evidence is a failed run of the very execution that was admitted, ended before the admission's deadline. */
  predicate FailedInTime(f: Failure, a: Admission) {
    f.kind == "FUNCTIONAL_FAILURE" && f.conclusion != "success" && f.terminalAt <= a.deadline
    && f.run == a.execution.run && f.job == a.execution.job && f.testedMerge == a.execution.testedMerge
    && f.command == a.execution.command
  }

  /** A local failure is recorded, as a failure, exactly for matching and timely evidence. */
  lemma LocalFailureIff(s: Tables, lease: Lease, admissionId: string, admission: AdmissionRecord, failure: Failure,
                        digest: Hex, fault: set<Stage>, now: int)
    requires Inv(s)
    ensures var o := CompleteLocalFailure(s, lease, admissionId, admission, failure, digest, fault, now);
      (o.Committed? <==>
         HoldsLease(s, lease, now)
         && lease.gate in s.admissions && s.admissions[lease.gate].admissionId == admissionId
         && s.admissions[lease.gate].digest == admission && FailedInTime(failure, s.admissions[lease.gate])
         && Decidable(s.gates[lease.gate], Local, FunctionalFailure, digest, fault))
      && (o.Committed? ==>
            Recorded(s, o.tables, lease.gate, Local, FunctionalFailure, digest) && o.value.result == FunctionalFailure)
  {
    hide Inv, Complete, Owned, HoldsLease, Recorded, Decidable;
    OwnedIff(s, lease, now);
    LeaseNamesAGate(s, lease, now);
    if lease.gate in s.gates { CompleteIff(s, lease.gate, Local, FunctionalFailure, digest, fault); }
  }

  /** GitHub is selected exactly by the holder of the lease, while nobody else has won; and selecting does nothing but
      that. */
  lemma SelectIff(s: Tables, lease: Lease, fault: set<Stage>, now: int)
    ensures var o := SelectGithub(s, lease, fault, now);
      (o.Committed? <==>
         HoldsLease(s, lease, now)
         && (s.gates[lease.gate].winner == Some(Github) || (s.gates[lease.gate].winner == None && AfterWinner !in fault)))
      && (o.Committed? ==>
            o.tables == s.(gates := s.gates[lease.gate := s.gates[lease.gate].(winner := Some(Github))])
            && (o.value <==> s.gates[lease.gate].winner == None))
  {
    hide Owned;
    OwnedIff(s, lease, now);
    if lease.gate in s.gates && s.gates[lease.gate].winner == Some(Github) {
      assert s.gates[lease.gate].(winner := Some(Github)) == s.gates[lease.gate];
      assert s.gates[lease.gate := s.gates[lease.gate]] == s.gates;
    }
  }

  /** A hosted result is recorded exactly after GitHub was selected, and is a success exactly when GitHub says so. */
  lemma HostedIff(s: Tables, lease: Lease, conclusion: string, digest: Hex, valid: bool, fault: set<Stage>, now: int)
    requires Inv(s)
    ensures var o := CompleteHosted(s, lease, conclusion, digest, valid, fault, now);
      var result := if conclusion == "success" then Success else FunctionalFailure;
      (o.Committed? <==>
         valid && HoldsLease(s, lease, now) && s.gates[lease.gate].winner == Some(Github)
         && Decidable(s.gates[lease.gate], Github, result, digest, fault))
      && (o.Committed? ==> Recorded(s, o.tables, lease.gate, Github, result, digest) && o.value.result == result)
  {
    hide Inv, Complete, Owned, Recorded, Decidable;
    OwnedIff(s, lease, now);
    if lease.gate in s.gates {
      CompleteIff(s, lease.gate, Github, if conclusion == "success" then Success else FunctionalFailure, digest, fault);
    }
  }

  /** The first admission of a generation stores what was presented, under the lease that presented it. */
  lemma AdmitIff(s: Tables, lease: Lease, decision: Decision, authority: map<string, string>, execution: Execution,
                 deadline: int, admissionId: string, fault: set<Stage>, now: int)
    requires lease.gate !in s.admissions
    ensures var o := Admit(s, lease, decision, authority, execution, deadline, admissionId, fault, now);
      (o.Committed? <==>
         decision.valid && decision.boundary == "pre-marker" && HoldsLease(s, lease, now)
         && s.gates[lease.gate].winner == None && s.gates[lease.gate].testedMerge == execution.testedMerge
         && (forall id :: id in s.admissions ==> s.admissions[id].admissionId != admissionId)
         && AfterAdmission !in fault && AfterMarker !in fault)
      && (o.Committed? ==>
            o.tables == s.(admissions := s.admissions[lease.gate := o.value])
            && o.value.admissionId == admissionId && o.value.execution == execution && o.value.startedAt == now
            && o.value.deadline == deadline && o.value.authority.decision == decision
            && o.value.authority.members == authority - {"verifier_decision"}
            && o.value.digest == AdmissionRecord(lease.gate, s.gates[lease.gate].headGeneration, lease.owner, lease.epoch,
                                                 authority, decision, execution, now, deadline))
  {
    hide Owned;
    OwnedIff(s, lease, now);
  }

  // ----- Which report decided a generation -----

  predicate Completes(op: Op) {
    op.OpLocalSuccess? || op.OpLocalFailure? || op.OpHosted?
  }

  predicate Decided(s: Tables, id: GateId) {
    id in s.gates && s.gates[id].result.Some?
  }

  /** The step that recorded the result of `id`: what it reported, about whom, and that it held the lease. */
  predicate Reports(s: Tables, op: Op, id: GateId, g: Gate) {
    Guarded(op) && LeaseOf(op).gate == id && HoldsLease(s, LeaseOf(op), NowOf(op))
    && match (g.winner, g.result)
       case (Some(Local), Some(Success)) =>
         op.OpLocalSuccess? && op.attested && op.now < op.attestedUntil && g.digest == Some(op.digest)
         && id in s.admissions && s.admissions[id].admissionId == op.admissionId && s.admissions[id].digest == op.admission
       case (Some(Local), Some(FunctionalFailure)) =>
         op.OpLocalFailure? && g.digest == Some(op.digest)
         && id in s.admissions && s.admissions[id].admissionId == op.admissionId && s.admissions[id].digest == op.admission
         && FailedInTime(op.failure, s.admissions[id])
       case (Some(Github), Some(result)) =>
         op.OpHosted? && op.predicateValid && g.digest == Some(op.digest) && s.gates[id].winner == Some(Github)
         && (result == Success <==> op.conclusion == "success")
       case _ => false
  }

  lemma OnlyRecordedChanges(s: Tables, t: Tables, gate: GateId, winner: Winner, result: ResultKind, digest: Hex, id: GateId)
    requires gate in s.gates && Recorded(s, t, gate, winner, result, digest) && !Decided(s, id) && Decided(t, id)
    ensures id == gate && t.gates[id].winner == Some(winner) && t.gates[id].result == Some(result)
    ensures t.gates[id].digest == Some(digest)
  {
  }

  lemma CompletionsReport(s: Tables, op: Op, id: GateId)
    requires Inv(s) && !Decided(s, id) && Decided(Apply(s, op), id)
    requires Completes(op)
    ensures Reports(s, op, id, Apply(s, op).gates[id])
  {
    hide Inv, HoldsLease, Recorded, Decidable, CompleteLocalSuccess, CompleteLocalFailure, CompleteHosted;
    LeaseNamesAGate(s, LeaseOf(op), NowOf(op));
    var t := Apply(s, op);
    match op {
      case OpLocalSuccess(lease, admissionId, admission, digest, attested, until, fault, now) =>
        LocalSuccessIff(s, lease, admissionId, admission, digest, attested, until, fault, now);
        OnlyRecordedChanges(s, t, lease.gate, Local, Success, digest, id);
      case OpLocalFailure(lease, admissionId, admission, failure, digest, fault, now) =>
        LocalFailureIff(s, lease, admissionId, admission, failure, digest, fault, now);
        OnlyRecordedChanges(s, t, lease.gate, Local, FunctionalFailure, digest, id);
      case OpHosted(lease, conclusion, digest, valid, fault, now) =>
        HostedIff(s, lease, conclusion, digest, valid, fault, now);
        OnlyRecordedChanges(s, t, lease.gate, Github,
          if conclusion == "success" then Success else FunctionalFailure, digest, id);
    }
  }

  /** Nothing but a completion records a result. */
  lemma OthersDecideNothing(s: Tables, op: Op, id: GateId)
    requires !Decided(s, id) && Decided(Apply(s, op), id)
    ensures Completes(op)
  {
    hide Latest, Owned, IdTaken, StoredAuthority, CompleteLocalSuccess, CompleteLocalFailure, CompleteHosted;
    if Guarded(op) { OwnedIff(s, LeaseOf(op), NowOf(op)); }
  }

  /** Every result on record was reported: by one step of the run, for the outcome it recorded, with the digest it
      presented, by the holder of the lease. */
  lemma {:induction false} DecidedByReport(run: seq<Op>, id: GateId) returns (i: nat)
    requires Decided(After(EMPTY, run), id)
    ensures i < |run| && !Decided(After(EMPTY, run[..i]), id)
    ensures Reports(After(EMPTY, run[..i]), run[i], id, After(EMPTY, run).gates[id])
  {
    hide Apply, Inv, Reports;
    assert run == [] ==> After(EMPTY, run) == EMPTY;
    var init := run[..|run| - 1];
    if Decided(After(EMPTY, init), id) {
      i := DecidedByReport(init, id);
      assert init[..i] == run[..i];
      DecisionStays(run, id);
      SameReport(After(EMPTY, run[..i]), run[i], id, After(EMPTY, init).gates[id], After(EMPTY, run).gates[id]);
    } else {
      i := |run| - 1;
      RunKeepsInv(init);
      OthersDecideNothing(After(EMPTY, init), run[i], id);
      CompletionsReport(After(EMPTY, init), run[i], id);
    }
  }

  lemma DecisionStays(run: seq<Op>, id: GateId)
    requires run != [] && Decided(After(EMPTY, run[..|run| - 1]), id)
    ensures Decided(After(EMPTY, run), id)
    ensures SameDecision(After(EMPTY, run[..|run| - 1]).gates[id], After(EMPTY, run).gates[id])
  {
    hide After, Inv, AdmissionsEvolve, AdmissionsFrozen, NoncesEvolve, HeadsEvolve, OutboxEvolves, Superseded;
    var init := run[..|run| - 1];
    RunEvolves(run, |run| - 1, |run|);
    assert run[..|run|] == run;
    RunKeepsInv(init);
    DecidedHasAWinner(After(EMPTY, init), id);
  }

  predicate SameDecision(a: Gate, b: Gate) {
    a.winner == b.winner && a.result == b.result && a.digest == b.digest
  }

  lemma DecidedHasAWinner(s: Tables, id: GateId)
    requires Inv(s) && Decided(s, id)
    ensures s.gates[id].winner.Some?
  {
    hide OutboxSound, OutboxComplete, AdmissionsOk, NoncesOk, LocalAdmitted;
    assert GateOk(s.gates, id);
  }

  lemma SameReport(s: Tables, op: Op, id: GateId, a: Gate, b: Gate)
    requires Reports(s, op, id, a) && SameDecision(a, b)
    ensures Reports(s, op, id, b)
  {
    hide HoldsLease, FailedInTime;
  }

  // ----- Which call selected GitHub, and which delivered a publication -----

  /** GitHub has won only where some call of the lease's holder selected it while nobody had. */
  lemma {:induction false} GithubWasSelected(run: seq<Op>, id: GateId) returns (i: nat)
    requires id in After(EMPTY, run).gates && After(EMPTY, run).gates[id].winner == Some(Github)
    ensures i < |run| && run[i].OpSelect? && run[i].lease.gate == id
    ensures var s := After(EMPTY, run[..i]);
      HoldsLease(s, run[i].lease, run[i].now) && s.gates[id].winner == None
  {
    hide Apply, Inv, HoldsLease;
    assert run == [] ==> After(EMPTY, run) == EMPTY;
    var init := run[..|run| - 1];
    var s := After(EMPTY, init);
    if id in s.gates && s.gates[id].winner == Some(Github) {
      i := GithubWasSelected(init, id);
      assert init[..i] == run[..i];
    } else {
      i := |run| - 1;
      RunKeepsInv(init);
      SelectionStep(s, run[i], id);
    }
  }

  predicate WonByGithub(s: Tables, id: GateId) {
    id in s.gates && s.gates[id].winner == Some(Github)
  }

  lemma OthersSelectNothing(s: Tables, op: Op, id: GateId)
    requires !Completes(op) && !op.OpSelect? && WonByGithub(Apply(s, op), id)
    ensures WonByGithub(s, id)
  {
    hide Latest, Owned, HoldsLease, IdTaken, StoredAuthority;
    if Guarded(op) {
      OwnedIff(s, LeaseOf(op), NowOf(op));
      LeaseNamesAGate(s, LeaseOf(op), NowOf(op));
    }
  }

  lemma CompletionsSelectNothing(s: Tables, op: Op, id: GateId)
    requires Inv(s) && Completes(op) && WonByGithub(Apply(s, op), id)
    ensures WonByGithub(s, id)
  {
    hide Inv, HoldsLease, CompleteLocalSuccess, CompleteLocalFailure, CompleteHosted, Recorded, Decidable;
    LeaseNamesAGate(s, LeaseOf(op), NowOf(op));
    match op {
      case OpLocalSuccess(lease, admissionId, admission, digest, attested, until, fault, now) =>
        LocalSuccessIff(s, lease, admissionId, admission, digest, attested, until, fault, now);
        RecordedWinner(s, Apply(s, op), lease, now, Local, Success, digest, id);
      case OpLocalFailure(lease, admissionId, admission, failure, digest, fault, now) =>
        LocalFailureIff(s, lease, admissionId, admission, failure, digest, fault, now);
        RecordedWinner(s, Apply(s, op), lease, now, Local, FunctionalFailure, digest, id);
      case OpHosted(lease, conclusion, digest, valid, fault, now) =>
        HostedIff(s, lease, conclusion, digest, valid, fault, now);
        RecordedWinner(s, Apply(s, op), lease, now, Github,
          if conclusion == "success" then Success else FunctionalFailure, digest, id);
    }
  }

  lemma SelectionStep(s: Tables, op: Op, id: GateId)
    requires Inv(s) && !WonByGithub(s, id) && WonByGithub(Apply(s, op), id)
    ensures op.OpSelect? && op.lease.gate == id && HoldsLease(s, op.lease, op.now) && s.gates[id].winner == None
  {
    hide Inv, HoldsLease, SelectGithub;
    if Completes(op) {
      CompletionsSelectNothing(s, op, id);
    } else if !op.OpSelect? {
      OthersSelectNothing(s, op, id);
    } else {
      LeaseNamesAGate(s, op.lease, op.now);
      SelectIff(s, op.lease, op.fault, op.now);
    }
  }

  lemma RecordedWinner(s: Tables, t: Tables, lease: Lease, now: int, winner: Winner, result: ResultKind, digest: Hex, id: GateId)
    requires t == s || (HoldsLease(s, lease, now) && Recorded(s, t, lease.gate, winner, result, digest))
    ensures id in t.gates ==>
      id in s.gates && (t.gates[id].winner == s.gates[id].winner || (id == lease.gate && t.gates[id].winner == Some(winner)))
  {
  }

  /** A publication is marked delivered only by a call that observed exactly its digest on GitHub. */
  lemma DeliveryWasObserved(s: Tables, op: Op, key: string)
    requires Inv(s) && key in Apply(s, op).outbox && Apply(s, op).outbox[key].delivered
    requires key !in s.outbox || !s.outbox[key].delivered
    ensures op.OpDelivered? && op.outboxKey == key && key in s.outbox && s.outbox[key].digest == op.observed
  {
    hide Inv, Latest, Owned, HoldsLease, IdTaken, StoredAuthority, CompleteLocalSuccess, CompleteLocalFailure,
      CompleteHosted, Decidable, OutboxKey, Recorded;
    match op {
      case OpLocalSuccess(lease, admissionId, admission, digest, attested, until, fault, now) =>
        LocalSuccessIff(s, lease, admissionId, admission, digest, attested, until, fault, now);
        RecordedDeliversNothing(s, Apply(s, op), lease, now, Local, Success, digest, key);
      case OpLocalFailure(lease, admissionId, admission, failure, digest, fault, now) =>
        LocalFailureIff(s, lease, admissionId, admission, failure, digest, fault, now);
        RecordedDeliversNothing(s, Apply(s, op), lease, now, Local, FunctionalFailure, digest, key);
      case OpHosted(lease, conclusion, digest, valid, fault, now) =>
        LeaseNamesAGate(s, lease, now);
        HostedIff(s, lease, conclusion, digest, valid, fault, now);
        RecordedDeliversNothing(s, Apply(s, op), lease, now, Github,
          if conclusion == "success" then Success else FunctionalFailure, digest, key);
      case _ =>
    }
  }

  lemma RecordedDeliversNothing(s: Tables, t: Tables, lease: Lease, now: int, winner: Winner, result: ResultKind,
                                digest: Hex, key: string)
    requires t == s || (HoldsLease(s, lease, now) && Recorded(s, t, lease.gate, winner, result, digest))
    ensures key in t.outbox && t.outbox[key].delivered ==> key in s.outbox && s.outbox[key] == t.outbox[key]
  {
    hide OutboxKey;
  }

  // ----- Heads, heartbeats and nonces -----

  /** Observing a head records it; another head than before gets the next generation, the same one keeps its own. */
  lemma ObserveIff(s: Tables, repository: string, pr: int, sha: string)
    ensures var t, k := Apply(s, OpObserve(repository, pr, sha)), HeadKey(repository, pr);
      if repository == "" || pr <= 0 || sha == "" then t == s
      else
        t == s.(heads := t.heads) && k in t.heads && t.heads[k].sha == sha
        && (forall j :: j != k ==> (j in t.heads <==> j in s.heads) && (j in s.heads ==> t.heads[j] == s.heads[j]))
        && (k !in s.heads ==> t.heads[k].generation == 1)
        && (k in s.heads ==>
              s.heads[k].generation <= t.heads[k].generation <= s.heads[k].generation + 1
              && (t.heads[k].generation == s.heads[k].generation <==> s.heads[k].sha == sha))
  {
  }

  /** A heartbeat of the lease's holder moves its expiry and nothing else; anyone else's changes nothing. */
  lemma HeartbeatIff(s: Tables, lease: Lease, ttl: int, now: int)
    ensures var t := Apply(s, OpHeartbeat(lease, ttl, now));
      if HoldsLease(s, lease, now) then
        t == s.(gates := t.gates) && t.gates.Keys == s.gates.Keys
        && (forall id :: id in s.gates && id != lease.gate ==> t.gates[id] == s.gates[id])
        && t.gates[lease.gate] == s.gates[lease.gate].(expiresAt := now + ttl)
      else t == s
  {
    OwnedIff(s, lease, now);
    hide Latest, Owned, HoldsLease;
    LeaseNamesAGate(s, lease, now);
  }

  /** A nonce is bound to one gate at its current head, for good; binding it again to the same is idempotent, and to
      anything else changes nothing. */
  lemma BindIff(s: Tables, nonce: NonceKey, candidate: Binding)
    ensures var t := Apply(s, OpBind(nonce, candidate));
      (nonce in t.nonces && t.nonces[nonce] == candidate
       <==> (nonce in s.nonces && s.nonces[nonce] == candidate)
            || (nonce !in s.nonces && candidate.gate in s.gates
                && s.gates[candidate.gate].headGeneration == candidate.headGeneration))
      && t == s.(nonces := t.nonces)
      && (t == s || (nonce !in s.nonces && t.nonces == s.nonces[nonce := candidate]))
  {
  }
}
