/**
 The gate store's five tables and, per transaction, the tables it commits or the error it rolls back with.

 Timestamps are integers and a fault hook is the set of stages at which it raises. SHA-256 is not modelled:
 evidence digests arrive as 64 hexadecimal characters, the admission and marker digests are the records they
 are taken from.
 */
module GateTables {
  import opened Basics
  import Decimal

  predicate IsHex(s: string) {
    |s| == 64 && forall i :: 0 <= i < |s| ==> '0' <= s[i] <= '9' || 'a' <= s[i] <= 'f'
  }

  type Hex = s: string | IsHex(s) witness seq(64, _ => '0')

  datatype Winner = Local | Github

  datatype ResultKind = Success | FunctionalFailure

  datatype Stage = AfterAdmission | AfterMarker | AfterWinner | AfterTerminal | AfterOutbox

  datatype Error = BadValue | Conflict | Fenced | Replay | Control | Late | Fault | Integrity

  datatype HeadKey = HeadKey(repository: string, pr: int)

  datatype Head = Head(sha: string, generation: int)

  datatype GateId = GateId(key: string, generation: int)

  datatype Gate = Gate(
    headGeneration: int, baseSha: string, testedMerge: string, owner: string, epoch: int, expiresAt: int,
    checkRun: int, winner: Option<Winner>, result: Option<ResultKind>, digest: Option<Hex>)

  datatype NonceKey = NonceKey(attestation: string, nonceHash: string)

  datatype Binding = Binding(gate: GateId, headGeneration: int, envelope: string, target: string)

  datatype Decision = Decision(valid: bool, boundary: string, detail: string)

  datatype Execution = Execution(run: int, job: int, testedMerge: string, command: string, wrapper: string)

  /** Stored authority: the caller's members, the decision overriding any member of that name. */
  datatype Authority = Authority(members: map<string, string>, decision: Decision)

  /** What the admission digest is taken over. */
  datatype AdmissionRecord = AdmissionRecord(
    gate: GateId, headGeneration: int, owner: string, epoch: int, authority: map<string, string>,
    decision: Decision, execution: Execution, startedAt: int, deadline: int)

  datatype Admission = Admission(
    admissionId: string, digest: AdmissionRecord, authority: Authority, execution: Execution,
    startedAt: int, deadline: int)

  datatype OutboxRow = OutboxRow(
    gate: GateId, winner: Winner, result: ResultKind, digest: Hex, checkRun: int, delivered: bool, attempts: nat)

  datatype Completion = Completion(first: bool, winner: Winner, result: ResultKind, digest: Hex, outboxKey: string)

  datatype Tables = Tables(
    heads: map<HeadKey, Head>, gates: map<GateId, Gate>, nonces: map<NonceKey, Binding>,
    admissions: map<GateId, Admission>, outbox: map<string, OutboxRow>)

  const EMPTY := Tables(map[], map[], map[], map[], map[])

  datatype Outcome<+T> = Committed(tables: Tables, value: T) | RolledBack(error: Error)

  /** What a caller presents to act on a generation it believes it owns. */
  datatype Lease = Lease(gate: GateId, owner: string, epoch: int)

  // ----- The newest generation of a key -----

  predicate IsLatest(gates: map<GateId, Gate>, key: string, generation: int) {
    GateId(key, generation) in gates
    && forall id :: id in gates && id.key == key ==> id.generation <= generation
  }

  ghost predicate HasLatest(gates: map<GateId, Gate>, key: string) {
    exists g :: IsLatest(gates, key, g)
  }

  lemma {:induction false} SomeGenerationIsLatest(gates: map<GateId, Gate>, key: string, seen: set<GateId>, best: GateId)
    requires seen <= gates.Keys && best in seen && best.key == key
    requires forall id :: id in seen && id.key == key ==> id.generation <= best.generation
    ensures HasLatest(gates, key)
    decreases gates.Keys - seen
  {
    if id :| id in gates && id !in seen {
      SomeGenerationIsLatest(gates, key, seen + {id},
        if id.key == key && id.generation > best.generation then id else best);
    } else {
      assert IsLatest(gates, key, best.generation);
    }
  }

  /** The highest generation of a key, if the key has any. */
  ghost function Latest(gates: map<GateId, Gate>, key: string): (latest: Option<int>)
    ensures latest.Some? ==> IsLatest(gates, key, latest.value)
    ensures latest.None? ==> forall id :: id in gates ==> id.key != key
  {
    if HasLatest(gates, key) then
      var g :| IsLatest(gates, key, g);
      Some(g)
    else
      assert forall id :: id in gates ==> id.key != key by {
        forall id | id in gates && id.key == key ensures false {
          SomeGenerationIsLatest(gates, key, {id}, id);
        }
      }
      None
  }

  // ----- Transactions -----

  function ObserveHead(s: Tables, repository: string, pr: int, sha: string): Outcome<int> {
    var k := HeadKey(repository, pr);
    if repository == "" || pr <= 0 || sha == "" then RolledBack(BadValue)
    else if k !in s.heads then Committed(s.(heads := s.heads[k := Head(sha, 1)]), 1)
    else if s.heads[k].sha == sha then Committed(s, s.heads[k].generation)
    else
      var next := s.heads[k].generation + 1;
      Committed(s.(heads := s.heads[k := Head(sha, next)]), next)
  }

  predicate SameTuple(g: Gate, headGeneration: int, baseSha: string, testedMerge: string) {
    g.headGeneration == headGeneration && g.baseSha == baseSha && g.testedMerge == testedMerge
  }

  ghost function Acquire(s: Tables, key: string, headGeneration: int, baseSha: string, testedMerge: string,
                         owner: string, checkRun: int, ttl: int, now: int): Outcome<Gate> {
    var latest := Latest(s.gates, key);
    if ttl <= 0 then RolledBack(BadValue)
    else if latest.None? || !SameTuple(s.gates[GateId(key, latest.value)], headGeneration, baseSha, testedMerge) then
      if headGeneration <= 0 then RolledBack(Integrity)
      else
        var id := GateId(key, if latest.None? then 1 else latest.value + 1);
        var row := Gate(headGeneration, baseSha, testedMerge, owner, 1, now + ttl, checkRun, None, None, None);
        Committed(s.(gates := s.gates[id := row]), row)
    else
      var id := GateId(key, latest.value);
      var row := s.gates[id];
      var live := now < row.expiresAt;
      if row.owner != owner && (live || row.winner.Some?) then RolledBack(Conflict)
      else
        var epoch := if row.owner != owner || !live then row.epoch + 1 else row.epoch;
        var renewed := row.(owner := owner, epoch := epoch, expiresAt := now + ttl);
        Committed(s.(gates := s.gates[id := renewed]), renewed)
  }

  /** The lease names the newest generation, its present owner and epoch, and has not expired. */
  ghost predicate Owned(s: Tables, lease: Lease, now: int) {
    Latest(s.gates, lease.gate.key) == Some(lease.gate.generation)
    && lease.gate in s.gates
    && s.gates[lease.gate].owner == lease.owner
    && s.gates[lease.gate].epoch == lease.epoch
    && now < s.gates[lease.gate].expiresAt
  }

  ghost function Heartbeat(s: Tables, lease: Lease, ttl: int, now: int): Outcome<Gate> {
    if !Owned(s, lease, now) then RolledBack(Fenced)
    else
      var row := s.gates[lease.gate].(expiresAt := now + ttl);
      Committed(s.(gates := s.gates[lease.gate := row]), row)
  }

  function BindNonce(s: Tables, nonce: NonceKey, candidate: Binding): Outcome<bool> {
    if candidate.gate !in s.gates || s.gates[candidate.gate].headGeneration != candidate.headGeneration then
      RolledBack(Fenced)
    else if nonce !in s.nonces then Committed(s.(nonces := s.nonces[nonce := candidate]), true)
    else if s.nonces[nonce] == candidate then Committed(s, false)
    else RolledBack(Replay)
  }

  function StoredAuthority(authority: map<string, string>, decision: Decision): Authority {
    Authority(authority - {"verifier_decision"}, decision)
  }

  predicate IdTaken(s: Tables, admissionId: string) {
    exists id :: id in s.admissions && s.admissions[id].admissionId == admissionId
  }

  ghost function Admit(s: Tables, lease: Lease, decision: Decision, authority: map<string, string>,
                       execution: Execution, deadline: int, admissionId: string, fault: set<Stage>, now: int): Outcome<Admission> {
    if !decision.valid || decision.boundary != "pre-marker" then RolledBack(Control)
    else if !Owned(s, lease, now) then RolledBack(Fenced)
    else
      var gate := s.gates[lease.gate];
      if gate.winner.Some? || gate.testedMerge != execution.testedMerge then RolledBack(Fenced)
      else if lease.gate in s.admissions then
        var existing := s.admissions[lease.gate];
        if existing.authority != StoredAuthority(authority, decision) || existing.execution != execution
           || existing.deadline != deadline then RolledBack(Conflict)
        else Committed(s, existing)
      else if IdTaken(s, admissionId) then RolledBack(Integrity)
      else if AfterAdmission in fault || AfterMarker in fault then RolledBack(Fault)
      else
        var digest := AdmissionRecord(lease.gate, gate.headGeneration, lease.owner, lease.epoch,
                                      authority, decision, execution, now, deadline);
        var row := Admission(admissionId, digest, StoredAuthority(authority, decision), execution, now, deadline);
        Committed(s.(admissions := s.admissions[lease.gate := row]), row)
  }

  function WinnerText(w: Winner): string {
    match w case Local => "local" case Github => "github"
  }

  function OutboxKey(gate: GateId, winner: Winner, digest: Hex): string {
    gate.key + ":" + Decimal.IntText(gate.generation) + ":" + WinnerText(winner) + ":" + digest
  }

  /** The shared tail of the three completions: decide, record the terminal result, queue its publication. */
  function Complete(s: Tables, id: GateId, winner: Winner, result: ResultKind, digest: Hex, fault: set<Stage>): Outcome<Completion>
    requires id in s.gates
  {
    var gate := s.gates[id];
    var key := OutboxKey(id, winner, digest);
    if gate.winner.Some? && gate.winner.value != winner then RolledBack(Fenced)
    else if gate.result.Some? then
      if gate.result == Some(result) && gate.digest == Some(digest) then
        Committed(s, Completion(false, winner, result, digest, key))
      else RolledBack(Conflict)
    else if AfterWinner in fault || AfterTerminal in fault then RolledBack(Fault)
    else if key in s.outbox then RolledBack(Integrity)
    else if AfterOutbox in fault then RolledBack(Fault)
    else
      var terminal := gate.(winner := Some(winner), result := Some(result), digest := Some(digest));
      var row := OutboxRow(id, winner, result, digest, gate.checkRun, false, 0);
      Committed(s.(gates := s.gates[id := terminal], outbox := s.outbox[key := row]),
                Completion(true, winner, result, digest, key))
  }

  predicate Admitted(s: Tables, id: GateId, admissionId: string, digest: AdmissionRecord) {
    id in s.admissions && s.admissions[id].admissionId == admissionId && s.admissions[id].digest == digest
  }

  ghost function CompleteLocalSuccess(s: Tables, lease: Lease, admissionId: string, admission: AdmissionRecord,
                                      digest: Hex, attested: bool, attestedUntil: int, fault: set<Stage>, now: int): Outcome<Completion> {
    if !attested || now >= attestedUntil then RolledBack(Fenced)
    else if !Owned(s, lease, now) then RolledBack(Fenced)
    else if !Admitted(s, lease.gate, admissionId, admission) then RolledBack(Control)
    else Complete(s, lease.gate, Local, Success, digest, fault)
  }

  /** What failure evidence says: its kind and conclusion, when the child ended, and which child. */
  datatype Failure = Failure(
    kind: string, conclusion: string, terminalAt: int, run: int, job: int, testedMerge: string, command: string)

  predicate FailureMatches(f: Failure, e: Execution) {
    e.run == f.run && e.job == f.job && e.testedMerge == f.testedMerge && e.command == f.command
  }

  ghost function CompleteLocalFailure(s: Tables, lease: Lease, admissionId: string, admission: AdmissionRecord,
                                      failure: Failure, digest: Hex, fault: set<Stage>, now: int): Outcome<Completion> {
    if !Owned(s, lease, now) then RolledBack(Fenced)
    else if !Admitted(s, lease.gate, admissionId, admission) then RolledBack(Control)
    else if !FailureMatches(failure, s.admissions[lease.gate].execution) then RolledBack(Control)
    else if failure.kind != "FUNCTIONAL_FAILURE" || failure.conclusion == "success" then RolledBack(Control)
    else if failure.terminalAt > s.admissions[lease.gate].deadline then RolledBack(Late)
    else Complete(s, lease.gate, Local, FunctionalFailure, digest, fault)
  }

  ghost function SelectGithub(s: Tables, lease: Lease, fault: set<Stage>, now: int): Outcome<bool> {
    if !Owned(s, lease, now) then RolledBack(Fenced)
    else
      var gate := s.gates[lease.gate];
      if gate.winner == Some(Github) then Committed(s, false)
      else if gate.winner.Some? then RolledBack(Fenced)
      else if AfterWinner in fault then RolledBack(Fault)
      else Committed(s.(gates := s.gates[lease.gate := gate.(winner := Some(Github))]), true)
  }

  ghost function CompleteHosted(s: Tables, lease: Lease, conclusion: string, digest: Hex, predicateValid: bool,
                                fault: set<Stage>, now: int): Outcome<Completion> {
    if !predicateValid then RolledBack(Control)
    else if !Owned(s, lease, now) then RolledBack(Fenced)
    else if s.gates[lease.gate].winner != Some(Github) then RolledBack(Fenced)
    else
      Complete(s, lease.gate, Github, if conclusion == "success" then Success else FunctionalFailure, digest, fault)
  }

  function MarkDelivered(s: Tables, key: string, observed: Hex): Outcome<bool> {
    if key !in s.outbox then RolledBack(Control)
    else if s.outbox[key].digest != observed then RolledBack(Conflict)
    else if s.outbox[key].delivered then Committed(s, false)
    else
      var row := s.outbox[key];
      Committed(s.(outbox := s.outbox[key := row.(delivered := true, attempts := row.attempts + 1)]), true)
  }

  function RecordAttempt(s: Tables, key: string): Outcome<bool> {
    if key !in s.outbox then RolledBack(Control)
    else
      var row := s.outbox[key];
      Committed(s.(outbox := s.outbox[key := row.(attempts := row.attempts + 1)]), true)
  }

  // ----- Runs -----

  datatype Op =
    | OpObserve(repository: string, pr: int, sha: string)
    | OpAcquire(key: string, headGeneration: int, baseSha: string, testedMerge: string, owner: string,
                checkRun: int, ttl: int, now: int)
    | OpHeartbeat(lease: Lease, ttl: int, now: int)
    | OpBind(nonce: NonceKey, candidate: Binding)
    | OpAdmit(lease: Lease, decision: Decision, authority: map<string, string>, execution: Execution,
              deadline: int, admissionId: string, fault: set<Stage>, now: int)
    | OpLocalSuccess(lease: Lease, admissionId: string, admission: AdmissionRecord, digest: Hex,
                     attested: bool, attestedUntil: int, fault: set<Stage>, now: int)
    | OpLocalFailure(lease: Lease, admissionId: string, admission: AdmissionRecord, failure: Failure,
                     digest: Hex, fault: set<Stage>, now: int)
    | OpSelect(lease: Lease, fault: set<Stage>, now: int)
    | OpHosted(lease: Lease, conclusion: string, digest: Hex, predicateValid: bool, fault: set<Stage>, now: int)
    | OpDelivered(outboxKey: string, observed: Hex)
    | OpAttempt(outboxKey: string)

  function Settle<T>(s: Tables, o: Outcome<T>): Tables {
    if o.Committed? then o.tables else s
  }

  ghost function Apply(s: Tables, op: Op): Tables {
    match op
    case OpObserve(repository, pr, sha) => Settle(s, ObserveHead(s, repository, pr, sha))
    case OpAcquire(key, head, base, merge, owner, check, ttl, now) =>
      Settle(s, Acquire(s, key, head, base, merge, owner, check, ttl, now))
    case OpHeartbeat(lease, ttl, now) => Settle(s, Heartbeat(s, lease, ttl, now))
    case OpBind(nonce, candidate) => Settle(s, BindNonce(s, nonce, candidate))
    case OpAdmit(lease, decision, authority, execution, deadline, id, fault, now) =>
      Settle(s, Admit(s, lease, decision, authority, execution, deadline, id, fault, now))
    case OpLocalSuccess(lease, id, admission, digest, attested, until, fault, now) =>
      Settle(s, CompleteLocalSuccess(s, lease, id, admission, digest, attested, until, fault, now))
    case OpLocalFailure(lease, id, admission, failure, digest, fault, now) =>
      Settle(s, CompleteLocalFailure(s, lease, id, admission, failure, digest, fault, now))
    case OpSelect(lease, fault, now) => Settle(s, SelectGithub(s, lease, fault, now))
    case OpHosted(lease, conclusion, digest, valid, fault, now) =>
      Settle(s, CompleteHosted(s, lease, conclusion, digest, valid, fault, now))
    case OpDelivered(key, observed) => Settle(s, MarkDelivered(s, key, observed))
    case OpAttempt(key) => Settle(s, RecordAttempt(s, key))
  }

  /** The tables after a run of operations, in the order SQLite serialised them. */
  ghost function After(s: Tables, run: seq<Op>): Tables {
    if run == [] then s else Apply(After(s, run[..|run| - 1]), run[|run| - 1])
  }
}
