/**
 The allocation ledger: one row per allocation, and what each of its transactions does to the rows.

 Times are whole seconds. A digest is the value it is taken of; the scale-set name, a truncated digest of the
 allocation id and nonce, is that pair. Members no transaction looks at travel together in `rest`.
 */
module Ledger {
  import opened Basics

  datatype Name = Transient(allocationId: string, nonce: string) | Other(text: string)

  /** What a reservation and a signed payload share. */
  datatype Identity = Identity(
    allocationId: string, nonce: string, repositoryId: string, repository: string, headSha: string,
    workflowRef: string, jobName: string, scaleSetName: Name, rest: string)

  datatype ReservationTerms =
    | ReservedV1(issuedAt: int, expiresAt: int)
    | ReservedV2(pr: int, baseSha: string, approvalIssuedAt: int, approvalExpiresAt: int)

  datatype Reservation = Reservation(identity: Identity, terms: ReservationTerms)

  datatype PayloadTerms =
    | SignedV1(issuedAt: int, expiresAt: int)
    | SignedV2(pr: int, baseSha: string, approvalIssuedAt: int, approvalExpiresAt: int, issuedAt: int, claimDeadline: int)

  /** The run and job observed after dispatch. */
  datatype Observed = Observed(runId: string, attempt: int, jobId: string, dispatchSha: string, testedSha: string)

  datatype Payload = Payload(identity: Identity, terms: PayloadTerms, observed: Observed)

  datatype Envelope = Envelope(payload: Payload, authentic: bool)

  datatype State = Reserved | Issued | Running | Terminal | RecoveryRequired | Cleaned

  datatype Body = OfReservation(r: Reservation) | OfPayload(p: Payload)

  datatype CleanupKey = CleanupKey(allocationId: string, body: Body)

  datatype Evidence = Evidence(
    allocationId: string, key: Option<CleanupKey>, jobs: int, removed: bool, orphans: int)

  datatype Row = Row(
    reservation: Reservation, payload: Option<Payload>, state: State, outcome: Option<string>, jobs: int,
    cleaned: bool, issuedAt: int, expiresAt: int, claimDeadline: Option<int>, scaleSetName: Name,
    garmId: Option<int>, recoveryRequired: bool, cleanupPending: bool, cleanupKey: Option<CleanupKey>,
    evidence: Option<Evidence>)

  type Rows = map<string, Row>

  datatype LedgerError =
    | Invalid | Expired | ReplayedDifferently | NonceReplay | Unsigned | NoReservation | CrossedReservation
    | Unknown | CrossedName | BoundElsewhere | InvalidTransition | ClaimExpired | BadAcknowledgement

  const MAX_APPROVAL_TTL := 300
  const MAX_CLAIM_TTL := 900
  const CLOCK_SKEW := 30
  const TERMINAL_OUTCOMES := {"success", "failure", "cancel", "timeout", "force-cancel", "reboot"}

  function ScaleSetName(i: Identity): Name {
    Transient(i.allocationId, i.nonce)
  }

  function ApprovalIssued(t: ReservationTerms): int {
    match t case ReservedV1(issued, _) => issued case ReservedV2(_, _, issued, _) => issued
  }

  function ApprovalExpires(t: ReservationTerms): int {
    match t case ReservedV1(_, expires) => expires case ReservedV2(_, _, _, expires) => expires
  }

  function ValidReservation(r: Reservation, now: int): Option<LedgerError> {
    var issued, expires := ApprovalIssued(r.terms), ApprovalExpires(r.terms);
    if r.identity.scaleSetName != ScaleSetName(r.identity) then Some(Invalid)
    else if r.terms.ReservedV2? && r.terms.pr < 1 then Some(Invalid)
    else if expires <= issued || expires - issued > MAX_APPROVAL_TTL then Some(Expired)
    else if now < issued - CLOCK_SKEW || now >= expires then Some(Expired)
    else None
  }

  function ClaimDeadline(t: PayloadTerms): int {
    match t case SignedV1(_, expires) => expires case SignedV2(_, _, _, _, _, deadline) => deadline
  }

  predicate ValidPayload(p: Payload, now: int) {
    p.identity.scaleSetName == ScaleSetName(p.identity)
    && p.observed.attempt >= 1
    && (match p.terms
        case SignedV1(issued, expires) => issued < expires <= issued + MAX_APPROVAL_TTL
        case SignedV2(pr, _, approved, until, issued, deadline) =>
          pr >= 1 && approved < until <= approved + MAX_APPROVAL_TTL && issued < deadline <= issued + MAX_CLAIM_TTL)
    && p.terms.issuedAt - CLOCK_SKEW <= now < ClaimDeadline(p.terms)
  }

  /** The reservation a payload claims to come from: the payload without what only the dispatch revealed. */
  function Projection(p: Payload): Reservation {
    Reservation(p.identity,
      match p.terms
      case SignedV1(issued, expires) => ReservedV1(issued, expires)
      case SignedV2(pr, base, approved, until, _, _) => ReservedV2(pr, base, approved, until))
  }

  // ----- Transactions -----

  predicate NonceTaken(rows: Rows, nonce: string) {
    exists a :: a in rows && rows[a].reservation.identity.nonce == nonce
  }

  function Fresh(r: Reservation): Row {
    Row(r, None, Reserved, None, 0, false, ApprovalIssued(r.terms), ApprovalExpires(r.terms), None,
        r.identity.scaleSetName, None, false, false, None, None)
  }

  function Reserve(rows: Rows, r: Reservation, now: int): Result<Rows, LedgerError> {
    var a := r.identity.allocationId;
    var invalid := ValidReservation(r, now);
    if invalid.Some? then Err(invalid.value)
    else if a in rows then
      if rows[a].reservation == r then Ok(rows) else Err(ReplayedDifferently)
    else if NonceTaken(rows, r.identity.nonce) then Err(NonceReplay)
    else Ok(rows[a := Fresh(r)])
  }

  function Finalize(rows: Rows, e: Envelope, now: int): Result<Rows, LedgerError> {
    var p, a := e.payload, e.payload.identity.allocationId;
    if !ValidPayload(p, now) then Err(Invalid)
    else if !e.authentic then Err(Unsigned)
    else if a !in rows then Err(NoReservation)
    else if rows[a].payload.Some? then
      if rows[a].payload == Some(p) then Ok(rows) else Err(ReplayedDifferently)
    else if rows[a].state != Reserved || Projection(p) != rows[a].reservation then Err(CrossedReservation)
    else
      Ok(rows[a := rows[a].(payload := Some(p), state := Issued, issuedAt := p.terms.issuedAt,
                            claimDeadline := Some(ClaimDeadline(p.terms)))])
  }

  function Bind(rows: Rows, a: string, id: int, name: Name): Result<Rows, LedgerError> {
    if id < 1 then Err(Invalid)
    else if a !in rows then Err(Unknown)
    else if rows[a].scaleSetName != name then Err(CrossedName)
    else if rows[a].garmId.Some? then
      if rows[a].garmId == Some(id) then Ok(rows) else Err(BoundElsewhere)
    else Ok(rows[a := rows[a].(garmId := Some(id))])
  }

  datatype Action =
    | AdmitJob(now: int)
    | Finish(outcome: string, cancelAttempted: bool)
    | Cleanup
    | Recover
    | Acknowledge(key: Option<CleanupKey>, evidence: Evidence)

  function BodyOf(row: Row): Body {
    if row.payload.Some? then OfPayload(row.payload.value) else OfReservation(row.reservation)
  }

  predicate Acknowledges(a: string, row: Row, key: Option<CleanupKey>, e: Evidence) {
    key == row.cleanupKey && e.allocationId == a && e.key == row.cleanupKey && e.jobs == row.jobs
    && e.orphans == 0 && e.removed
  }

  /** One lifecycle action on a row; an idempotent repetition answers with the row as it is. */
  function Move(a: string, row: Row, action: Action): Result<Row, LedgerError> {
    match action
    case AdmitJob(now) =>
      var deadline := if row.claimDeadline.Some? then row.claimDeadline.value else row.expiresAt;
      if row.state != Issued then Err(InvalidTransition)
      else if now < row.issuedAt - CLOCK_SKEW || now >= deadline then Err(ClaimExpired)
      else if row.jobs == 0 then Ok(row.(state := Running, jobs := 1))
      else Err(InvalidTransition)
    case Finish(outcome, cancelAttempted) =>
      if row.state == Running && row.jobs == 1 && outcome in TERMINAL_OUTCOMES
         && (outcome != "force-cancel" || cancelAttempted)
      then Ok(row.(state := Terminal, outcome := Some(outcome)))
      else Err(InvalidTransition)
    case Cleanup =>
      if row.state == Terminal && row.jobs == 1 && row.outcome.Some? && row.outcome.value in TERMINAL_OUTCOMES
      then Ok(row.(state := Cleaned, cleaned := true))
      else if row.state == Cleaned then Ok(row)
      else Err(InvalidTransition)
    case Recover =>
      if row.state in {Reserved, Issued, Running} && row.jobs in {0, 1} then
        Ok(row.(state := RecoveryRequired, outcome := Some("reboot"), recoveryRequired := true,
                cleanupPending := true, cleanupKey := Some(CleanupKey(a, BodyOf(row)))))
      else if row.state == RecoveryRequired && row.outcome == Some("reboot") then Ok(row)
      else Err(InvalidTransition)
    case Acknowledge(key, evidence) =>
      if !Acknowledges(a, row, key, evidence) then Err(BadAcknowledgement)
      else if row.state == RecoveryRequired && row.recoveryRequired && row.cleanupPending then
        Ok(row.(state := Cleaned, cleaned := true, recoveryRequired := false, cleanupPending := false,
                evidence := Some(evidence)))
      else if row.state == Cleaned && row.outcome == Some("reboot") && row.evidence == Some(evidence) then Ok(row)
      else Err(BadAcknowledgement)
  }

  function Transition(rows: Rows, a: string, action: Action): (r: Result<Rows, LedgerError>)
    ensures r.Ok? ==> a in r.value
  {
    if a !in rows then Err(Unknown)
    else match Move(a, rows[a], action)
      case Ok(row) => Ok(rows[a := row])
      case Err(e) => Err(e)
  }

  // ----- What every row keeps -----

  predicate RowOk(a: string, row: Row) {
    row.reservation.identity.allocationId == a
    && row.scaleSetName == row.reservation.identity.scaleSetName == ScaleSetName(row.reservation.identity)
    && (row.payload.Some? ==>
          Projection(row.payload.value) == row.reservation
          && row.issuedAt == row.payload.value.terms.issuedAt
          && row.claimDeadline == Some(ClaimDeadline(row.payload.value.terms)))
    && (row.state == Reserved ==> row.payload.None?)
    && (row.state in {Issued, Running, Terminal} ==> row.payload.Some?)
    && (row.state in {Reserved, Issued} ==> row.jobs == 0)
    && (row.state in {Running, Terminal} ==> row.jobs == 1)
    && row.jobs in {0, 1}
    && (row.state == Terminal ==> row.outcome.Some? && row.outcome.value in TERMINAL_OUTCOMES)
    && (row.state == RecoveryRequired ==>
          row.outcome == Some("reboot") && row.recoveryRequired && row.cleanupPending && row.cleanupKey.Some?)
    && (row.cleaned <==> row.state == Cleaned)
    && (row.state in {Reserved, Issued, Running, Terminal} ==> row.cleanupKey == None)
    && (row.cleanupKey.Some? ==>
          row.cleanupKey.value.allocationId == a
          && row.cleanupKey.value.body
             == (if row.payload.Some? then OfPayload(row.payload.value) else OfReservation(row.reservation)))
    && (row.state == Cleaned && row.cleanupKey.Some? ==>
          row.evidence == Some(Evidence(a, row.cleanupKey, row.jobs, true, 0)))
    && (row.garmId.Some? ==> row.garmId.value >= 1)
  }

  predicate RowsOk(rows: Rows) {
    forall a :: a in rows ==> RowOk(a, rows[a])
  }

  /** How far an allocation's life has gone. */
  function Rank(s: State): nat {
    match s
    case Reserved => 0
    case Issued => 1
    case Running => 2
    case Terminal => 3
    case RecoveryRequired => 3
    case Cleaned => 4
  }

  predicate RowAges(before: Row, after: Row) {
    after.reservation == before.reservation && after.scaleSetName == before.scaleSetName
    && after.expiresAt == before.expiresAt
    && (before.payload.Some? ==> after.payload == before.payload)
    && (before.garmId.Some? ==> after.garmId == before.garmId)
    && before.jobs <= after.jobs
    && (after.state == before.state || Rank(before.state) < Rank(after.state))
    && (before.state == Cleaned ==> after == before.(garmId := after.garmId))
  }

  predicate RowsAge(before: Rows, after: Rows) {
    forall a :: a in before ==> a in after && RowAges(before[a], after[a])
  }

  /** Every effective action moves the row strictly forward, and keeps it well formed. */
  lemma MoveRaisesRank(a: string, row: Row, action: Action)
    requires RowOk(a, row) && Move(a, row, action).Ok?
    ensures var after := Move(a, row, action).value;
      RowOk(a, after) && RowAges(row, after) && (after == row || Rank(row.state) < Rank(after.state))
  {
  }

  lemma RowIsOk(rows: Rows, a: string)
    requires RowsOk(rows) && a in rows
    ensures RowOk(a, rows[a])
  {
    hide RowOk;
  }

  lemma RowUpdated(rows: Rows, a: string, row: Row)
    requires RowsOk(rows) && a in rows && RowOk(a, row) && RowAges(rows[a], row)
    ensures RowsOk(rows[a := row]) && RowsAge(rows, rows[a := row])
  {
    hide RowOk, RowAges;
    AgesRefls(rows);
  }

  lemma TransitionKeeps(rows: Rows, a: string, action: Action)
    requires RowsOk(rows) && Transition(rows, a, action).Ok?
    ensures RowsOk(Transition(rows, a, action).value) && RowsAge(rows, Transition(rows, a, action).value)
  {
    hide Move, RowOk, RowAges;
    MoveRaisesRank(a, rows[a], action);
    RowUpdated(rows, a, Move(a, rows[a], action).value);
  }

  lemma AgesRefl(row: Row)
    ensures RowAges(row, row)
  {
  }

  lemma AgesRefls(rows: Rows)
    ensures RowsAge(rows, rows)
  {
    hide RowAges;
    forall a | a in rows ensures RowAges(rows[a], rows[a]) {
      AgesRefl(rows[a]);
    }
  }

  lemma AgesTransitively(r: Rows, s: Rows, t: Rows)
    requires RowsAge(r, s) && RowsAge(s, t)
    ensures RowsAge(r, t)
  {
    hide RowAges;
    forall a | a in r ensures RowAges(r[a], t[a]) {
      assert RowAges(r[a], s[a]) && RowAges(s[a], t[a]);
      RowAgesTransitively(r[a], s[a], t[a]);
    }
  }

  lemma RowAgesTransitively(r: Row, s: Row, t: Row)
    requires RowAges(r, s) && RowAges(s, t)
    ensures RowAges(r, t)
  {
  }

  lemma ReserveKeeps(rows: Rows, r: Reservation, now: int)
    requires RowsOk(rows) && Reserve(rows, r, now).Ok?
    ensures var after := Reserve(rows, r, now).value;
      RowsOk(after) && RowsAge(rows, after)
      && r.identity.allocationId in after && after[r.identity.allocationId].reservation == r
  {
    hide RowAges, NonceTaken;
    AgesRefls(rows);
  }

  lemma FinalizeKeeps(rows: Rows, e: Envelope, now: int)
    requires RowsOk(rows) && Finalize(rows, e, now).Ok?
    ensures var after := Finalize(rows, e, now).value; var a := e.payload.identity.allocationId;
      RowsOk(after) && RowsAge(rows, after) && a in after && after[a].payload == Some(e.payload)
  {
    hide ValidPayload, RowsOk, RowsAge;
    var a, after := e.payload.identity.allocationId, Finalize(rows, e, now).value;
    AgesRefls(rows);
    if after != rows {
      RowIsOk(rows, a);
      RowUpdated(rows, a, after[a]);
      assert after == rows[a := after[a]];
    }
  }

  lemma BindKeeps(rows: Rows, a: string, id: int, name: Name)
    requires RowsOk(rows) && Bind(rows, a, id, name).Ok?
    ensures var after := Bind(rows, a, id, name).value;
      RowsOk(after) && RowsAge(rows, after) && a in after && after[a].garmId == Some(id)
  {
    hide Projection, RowsOk, RowsAge;
    var after := Bind(rows, a, id, name).value;
    AgesRefls(rows);
    if after != rows {
      RowIsOk(rows, a);
      RowUpdated(rows, a, after[a]);
      assert after == rows[a := after[a]];
    }
  }
}
