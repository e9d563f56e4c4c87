/**
 The approval store: which pull-request heads may use the local runner.

 `active_key` is the triple it is rendered from. Requests are pilot requests, so a request is the target it was built
 for. Reasons, leases at the source and results are not part of this model.
 */
module Approvals {
  import opened Basics

  datatype Key = Key(repository: string, pr: int, head: string)

  /** What the resolver says a pull request is right now. */
  datatype Target = Target(
    repositoryId: string, repository: string, pr: int, head: string, branch: string, workflowRef: string,
    base: string, merge: string)

  datatype State = Pending | Claimed | Completed | Failed | Revoked | Expired

  datatype Row = Row(
    key: Key, generation: int, state: State, durable: bool, request: Target, createdAt: int, expiresAt: int,
    claimUntil: Option<int>, activeKey: Option<Key>)

  type Rows = map<string, Row>

  predicate Active(s: State) {
    s == Pending || s == Claimed
  }

  /** An active key is set exactly while the row is pending or claimed, and it is the row's own. */
  predicate RowOk(row: Row) {
    row.activeKey == (if Active(row.state) then Some(row.key) else None)
    && (row.durable && Active(row.state) ==> row.state == Claimed)
    && row.request.repository == row.key.repository && row.request.pr == row.key.pr && row.request.head == row.key.head
  }

  predicate ActiveFor(rows: Rows, id: string, key: Key) {
    id in rows && rows[id].key == key && Active(rows[id].state)
  }

  predicate StoreOk(rows: Rows) {
    (forall id :: id in rows ==> RowOk(rows[id]))
    && forall i, j :: i in rows && j in rows && rows[i].activeKey.Some? && rows[i].activeKey == rows[j].activeKey ==> i == j
  }

  /** At most one active row per repository, pull request and head. */
  lemma OneActivePerHead(rows: Rows, i: string, j: string, key: Key)
    requires StoreOk(rows) && ActiveFor(rows, i, key) && ActiveFor(rows, j, key)
    ensures i == j
  {
    assert RowOk(rows[i]) && RowOk(rows[j]);
  }

  // ----- Transactions -----

  function Settle(row: Row, state: State): Row {
    row.(state := state, claimUntil := None, activeKey := None)
  }

  /** The first transaction of `approve`, given the active row of the head, if any. */
  datatype Verdict = Idempotent(id: string) | Refused | Proceed(rows: Rows)

  function Reconcile(rows: Rows, active: Option<string>, target: Target, now: int): Verdict
    requires active.Some? ==> active.value in rows
  {
    if active.None? then Proceed(rows)
    else
      var id := active.value;
      var row := rows[id];
      var matches := row.request == target;
      if row.durable then if matches then Idempotent(id) else Refused
      else if now >= row.expiresAt then Proceed(rows[id := row.(state := Expired, activeKey := None)])
      else if matches then Idempotent(id)
      else if row.state == Claimed then Refused
      else Proceed(rows[id := row.(state := Expired, activeKey := None)])
  }

  predicate KeyTaken(rows: Rows, key: Key) {
    exists id :: id in rows && rows[id].activeKey == Some(key)
  }

  function NewRow(key: Key, generation: int, target: Target, now: int, ttl: int): Row {
    Row(key, generation, Pending, false, target, now, now + ttl, None, Some(key))
  }

  /** The second transaction of `approve`: insert, unless the id or the active key is taken. */
  function Insert(rows: Rows, id: string, row: Row): Rows {
    if id in rows || (row.activeKey.Some? && KeyTaken(rows, row.activeKey.value)) then rows else rows[id := row]
  }

  function Claim(rows: Rows, id: string, request: Target, until: int): Option<Rows> {
    if id in rows && rows[id].state == Claimed && rows[id].request == request
    then Some(rows[id := rows[id].(durable := true, claimUntil := Some(until))])
    else None
  }

  function Retry(rows: Rows, id: string, now: int): Option<Rows> {
    if id in rows && rows[id].state == Claimed && rows[id].durable
    then Some(rows[id := rows[id].(claimUntil := Some(now))])
    else None
  }

  /** `complete` and `fail` of a pending or claimed row. */
  function SetState(rows: Rows, id: string, state: State): Option<Rows> {
    if id in rows && Active(rows[id].state) then Some(rows[id := Settle(rows[id], state)]) else None
  }

  /** Every active approval of the pull request, whatever its head. */
  function Revoke(rows: Rows, repository: string, pr: int): Rows {
    map id | id in rows ::
      if rows[id].key.repository == repository && rows[id].key.pr == pr && Active(rows[id].state)
      then Settle(rows[id], Revoked) else rows[id]
  }

  /** A claim that was never made durable expires with its approval, or goes back to the queue. */
  function ExpireClaims(rows: Rows, now: int): Rows {
    map id | id in rows ::
      if rows[id].state == Claimed && !rows[id].durable && rows[id].expiresAt <= now
      then Settle(rows[id], Expired) else rows[id]
  }

  function ReleaseClaims(rows: Rows, now: int): Rows {
    map id | id in rows ::
      if rows[id].state == Claimed && !rows[id].durable && rows[id].claimUntil.Some?
         && rows[id].claimUntil.value <= now && rows[id].expiresAt > now
      then rows[id].(state := Pending, claimUntil := None) else rows[id]
  }

  function PollOne(rows: Rows, id: string, now: int): Rows
    requires id in rows
  {
    var row := rows[id];
    if now >= row.expiresAt then rows[id := row.(state := Expired, activeKey := None)]
    else
      var until := if now + 60 <= row.expiresAt then now + 60 else row.expiresAt;
      rows[id := row.(state := Claimed, claimUntil := Some(until))]
  }

  ghost predicate HasActive(rows: Rows, key: Key) {
    exists id :: ActiveFor(rows, id, key)
  }

  ghost function ActiveId(rows: Rows, key: Key): (id: Option<string>)
    ensures id.Some? ==> ActiveFor(rows, id.value, key)
    ensures id.None? ==> forall i :: !ActiveFor(rows, i, key)
  {
    if HasActive(rows, key) then
      var id :| ActiveFor(rows, id, key);
      Some(id)
    else None
  }

  function KeyOf(target: Target): Key {
    Key(target.repository, target.pr, target.head)
  }

  /** The rows after `approve` of what the resolver reports. */
  ghost function Approved(rows: Rows, id: string, target: Target, generation: int, now: int, ttl: int): Rows {
    match Reconcile(rows, ActiveId(rows, KeyOf(target)), target, now)
    case Idempotent(_) => rows
    case Refused => rows
    case Proceed(after) => Insert(after, id, NewRow(KeyOf(target), generation, target, now, ttl))
  }

  // ----- What the transactions do -----

  /** Every row but this one is as it was. */
  predicate OthersStand(before: Rows, after: Rows, id: string) {
    after.Keys == before.Keys && forall i :: i in before && i != id ==> after[i] == before[i]
  }

  /** A repeated approval is recognised as long as it is good; an approval of something else is refused while the active
      one is durable, or claimed and in time; otherwise the active one gives way, and it alone changes. */
  lemma VerdictIff(rows: Rows, active: Option<string>, target: Target, now: int)
    requires active.Some? ==> active.value in rows
    ensures var v := Reconcile(rows, active, target, now);
      if active.None? then v == Proceed(rows)
      else
        var row := rows[active.value];
        var good := row.durable || now < row.expiresAt;
        (v == Idempotent(active.value) <==> good && row.request == target)
        && (v.Refused? <==> row.request != target && good && (row.durable || row.state == Claimed))
        && (v.Proceed? ==> active.value in v.rows && OthersStand(rows, v.rows, active.value)
                           && v.rows[active.value].state == Expired && v.rows[active.value].activeKey.None?)
        && (v.Idempotent? ==> v.id == active.value)
  {
  }

  /** A claim that was not made durable and whose time is up. */
  predicate Overdue(row: Row, now: int) {
    row.state == Claimed && !row.durable
    && (row.expiresAt <= now || (row.claimUntil.Some? && row.claimUntil.value <= now))
  }

  /** The two sweeps together leave no overdue claim, and change nothing else: a claim whose approval expired is expired
      for good, and any other goes back to the queue with its place and its head. */
  lemma SweepsEndOverdueClaims(rows: Rows, now: int)
    ensures var after := ReleaseClaims(ExpireClaims(rows, now), now);
      after.Keys == rows.Keys
      && forall id :: id in rows ==>
           !Overdue(after[id], now)
           && (!Overdue(rows[id], now) ==> after[id] == rows[id])
           && (Overdue(rows[id], now) ==>
                 after[id].createdAt == rows[id].createdAt && after[id].request == rows[id].request
                 && if rows[id].expiresAt <= now then after[id].state == Expired && after[id].activeKey.None?
                    else after[id].state == Pending && after[id].activeKey == rows[id].activeKey
                         && after[id].claimUntil.None?)
  {
  }

  // ----- What every transaction keeps -----

  /** Rows are never removed, and what identifies them never changes. */
  predicate RowsLast(before: Rows, after: Rows) {
    forall id :: id in before ==>
      id in after && after[id].key == before[id].key && after[id].request == before[id].request
      && (before[id].durable ==> after[id].durable)
      && (!Active(before[id].state) ==> after[id].state == before[id].state)
  }

  predicate NoNewRows(before: Rows, after: Rows) {
    forall id :: id in after ==> id in before
  }

  /** Durable claims are untouched. */
  predicate DurableSpared(before: Rows, after: Rows) {
    forall id :: id in before && before[id].durable && before[id].state == Claimed ==> id in after && after[id] == before[id]
  }

  lemma ChangingARow(rows: Rows, id: string, row: Row)
    requires StoreOk(rows) && id in rows && RowOk(row)
    requires row.key == rows[id].key && row.request == rows[id].request && (rows[id].durable ==> row.durable)
    requires !Active(rows[id].state) ==> row.state == rows[id].state
    ensures StoreOk(rows[id := row]) && RowsLast(rows, rows[id := row]) && NoNewRows(rows, rows[id := row])
  {
    var after := rows[id := row];
    assert RowOk(rows[id]);
    forall i, j | i in after && j in after && after[i].activeKey.Some? && after[i].activeKey == after[j].activeKey
      ensures i == j
    {
      assert RowOk(rows[i]) && RowOk(rows[j]);
      assert rows[i].activeKey == after[i].activeKey && rows[j].activeKey == after[j].activeKey;
    }
  }

  lemma ReconcileKeeps(rows: Rows, active: Option<string>, target: Target, now: int)
    requires StoreOk(rows) && (active.Some? ==> active.value in rows && Active(rows[active.value].state))
    requires Reconcile(rows, active, target, now).Proceed?
    ensures var after := Reconcile(rows, active, target, now).rows;
      StoreOk(after) && RowsLast(rows, after) && NoNewRows(rows, after) && DurableSpared(rows, after)
      && (active.Some? ==> !Active(after[active.value].state))
  {
    if active.Some? {
      var row := rows[active.value];
      assert RowOk(row);
      ChangingARow(rows, active.value, row.(state := Expired, activeKey := None));
    }
  }

  /** After the first transaction let `approve` through, the head has no active row. */
  lemma NoneActive(rows: Rows, active: Option<string>, key: Key, target: Target, now: int)
    requires StoreOk(rows)
    requires if active.Some? then ActiveFor(rows, active.value, key) else forall i :: !ActiveFor(rows, i, key)
    requires Reconcile(rows, active, target, now).Proceed?
    ensures forall i :: !ActiveFor(Reconcile(rows, active, target, now).rows, i, key)
  {
    var after := Reconcile(rows, active, target, now).rows;
    forall i | i in rows ensures !ActiveFor(after, i, key) {
      if active.Some? && ActiveFor(rows, i, key) { OneActivePerHead(rows, i, active.value, key); }
    }
  }

  lemma InsertKeeps(rows: Rows, id: string, row: Row)
    requires StoreOk(rows) && RowOk(row) && row.state == Pending
    ensures StoreOk(Insert(rows, id, row)) && RowsLast(rows, Insert(rows, id, row))
    ensures DurableSpared(rows, Insert(rows, id, row))
  {
  }

  lemma ClaimKeeps(rows: Rows, id: string, request: Target, until: int)
    requires StoreOk(rows) && Claim(rows, id, request, until).Some?
    ensures var after := Claim(rows, id, request, until).value;
      StoreOk(after) && RowsLast(rows, after) && NoNewRows(rows, after)
  {
    assert RowOk(rows[id]);
    ChangingARow(rows, id, rows[id].(durable := true, claimUntil := Some(until)));
  }

  lemma RetryKeeps(rows: Rows, id: string, now: int)
    requires StoreOk(rows) && Retry(rows, id, now).Some?
    ensures var after := Retry(rows, id, now).value;
      StoreOk(after) && RowsLast(rows, after) && NoNewRows(rows, after)
  {
    assert RowOk(rows[id]);
    ChangingARow(rows, id, rows[id].(claimUntil := Some(now)));
  }

  lemma SetKeeps(rows: Rows, id: string, state: State)
    requires StoreOk(rows) && !Active(state) && SetState(rows, id, state).Some?
    ensures var after := SetState(rows, id, state).value;
      StoreOk(after) && RowsLast(rows, after) && NoNewRows(rows, after)
  {
    assert RowOk(rows[id]);
    ChangingARow(rows, id, Settle(rows[id], state));
  }

  /** A sweep that only clears active keys, or leaves them alone. */
  predicate Sweep(before: Rows, after: Rows) {
    before.Keys == after.Keys && forall id :: id in before ==>
      RowOk(after[id]) && (after[id].activeKey == None || after[id].activeKey == before[id].activeKey)
  }

  lemma SweepKeeps(before: Rows, after: Rows)
    requires StoreOk(before) && Sweep(before, after)
    ensures StoreOk(after)
  {
  }

  lemma RevokeKeeps(rows: Rows, repository: string, pr: int)
    requires StoreOk(rows)
    ensures var after := Revoke(rows, repository, pr);
      StoreOk(after) && RowsLast(rows, after) && NoNewRows(rows, after)
  {
    var after := Revoke(rows, repository, pr);
    forall id | id in rows ensures RowOk(after[id]) {
      assert RowOk(rows[id]);
    }
    SweepKeeps(rows, after);
  }

  /** What every TTL transaction keeps. */
  predicate Spares(before: Rows, after: Rows) {
    StoreOk(after) && RowsLast(before, after) && NoNewRows(before, after) && DurableSpared(before, after)
  }

  lemma SparesTransitive(a: Rows, b: Rows, c: Rows)
    requires Spares(a, b) && Spares(b, c)
    ensures Spares(a, c)
  {
    hide StoreOk;
  }

  lemma ExpireSweeps(rows: Rows, now: int)
    requires StoreOk(rows)
    ensures Sweep(rows, ExpireClaims(rows, now))
  {
    forall id | id in rows ensures RowOk(ExpireClaims(rows, now)[id]) {
      assert RowOk(rows[id]);
    }
  }

  lemma ExpireSpares(rows: Rows, now: int)
    requires StoreOk(rows)
    ensures Spares(rows, ExpireClaims(rows, now))
  {
    hide StoreOk, RowOk, Sweep;
    ExpireSweeps(rows, now);
    SweepKeeps(rows, ExpireClaims(rows, now));
  }

  lemma ReleaseSweeps(rows: Rows, now: int)
    requires StoreOk(rows)
    ensures Sweep(rows, ReleaseClaims(rows, now))
  {
    forall id | id in rows ensures RowOk(ReleaseClaims(rows, now)[id]) {
      assert RowOk(rows[id]);
    }
  }

  lemma ReleaseSpares(rows: Rows, now: int)
    requires StoreOk(rows)
    ensures Spares(rows, ReleaseClaims(rows, now))
  {
    hide StoreOk, RowOk, Sweep;
    ReleaseSweeps(rows, now);
    SweepKeeps(rows, ReleaseClaims(rows, now));
  }

  /** No TTL sweep touches a durable claim. */
  lemma RecoverClaimsSpares(rows: Rows, now: int)
    requires StoreOk(rows)
    ensures Spares(rows, ReleaseClaims(ExpireClaims(rows, now), now))
  {
    hide ExpireClaims, ReleaseClaims, RowsLast, NoNewRows, DurableSpared;
    ExpireSpares(rows, now);
    ReleaseSpares(ExpireClaims(rows, now), now);
    SparesTransitive(rows, ExpireClaims(rows, now), ReleaseClaims(ExpireClaims(rows, now), now));
  }

  lemma PollKeeps(rows: Rows, id: string, now: int)
    requires StoreOk(rows) && id in rows && rows[id].state == Pending
    ensures Spares(rows, PollOne(rows, id, now))
  {
    assert RowOk(rows[id]);
    ChangingARow(rows, id, PollOne(rows, id, now)[id]);
  }

  // ----- Arrival order -----

  predicate TextLess(a: string, b: string) {
    if b == [] then false
    else if a == [] then true
    else a[0] < b[0] || (a[0] == b[0] && TextLess(a[1..], b[1..]))
  }

  lemma {:induction false} TextLessTransitive(a: string, b: string, c: string)
    requires TextLess(a, b) && TextLess(b, c)
    ensures TextLess(a, c)
  {
    if a != [] && b != [] && a[0] == b[0] && b[0] == c[0] {
      TextLessTransitive(a[1..], b[1..], c[1..]);
    }
  }

  /** `ORDER BY created_at, request_id`. */
  predicate Before(rows: Rows, i: string, j: string)
    requires i in rows && j in rows
  {
    rows[i].createdAt < rows[j].createdAt || (rows[i].createdAt == rows[j].createdAt && TextLess(i, j))
  }

  lemma BeforeTransitive(rows: Rows, i: string, j: string, k: string)
    requires i in rows && j in rows && k in rows && Before(rows, i, j) && Before(rows, j, k)
    ensures Before(rows, i, k)
  {
    if rows[i].createdAt == rows[k].createdAt { TextLessTransitive(i, j, k); }
  }

  predicate IsPending(rows: Rows, id: string) {
    id in rows && rows[id].state == Pending
  }

  ghost function PendingIds(rows: Rows): set<string> {
    set id | id in rows && IsPending(rows, id)
  }

  /** The rows that changed are pending approvals whose time was up. */
  predicate OnlyExpired(before: Rows, after: Rows, now: int) {
    forall id :: id in before ==>
      id in after
      && (after[id] == before[id]
          || (IsPending(before, id) && after[id].state == Expired && before[id].expiresAt <= now))
  }

  /** Besides those, one pending approval that was still in time is claimed. */
  predicate ClaimedInTime(before: Rows, after: Rows, id: string, now: int) {
    id in before && id in after && IsPending(before, id) && now < before[id].expiresAt && after[id].state == Claimed
    && after[id].claimUntil.Some? && now < after[id].claimUntil.value <= before[id].expiresAt
    && (after[id].claimUntil.value < before[id].expiresAt ==> after[id].claimUntil.value == now + 60)
    && after[id].claimUntil.value <= now + 60 && after[id].activeKey == before[id].activeKey && !after[id].durable
    && OnlyExpired(before, after[id := before[id]], now)
  }

  lemma SparesRefl(rows: Rows, now: int)
    requires StoreOk(rows)
    ensures Spares(rows, rows) && OnlyExpired(rows, rows, now)
  {
    hide StoreOk;
  }

  lemma PollExpiresOrClaims(before: Rows, rows: Rows, id: string, now: int)
    requires OnlyExpired(before, rows, now) && IsPending(rows, id) && NoNewRows(before, rows) && RowOk(rows[id])
    ensures var after := PollOne(rows, id, now);
      if now >= rows[id].expiresAt then OnlyExpired(before, after, now) else ClaimedInTime(before, after, id, now)
    ensures id in PollOne(rows, id, now)
  {
  }

  lemma SparesMeans(before: Rows, after: Rows)
    requires Spares(before, after)
    ensures StoreOk(after) && NoNewRows(before, after)
  {
  }

  lemma PendingFalls(rows: Rows, id: string, now: int)
    requires IsPending(rows, id)
    ensures id in PendingIds(rows) && PendingIds(PollOne(rows, id, now)) == PendingIds(rows) - {id}
  {
  }

  // ----- The store -----

  class LocalApprovalStore {
    var rows: Rows
    var currentRequest: Option<Target>
    const ttl: int

    constructor (ttl: int)
      requires 0 < ttl <= 300
      ensures rows == map[] && StoreOk(rows) && this.ttl == ttl
    {
      this.ttl, rows, currentRequest := ttl, map[], None;
    }

    method ActiveRow(key: Key) returns (active: Option<string>)
      ensures active.Some? ==> ActiveFor(rows, active.value, key)
      ensures active.None? ==> forall id :: !ActiveFor(rows, id, key)
    {
      active := None;
      var rest := rows.Keys;
      while rest != {}
        invariant rest <= rows.Keys
        invariant active.Some? ==> ActiveFor(rows, active.value, key)
        invariant active.None? ==> forall id :: id in rows && id !in rest ==> !ActiveFor(rows, id, key)
        decreases |rest|
      {
        var id :| id in rest;
        rest := rest - {id};
        if ActiveFor(rows, id, key) { active := Some(id); }
      }
    }

    /** Approve the head the resolver reports. A new row appears only if the head had no active one, and then the head
        has exactly that one; a durable claim is never disturbed. */
    method Approve(target: Target, generation: int, id: string, now: int) returns (approved: Option<string>, created: bool)
      requires StoreOk(rows)
      modifies this`rows
      ensures StoreOk(rows) && RowsLast(old(rows), rows) && DurableSpared(old(rows), rows)
      ensures forall i :: i in rows && i !in old(rows) ==> created && approved == Some(i) && rows[i].request == target
      ensures created ==> approved == Some(id) && id !in old(rows)
      ensures created ==> id in rows && rows[id] == NewRow(KeyOf(target), generation, target, now, ttl)
      ensures approved.Some? ==> ActiveFor(rows, approved.value, KeyOf(target))
      ensures approved.Some? ==> rows[approved.value].request == target
      ensures approved.Some? && !created ==> rows == old(rows)
      ensures rows == Approved(old(rows), id, target, generation, now, ttl)
    {
      hide StoreOk, RowsLast, DurableSpared, Reconcile, ActiveFor, Insert;
      var key := KeyOf(target);
      ghost var active := ActiveId(rows, key);
      var verdict := CheckActive(target, now);
      match verdict {
        case Idempotent(existing) =>
          IdempotentMatches(rows, active, target, now);
          ApproveLeaves(old(rows), rows, rows, id, target);
          return Some(existing), false;
        case Refused =>
          ApproveLeaves(old(rows), rows, rows, id, target);
          return None, false;
        case Proceed(after) =>
      }
      NoneActive(old(rows), active, key, target, now);
      ghost var between := rows;
      approved, created := InsertApproval(target, generation, id, now);
      ApproveLeaves(old(rows), between, rows, id, target);
    }

    /** The first transaction of `approve`: what the head's active row allows, and its expiry when it is stale. */
    method CheckActive(target: Target, now: int) returns (verdict: Verdict)
      requires StoreOk(rows)
      modifies this`rows
      ensures verdict == Reconcile(old(rows), ActiveId(old(rows), KeyOf(target)), target, now)
      ensures rows == if verdict.Proceed? then verdict.rows else old(rows)
      ensures StoreOk(rows) && RowsLast(old(rows), rows) && NoNewRows(old(rows), rows) && DurableSpared(old(rows), rows)
    {
      hide StoreOk;
      var active := ActiveRow(KeyOf(target));
      SameActive(rows, active, KeyOf(target));
      verdict := Reconcile(rows, active, target, now);
      if verdict.Proceed? {
        ReconcileKeeps(rows, active, target, now);
        rows := verdict.rows;
      }
    }

    /** The second transaction of `approve`, whatever other connections did since the first: the row is inserted unless
        its id or the head's active key is taken; then the active row is the answer if it is for the same target, and
        otherwise the approval is refused. */
    method InsertApproval(target: Target, generation: int, id: string, now: int)
      returns (approved: Option<string>, created: bool)
      requires StoreOk(rows)
      modifies this`rows
      ensures StoreOk(rows) && RowsLast(old(rows), rows) && DurableSpared(old(rows), rows)
      ensures rows == Insert(old(rows), id, NewRow(KeyOf(target), generation, target, now, ttl))
      ensures created <==> id !in old(rows) && forall i :: !ActiveFor(old(rows), i, KeyOf(target))
      ensures created ==> approved == Some(id) && ActiveFor(rows, id, KeyOf(target))
      ensures created ==> rows == old(rows)[id := NewRow(KeyOf(target), generation, target, now, ttl)]
      ensures !created ==> rows == old(rows)
      ensures !created && approved.Some? ==>
        ActiveFor(rows, approved.value, KeyOf(target)) && rows[approved.value].request == target
      ensures !created && approved.None? ==>
        forall i :: ActiveFor(rows, i, KeyOf(target)) ==> rows[i].request != target
    {
      hide StoreOk, RowsLast, DurableSpared;
      var key := KeyOf(target);
      var row := NewRow(key, generation, target, now, ttl);
      var active := ActiveRow(key);
      KeyTakenIff(rows, key, active);
      InsertKeeps(rows, id, row);
      if id !in rows && active.None? {
        rows := rows[id := row];
        return Some(id), true;
      }
      approved, created := None, false;
      if active.Some? {
        OnlyActive(rows, active.value, key);
        if rows[active.value].request == target { approved := active; }
      }
    }

    method FirstPending() returns (first: Option<string>)
      ensures first.None? ==> forall id :: !IsPending(rows, id)
      ensures first.Some? ==> IsPending(rows, first.value)
      ensures first.Some? ==> forall id :: IsPending(rows, id) ==> !Before(rows, id, first.value)
    {
      first := None;
      var rest := rows.Keys;
      while rest != {}
        invariant rest <= rows.Keys
        invariant first.None? ==> forall id :: IsPending(rows, id) ==> id in rest
        invariant first.Some? ==> IsPending(rows, first.value)
        invariant first.Some? ==> forall id :: IsPending(rows, id) && id !in rest ==> !Before(rows, id, first.value)
        decreases |rest|
      {
        var id :| id in rest;
        rest := rest - {id};
        if IsPending(rows, id) && (first.None? || Before(rows, id, first.value)) {
          if first.Some? {
            forall x | IsPending(rows, x) && x !in rest && x != id ensures !Before(rows, x, id) {
              if Before(rows, x, id) { BeforeTransitive(rows, x, id, first.value); }
            }
          }
          assert !Before(rows, id, id) by { TextNotLess(id); }
          first := Some(id);
        }
      }
    }

    /** Claim the oldest pending approval that is still in time; older ones that are not expire on the way. */
    method Poll(now: int) returns (claimed: Option<string>)
      requires StoreOk(rows)
      modifies this
      ensures StoreOk(rows) && Spares(old(rows), rows)
      ensures claimed.None? ==> currentRequest == None && OnlyExpired(old(rows), rows, now)
      ensures claimed.None? ==> forall id :: !IsPending(rows, id)
      ensures claimed.Some? ==> ClaimedInTime(old(rows), rows, claimed.value, now)
      ensures claimed.Some? ==> currentRequest == Some(rows[claimed.value].request)
    {
      hide RowOk, Before, PollOne, PendingIds, StoreOk, RowsLast, NoNewRows, DurableSpared, OnlyExpired, Spares;
      currentRequest := None;
      SparesRefl(rows, now);
      ghost var before := rows;
      while true
        invariant StoreOk(rows) && Spares(before, rows) && OnlyExpired(before, rows, now)
        invariant currentRequest == None
        decreases PendingIds(rows)
      {
        var first := FirstPending();
        if first.None? { return None; }
        var id := first.value;
        PollKeeps(rows, id, now);
        PendingFalls(rows, id, now);
        SparesTransitive(before, rows, PollOne(rows, id, now));
        SparesMeans(before, rows);
        PollExpiresOrClaims(before, rows, id, now);
        SparesMeans(rows, PollOne(rows, id, now));
        var expired := now >= rows[id].expiresAt;
        rows := PollOne(rows, id, now);
        if !expired {
          currentRequest := Some(rows[id].request);
          return Some(id);
        }
      }
    }

    method ClaimDurably(id: string, request: Target, until: int) returns (ok: bool)
      requires StoreOk(rows)
      modifies this
      ensures StoreOk(rows)
      ensures match Claim(old(rows), id, request, until)
        case Some(after) => ok && rows == after && currentRequest == Some(request)
        case None => !ok && rows == old(rows) && currentRequest == old(currentRequest)
      ensures ok <==> id in old(rows) && old(rows)[id].state == Claimed && old(rows)[id].request == request
      ensures ok ==> OthersStand(old(rows), rows, id) && rows[id].durable && rows[id].claimUntil == Some(until)
      ensures ok ==> rows[id].state == Claimed && rows[id].activeKey == old(rows)[id].activeKey
    {
      ok := id in rows && rows[id].state == Claimed && rows[id].request == request;
      if ok {
        ClaimKeeps(rows, id, request, until);
        rows := rows[id := rows[id].(durable := true, claimUntil := Some(until))];
        currentRequest := Some(request);
      }
    }

    method Resume(id: string, request: Target, until: int) returns (ok: bool)
      requires StoreOk(rows)
      modifies this
      ensures StoreOk(rows)
      ensures ok <==> id in old(rows) && old(rows)[id].durable && Claim(old(rows), id, request, until).Some?
      ensures rows == if ok then Claim(old(rows), id, request, until).value else old(rows)
      ensures ok <==>
        id in old(rows) && old(rows)[id].durable && old(rows)[id].state == Claimed && old(rows)[id].request == request
      ensures ok ==> OthersStand(old(rows), rows, id) && rows[id].durable && rows[id].claimUntil == Some(until)
    {
      ok := id in rows && rows[id].request == request && rows[id].state == Claimed && rows[id].durable;
      if ok { ok := ClaimDurably(id, request, until); }
    }

    /** Hand a durable claim back for another attempt. */
    method RetryLater(id: string, now: int) returns (ok: bool)
      requires StoreOk(rows)
      modifies this`rows
      ensures StoreOk(rows) && (ok <==> Retry(old(rows), id, now).Some?)
      ensures rows == if ok then Retry(old(rows), id, now).value else old(rows)
      ensures ok <==> id in old(rows) && old(rows)[id].state == Claimed && old(rows)[id].durable
      ensures ok ==> OthersStand(old(rows), rows, id) && rows[id] == old(rows)[id].(claimUntil := Some(now))
    {
      ok := id in rows && rows[id].state == Claimed && rows[id].durable;
      if ok {
        RetryKeeps(rows, id, now);
        rows := rows[id := rows[id].(claimUntil := Some(now))];
      }
    }

    /** `_set`, behind `complete`, `fail` and a rejected poll. */
    method Conclude(id: string, state: State) returns (ok: bool)
      requires StoreOk(rows) && !Active(state)
      modifies this`rows
      ensures StoreOk(rows) && (ok <==> SetState(old(rows), id, state).Some?)
      ensures rows == if ok then SetState(old(rows), id, state).value else old(rows)
      ensures ok <==> id in old(rows) && Active(old(rows)[id].state)
      ensures ok ==> OthersStand(old(rows), rows, id) && rows[id].state == state && rows[id].activeKey.None?
    {
      ok := id in rows && Active(rows[id].state);
      if ok {
        SetKeeps(rows, id, state);
        rows := rows[id := Settle(rows[id], state)];
      }
    }

    method RevokeAll(repository: string, pr: int)
      requires StoreOk(rows)
      modifies this`rows
      ensures StoreOk(rows) && rows == Revoke(old(rows), repository, pr)
      ensures forall id :: id in rows && rows[id].key.repository == repository && rows[id].key.pr == pr ==>
        !Active(rows[id].state)
      ensures rows.Keys == old(rows).Keys && forall id :: id in rows ==>
        if rows[id].key.repository == repository && rows[id].key.pr == pr && Active(old(rows)[id].state)
        then rows[id].state == Revoked && rows[id].activeKey.None?
        else rows[id] == old(rows)[id]
    {
      RevokeKeeps(rows, repository, pr);
      rows := Revoke(rows, repository, pr);
    }

    method RecoverClaims(now: int)
      requires StoreOk(rows)
      modifies this`rows
      ensures StoreOk(rows) && rows == ReleaseClaims(ExpireClaims(old(rows), now), now) && Spares(old(rows), rows)
      ensures forall id :: id in rows ==>
        id in old(rows) && !Overdue(rows[id], now) && (!Overdue(old(rows)[id], now) ==> rows[id] == old(rows)[id])
    {
      hide StoreOk, RowsLast, NoNewRows, DurableSpared, ExpireClaims, ReleaseClaims;
      RecoverClaimsSpares(rows, now);
      SweepsEndOverdueClaims(rows, now);
      SparesMeans(rows, ReleaseClaims(ExpireClaims(rows, now), now));
      rows := ExpireClaims(rows, now);
      rows := ReleaseClaims(rows, now);
    }
  }

  lemma OnlyActive(rows: Rows, id: string, key: Key)
    requires StoreOk(rows) && ActiveFor(rows, id, key)
    ensures forall i :: ActiveFor(rows, i, key) ==> i == id
  {
    forall i | ActiveFor(rows, i, key) ensures i == id {
      OneActivePerHead(rows, i, id, key);
    }
  }

  /** An active key is taken exactly while its head has an active row. */
  lemma KeyTakenIff(rows: Rows, key: Key, active: Option<string>)
    requires StoreOk(rows)
    requires if active.Some? then ActiveFor(rows, active.value, key) else forall i :: !ActiveFor(rows, i, key)
    ensures KeyTaken(rows, key) <==> active.Some?
  {
    if active.Some? {
      assert RowOk(rows[active.value]);
    } else {
      NoActiveNoKey(rows, key);
    }
  }

  lemma IdempotentMatches(rows: Rows, active: Option<string>, target: Target, now: int)
    requires active.Some? ==> ActiveFor(rows, active.value, KeyOf(target))
    requires Reconcile(rows, active, target, now).Idempotent?
    ensures var id := Reconcile(rows, active, target, now).id;
      ActiveFor(rows, id, KeyOf(target)) && rows[id].request == target
  {
  }

  /** What the two transactions of an approval leave together. */
  lemma ApproveLeaves(first: Rows, between: Rows, last: Rows, id: string, target: Target)
    requires RowsLast(first, between) && NoNewRows(first, between) && DurableSpared(first, between)
    requires RowsLast(between, last) && DurableSpared(between, last)
    requires forall i :: i in last && i !in between ==> i == id && last[i].request == target
    ensures RowsLast(first, last) && DurableSpared(first, last) && (id !in between ==> id !in first)
    ensures forall i :: i in last && i !in first ==> i == id && last[i].request == target
  {
  }

  /** Of two approvals of one head that both passed their first transaction, the one that inserts second adds nothing
      while the first one's row is active. */
  lemma SecondInsertYields(rows: Rows, later: Rows, first: string, second: string, mine: Row, theirs: Row)
    requires StoreOk(rows) && mine.state == Pending && RowOk(mine) && Insert(rows, first, mine) != rows
    requires StoreOk(later) && RowsLast(Insert(rows, first, mine), later) && Active(later[first].state)
    requires theirs.activeKey == Some(mine.key)
    ensures Insert(later, second, theirs) == later
  {
    assert later[first].key == mine.key && RowOk(later[first]);
  }

  lemma SameActive(rows: Rows, active: Option<string>, key: Key)
    requires StoreOk(rows)
    requires if active.Some? then ActiveFor(rows, active.value, key) else forall i :: !ActiveFor(rows, i, key)
    ensures active == ActiveId(rows, key)
  {
    if active.Some? { OneActivePerHead(rows, active.value, ActiveId(rows, key).value, key); }
  }

  lemma {:induction false} TextNotLess(a: string)
    ensures !TextLess(a, a)
  {
    if a != [] { TextNotLess(a[1..]); }
  }

  lemma NoActiveNoKey(rows: Rows, key: Key)
    requires StoreOk(rows) && forall i :: !ActiveFor(rows, i, key)
    ensures !KeyTaken(rows, key)
  {
    forall id | id in rows ensures rows[id].activeKey != Some(key) {
      assert RowOk(rows[id]) && !ActiveFor(rows, id, key);
    }
  }
}
