/**
 The gate store itself: tables updated in place inside a transaction that a refusal or a fault rolls back.

 Every method is proved to leave exactly the tables, and give exactly the answer, of the transaction of the same name.
 */
module GateStore {
  import opened Basics
  import GateTables
  import GateRuns
  import GateVerdicts

  type GateId = GateTables.GateId
  type Gate = GateTables.Gate
  type Tables = GateTables.Tables
  type Lease = GateTables.Lease
  type Error = GateTables.Error
  type Hex = GateTables.Hex

  /** A transaction committed the tables and value of `o`, or left `before` and raised its error. */
  predicate Settled<T(==)>(o: GateTables.Outcome<T>, before: Tables, after: Tables, r: Result<T, Error>) {
    match o
    case Committed(tables, value) => after == tables && r == Ok(value)
    case RolledBack(error) => after == before && r == Err(error)
  }

  /** The gate of `lease` now has this result and digest, from this winner, and its publication is queued. */
  predicate Shows(s: Tables, id: GateId, winner: GateTables.Winner, result: GateTables.ResultKind, digest: Hex) {
    id in s.gates && s.gates[id].winner == Some(winner) && s.gates[id].result == Some(result)
    && s.gates[id].digest == Some(digest)
  }

  lemma CommittedShows(s: Tables, t: Tables, id: GateId, winner: GateTables.Winner, result: GateTables.ResultKind,
                       digest: Hex, fault: set<GateTables.Stage>)
    requires id in s.gates && GateVerdicts.Decidable(s.gates[id], winner, result, digest, fault)
    requires GateVerdicts.Recorded(s, t, id, winner, result, digest) && GateRuns.GateOk(s.gates, id)
    ensures Shows(t, id, winner, result, digest)
  {
  }

  lemma InvMeansGateOk(s: Tables, id: GateId)
    requires GateRuns.Inv(s) && id in s.gates
    ensures GateRuns.GateOk(s.gates, id)
  {
    hide GateRuns.OutboxSound, GateRuns.OutboxComplete, GateRuns.GateOk;
  }

  lemma LocalSuccessShows(s: Tables, lease: Lease, admissionId: string, admission: GateTables.AdmissionRecord, digest: Hex,
                          attested: bool, until: int, fault: set<GateTables.Stage>, now: int)
    requires GateRuns.Inv(s)
    ensures var o := GateTables.CompleteLocalSuccess(s, lease, admissionId, admission, digest, attested, until, fault, now);
      o.Committed? ==>
        attested && now < until && GateVerdicts.HoldsLease(s, lease, now) && o.tables.admissions == s.admissions
        && lease.gate in s.admissions && s.admissions[lease.gate].admissionId == admissionId
        && Shows(o.tables, lease.gate, GateTables.Local, GateTables.Success, digest)
  {
    hide GateRuns.Inv, GateVerdicts.HoldsLease, GateTables.CompleteLocalSuccess, Shows, GateVerdicts.Decidable;
    GateVerdicts.LocalSuccessIff(s, lease, admissionId, admission, digest, attested, until, fault, now);
    GateVerdicts.LeaseNamesAGate(s, lease, now);
    var o := GateTables.CompleteLocalSuccess(s, lease, admissionId, admission, digest, attested, until, fault, now);
    if o.Committed? {
      InvMeansGateOk(s, lease.gate);
      CommittedShows(s, o.tables, lease.gate, GateTables.Local, GateTables.Success, digest, fault);
    }
  }

  lemma LocalFailureShows(s: Tables, lease: Lease, admissionId: string, admission: GateTables.AdmissionRecord,
                          failure: GateTables.Failure, digest: Hex, fault: set<GateTables.Stage>, now: int)
    requires GateRuns.Inv(s)
    ensures var o := GateTables.CompleteLocalFailure(s, lease, admissionId, admission, failure, digest, fault, now);
      o.Committed? ==>
        GateVerdicts.HoldsLease(s, lease, now) && o.tables.admissions == s.admissions
        && lease.gate in s.admissions && GateVerdicts.FailedInTime(failure, s.admissions[lease.gate])
        && Shows(o.tables, lease.gate, GateTables.Local, GateTables.FunctionalFailure, digest)
  {
    hide GateRuns.Inv, GateVerdicts.HoldsLease, GateTables.CompleteLocalFailure, Shows, GateVerdicts.Decidable,
      GateVerdicts.FailedInTime;
    GateVerdicts.LocalFailureIff(s, lease, admissionId, admission, failure, digest, fault, now);
    GateVerdicts.LeaseNamesAGate(s, lease, now);
    var o := GateTables.CompleteLocalFailure(s, lease, admissionId, admission, failure, digest, fault, now);
    if o.Committed? {
      InvMeansGateOk(s, lease.gate);
      CommittedShows(s, o.tables, lease.gate, GateTables.Local, GateTables.FunctionalFailure, digest, fault);
    }
  }

  lemma HostedShows(s: Tables, lease: Lease, conclusion: string, digest: Hex, valid: bool,
                    fault: set<GateTables.Stage>, now: int)
    requires GateRuns.Inv(s)
    ensures var o := GateTables.CompleteHosted(s, lease, conclusion, digest, valid, fault, now);
      o.Committed? ==>
        valid && GateVerdicts.HoldsLease(s, lease, now)
        && Shows(o.tables, lease.gate, GateTables.Github,
                 if conclusion == "success" then GateTables.Success else GateTables.FunctionalFailure, digest)
  {
    hide GateRuns.Inv, GateVerdicts.HoldsLease, GateTables.CompleteHosted, Shows, GateVerdicts.Decidable;
    GateVerdicts.LeaseNamesAGate(s, lease, now);
    GateVerdicts.HostedIff(s, lease, conclusion, digest, valid, fault, now);
    var o := GateTables.CompleteHosted(s, lease, conclusion, digest, valid, fault, now);
    if o.Committed? {
      InvMeansGateOk(s, lease.gate);
      CommittedShows(s, o.tables, lease.gate, GateTables.Github,
        if conclusion == "success" then GateTables.Success else GateTables.FunctionalFailure, digest, fault);
    }
  }

  class GateStore {
    var heads: map<GateTables.HeadKey, GateTables.Head>
    var gates: map<GateId, Gate>
    var nonces: map<GateTables.NonceKey, GateTables.Binding>
    var admissions: map<GateId, GateTables.Admission>
    var outbox: map<string, GateTables.OutboxRow>

    function State(): Tables
      reads this
    {
      GateTables.Tables(heads, gates, nonces, admissions, outbox)
    }

    constructor ()
      ensures State() == GateTables.EMPTY
    {
      heads, gates, nonces, admissions, outbox := map[], map[], map[], map[], map[];
    }

    method Rollback(begin: Tables)
      modifies this
      ensures State() == begin
    {
      heads, gates, nonces, admissions, outbox :=
        begin.heads, begin.gates, begin.nonces, begin.admissions, begin.outbox;
    }

    /** `SELECT … ORDER BY generation DESC LIMIT 1`. */
    method LatestGeneration(key: string) returns (latest: Option<int>)
      ensures latest == GateTables.Latest(gates, key)
    {
      latest := None;
      var rest := gates.Keys;
      while rest != {}
        invariant rest <= gates.Keys
        invariant latest.None? ==> forall id :: id in gates && id !in rest ==> id.key != key
        invariant latest.Some? ==> GateTables.GateId(key, latest.value) in gates
        invariant latest.Some? ==>
          forall id :: id in gates && id !in rest && id.key == key ==> id.generation <= latest.value
        decreases |rest|
      {
        var id :| id in rest;
        rest := rest - {id};
        if id.key == key && (latest.None? || latest.value < id.generation) {
          assert id == GateTables.GateId(key, id.generation);
          latest := Some(id.generation);
        }
      }
      assert latest.Some? ==> GateTables.IsLatest(gates, key, latest.value);
    }

    method ObserveHead(repository: string, pr: int, sha: string) returns (r: Result<int, Error>)
      modifies this
      ensures Settled(GateTables.ObserveHead(old(State()), repository, pr, sha), old(State()), State(), r)
    {
      var k := GateTables.HeadKey(repository, pr);
      if repository == "" || pr <= 0 || sha == "" {
        return Err(GateTables.BadValue);
      }
      var generation := 1;
      if k in heads {
        generation := heads[k].generation;
        if heads[k].sha == sha {
          return Ok(generation);
        }
        generation := generation + 1;
      }
      heads := heads[k := GateTables.Head(sha, generation)];
      r := Ok(generation);
    }

    method Acquire(key: string, headGeneration: int, baseSha: string, testedMerge: string, owner: string,
                   checkRun: int, ttl: int, now: int) returns (r: Result<Gate, Error>)
      modifies this
      ensures Settled(GateTables.Acquire(old(State()), key, headGeneration, baseSha, testedMerge, owner, checkRun, ttl, now),
                      old(State()), State(), r)
    {
      if ttl <= 0 {
        return Err(GateTables.BadValue);
      }
      var latest := LatestGeneration(key);
      var generation := 1;
      var current := false;
      if latest.Some? {
        current := GateTables.SameTuple(gates[GateTables.GateId(key, latest.value)], headGeneration, baseSha, testedMerge);
        generation := if current then latest.value else latest.value + 1;
      }
      var id := GateTables.GateId(key, generation);
      if !current {
        if headGeneration <= 0 {
          return Err(GateTables.Integrity);
        }
        gates := gates[id := GateTables.Gate(headGeneration, baseSha, testedMerge, owner, 1, now + ttl, checkRun,
                                             None, None, None)];
      } else {
        var row := gates[id];
        var live := now < row.expiresAt;
        if row.owner != owner && live {
          return Err(GateTables.Conflict);
        }
        if row.winner.Some? && row.owner != owner {
          return Err(GateTables.Conflict);
        }
        var epoch := row.epoch;
        if row.owner != owner || !live {
          epoch := epoch + 1;
        }
        gates := gates[id := row.(owner := owner, epoch := epoch, expiresAt := now + ttl)];
      }
      r := Ok(gates[id]);
    }

    method OwnedRow(lease: Lease, now: int) returns (r: Result<Gate, Error>)
      ensures r == if GateTables.Owned(State(), lease, now) then Ok(gates[lease.gate]) else Err(GateTables.Fenced)
    {
      var latest := LatestGeneration(lease.gate.key);
      if latest != Some(lease.gate.generation) {
        return Err(GateTables.Fenced);
      }
      if lease.gate !in gates || gates[lease.gate].owner != lease.owner || gates[lease.gate].epoch != lease.epoch {
        return Err(GateTables.Fenced);
      }
      if now >= gates[lease.gate].expiresAt {
        return Err(GateTables.Fenced);
      }
      r := Ok(gates[lease.gate]);
    }

    method Heartbeat(lease: Lease, ttl: int, now: int) returns (r: Result<Gate, Error>)
      modifies this
      ensures Settled(GateTables.Heartbeat(old(State()), lease, ttl, now), old(State()), State(), r)
    {
      r := OwnedRow(lease, now);
      if r.Ok? {
        gates := gates[lease.gate := r.value.(expiresAt := now + ttl)];
        r := Ok(gates[lease.gate]);
      }
    }

    method BindNonce(nonce: GateTables.NonceKey, candidate: GateTables.Binding) returns (r: Result<bool, Error>)
      modifies this
      ensures Settled(GateTables.BindNonce(old(State()), nonce, candidate), old(State()), State(), r)
    {
      if candidate.gate !in gates || gates[candidate.gate].headGeneration != candidate.headGeneration {
        return Err(GateTables.Fenced);
      }
      if nonce in nonces {
        return if nonces[nonce] == candidate then Ok(false) else Err(GateTables.Replay);
      }
      nonces := nonces[nonce := candidate];
      r := Ok(true);
    }

    method Admit(lease: Lease, decision: GateTables.Decision, authority: map<string, string>,
                 execution: GateTables.Execution, deadline: int, admissionId: string,
                 fault: set<GateTables.Stage>, now: int) returns (r: Result<GateTables.Admission, Error>)
      modifies this
      ensures Settled(GateTables.Admit(old(State()), lease, decision, authority, execution, deadline, admissionId, fault, now),
                      old(State()), State(), r)
    {
      hide GateTables.Latest;
      if !decision.valid || decision.boundary != "pre-marker" {
        return Err(GateTables.Control);
      }
      var begin := State();
      var owned := OwnedRow(lease, now);
      if owned.Err? {
        return Err(owned.error);
      }
      var gate := owned.value;
      if gate.winner.Some? || gate.testedMerge != execution.testedMerge {
        return Err(GateTables.Fenced);
      }
      var stored := GateTables.StoredAuthority(authority, decision);
      if lease.gate in admissions {
        var existing := admissions[lease.gate];
        if existing.authority != stored || existing.execution != execution || existing.deadline != deadline {
          return Err(GateTables.Conflict);
        }
        return Ok(existing);
      }
      if GateTables.IdTaken(begin, admissionId) {
        return Err(GateTables.Integrity);
      }
      var digest := GateTables.AdmissionRecord(lease.gate, gate.headGeneration, lease.owner, lease.epoch,
                                               authority, decision, execution, now, deadline);
      admissions := admissions[lease.gate :=
        GateTables.Admission(admissionId, digest, stored, execution, now, deadline)];
      if GateTables.AfterAdmission in fault || GateTables.AfterMarker in fault {
        Rollback(begin);
        return Err(GateTables.Fault);
      }
      r := Ok(admissions[lease.gate]);
    }

    /** The shared tail of the completions. On an error it may leave the tables half written: its callers roll back. */
    method Complete(id: GateId, winner: GateTables.Winner, result: GateTables.ResultKind, digest: Hex,
                    fault: set<GateTables.Stage>) returns (r: Result<GateTables.Completion, Error>)
      requires id in gates
      modifies this
      ensures var o := GateTables.Complete(old(State()), id, winner, result, digest, fault);
        Settled(o, old(State()), if r.Ok? then State() else old(State()), r)
    {
      var gate := gates[id];
      var key := GateTables.OutboxKey(id, winner, digest);
      if gate.winner.Some? && gate.winner.value != winner {
        return Err(GateTables.Fenced);
      }
      if gate.result.Some? {
        if gate.result == Some(result) && gate.digest == Some(digest) {
          return Ok(GateTables.Completion(false, winner, result, digest, key));
        }
        return Err(GateTables.Conflict);
      }
      gates := gates[id := gate.(winner := Some(winner), result := Some(result), digest := Some(digest))];
      if GateTables.AfterWinner in fault || GateTables.AfterTerminal in fault {
        return Err(GateTables.Fault);
      }
      if key in outbox {
        return Err(GateTables.Integrity);
      }
      outbox := outbox[key := GateTables.OutboxRow(id, winner, result, digest, gate.checkRun, false, 0)];
      if GateTables.AfterOutbox in fault {
        return Err(GateTables.Fault);
      }
      r := Ok(GateTables.Completion(true, winner, result, digest, key));
    }

    method CompleteLocalSuccess(lease: Lease, admissionId: string, admission: GateTables.AdmissionRecord, digest: Hex,
                                attested: bool, attestedUntil: int, fault: set<GateTables.Stage>, now: int)
      returns (r: Result<GateTables.Completion, Error>)
      modifies this
      ensures Settled(GateTables.CompleteLocalSuccess(old(State()), lease, admissionId, admission, digest,
                                                      attested, attestedUntil, fault, now),
                      old(State()), State(), r)
      ensures GateRuns.Inv(old(State())) && r.Ok? ==>
        attested && now < attestedUntil && GateVerdicts.HoldsLease(old(State()), lease, now)
        && lease.gate in admissions && admissions[lease.gate].admissionId == admissionId
        && Shows(State(), lease.gate, GateTables.Local, GateTables.Success, digest)
    {
      hide GateTables.Latest, GateTables.Complete, GateRuns.Inv, GateVerdicts.HoldsLease, Shows;
      if GateRuns.Inv(State()) {
        LocalSuccessShows(State(), lease, admissionId, admission, digest, attested, attestedUntil, fault, now);
      }
      if !attested || now >= attestedUntil {
        return Err(GateTables.Fenced);
      }
      var begin := State();
      var owned := OwnedRow(lease, now);
      if owned.Err? {
        return Err(owned.error);
      }
      if !GateTables.Admitted(begin, lease.gate, admissionId, admission) {
        return Err(GateTables.Control);
      }
      r := Complete(lease.gate, GateTables.Local, GateTables.Success, digest, fault);
      if r.Err? {
        Rollback(begin);
      }
    }

    method CompleteLocalFailure(lease: Lease, admissionId: string, admission: GateTables.AdmissionRecord,
                                failure: GateTables.Failure, digest: Hex, fault: set<GateTables.Stage>, now: int)
      returns (r: Result<GateTables.Completion, Error>)
      modifies this
      ensures Settled(GateTables.CompleteLocalFailure(old(State()), lease, admissionId, admission, failure, digest, fault, now),
                      old(State()), State(), r)
      ensures GateRuns.Inv(old(State())) && r.Ok? ==>
        GateVerdicts.HoldsLease(old(State()), lease, now)
        && lease.gate in admissions && GateVerdicts.FailedInTime(failure, admissions[lease.gate])
        && Shows(State(), lease.gate, GateTables.Local, GateTables.FunctionalFailure, digest)
    {
      hide GateTables.Latest, GateTables.Complete, GateRuns.Inv, GateVerdicts.HoldsLease, GateVerdicts.FailedInTime, Shows;
      if GateRuns.Inv(State()) {
        LocalFailureShows(State(), lease, admissionId, admission, failure, digest, fault, now);
      }
      var begin := State();
      var owned := OwnedRow(lease, now);
      if owned.Err? {
        return Err(owned.error);
      }
      if !GateTables.Admitted(begin, lease.gate, admissionId, admission) {
        return Err(GateTables.Control);
      }
      var row := admissions[lease.gate];
      if !GateTables.FailureMatches(failure, row.execution) {
        return Err(GateTables.Control);
      }
      if failure.kind != "FUNCTIONAL_FAILURE" || failure.conclusion == "success" {
        return Err(GateTables.Control);
      }
      if failure.terminalAt > row.deadline {
        return Err(GateTables.Late);
      }
      r := Complete(lease.gate, GateTables.Local, GateTables.FunctionalFailure, digest, fault);
      if r.Err? {
        Rollback(begin);
      }
    }

    method SelectGithub(lease: Lease, fault: set<GateTables.Stage>, now: int) returns (r: Result<bool, Error>)
      modifies this
      ensures Settled(GateTables.SelectGithub(old(State()), lease, fault, now), old(State()), State(), r)
    {
      hide GateTables.Latest;
      var begin := State();
      var owned := OwnedRow(lease, now);
      if owned.Err? {
        return Err(owned.error);
      }
      if owned.value.winner.None? {
        gates := gates[lease.gate := owned.value.(winner := Some(GateTables.Github))];
        if GateTables.AfterWinner in fault {
          Rollback(begin);
          return Err(GateTables.Fault);
        }
        return Ok(true);
      }
      r := if owned.value.winner == Some(GateTables.Github) then Ok(false) else Err(GateTables.Fenced);
    }

    method CompleteHosted(lease: Lease, conclusion: string, digest: Hex, predicateValid: bool,
                          fault: set<GateTables.Stage>, now: int) returns (r: Result<GateTables.Completion, Error>)
      modifies this
      ensures Settled(GateTables.CompleteHosted(old(State()), lease, conclusion, digest, predicateValid, fault, now),
                      old(State()), State(), r)
      ensures GateRuns.Inv(old(State())) && r.Ok? ==>
        predicateValid && GateVerdicts.HoldsLease(old(State()), lease, now)
        && Shows(State(), lease.gate, GateTables.Github,
                 if conclusion == "success" then GateTables.Success else GateTables.FunctionalFailure, digest)
    {
      hide GateTables.Latest, GateTables.Complete, GateRuns.Inv, GateVerdicts.HoldsLease, Shows;
      if GateRuns.Inv(State()) {
        HostedShows(State(), lease, conclusion, digest, predicateValid, fault, now);
      }
      if !predicateValid {
        return Err(GateTables.Control);
      }
      var begin := State();
      var owned := OwnedRow(lease, now);
      if owned.Err? {
        return Err(owned.error);
      }
      if owned.value.winner != Some(GateTables.Github) {
        return Err(GateTables.Fenced);
      }
      var result := if conclusion == "success" then GateTables.Success else GateTables.FunctionalFailure;
      r := Complete(lease.gate, GateTables.Github, result, digest, fault);
      if r.Err? {
        Rollback(begin);
      }
    }

    method MarkDelivered(key: string, observed: Hex) returns (r: Result<bool, Error>)
      modifies this
      ensures Settled(GateTables.MarkDelivered(old(State()), key, observed), old(State()), State(), r)
    {
      if key !in outbox {
        return Err(GateTables.Control);
      }
      var row := outbox[key];
      if row.digest != observed {
        return Err(GateTables.Conflict);
      }
      if row.delivered {
        return Ok(false);
      }
      outbox := outbox[key := row.(delivered := true, attempts := row.attempts + 1)];
      r := Ok(true);
    }

    method RecordAttempt(key: string) returns (r: Result<bool, Error>)
      modifies this
      ensures Settled(GateTables.RecordAttempt(old(State()), key), old(State()), State(), r)
    {
      if key !in outbox {
        return Err(GateTables.Control);
      }
      var row := outbox[key];
      outbox := outbox[key := row.(attempts := row.attempts + 1)];
      r := Ok(true);
    }
  }
}
