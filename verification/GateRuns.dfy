/** What every run of the gate store keeps: agreement between its tables, write-once decisions, and fencing. */
module GateRuns {
  import opened Basics
  import opened GateTables
  import Decimal
  import Separated

  // ----- The outbox key is injective although logical keys may contain colons -----

  lemma IntTextInjective(m: int, n: int)
    requires Decimal.IntText(m) == Decimal.IntText(n)
    ensures m == n
  {
    Decimal.ReadIntText(m);
    Decimal.ReadIntText(n);
  }

  lemma OutboxKeyInjective(g: GateId, w: Winner, d: Hex, g': GateId, w': Winner, d': Hex)
    requires OutboxKey(g, w, d) == OutboxKey(g', w', d')
    ensures g == g' && w == w' && d == d'
  {
    var n, n' := Decimal.IntText(g.generation), Decimal.IntText(g'.generation);
    Separated.JoinInjective(g.key + ":" + n + ":" + WinnerText(w), d, g'.key + ":" + n' + ":" + WinnerText(w'), d', ':');
    Separated.JoinInjective(g.key + ":" + n, WinnerText(w), g'.key + ":" + n', WinnerText(w'), ':');
    Separated.JoinInjective(g.key, n, g'.key, n', ':');
    IntTextInjective(g.generation, g'.generation);
    assert WinnerText(w)[0] == WinnerText(w')[0];
  }

  // ----- The invariant -----

  /** Generations of a key run 1, 2, …, and a result is only ever recorded for a decided generation. */
  predicate GatesOk(gates: map<GateId, Gate>) {
    forall id :: id in gates ==> GateOk(gates, id)
  }

  predicate GateOk(gates: map<GateId, Gate>, id: GateId)
    requires id in gates
  {
    var g := gates[id];
    id.generation >= 1 && (id.generation > 1 ==> GateId(id.key, id.generation - 1) in gates)
    && g.epoch >= 1 && g.headGeneration >= 1
    && (g.result.Some? <==> g.digest.Some?) && (g.result.Some? ==> g.winner.Some?)
    && (g.winner == Some(Local) ==> g.result.Some?)
  }

  predicate HeadsOk(s: Tables) {
    forall k :: k in s.heads ==> s.heads[k].generation >= 1
  }

  predicate NoncesOk(s: Tables) {
    forall k :: k in s.nonces ==>
      s.nonces[k].gate in s.gates && s.gates[s.nonces[k].gate].headGeneration == s.nonces[k].headGeneration
  }

  /** Every admission belongs to a gate, ran that gate's tested merge, and has an id of its own. */
  predicate AdmissionsOk(s: Tables) {
    (forall id :: id in s.admissions ==>
      id in s.gates && s.admissions[id].execution.testedMerge == s.gates[id].testedMerge
      && s.admissions[id].digest.gate == id)
    && forall i, j :: i in s.admissions && j in s.admissions && i != j ==>
         s.admissions[i].admissionId != s.admissions[j].admissionId
  }

  /** A local winner was admitted. */
  predicate LocalAdmitted(s: Tables) {
    forall id :: id in s.gates && s.gates[id].winner == Some(Local) ==> id in s.admissions
  }

  /** `row` under `key` is the publication of a terminal gate, and repeats what that gate recorded. */
  predicate Publishes(s: Tables, key: string, row: OutboxRow) {
    key == OutboxKey(row.gate, row.winner, row.digest)
    && row.gate in s.gates
    && s.gates[row.gate].winner == Some(row.winner)
    && s.gates[row.gate].result == Some(row.result)
    && s.gates[row.gate].digest == Some(row.digest)
    && s.gates[row.gate].checkRun == row.checkRun
  }

  predicate OutboxSound(s: Tables) {
    forall k :: k in s.outbox ==> Publishes(s, k, s.outbox[k])
  }

  predicate Terminal(s: Tables, id: GateId) {
    id in s.gates && s.gates[id].result.Some?
  }

  predicate Queued(s: Tables, id: GateId)
    requires id in s.gates
  {
    var g := s.gates[id];
    g.winner.Some? && g.digest.Some? && OutboxKey(id, g.winner.value, g.digest.value) in s.outbox
    && s.outbox[OutboxKey(id, g.winner.value, g.digest.value)].gate == id
  }

  predicate OutboxComplete(s: Tables) {
    forall id :: id in s.gates && s.gates[id].result.Some? ==> Queued(s, id)
  }

  predicate Inv(s: Tables) {
    GatesOk(s.gates) && HeadsOk(s) && NoncesOk(s) && AdmissionsOk(s) && LocalAdmitted(s)
    && OutboxSound(s) && OutboxComplete(s)
  }

  // ----- How tables evolve -----

  /** What may never change in a gate row, and what may change once. */
  predicate RowEvolves(a: Gate, b: Gate) {
    a.headGeneration == b.headGeneration && a.baseSha == b.baseSha && a.testedMerge == b.testedMerge
    && a.checkRun == b.checkRun
    && (a.winner.Some? ==> b.winner == a.winner)
    && (a.result.Some? ==> b.result == a.result && b.digest == a.digest)
    && a.epoch <= b.epoch
    && (a.epoch == b.epoch ==> a.owner == b.owner)
  }

  ghost predicate Superseded(gates: map<GateId, Gate>, id: GateId) {
    exists g :: g > id.generation && GateId(id.key, g) in gates
  }

  ghost predicate GatesEvolve(a: map<GateId, Gate>, b: map<GateId, Gate>) {
    forall id :: id in a ==> id in b && RowEvolves(a[id], b[id]) && (Superseded(a, id) ==> b[id] == a[id])
  }

  predicate AdmissionsEvolve(a: Tables, b: Tables) {
    forall id :: id in a.admissions ==> id in b.admissions && b.admissions[id] == a.admissions[id]
  }

  /** No admission is added to a generation that has been superseded. */
  ghost predicate AdmissionsFrozen(a: Tables, b: Tables) {
    forall id :: id in b.admissions && Superseded(a.gates, id) ==> id in a.admissions
  }

  predicate NoncesEvolve(a: Tables, b: Tables) {
    forall k :: k in a.nonces ==> k in b.nonces && b.nonces[k] == a.nonces[k]
  }

  predicate HeadsEvolve(a: Tables, b: Tables) {
    forall k :: k in a.heads ==>
      k in b.heads && a.heads[k].generation <= b.heads[k].generation
      && (a.heads[k].generation == b.heads[k].generation ==> a.heads[k].sha == b.heads[k].sha)
  }

  predicate OutboxRowEvolves(a: OutboxRow, b: OutboxRow) {
    b.gate == a.gate && b.winner == a.winner && b.result == a.result && b.digest == a.digest
    && b.checkRun == a.checkRun && (a.delivered ==> b.delivered) && a.attempts <= b.attempts
  }

  predicate OutboxEvolves(a: Tables, b: Tables) {
    forall k :: k in a.outbox ==> k in b.outbox && OutboxRowEvolves(a.outbox[k], b.outbox[k])
  }

  ghost predicate Evolves(a: Tables, b: Tables) {
    GatesEvolve(a.gates, b.gates) && AdmissionsEvolve(a, b) && AdmissionsFrozen(a, b) && NoncesEvolve(a, b)
    && HeadsEvolve(a, b) && OutboxEvolves(a, b)
  }

  lemma EvolvesTransitive(a: Tables, b: Tables, c: Tables)
    requires Evolves(a, b) && Evolves(b, c)
    ensures Evolves(a, c)
  {
    assert GatesEvolve(a.gates, c.gates) by {
      forall id | id in a.gates && Superseded(a.gates, id) ensures Superseded(b.gates, id) {
        var g :| g > id.generation && GateId(id.key, g) in a.gates;
        assert GateId(id.key, g) in b.gates;
      }
    }
    forall id | id in c.admissions && Superseded(a.gates, id) ensures id in a.admissions {
      var g :| g > id.generation && GateId(id.key, g) in a.gates;
      assert GateId(id.key, g) in b.gates;
      assert Superseded(b.gates, id);
    }
  }

  // ----- One step -----

  ghost predicate Good(s: Tables, t: Tables) {
    Inv(t) && Evolves(s, t)
  }

  lemma GoodRefl(s: Tables)
    requires Inv(s)
    ensures Good(s, s)
  {
    hide OutboxKey, Inv, OutboxSound, OutboxComplete;
  }

  /** The same gates are terminal in `a` and `b`, with the same decision. */
  predicate SameDecisions(a: map<GateId, Gate>, b: map<GateId, Gate>) {
    (forall id :: id in a ==> id in b)
    && forall id :: id in b ==>
      (if id in a then b[id].result == a[id].result && b[id].digest == a[id].digest && b[id].checkRun == a[id].checkRun
                       && (a[id].result.Some? ==> b[id].winner == a[id].winner)
       else b[id].result.None?)
  }

  predicate OutboxRowsEvolve(a: map<string, OutboxRow>, b: map<string, OutboxRow>) {
    a.Keys == b.Keys && forall k :: k in a ==> OutboxRowEvolves(a[k], b[k])
  }

  lemma OutboxStillAgrees(s: Tables, t: Tables)
    requires OutboxSound(s) && OutboxComplete(s)
    requires SameDecisions(s.gates, t.gates) && OutboxRowsEvolve(s.outbox, t.outbox)
    ensures OutboxSound(t) && OutboxComplete(t)
  {
    hide OutboxKey;
    forall k | k in t.outbox ensures Publishes(t, k, t.outbox[k]) {
      assert Publishes(s, k, s.outbox[k]) && OutboxRowEvolves(s.outbox[k], t.outbox[k]);
    }
    forall i | i in t.gates && t.gates[i].result.Some? ensures Queued(t, i) {
      assert i in s.gates && Queued(s, i);
      var k := OutboxKey(i, s.gates[i].winner.value, s.gates[i].digest.value);
      assert OutboxRowEvolves(s.outbox[k], t.outbox[k]);
    }
  }

  /** A transaction that only touches gate rows, and decides none, needs to mind the gates alone. */
  lemma OnlyGatesChange(s: Tables, gates: map<GateId, Gate>)
    requires Inv(s) && GatesOk(gates) && GatesEvolve(s.gates, gates) && SameDecisions(s.gates, gates)
    ensures Good(s, s.(gates := gates))
  {
    hide OutboxKey, OutboxSound, OutboxComplete, SameDecisions, Publishes, Queued, AdmissionsOk, NoncesOk;
    var t := s.(gates := gates);
    assert OutboxSound(t) && OutboxComplete(t) by {
      assert OutboxRowsEvolve(s.outbox, t.outbox);
      OutboxStillAgrees(s, t);
    }
    assert LocalAdmitted(t) by {
      hide Evolves;
      assert forall id :: id in gates ==> GateOk(gates, id);
      assert SameDecisions(s.gates, gates);
      UndecidedStayUndecided(s.gates, gates);
    }
    ReferencesKept(s, gates);
  }

  lemma ReferencesKept(s: Tables, gates: map<GateId, Gate>)
    requires AdmissionsOk(s) && NoncesOk(s) && GatesEvolve(s.gates, gates)
    ensures AdmissionsOk(s.(gates := gates)) && NoncesOk(s.(gates := gates))
  {
  }

  /** A local winner is always terminal, so none can appear without a decision. */
  lemma UndecidedStayUndecided(a: map<GateId, Gate>, b: map<GateId, Gate>)
    requires GatesOk(b) && SameDecisions(a, b)
    ensures forall id :: id in b && b[id].winner == Some(Local) ==> id in a && a[id].winner == Some(Local)
  {
    forall id | id in b && b[id].winner == Some(Local) ensures id in a && a[id].winner == Some(Local) {
      assert GateOk(b, id);
    }
  }

  /** Rewriting the newest row of a key without touching what is immutable keeps everything. */
  lemma RewritingARow(s: Tables, id: GateId, row: Gate)
    requires Inv(s) && IsLatest(s.gates, id.key, id.generation)
    requires RowEvolves(s.gates[id], row) && row.epoch >= 1
    requires row.result == s.gates[id].result && row.digest == s.gates[id].digest
    requires row.winner == s.gates[id].winner || row.winner == Some(Github)
    ensures Good(s, s.(gates := s.gates[id := row]))
  {
    hide Good, Publishes, Queued, OutboxSound, OutboxComplete, NoncesOk, AdmissionsOk, HeadsOk, LocalAdmitted;
    var gates := s.gates[id := row];
    forall i | i in gates ensures GateOk(gates, i) {
      assert GateOk(s.gates, i);
    }
    OnlyGatesChange(s, gates);
  }

  lemma InsertingAGeneration(s: Tables, id: GateId, row: Gate)
    requires Inv(s) && id !in s.gates
    requires id.generation >= 1 && (id.generation > 1 ==> GateId(id.key, id.generation - 1) in s.gates)
    requires row.epoch >= 1 && row.headGeneration >= 1 && row.winner.None? && row.result.None? && row.digest.None?
    ensures Good(s, s.(gates := s.gates[id := row]))
  {
    hide Good, Publishes, Queued, OutboxSound, OutboxComplete, NoncesOk, AdmissionsOk, HeadsOk, LocalAdmitted;
    var gates := s.gates[id := row];
    forall i | i in gates ensures GateOk(gates, i) {
      if i != id { assert GateOk(s.gates, i); }
    }
    OnlyGatesChange(s, gates);
  }

  /** A transaction that leaves gates and admissions alone. */
  lemma GatesUntouched(s: Tables, t: Tables)
    requires Inv(s) && t.gates == s.gates && t.admissions == s.admissions
    requires HeadsOk(t) && HeadsEvolve(s, t) && NoncesOk(t) && NoncesEvolve(s, t) && OutboxRowsEvolve(s.outbox, t.outbox)
    ensures Good(s, t)
  {
    hide OutboxSound, OutboxComplete, GatesOk, NoncesOk, HeadsOk, HeadsEvolve, NoncesEvolve;
    assert SameDecisions(s.gates, t.gates);
    OutboxStillAgrees(s, t);
  }

  lemma SameNonces(s: Tables, t: Tables)
    requires NoncesOk(s) && t.gates == s.gates && t.nonces == s.nonces
    ensures NoncesOk(t) && NoncesEvolve(s, t)
  {
  }

  lemma ObserveHeadIsGood(s: Tables, repository: string, pr: int, sha: string)
    requires Inv(s)
    ensures Good(s, Settle(s, ObserveHead(s, repository, pr, sha)))
  {
    hide Good, OutboxSound, OutboxComplete, GatesOk, AdmissionsOk, LocalAdmitted, NoncesOk, GateOk;
    var o := ObserveHead(s, repository, pr, sha);
    GoodRefl(s);
    if o.Committed? && o.tables != s {
      assert o.tables == s.(heads := o.tables.heads);
      assert NoncesOk(o.tables) && NoncesEvolve(s, o.tables) by { SameNonces(s, o.tables); }
      GatesUntouched(s, o.tables);
    }
  }

  lemma AcquireIsGood(s: Tables, key: string, headGeneration: int, baseSha: string, testedMerge: string,
                      owner: string, checkRun: int, ttl: int, now: int)
    requires Inv(s)
    ensures Good(s, Settle(s, Acquire(s, key, headGeneration, baseSha, testedMerge, owner, checkRun, ttl, now)))
  {
    hide OutboxKey, Latest, Good, HeadsOk, NoncesOk, AdmissionsOk, LocalAdmitted, OutboxSound, OutboxComplete;
    GoodRefl(s);
    var o := Acquire(s, key, headGeneration, baseSha, testedMerge, owner, checkRun, ttl, now);
    var latest := Latest(s.gates, key);
    if o.Committed? {
      if latest.None? {
        InsertingAGeneration(s, GateId(key, 1), o.value);
      } else if SameTuple(s.gates[GateId(key, latest.value)], headGeneration, baseSha, testedMerge) {
        assert GateOk(s.gates, GateId(key, latest.value));
        RewritingARow(s, GateId(key, latest.value), o.value);
      } else {
        assert GateOk(s.gates, GateId(key, latest.value));
        InsertingAGeneration(s, GateId(key, latest.value + 1), o.value);
      }
    }
  }

  lemma OwnedIsLatest(s: Tables, lease: Lease, now: int)
    requires Owned(s, lease, now)
    ensures IsLatest(s.gates, lease.gate.key, lease.gate.generation)
  {
    hide Latest;
    assert lease.gate == GateId(lease.gate.key, lease.gate.generation);
  }

  lemma HeartbeatIsGood(s: Tables, lease: Lease, ttl: int, now: int)
    requires Inv(s)
    ensures Good(s, Settle(s, Heartbeat(s, lease, ttl, now)))
  {
    hide OutboxKey, Latest, Good, HeadsOk, NoncesOk, AdmissionsOk, LocalAdmitted, OutboxSound, OutboxComplete;
    GoodRefl(s);
    if Owned(s, lease, now) {
      OwnedIsLatest(s, lease, now);
      assert GateOk(s.gates, lease.gate);
      RewritingARow(s, lease.gate, s.gates[lease.gate].(expiresAt := now + ttl));
    }
  }

  lemma SelectIsGood(s: Tables, lease: Lease, fault: set<Stage>, now: int)
    requires Inv(s)
    ensures Good(s, Settle(s, SelectGithub(s, lease, fault, now)))
  {
    hide OutboxKey, Latest, Good, HeadsOk, NoncesOk, AdmissionsOk, LocalAdmitted, OutboxSound, OutboxComplete;
    GoodRefl(s);
    if Owned(s, lease, now) && s.gates[lease.gate].winner.None? {
      OwnedIsLatest(s, lease, now);
      assert GateOk(s.gates, lease.gate);
      RewritingARow(s, lease.gate, s.gates[lease.gate].(winner := Some(Github)));
    }
  }

  lemma BindIsGood(s: Tables, nonce: NonceKey, candidate: Binding)
    requires Inv(s)
    ensures Good(s, Settle(s, BindNonce(s, nonce, candidate)))
  {
    hide Good, OutboxSound, OutboxComplete, GatesOk, AdmissionsOk, LocalAdmitted;
    GatesUntouched(s, Settle(s, BindNonce(s, nonce, candidate)));
  }

  lemma AdmissionAdded(s: Tables, id: GateId, row: Admission)
    requires AdmissionsOk(s) && NoncesOk(s) && LocalAdmitted(s) && id !in s.admissions && id in s.gates
    requires row.execution.testedMerge == s.gates[id].testedMerge && row.digest.gate == id
    requires !IdTaken(s, row.admissionId)
    ensures AdmissionsOk(s.(admissions := s.admissions[id := row]))
    ensures NoncesOk(s.(admissions := s.admissions[id := row]))
    ensures LocalAdmitted(s.(admissions := s.admissions[id := row]))
  {
  }

  lemma AdmittingIsGood(s: Tables, id: GateId, row: Admission)
    requires Inv(s) && id !in s.admissions && IsLatest(s.gates, id.key, id.generation)
    requires row.execution.testedMerge == s.gates[id].testedMerge && row.digest.gate == id
    requires !IdTaken(s, row.admissionId)
    ensures Good(s, s.(admissions := s.admissions[id := row]))
  {
    hide OutboxKey, OutboxSound, OutboxComplete, GatesOk, NoncesOk, AdmissionsOk, LocalAdmitted;
    var t := s.(admissions := s.admissions[id := row]);
    assert OutboxSound(t) && OutboxComplete(t) by {
      assert SameDecisions(s.gates, t.gates);
      OutboxStillAgrees(s, t);
    }
    AdmissionAdded(s, id, row);
    assert AdmissionsFrozen(s, t) by {
      assert !Superseded(s.gates, id);
    }
  }

  lemma AdmitIsGood(s: Tables, lease: Lease, decision: Decision, authority: map<string, string>,
                    execution: Execution, deadline: int, admissionId: string, fault: set<Stage>, now: int)
    requires Inv(s)
    ensures Good(s, Settle(s, Admit(s, lease, decision, authority, execution, deadline, admissionId, fault, now)))
  {
    hide OutboxKey, Latest, Good, GatesOk, HeadsOk, NoncesOk, AdmissionsOk, LocalAdmitted, OutboxSound, OutboxComplete,
         IdTaken, StoredAuthority;
    GoodRefl(s);
    var o := Admit(s, lease, decision, authority, execution, deadline, admissionId, fault, now);
    if o.Committed? && lease.gate !in s.admissions {
      OwnedIsLatest(s, lease, now);
      AdmittingIsGood(s, lease.gate, o.value);
    }
  }

  /** The publication of an undecided generation never meets a row already in the outbox. */
  lemma OutboxInsertNeverCollides(s: Tables, id: GateId, winner: Winner, digest: Hex)
    requires Inv(s) && id in s.gates && s.gates[id].result.None?
    ensures OutboxKey(id, winner, digest) !in s.outbox
  {
    hide OutboxKey, OutboxComplete, GatesOk, NoncesOk, HeadsOk, AdmissionsOk, LocalAdmitted;
    var key := OutboxKey(id, winner, digest);
    if key in s.outbox {
      var row := s.outbox[key];
      assert Publishes(s, key, row);
      OutboxKeyInjective(id, winner, digest, row.gate, row.winner, row.digest);
    }
  }

  /** `gates` with the terminal result of `id`, and its publication, recorded together. */
  function Terminated(s: Tables, id: GateId, winner: Winner, result: ResultKind, digest: Hex): Tables
    requires id in s.gates
  {
    var gate := s.gates[id];
    var row := OutboxRow(id, winner, result, digest, gate.checkRun, false, 0);
    s.(gates := s.gates[id := gate.(winner := Some(winner), result := Some(result), digest := Some(digest))],
       outbox := s.outbox[OutboxKey(id, winner, digest) := row])
  }

  lemma TerminatingKeepsSound(s: Tables, id: GateId, winner: Winner, result: ResultKind, digest: Hex)
    requires Inv(s) && id in s.gates && s.gates[id].result.None?
    ensures OutboxSound(Terminated(s, id, winner, result, digest))
  {
    hide OutboxKey, OutboxComplete, GatesOk, NoncesOk, HeadsOk, AdmissionsOk, LocalAdmitted;
    var t := Terminated(s, id, winner, result, digest);
    forall k | k in t.outbox ensures Publishes(t, k, t.outbox[k]) {
      if k != OutboxKey(id, winner, digest) { assert Publishes(s, k, s.outbox[k]); }
    }
  }

  lemma TerminatingKeepsComplete(s: Tables, id: GateId, winner: Winner, result: ResultKind, digest: Hex)
    requires Inv(s) && id in s.gates && s.gates[id].result.None?
    ensures OutboxComplete(Terminated(s, id, winner, result, digest))
  {
    hide OutboxKey, OutboxSound, GatesOk, NoncesOk, HeadsOk, AdmissionsOk, LocalAdmitted;
    var t := Terminated(s, id, winner, result, digest);
    forall i | i in t.gates && t.gates[i].result.Some? ensures Queued(t, i) {
      if i != id {
        assert Queued(s, i);
        if OutboxKey(i, s.gates[i].winner.value, s.gates[i].digest.value) == OutboxKey(id, winner, digest) {
          OutboxKeyInjective(i, s.gates[i].winner.value, s.gates[i].digest.value, id, winner, digest);
        }
      }
    }
  }

  lemma TerminatingKeepsGates(s: Tables, id: GateId, winner: Winner, result: ResultKind, digest: Hex)
    requires Inv(s) && id in s.gates && s.gates[id].result.None? && IsLatest(s.gates, id.key, id.generation)
    requires s.gates[id].winner.Some? ==> s.gates[id].winner.value == winner
    ensures GatesOk(Terminated(s, id, winner, result, digest).gates)
    ensures GatesEvolve(s.gates, Terminated(s, id, winner, result, digest).gates)
  {
    hide OutboxKey, OutboxSound, OutboxComplete, NoncesOk, HeadsOk, AdmissionsOk, LocalAdmitted;
    var t := Terminated(s, id, winner, result, digest);
    forall i | i in t.gates ensures GateOk(t.gates, i) {
      assert GateOk(s.gates, i);
    }
    assert !Superseded(s.gates, id);
  }

  lemma RowsStillReferToGates(s: Tables, id: GateId, winner: Winner, result: ResultKind, digest: Hex)
    requires AdmissionsOk(s) && NoncesOk(s) && LocalAdmitted(s) && id in s.gates
    requires winner == Local ==> id in s.admissions
    ensures AdmissionsOk(Terminated(s, id, winner, result, digest))
    ensures NoncesOk(Terminated(s, id, winner, result, digest))
    ensures LocalAdmitted(Terminated(s, id, winner, result, digest))
  {
    hide OutboxKey;
  }

  lemma TerminatingIsGood(s: Tables, id: GateId, winner: Winner, result: ResultKind, digest: Hex)
    requires Inv(s) && id in s.gates && s.gates[id].result.None? && IsLatest(s.gates, id.key, id.generation)
    requires s.gates[id].winner.Some? ==> s.gates[id].winner.value == winner
    requires winner == Local ==> id in s.admissions
    ensures Good(s, Terminated(s, id, winner, result, digest))
  {
    hide OutboxKey, OutboxSound, OutboxComplete, GatesOk, GatesEvolve, AdmissionsOk, NoncesOk, LocalAdmitted;
    TerminatingKeepsSound(s, id, winner, result, digest);
    TerminatingKeepsComplete(s, id, winner, result, digest);
    TerminatingKeepsGates(s, id, winner, result, digest);
    OutboxInsertNeverCollides(s, id, winner, digest);
    RowsStillReferToGates(s, id, winner, result, digest);
  }

  lemma CompleteIsGood(s: Tables, id: GateId, winner: Winner, result: ResultKind, digest: Hex, fault: set<Stage>)
    requires Inv(s) && IsLatest(s.gates, id.key, id.generation)
    requires winner == Local ==> id in s.admissions
    ensures Good(s, Settle(s, Complete(s, id, winner, result, digest, fault)))
  {
    hide OutboxKey, Good, Inv;
    GoodRefl(s);
    var o := Complete(s, id, winner, result, digest, fault);
    if o.Committed? && s.gates[id].result.None? {
      TerminatingIsGood(s, id, winner, result, digest);
      assert o.tables == Terminated(s, id, winner, result, digest);
    }
  }

  lemma LocalSuccessIsGood(s: Tables, lease: Lease, id: string, admission: AdmissionRecord, digest: Hex,
                           attested: bool, until: int, fault: set<Stage>, now: int)
    requires Inv(s)
    ensures Good(s, Settle(s, CompleteLocalSuccess(s, lease, id, admission, digest, attested, until, fault, now)))
  {
    hide Good, Inv, Complete, Latest;
    GoodRefl(s);
    if Owned(s, lease, now) && Admitted(s, lease.gate, id, admission) {
      OwnedIsLatest(s, lease, now);
      CompleteIsGood(s, lease.gate, Local, Success, digest, fault);
    }
  }

  lemma LocalFailureIsGood(s: Tables, lease: Lease, id: string, admission: AdmissionRecord, failure: Failure,
                           digest: Hex, fault: set<Stage>, now: int)
    requires Inv(s)
    ensures Good(s, Settle(s, CompleteLocalFailure(s, lease, id, admission, failure, digest, fault, now)))
  {
    hide Good, Inv, Complete, Latest;
    GoodRefl(s);
    if Owned(s, lease, now) && Admitted(s, lease.gate, id, admission) {
      OwnedIsLatest(s, lease, now);
      CompleteIsGood(s, lease.gate, Local, FunctionalFailure, digest, fault);
    }
  }

  lemma HostedIsGood(s: Tables, lease: Lease, conclusion: string, digest: Hex, valid: bool, fault: set<Stage>, now: int)
    requires Inv(s)
    ensures Good(s, Settle(s, CompleteHosted(s, lease, conclusion, digest, valid, fault, now)))
  {
    hide Good, Inv, Complete, Latest;
    GoodRefl(s);
    if Owned(s, lease, now) {
      OwnedIsLatest(s, lease, now);
      CompleteIsGood(s, lease.gate, Github, if conclusion == "success" then Success else FunctionalFailure, digest, fault);
    }
  }

  /** A transaction that touches nothing but outbox rows. */
  lemma OutboxTouched(s: Tables, outbox: map<string, OutboxRow>)
    requires Inv(s) && OutboxRowsEvolve(s.outbox, outbox)
    ensures Good(s, s.(outbox := outbox))
  {
    hide Good, OutboxSound, OutboxComplete, GatesOk, AdmissionsOk, LocalAdmitted, NoncesOk, NoncesEvolve, OutboxRowsEvolve;
    SameNonces(s, s.(outbox := outbox));
    GatesUntouched(s, s.(outbox := outbox));
  }

  lemma DeliveredIsGood(s: Tables, key: string, observed: Hex)
    requires Inv(s)
    ensures Good(s, Settle(s, MarkDelivered(s, key, observed)))
  {
    hide Good, Inv;
    OutboxTouched(s, Settle(s, MarkDelivered(s, key, observed)).outbox);
  }

  lemma AttemptIsGood(s: Tables, key: string)
    requires Inv(s)
    ensures Good(s, Settle(s, RecordAttempt(s, key)))
  {
    hide Good, Inv;
    OutboxTouched(s, Settle(s, RecordAttempt(s, key)).outbox);
  }

  lemma StepIsGood(s: Tables, op: Op)
    requires Inv(s)
    ensures Good(s, Apply(s, op))
  {
    hide Good, Inv, ObserveHead, Acquire, Heartbeat, BindNonce, Admit, CompleteLocalSuccess, CompleteLocalFailure,
         SelectGithub, CompleteHosted, MarkDelivered, RecordAttempt, Settle;
    match op {
      case OpObserve(repository, pr, sha) => ObserveHeadIsGood(s, repository, pr, sha);
      case OpAcquire(key, head, base, merge, owner, check, ttl, now) =>
        AcquireIsGood(s, key, head, base, merge, owner, check, ttl, now);
      case OpHeartbeat(lease, ttl, now) => HeartbeatIsGood(s, lease, ttl, now);
      case OpBind(nonce, candidate) => BindIsGood(s, nonce, candidate);
      case OpAdmit(lease, decision, authority, execution, deadline, id, fault, now) =>
        AdmitIsGood(s, lease, decision, authority, execution, deadline, id, fault, now);
      case OpLocalSuccess(lease, id, admission, digest, attested, until, fault, now) =>
        LocalSuccessIsGood(s, lease, id, admission, digest, attested, until, fault, now);
      case OpLocalFailure(lease, id, admission, failure, digest, fault, now) =>
        LocalFailureIsGood(s, lease, id, admission, failure, digest, fault, now);
      case OpSelect(lease, fault, now) => SelectIsGood(s, lease, fault, now);
      case OpHosted(lease, conclusion, digest, valid, fault, now) =>
        HostedIsGood(s, lease, conclusion, digest, valid, fault, now);
      case OpDelivered(key, observed) => DeliveredIsGood(s, key, observed);
      case OpAttempt(key) => AttemptIsGood(s, key);
    }
  }

  // ----- Whole runs -----

  lemma {:induction false} RunKeepsInv(run: seq<Op>)
    ensures Inv(After(EMPTY, run))
  {
    hide Apply;
    if run != [] {
      RunKeepsInv(run[..|run| - 1]);
      StepIsGood(After(EMPTY, run[..|run| - 1]), run[|run| - 1]);
    } else {
      assert OutboxSound(EMPTY);
    }
  }

  /** Between any two points of a run: decisions and digests are write-once, admissions and nonce bindings are
      permanent, epochs only grow, an epoch keeps its owner, and superseded generations are frozen. */
  lemma {:induction false} RunEvolves(run: seq<Op>, i: nat, j: nat)
    requires i <= j <= |run|
    ensures Evolves(After(EMPTY, run[..i]), After(EMPTY, run[..j]))
    decreases j
  {
    hide Apply, Inv, Evolves;
    RunKeepsInv(run[..i]);
    if i == j {
      GoodRefl(After(EMPTY, run[..i]));
    } else {
      RunEvolves(run, i, j - 1);
      assert run[..j][..j - 1] == run[..j - 1];
      RunKeepsInv(run[..j - 1]);
      StepIsGood(After(EMPTY, run[..j - 1]), run[j - 1]);
      EvolvesTransitive(After(EMPTY, run[..i]), After(EMPTY, run[..j - 1]), After(EMPTY, run[..j]));
    }
  }

  /** (key, generation, epoch) names one owner for the whole run. */
  lemma EpochNamesOneOwner(run: seq<Op>, i: nat, j: nat, id: GateId)
    requires i <= |run| && j <= |run|
    requires id in After(EMPTY, run[..i]).gates && id in After(EMPTY, run[..j]).gates
    requires After(EMPTY, run[..i]).gates[id].epoch == After(EMPTY, run[..j]).gates[id].epoch
    ensures After(EMPTY, run[..i]).gates[id].owner == After(EMPTY, run[..j]).gates[id].owner
  {
    hide After;
    if i <= j {
      RunEvolves(run, i, j);
    } else {
      RunEvolves(run, j, i);
    }
  }

  predicate PublishedOnce(s: Tables, id: GateId) {
    exists k :: k in s.outbox && s.outbox[k].gate == id
      && forall k' :: k' in s.outbox && s.outbox[k'].gate == id ==> k' == k
  }

  predicate Unpublished(s: Tables, id: GateId) {
    forall k :: k in s.outbox ==> s.outbox[k].gate != id
  }

  /** A generation is terminal exactly when one outbox row publishes it, and that row agrees with the gate. */
  lemma TerminalIffPublishedOnce(run: seq<Op>, id: GateId)
    requires id in After(EMPTY, run).gates
    ensures Terminal(After(EMPTY, run), id) <==> PublishedOnce(After(EMPTY, run), id)
    ensures !Terminal(After(EMPTY, run), id) <==> Unpublished(After(EMPTY, run), id)
    ensures forall k :: k in After(EMPTY, run).outbox ==> Publishes(After(EMPTY, run), k, After(EMPTY, run).outbox[k])
  {
    hide After, OutboxKey;
    RunKeepsInv(run);
    var s := After(EMPTY, run);
    if Terminal(s, id) {
      assert Queued(s, id);
      var g := s.gates[id];
      var k := OutboxKey(id, g.winner.value, g.digest.value);
      forall k' | k' in s.outbox && s.outbox[k'].gate == id ensures k' == k {
        assert Publishes(s, k', s.outbox[k']);
      }
    } else {
      forall k | k in s.outbox ensures s.outbox[k].gate != id {
        assert Publishes(s, k, s.outbox[k]);
      }
    }
  }

  /** Step `i` of the run inserted the admission of `id` while nobody had won, for the gate's own merge. */
  ghost predicate AdmittedAt(run: seq<Op>, id: GateId, i: nat)
    requires i < |run|
  {
    var before, after := After(EMPTY, run[..i]), After(EMPTY, run[..i + 1]);
    id !in before.admissions && id in after.admissions
    && id in before.gates && before.gates[id].winner.None?
    && after.admissions[id].execution.testedMerge == before.gates[id].testedMerge
  }

  lemma CompleteKeepsAdmissions(s: Tables, id: GateId, winner: Winner, result: ResultKind, digest: Hex, fault: set<Stage>)
    requires id in s.gates
    ensures Settle(s, Complete(s, id, winner, result, digest, fault)).admissions == s.admissions
  {
    hide OutboxKey;
  }

  lemma NewAdmission(s: Tables, op: Op, id: GateId)
    requires id !in s.admissions && id in Apply(s, op).admissions
    ensures id in s.gates && s.gates[id].winner.None?
    ensures Apply(s, op).admissions[id].execution.testedMerge == s.gates[id].testedMerge
  {
    hide Complete, Latest, IdTaken, StoredAuthority, OutboxKey;
    if op.OpLocalSuccess? && op.lease.gate in s.gates {
      CompleteKeepsAdmissions(s, op.lease.gate, Local, Success, op.digest, op.fault);
    } else if op.OpLocalFailure? && op.lease.gate in s.gates {
      CompleteKeepsAdmissions(s, op.lease.gate, Local, FunctionalFailure, op.digest, op.fault);
    } else if op.OpHosted? && op.lease.gate in s.gates {
      CompleteKeepsAdmissions(s, op.lease.gate, Github,
        if op.conclusion == "success" then Success else FunctionalFailure, op.digest, op.fault);
    }
  }

  lemma {:induction false} AdmissionHappened(run: seq<Op>, id: GateId) returns (i: nat)
    requires id in After(EMPTY, run).admissions
    ensures i < |run| && AdmittedAt(run, id, i)
  {
    hide Apply;
    var init := run[..|run| - 1];
    assert run == [] ==> After(EMPTY, run) == EMPTY;
    if id in After(EMPTY, init).admissions {
      i := AdmissionHappened(init, id);
      assert init[..i] == run[..i] && init[..i + 1] == run[..i + 1];
    } else {
      i := |run| - 1;
      assert run[..i + 1] == run;
      NewAdmission(After(EMPTY, init), run[i], id);
    }
  }

  /** A local winner was admitted at some point of the run at which no winner existed, and ran the tested merge. */
  lemma LocalWinnerWasAdmitted(run: seq<Op>, id: GateId) returns (i: nat)
    requires id in After(EMPTY, run).gates && After(EMPTY, run).gates[id].winner == Some(Local)
    ensures i < |run| && AdmittedAt(run, id, i)
    ensures After(EMPTY, run[..i]).gates[id].testedMerge == After(EMPTY, run).gates[id].testedMerge
  {
    hide After, Apply;
    RunKeepsInv(run);
    i := AdmissionHappened(run, id);
    RunEvolves(run, i, |run|);
    assert run[..|run|] == run;
  }

  // ----- Fencing -----

  predicate Guarded(op: Op) {
    op.OpHeartbeat? || op.OpAdmit? || op.OpLocalSuccess? || op.OpLocalFailure? || op.OpSelect? || op.OpHosted?
  }

  function LeaseOf(op: Op): Lease
    requires Guarded(op)
  {
    match op
    case OpHeartbeat(lease, _, _) => lease
    case OpAdmit(lease, _, _, _, _, _, _, _) => lease
    case OpLocalSuccess(lease, _, _, _, _, _, _, _) => lease
    case OpLocalFailure(lease, _, _, _, _, _, _) => lease
    case OpSelect(lease, _, _) => lease
    case OpHosted(lease, _, _, _, _, _) => lease
  }

  function NowOf(op: Op): int
    requires Guarded(op)
  {
    match op
    case OpHeartbeat(_, _, now) => now
    case OpAdmit(_, _, _, _, _, _, _, now) => now
    case OpLocalSuccess(_, _, _, _, _, _, _, now) => now
    case OpLocalFailure(_, _, _, _, _, _, now) => now
    case OpSelect(_, _, now) => now
    case OpHosted(_, _, _, _, _, now) => now
  }

  lemma StaleLeaseChangesNothing(s: Tables, op: Op)
    requires Guarded(op) && !Owned(s, LeaseOf(op), NowOf(op))
    ensures Apply(s, op) == s
  {
    hide Owned, Complete, OutboxKey, IdTaken, StoredAuthority, FailureMatches, Admitted;
  }

  /** The lease was taken over: its generation was superseded or its epoch has been passed. */
  ghost predicate TakenOver(s: Tables, lease: Lease) {
    lease.gate in s.gates && (Superseded(s.gates, lease.gate) || s.gates[lease.gate].epoch > lease.epoch)
  }

  /** Once a lease has been taken over, no later call that presents it changes anything, whatever its clock says. */
  lemma TakenOverLeaseIsPowerless(run: seq<Op>, i: nat, j: nat)
    requires i <= j < |run| && Guarded(run[j])
    requires TakenOver(After(EMPTY, run[..i]), LeaseOf(run[j]))
    ensures After(EMPTY, run[..j + 1]) == After(EMPTY, run[..j])
  {
    hide Apply, OutboxSound, OutboxComplete, LeaseOf, NowOf, Guarded;
    RunEvolves(run, i, j);
    var a, s, lease := After(EMPTY, run[..i]), After(EMPTY, run[..j]), LeaseOf(run[j]);
    if Superseded(a.gates, lease.gate) {
      var g :| g > lease.gate.generation && GateId(lease.gate.key, g) in a.gates;
      assert GateId(lease.gate.key, g) in s.gates;
      assert !IsLatest(s.gates, lease.gate.key, lease.gate.generation);
    }
    StaleLeaseChangesNothing(s, run[j]);
    assert run[..j + 1][..j] == run[..j];
  }

  /** Taking a lease over an existing generation: an owner change or an expired lease costs an epoch, only renewing
      one's own live lease keeps it, and a decided generation is never handed to another owner. */
  predicate Renews(before: Gate, after: Gate, owner: string, ttl: int, now: int) {
    after == before.(owner := owner, expiresAt := now + ttl, epoch := after.epoch)
    && before.epoch <= after.epoch
    && (after.epoch == before.epoch <==> before.owner == owner && now < before.expiresAt)
    && (before.owner != owner ==> before.winner.None? && before.expiresAt <= now)
  }

  lemma AcquireExisting(s: Tables, id: GateId, owner: string, checkRun: int, ttl: int, now: int)
    requires Latest(s.gates, id.key) == Some(id.generation) && id in s.gates && ttl > 0
    ensures var g := s.gates[id];
      var o := Acquire(s, id.key, g.headGeneration, g.baseSha, g.testedMerge, owner, checkRun, ttl, now);
      if g.owner != owner && (now < g.expiresAt || g.winner.Some?) then o == RolledBack(Conflict)
      else o.Committed? && o.tables == s.(gates := s.gates[id := o.value]) && Renews(g, o.value, owner, ttl, now)
           && Owned(o.tables, Lease(id, owner, o.value.epoch), now)
  {
    hide Latest;
    var g := s.gates[id];
    assert id == GateId(id.key, id.generation);
    var o := Acquire(s, id.key, g.headGeneration, g.baseSha, g.testedMerge, owner, checkRun, ttl, now);
    if o.Committed? {
      assert IsLatest(o.tables.gates, id.key, id.generation);
    }
  }

  /** Taking a lease for another tuple opens the next generation at epoch 1, undecided, and supersedes the last one. */
  lemma AcquireNew(s: Tables, key: string, headGeneration: int, baseSha: string, testedMerge: string,
                   owner: string, checkRun: int, ttl: int, now: int)
    requires GatesOk(s.gates) && ttl > 0 && headGeneration > 0
    requires var latest := Latest(s.gates, key); latest.Some? ==>
      !SameTuple(s.gates[GateId(key, latest.value)], headGeneration, baseSha, testedMerge)
    ensures var o := Acquire(s, key, headGeneration, baseSha, testedMerge, owner, checkRun, ttl, now);
      o.Committed? && SameTuple(o.value, headGeneration, baseSha, testedMerge) && o.value.winner.None? &&
      var latest := Latest(o.tables.gates, key);
      latest.Some? && GateId(key, latest.value) !in s.gates
      && (latest.value > 1 ==> Superseded(o.tables.gates, GateId(key, latest.value - 1)))
      && Owned(o.tables, Lease(GateId(key, latest.value), owner, 1), now)
  {
    hide Latest, GatesOk, RowEvolves;
    var o := Acquire(s, key, headGeneration, baseSha, testedMerge, owner, checkRun, ttl, now);
    var before := Latest(s.gates, key);
    var g := if before.None? then 1 else before.value + 1;
    assert IsLatest(o.tables.gates, key, g);
    assert Latest(o.tables.gates, key) == Some(g);
  }
}
