/**
 The canary matrix: six scenarios, one claim each, under a budget that outlives every authorization.

 The driver, systemd and the boot answer anything, and the process may die around every durable write. A budget scope
 is the part of an authorization that a re-signed one shares; its digest is the authorization itself.
 */
module Canary {
  import opened Basics

  datatype Scenario = Success | Failure | Cancel | Timeout | ForceCancel | Reboot

  const SCENARIOS := [Success, Failure, Cancel, Timeout, ForceCancel, Reboot]

  datatype Authorization = Authorization(stable: string, nonce: string, maxAllocations: int, signature: string)

  datatype Claim = Claim(nonce: string, scenario: Scenario, authorization: Authorization)

  datatype Status =
    | Authorized | ServicesStarting | Ready | InProgress | Teardown | Terminal | FailedQuarantined | FailedClean

  datatype Matrix = Matrix(
    authorization: Authorization, bootId: int, status: Status, completed: seq<Scenario>, current: Option<Scenario>,
    rebooted: bool, rebootAllocation: bool, claims: seq<Claim>)

  datatype Started = Started(scope: string, nonce: string, scenario: Scenario)

  datatype Ended = Returned | Raised | RebootRequired | Crashed

  predicate Finished(s: Status) {
    s == Terminal || s == FailedQuarantined || s == FailedClean
  }

  type Budget = map<string, seq<Claim>>

  function ClaimsOf(budget: Budget, scope: string): seq<Claim> {
    if scope in budget then budget[scope] else []
  }

  function RunsOf(log: seq<Started>, scope: string): nat {
    if log == [] then 0
    else RunsOf(log[..|log| - 1], scope) + if log[|log| - 1].scope == scope then 1 else 0
  }

  predicate Claimed(budget: Budget, a: Authorization, s: Scenario) {
    exists k :: 0 <= k < |ClaimsOf(budget, a.stable)|
      && ClaimsOf(budget, a.stable)[k].nonce == a.nonce && ClaimsOf(budget, a.stable)[k].scenario == s
  }

  /** What one matrix has completed is a prefix of the fixed order, and each of it was claimed under its own nonce; and
      every claim the matrix knows of is in the budget. */
  predicate MatrixOk(budget: Budget, nonce: string, m: Matrix) {
    m.authorization.nonce == nonce
    && m.completed <= SCENARIOS
    && (forall s :: s in m.completed ==> Claimed(budget, m.authorization, s))
    && (m.rebootAllocation ==> Claimed(budget, m.authorization, Reboot))
    && (forall c :: c in m.claims ==> c.nonce == nonce && c in ClaimsOf(budget, m.authorization.stable))
    && (m.status == Terminal ==> m.completed == SCENARIOS)
  }

  predicate Ran(log: seq<Started>, a: Authorization, s: Scenario) {
    Started(a.stable, a.nonce, s) in log
  }

  /** What a matrix completed, and the reboot it waits for, was started on the host under its own nonce. */
  predicate RanAll(log: seq<Started>, m: Matrix) {
    (forall s :: s in m.completed ==> Ran(log, m.authorization, s))
    && (m.rebootAllocation ==> Ran(log, m.authorization, Reboot))
  }

  predicate BudgetOk(budget: Budget) {
    forall scope :: scope in budget ==> |budget[scope]| <= 6
  }

  /** Six claims: one per scenario, every one of them under this nonce. */
  predicate OneEach(claims: seq<Claim>, nonce: string) {
    |claims| == 6
    && (forall k :: 0 <= k < 6 ==> claims[k].nonce == nonce)
    && (forall i, j :: 0 <= i < j < 6 ==> claims[i].scenario != claims[j].scenario)
    && forall s: Scenario :: HasClaim(claims, s)
  }

  predicate HasClaim(claims: seq<Claim>, s: Scenario) {
    exists k :: 0 <= k < |claims| && claims[k].scenario == s
  }

  function Index(s: Scenario): nat {
    match s case Success => 0 case Failure => 1 case Cancel => 2 case Timeout => 3 case ForceCancel => 4 case Reboot => 5
  }

  /** Distinct numbers below `n`: there are at most `n` of them, and `n` of them are all there are. */
  lemma {:induction false} Pigeonhole(at: seq<nat>, n: nat)
    requires (forall i :: 0 <= i < |at| ==> at[i] < n) && forall i, j :: 0 <= i < j < |at| ==> at[i] != at[j]
    ensures |at| <= n && (|at| == n ==> forall k: nat :: k < n ==> k in at)
    decreases n
  {
    if at != [] { SomethingBelow(at, n); }
    if n > 0 {
      if n - 1 in at {
        var p :| 0 <= p < |at| && at[p] == n - 1;
        var rest := at[..p] + at[p + 1..];
        assert forall i :: 0 <= i < |rest| ==> rest[i] == at[if i < p then i else i + 1];
        Pigeonhole(rest, n - 1);
        forall k: nat | |at| == n && k < n ensures k in at {
          if k < n - 1 { assert k in rest; }
        }
      } else {
        assert forall i :: 0 <= i < |at| ==> at[i] in at && at[i] < n - 1;
        Pigeonhole(at, n - 1);
      }
    }
  }

  lemma SomethingBelow(at: seq<nat>, n: nat)
    requires at != [] && forall i :: 0 <= i < |at| ==> at[i] < n
    ensures n > 0
  {
    assert at[0] < n;
  }

  /** Where in `claims` each scenario was claimed. */
  predicate Witnesses(claims: seq<Claim>, nonce: string, at: seq<nat>) {
    |at| <= 6 && forall i :: 0 <= i < |at| ==>
      at[i] < |claims| && claims[at[i]].nonce == nonce && claims[at[i]].scenario == SCENARIOS[i]
  }

  lemma {:induction false} FindWitnesses(budget: Budget, m: Matrix, n: nat) returns (at: seq<nat>)
    requires n <= 6 && m.completed == SCENARIOS && forall s :: s in m.completed ==> Claimed(budget, m.authorization, s)
    ensures |at| == n && Witnesses(ClaimsOf(budget, m.authorization.stable), m.authorization.nonce, at)
  {
    if n == 0 {
      at := [];
    } else {
      at := FindWitnesses(budget, m, n - 1);
      var claims := ClaimsOf(budget, m.authorization.stable);
      assert SCENARIOS[n - 1] in m.completed;
      var k: nat :| k < |claims| && claims[k].nonce == m.authorization.nonce && claims[k].scenario == SCENARIOS[n - 1];
      at := at + [k];
    }
  }

  lemma WitnessesAreDistinct(claims: seq<Claim>, nonce: string, at: seq<nat>)
    requires Witnesses(claims, nonce, at)
    ensures forall i, j :: 0 <= i < j < |at| ==> at[i] != at[j]
  {
    forall i, j | 0 <= i < j < |at| ensures at[i] != at[j] {
      assert Index(SCENARIOS[i]) == i && Index(SCENARIOS[j]) == j;
    }
  }

  /** A terminal matrix used its scope's whole budget, once per scenario, all under its own nonce. */
  lemma TerminalUsedOneEach(budget: Budget, nonce: string, m: Matrix)
    requires BudgetOk(budget) && MatrixOk(budget, nonce, m) && m.status == Terminal
    ensures OneEach(ClaimsOf(budget, m.authorization.stable), nonce)
  {
    var claims := ClaimsOf(budget, m.authorization.stable);
    var at := FindWitnesses(budget, m, 6);
    WitnessesAreDistinct(claims, nonce, at);
    Pigeonhole(at, |claims|);
    AllWitnessed(claims, nonce, at);
  }

  lemma AllWitnessed(claims: seq<Claim>, nonce: string, at: seq<nat>)
    requires |at| == 6 == |claims| && Witnesses(claims, nonce, at)
    requires forall k: nat :: k < 6 ==> k in at
    ensures OneEach(claims, nonce)
  {
    forall i, j | 0 <= i < j < 6 ensures claims[i].scenario != claims[j].scenario {
      assert i in at && j in at;
      var a :| 0 <= a < 6 && at[a] == i;
      var b :| 0 <= b < 6 && at[b] == j;
      assert Index(SCENARIOS[a]) == a && Index(SCENARIOS[b]) == b;
    }
    forall k | 0 <= k < 6 ensures claims[k].nonce == nonce {
      assert k in at;
    }
    forall s: Scenario ensures HasClaim(claims, s) {
      assert SCENARIOS[Index(s)] == s;
      assert claims[at[Index(s)]].scenario == s;
    }
  }

  // ----- The durable store and the runtime -----

  class CanaryHost {
    var budget: Budget
    var matrices: map<string, Matrix>
    var log: seq<Started>

    ghost predicate Valid()
      reads this
    {
      BudgetOk(budget)
      && (forall n :: n in matrices ==> MatrixOk(budget, n, matrices[n]) && RanAll(log, matrices[n]))
      && forall scope :: RunsOf(log, scope) <= |ClaimsOf(budget, scope)|
    }

    constructor ()
      ensures Valid() && budget == map[] && matrices == map[] && log == []
    {
      budget, matrices, log := map[], map[], [];
    }

    method External() returns (o: Ended) {
      o := *;
      if o == RebootRequired { o := Raised; }
    }

    /** Write the matrix's state file. */
    method Save(nonce: string, m: Matrix) returns (o: Ended)
      requires Valid() && MatrixOk(budget, nonce, m) && RanAll(log, m)
      modifies `matrices
      ensures Valid() && (o == Returned || o == Crashed)
      ensures matrices == old(matrices)[nonce := m] || (o == Crashed && matrices == old(matrices))
    {
      if * { return Crashed; }
      matrices := matrices[nonce := m];
      if * { return Crashed; }
      o := Returned;
    }

    /** The matrix stopped in its last scenario, which asked for a reboot, and another boot is asking. */
    predicate AwaitsReboot(m: Matrix, bootId: int) {
      m.status == InProgress && m.current == Some(Reboot) && m.completed == SCENARIOS[..5] && m.bootId != bootId
    }

    /** Open the nonce's matrix, or resume it. It is refused exactly when it is another authorization's, is finished, or
        was left by another boot without having asked for a reboot. */
    method Initialize(a: Authorization, bootId: int) returns (o: Ended)
      requires Valid()
      modifies `matrices
      ensures Valid()
      ensures o == Returned ==> a.nonce in matrices && matrices[a.nonce].authorization == a
      ensures o == Returned ==> !Finished(matrices[a.nonce].status) && matrices[a.nonce].bootId == bootId
      ensures o == Raised <==>
        a.nonce in old(matrices)
        && var m := old(matrices)[a.nonce];
           m.authorization != a || Finished(m.status) || (m.bootId != bootId && !AwaitsReboot(m, bootId))
      ensures o == Raised || o == Returned || o == Crashed
      ensures o == Raised ==> matrices == old(matrices)
      ensures o == Returned && a.nonce !in old(matrices) ==>
        matrices == old(matrices)[a.nonce := Matrix(a, bootId, Authorized, [], None, false, false, [])]
      ensures o == Returned && a.nonce in old(matrices) ==>
        var m := old(matrices)[a.nonce];
        if AwaitsReboot(m, bootId) then matrices == old(matrices)[a.nonce := m.(rebooted := true, bootId := bootId)]
        else matrices == old(matrices) && m.bootId == bootId
    {
      if a.nonce !in matrices {
        o := Save(a.nonce, Matrix(a, bootId, Authorized, [], None, false, false, []));
        return;
      }
      var m := matrices[a.nonce];
      var resumes := AwaitsReboot(m, bootId);
      if m.authorization != a || (m.bootId != bootId && !resumes) || Finished(m.status) {
        return Raised;
      }
      o := Returned;
      if resumes {
        o := Save(a.nonce, m.(rebooted := true, bootId := bootId));
      }
    }

    /** Take one of the scope's six claims. The budget is written before the matrix hears of it. */
    method ConsumeAllocation(a: Authorization, s: Scenario) returns (o: Ended)
      requires Valid() && a.nonce in matrices && matrices[a.nonce].authorization == a
      modifies `budget, `matrices
      ensures Valid() && a.nonce in matrices && matrices[a.nonce].authorization == a
      ensures var before, claim := old(matrices)[a.nonce], Claim(a.nonce, s, a);
        (matrices == old(matrices) || matrices == old(matrices)[a.nonce := before.(claims := before.claims + [claim])])
        && (budget == old(budget) || budget == old(budget)[a.stable := ClaimsOf(old(budget), a.stable) + [claim]])
        && (budget == old(budget) ==> matrices == old(matrices))
        && (o == Returned ==> budget != old(budget) && matrices[a.nonce].claims == before.claims + [claim])
      ensures matrices[a.nonce] == old(matrices)[a.nonce].(claims := matrices[a.nonce].claims)
      ensures o == Returned ==> Claimed(budget, a, s) && RunsOf(log, a.stable) < |ClaimsOf(budget, a.stable)|
      ensures o == Raised ==> budget == old(budget)
      ensures o == Returned ==>
        budget == old(budget)[a.stable := ClaimsOf(old(budget), a.stable) + [Claim(a.nonce, s, a)]]
      ensures log == old(log)
      ensures forall b: Authorization, t :: Claimed(old(budget), b, t) ==> Claimed(budget, b, t)
    {
      hide RunsOf, MatrixOk, Claimed;
      if a.maxAllocations != 6 { return Raised; }
      var claims := ClaimsOf(budget, a.stable);
      if |claims| >= 6 { return Raised; }
      if * { return Crashed; }
      var claim := Claim(a.nonce, s, a);
      BudgetGrows(budget, a, claim);
      budget := budget[a.stable := claims + [claim]];
      if * { return Crashed; }
      var m := matrices[a.nonce];
      ClaimIsKnown(budget, a.nonce, m, claim);
      o := Save(a.nonce, m.(claims := m.claims + [claim]));
    }

    lemma ClaimIsKnown(budget: Budget, nonce: string, m: Matrix, claim: Claim)
      requires MatrixOk(budget, nonce, m) && claim.nonce == nonce && claim in ClaimsOf(budget, m.authorization.stable)
      ensures MatrixOk(budget, nonce, m.(claims := m.claims + [claim]))
    {
    }

    lemma BudgetGrows(before: Budget, a: Authorization, claim: Claim)
      requires claim == Claim(a.nonce, claim.scenario, a)
      ensures var after := before[a.stable := ClaimsOf(before, a.stable) + [claim]];
        Claimed(after, a, claim.scenario) && claim in ClaimsOf(after, a.stable) && after != before
        && (forall b: Authorization, t :: Claimed(before, b, t) ==> Claimed(after, b, t))
        && (forall n, m :: MatrixOk(before, n, m) ==> MatrixOk(after, n, m))
    {
      var after := before[a.stable := ClaimsOf(before, a.stable) + [claim]];
      assert ClaimsOf(after, a.stable)[|ClaimsOf(before, a.stable)|] == claim;
      forall b: Authorization, t | Claimed(before, b, t) ensures Claimed(after, b, t) {
        var k :| 0 <= k < |ClaimsOf(before, b.stable)|
          && ClaimsOf(before, b.stable)[k].nonce == b.nonce && ClaimsOf(before, b.stable)[k].scenario == t;
        assert ClaimsOf(after, b.stable)[k] == ClaimsOf(before, b.stable)[k];
      }
    }

    /** Start the scenario on the live host. */
    method RunScenario(a: Authorization, s: Scenario) returns (o: Ended)
      requires Valid() && RunsOf(log, a.stable) < |ClaimsOf(budget, a.stable)|
      modifies `log
      ensures Valid() && (o == RebootRequired ==> s == Reboot)
      ensures log == old(log) + [Started(a.stable, a.nonce, s)] || (o == Crashed && log == old(log))
      ensures o != Crashed ==> Ran(log, a, s)
    {
      if * { return Crashed; }
      var entry := Started(a.stable, a.nonce, s);
      assert (log + [entry])[..|log|] == log;
      log := log + [entry];
      o := *;
      if o == RebootRequired && s != Reboot { o := Raised; }
    }

    /** `transition` of the nonce's matrix. */
    method Transition(nonce: string, m: Matrix) returns (o: Ended)
      requires Valid() && nonce in matrices && MatrixOk(budget, nonce, m) && RanAll(log, m)
      requires m.authorization == matrices[nonce].authorization
      modifies `matrices
      ensures Valid() && nonce in matrices && matrices[nonce].authorization == old(matrices)[nonce].authorization
      ensures o == Returned || o == Crashed
      ensures o == Returned ==> matrices[nonce] == m
    {
      o := Save(nonce, m);
    }

    /** A scenario is proved: append it. */
    method Append(a: Authorization, s: Scenario) returns (o: Ended)
      requires Valid() && a.nonce in matrices && matrices[a.nonce].authorization == a && Claimed(budget, a, s) && Ran(log, a, s)
      requires |matrices[a.nonce].completed| < 6 && s == SCENARIOS[|matrices[a.nonce].completed|]
      modifies `matrices
      ensures Valid() && a.nonce in matrices && matrices[a.nonce].authorization == a
      ensures o == Returned ==> matrices[a.nonce].completed == old(matrices)[a.nonce].completed + [s]
      ensures o == Returned ==> matrices[a.nonce].status == Ready
    {
      hide RunsOf, Claimed;
      o := External();
      if o != Returned { return; }
      var m := matrices[a.nonce];
      assert MatrixOk(budget, a.nonce, m);
      CompletedIsPrefix(m.completed, s);
      o := Transition(a.nonce, m.(status := Ready, completed := m.completed + [s], current := None));
    }

    /** Claim, then start; a reboot it asks for is noted with the allocation it left behind. */
    method ClaimAndRun(a: Authorization, s: Scenario) returns (o: Ended)
      requires Valid() && a.nonce in matrices && matrices[a.nonce].authorization == a
      requires matrices[a.nonce].status != Terminal
      modifies this
      ensures Valid() && a.nonce in matrices && matrices[a.nonce].authorization == a
      ensures o == Returned ==> Claimed(budget, a, s) && matrices[a.nonce].completed == old(matrices)[a.nonce].completed
      ensures o == Returned ==> log == old(log) + [Started(a.stable, a.nonce, s)]
    {
      hide RunsOf, Claimed;
      o := ConsumeAllocation(a, s);
      if o != Returned { return; }
      o := RunScenario(a, s);
      if o == RebootRequired {
        var m := matrices[a.nonce];
        assert MatrixOk(budget, a.nonce, m);
        var saved := Transition(a.nonce, m.(status := InProgress, current := Some(Reboot), rebootAllocation := true));
        o := if saved == Returned then RebootRequired else saved;
      }
    }

    /** One scenario: claimed, started, proved and appended, or left for the next start of the host. */
    method OneScenario(a: Authorization, s: Scenario) returns (o: Ended)
      requires Valid() && a.nonce in matrices && matrices[a.nonce].authorization == a
      requires |matrices[a.nonce].completed| < 6 && s == SCENARIOS[|matrices[a.nonce].completed|]
      requires matrices[a.nonce].status != Terminal
      modifies this
      ensures Valid() && a.nonce in matrices && matrices[a.nonce].authorization == a
      ensures o == Returned ==> matrices[a.nonce].completed == old(matrices)[a.nonce].completed + [s]
      ensures o == Returned ==> matrices[a.nonce].status == Ready
    {
      hide RunsOf, Claimed;
      var m := matrices[a.nonce];
      assert MatrixOk(budget, a.nonce, m);
      if s == Reboot && m.current == Some(Reboot) && m.rebooted {
        if !m.rebootAllocation { return Raised; }
      } else {
        o := Transition(a.nonce, m.(status := InProgress, current := Some(s)));
        if o != Returned { return; }
        o := ClaimAndRun(a, s);
        if o != Returned { return; }
      }
      o := Append(a, s);
    }

    lemma CompletedIsPrefix(completed: seq<Scenario>, s: Scenario)
      requires completed <= SCENARIOS && |completed| < 6 && s == SCENARIOS[|completed|]
      ensures completed + [s] <= SCENARIOS
      ensures forall t :: t in completed + [s] ==> t in completed || t == s
    {
      assert completed == SCENARIOS[..|completed|];
    }

    /** The matrix: the scenarios that are left, in the fixed order. */
    method RunMatrix(a: Authorization) returns (o: Ended)
      requires Valid() && a.nonce in matrices && matrices[a.nonce].authorization == a && !Finished(matrices[a.nonce].status)
      modifies this
      ensures Valid() && a.nonce in matrices && matrices[a.nonce].authorization == a
      ensures o == Returned ==> matrices[a.nonce].completed == SCENARIOS && !Finished(matrices[a.nonce].status)
    {
      o := Returned;
      assert MatrixOk(budget, a.nonce, matrices[a.nonce]);
      while |matrices[a.nonce].completed| < 6
        invariant Valid() && a.nonce in matrices && matrices[a.nonce].authorization == a
        invariant !Finished(matrices[a.nonce].status) && matrices[a.nonce].completed <= SCENARIOS && o == Returned
        decreases 6 - |matrices[a.nonce].completed|
      {
        o := OneScenario(a, SCENARIOS[|matrices[a.nonce].completed|]);
        if o != Returned { return; }
        assert MatrixOk(budget, a.nonce, matrices[a.nonce]);
      }
      FullPrefix(matrices[a.nonce].completed);
    }

    lemma FullPrefix(completed: seq<Scenario>)
      requires completed <= SCENARIOS && |completed| >= 6
      ensures completed == SCENARIOS
    {
    }

    /** Move the matrix to another status, keeping what it completed. */
    method Move(a: Authorization, status: Status) returns (o: Ended)
      requires Valid() && a.nonce in matrices && matrices[a.nonce].authorization == a
      requires status == Terminal ==> matrices[a.nonce].completed == SCENARIOS
      modifies `matrices
      ensures Valid() && a.nonce in matrices && matrices[a.nonce].authorization == a && (o == Returned || o == Crashed)
      ensures o == Returned ==> matrices[a.nonce] == old(matrices)[a.nonce].(status := status)
    {
      assert MatrixOk(budget, a.nonce, matrices[a.nonce]);
      o := Transition(a.nonce, matrices[a.nonce].(status := status));
    }

    /** Preflight, prepare, run, tear down; any failure converges to quarantine. */
    method Execute(a: Authorization, bootId: int) returns (o: Ended)
      requires Valid()
      modifies this
      ensures Valid()
      ensures o == Returned ==> a.nonce in matrices && matrices[a.nonce].status == Terminal
    {
      o := External();
      if o != Returned || a.maxAllocations != 6 { return if o == Returned then Raised else o; }
      o := Initialize(a, bootId);
      if o != Returned { return; }
      o := Supervised(a);
      if o == Raised {
        var recovery := External();
        if recovery == Crashed { return Crashed; }
        if recovery == Returned {
          recovery := Move(a, FailedClean);
          if recovery == Crashed { return Crashed; }
        }
      }
    }

    method Supervised(a: Authorization) returns (o: Ended)
      requires Valid() && a.nonce in matrices && matrices[a.nonce].authorization == a && !Finished(matrices[a.nonce].status)
      modifies this
      ensures Valid() && a.nonce in matrices && matrices[a.nonce].authorization == a
      ensures o == Returned ==> matrices[a.nonce].status == Terminal
    {
      o := Move(a, ServicesStarting);
      if o != Returned { return; }
      o := External();
      if o != Returned { return; }
      o := Move(a, Ready);
      if o != Returned { return; }
      o := RunMatrix(a);
      if o != Returned { return; }
      o := Move(a, Teardown);
      if o != Returned { return; }
      o := External();
      if o != Returned { return; }
      o := Move(a, Terminal);
    }
  }

  /** Any sequence of authorizations, restarts and reboots, each execution ending anywhere: at most six scenarios ever
      start per scope; what a matrix completed is a prefix of the fixed order and was started on the host; and a terminal matrix used its scope's six
      claims, one per scenario, all under its own nonce. */
  method Operate(executions: seq<(Authorization, int)>)
    returns (budget: Budget, matrices: map<string, Matrix>, log: seq<Started>)
    ensures forall scope :: RunsOf(log, scope) <= |ClaimsOf(budget, scope)| <= 6
    ensures forall n :: n in matrices ==> matrices[n].completed <= SCENARIOS
    ensures forall n :: n in matrices ==>
      forall s :: s in matrices[n].completed ==> Ran(log, matrices[n].authorization, s)
    ensures forall n :: n in matrices && matrices[n].status == Terminal ==>
      OneEach(ClaimsOf(budget, matrices[n].authorization.stable), n)
  {
    var host := new CanaryHost();
    var i := 0;
    while i < |executions|
      invariant fresh(host) && host.Valid()
    {
      var o := host.Execute(executions[i].0, executions[i].1);
      i := i + 1;
    }
    budget, matrices, log := host.budget, host.matrices, host.log;
    forall n | n in matrices && matrices[n].status == Terminal
      ensures OneEach(ClaimsOf(budget, matrices[n].authorization.stable), n)
    {
      TerminalUsedOneEach(budget, n, matrices[n]);
    }
  }
}
