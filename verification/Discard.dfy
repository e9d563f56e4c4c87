/**
 Publishing a discarded assignment: one concluded Check Run per phase, whatever crashes on the way.

 GitHub holds Check Runs; the approval store remembers per scope and name what was begun, created and completed. A
 created Check Run is visible to the next lookup. The external identity is the text its digest is taken of. A scope is
 about one head commit.
 */
module Discard {
  import opened Basics
  import Separated

  const NUL: char := '\0'
  const BACKEND := "backend lint + test"
  const FRONTEND := "frontend lint + test"

  predicate IsName(n: string) {
    n == BACKEND || n == FRONTEND
  }

  function ExternalId(scope: string, name: string): string {
    scope + [NUL] + name
  }

  lemma NamesAreNulFree(n: string)
    requires IsName(n)
    ensures Separated.Free(n, NUL)
  {
  }

  /** No two phases of any two scopes share an external identity, even if scopes contain NUL. */
  lemma ExternalIdInjective(s: string, n: string, s': string, n': string)
    requires IsName(n) && IsName(n') && ExternalId(s, n) == ExternalId(s', n')
    ensures s == s' && n == n'
  {
    NamesAreNulFree(n);
    NamesAreNulFree(n');
    Separated.JoinInjective(s, n, s', n', NUL);
  }

  datatype CheckRun = CheckRun(name: string, head: string, external: string, concluded: bool)

  datatype Step = Pending | Created | Completed

  datatype Publication = Publication(id: Option<int>, step: Step)

  datatype Slot = Slot(scope: string, name: string)

  /** How a call ended: normally, with an exception, or with the process. */
  datatype Ended = Returned | Raised | Crashed

  predicate Belongs(run: CheckRun, k: Slot) {
    run.external == ExternalId(k.scope, k.name)
  }

  /** The run publishes phase `k` on this head. */
  predicate Publishes(run: CheckRun, k: Slot, head: string) {
    Belongs(run, k) && run.name == k.name && run.head == head
  }

  class DiscardPublisher {
    var runs: map<int, CheckRun>
    var table: map<Slot, Publication>
    const headOf: string -> string

    /** One Check Run per external identity; the table names the right one, and only calls concluded ones completed. */
    ghost predicate Valid()
      reads this
    {
      (forall i, j :: i in runs && j in runs && runs[i].external == runs[j].external ==> i == j)
      && (forall i, k: Slot :: i in runs && IsName(k.name) && Belongs(runs[i], k) ==>
            Publishes(runs[i], k, headOf(k.scope)))
      && forall k :: k in table ==> SlotOk(k)
    }

    predicate SlotOk(k: Slot)
      requires k in table
      reads this
    {
      var p := table[k];
      IsName(k.name)
      && (p.step == Pending <==> p.id.None?)
      && (p.id.Some? ==> p.id.value in runs && Publishes(runs[p.id.value], k, headOf(k.scope)))
      && (p.step == Completed ==> p.id.Some? && p.id.value in runs && runs[p.id.value].concluded)
    }

    /** The phase has its Check Run, on the scope's head, and it is concluded. */
    predicate Concluded(k: Slot)
      reads this
    {
      k in table && table[k].step == Completed && table[k].id.Some? && table[k].id.value in runs
      && Publishes(runs[table[k].id.value], k, headOf(k.scope)) && runs[table[k].id.value].concluded
    }

    lemma ConcludedIsThere(k: Slot)
      requires Concluded(k)
      ensures ConcludedRun(runs, k, headOf(k.scope))
    {
      var i := table[k].id.value;
      assert i in runs && Publishes(runs[i], k, headOf(k.scope)) && runs[i].concluded;
    }

    constructor (headOf: string -> string)
      ensures Valid() && runs == map[] && table == map[] && this.headOf == headOf
    {
      this.headOf, runs, table := headOf, map[], map[];
    }

    /** Concluded phases stay concluded, and nothing but phase `k` is touched: no other row of the table, and on GitHub
        no other Check Run; one of `k` may have been concluded, and one may have been created. */
    twostate predicate Grows(k: Slot)
      reads this
    {
      (forall s: Slot :: old(Concluded(s)) ==> Concluded(s))
      && (forall s :: s != k && s in old(table) ==> s in table && table[s] == old(table)[s])
      && (forall s :: s in table && s != k ==> s in old(table))
      && (forall i :: i in old(runs) ==>
            i in runs && (runs[i] == old(runs)[i]
                          || (Belongs(old(runs)[i], k) && runs[i] == old(runs)[i].(concluded := true))))
      && forall i :: i in runs && i !in old(runs) ==> Publishes(runs[i], k, headOf(k.scope))
    }

    method BeginDiscard(k: Slot) returns (o: Ended)
      requires Valid() && IsName(k.name)
      modifies `table
      ensures Valid() && Grows(k)
      ensures table == old(table) || (k !in old(table) && table == old(table)[k := Publication(None, Pending)])
      ensures o == Returned ==> k in table
    {
      if * { return Crashed; }
      if k !in table { table := table[k := Publication(None, Pending)]; }
      o := *;
    }

    /** The Check Run of this external identity on this head, if GitHub has one. */
    method FindByExternalId(k: Slot) returns (found: Option<int>, o: Ended)
      requires Valid()
      ensures found.Some? ==> found.value in runs && Publishes(runs[found.value], k, headOf(k.scope))
      ensures o == Returned && found.None? ==> forall i :: i in runs ==> !Publishes(runs[i], k, headOf(k.scope))
    {
      found, o := None, *;
      var rest := runs.Keys;
      while rest != {}
        invariant rest <= runs.Keys
        invariant found.Some? ==> found.value in runs && Publishes(runs[found.value], k, headOf(k.scope))
        invariant found.None? ==> forall i :: i in runs && i !in rest ==> !Publishes(runs[i], k, headOf(k.scope))
        decreases |rest|
      {
        assert exists i :: i in rest by { assert (forall i :: i !in rest) ==> rest == {}; }
        var i :| i in rest;
        rest := rest - {i};
        if Publishes(runs[i], k, headOf(k.scope)) {
          if found.Some? { return None, Raised; }
          found := Some(i);
        }
      }
    }

    method CreateInProgress(k: Slot) returns (id: int, o: Ended)
      requires Valid() && IsName(k.name) && forall i :: i in runs ==> !Publishes(runs[i], k, headOf(k.scope))
      modifies `runs
      ensures Valid() && Grows(k)
      ensures runs == old(runs)
        || runs == old(runs)[id := CheckRun(k.name, headOf(k.scope), ExternalId(k.scope, k.name), false)]
      ensures o == Returned ==> id in runs && Publishes(runs[id], k, headOf(k.scope))
    {
      id := *;
      if * { return id, Crashed; }
      if id < 1 || id in runs { return id, Raised; }
      assert forall i :: i in runs ==> !Belongs(runs[i], k);
      var run := CheckRun(k.name, headOf(k.scope), ExternalId(k.scope, k.name), false);
      forall m: Slot | IsName(m.name) && Belongs(run, m) ensures Publishes(run, m, headOf(m.scope)) {
        ExternalIdInjective(k.scope, k.name, m.scope, m.name);
      }
      runs := runs[id := run];
      o := *;
    }

    /** Remember the phase's Check Run, once; a row that was completed would be `created` again. */
    method RecordDiscard(k: Slot, id: int) returns (o: Ended)
      requires Valid() && k in table && id in runs && Publishes(runs[id], k, headOf(k.scope))
      modifies `table
      ensures Valid() && (old(table)[k].step != Completed ==> Grows(k))
      ensures table == old(table) || table == old(table)[k := Publication(Some(id), Created)]
      ensures old(table)[k].id.Some? && old(table)[k].id != Some(id) ==> o != Returned && table == old(table)
      ensures o == Returned ==> table[k] == Publication(Some(id), Created)
    {
      if * { return Crashed; }
      if table[k].id.Some? && table[k].id != Some(id) { return Raised; }
      table := table[k := Publication(Some(id), Created)];
      o := *;
    }

    method Conclude(k: Slot, id: int) returns (o: Ended)
      requires Valid() && k in table && table[k].id == Some(id)
      modifies `runs
      ensures Valid() && Grows(k) && k in table && table[k].id == Some(id) && id in runs
      ensures o == Returned ==> runs[id].concluded
    {
      if * { return Crashed; }
      assert SlotOk(k);
      runs := runs[id := runs[id].(concluded := true)];
      o := *;
    }

    method CompleteDiscard(k: Slot) returns (o: Ended)
      requires Valid() && k in table && table[k].id.Some? && table[k].id.value in runs && runs[table[k].id.value].concluded
      modifies `table
      ensures Valid() && Grows(k)
      ensures o == Returned ==> Concluded(k)
    {
      if * { return Crashed; }
      table := table[k := table[k].(step := Completed)];
      o := *;
    }

    /** Begin the phase, and record the Check Run it has on GitHub or a new one. */
    method Adopt(k: Slot) returns (id: int, o: Ended)
      requires Valid() && IsName(k.name) && (k in table ==> table[k].id.None?)
      modifies this
      ensures Valid() && Grows(k)
      ensures o == Returned ==> k in table && table[k].id == Some(id)
    {
      id := 0;
      o := BeginDiscard(k);
      if o != Returned { return; }
      var found;
      found, o := FindByExternalId(k);
      if o != Returned { return; }
      if found.Some? {
        id := found.value;
      } else {
        id, o := CreateInProgress(k);
        if o != Returned { return; }
      }
      assert SlotOk(k);
      o := RecordDiscard(k, id);
    }

    /** One phase, from wherever an earlier attempt stopped. */
    method PublishPhase(k: Slot) returns (o: Ended)
      requires Valid() && IsName(k.name)
      modifies this
      ensures Valid() && Grows(k)
      ensures o == Returned ==> Concluded(k)
    {
      if k in table && table[k].step == Completed {
        assert SlotOk(k);
        return Returned;
      }
      var id;
      if k in table && table[k].id.Some? {
        id := table[k].id.value;
      } else {
        id, o := Adopt(k);
        if o != Returned { return; }
      }
      o := Conclude(k, id);
      if o != Returned { return; }
      o := CompleteDiscard(k);
    }

    /** Both phases of a scope, backend first. */
    method PublishDiscarded(scope: string) returns (o: Ended)
      requires Valid()
      modifies this
      ensures Valid() && (forall s :: old(Concluded(s)) ==> Concluded(s))
      ensures o == Returned ==> Concluded(Slot(scope, BACKEND)) && Concluded(Slot(scope, FRONTEND))
    {
      o := *;
      if o != Returned { return; }
      o := PublishPhase(Slot(scope, BACKEND));
      if o != Returned { return; }
      o := PublishPhase(Slot(scope, FRONTEND));
    }
  }

  /** Any sequence of publications and retries, each ending anywhere: GitHub never holds two Check Runs for one scope
      and name, and every publication that returned has left both its phases concluded for good. */
  method PublishAll(scopes: seq<string>, headOf: string -> string)
    returns (runs: map<int, CheckRun>, returned: seq<bool>)
    ensures |returned| == |scopes|
    ensures forall i, j, k: Slot :: i in runs && j in runs && Belongs(runs[i], k) && Belongs(runs[j], k) ==> i == j
    ensures forall n :: 0 <= n < |scopes| && returned[n] ==>
      ConcludedRun(runs, Slot(scopes[n], BACKEND), headOf(scopes[n]))
      && ConcludedRun(runs, Slot(scopes[n], FRONTEND), headOf(scopes[n]))
  {
    var publisher := new DiscardPublisher(headOf);
    returned := [];
    while |returned| < |scopes|
      invariant fresh(publisher) && publisher.Valid() && publisher.headOf == headOf && |returned| <= |scopes|
      invariant forall n :: 0 <= n < |returned| && returned[n] ==>
        publisher.Concluded(Slot(scopes[n], BACKEND)) && publisher.Concluded(Slot(scopes[n], FRONTEND))
    {
      var o := publisher.PublishDiscarded(scopes[|returned|]);
      returned := returned + [o == Returned];
    }
    runs := publisher.runs;
    forall n | 0 <= n < |scopes| && returned[n]
      ensures ConcludedRun(runs, Slot(scopes[n], BACKEND), headOf(scopes[n]))
      ensures ConcludedRun(runs, Slot(scopes[n], FRONTEND), headOf(scopes[n]))
    {
      publisher.ConcludedIsThere(Slot(scopes[n], BACKEND));
      publisher.ConcludedIsThere(Slot(scopes[n], FRONTEND));
    }
  }

  predicate ConcludedRun(runs: map<int, CheckRun>, k: Slot, head: string) {
    exists i :: i in runs && Publishes(runs[i], k, head) && runs[i].concluded
  }
}
