/**
 Two runs of the pilot worker that its guards do not rule out.
 */
module PilotWitnesses {
  import opened Basics
  import opened PilotLog
  import opened PilotCycle

  const OK := Answer(Returned, false, 0)
  const YES := Answer(Returned, true, 0)
  const DIES := Answer(Crash, true, 0)

  function Fails(e: Exn): Answer {
    Answer(Raise(e), false, 0)
  }

  function Then(a: Answer, rest: Script): Script {
    More(a, rest)
  }

  // ----- A completed request that ends failed -----

  /** Claimed, superseded, nothing to report; the outcome and the result are recorded, and the worker dies while
      delivering the result. */
  const COMPLETES := Cycle(false, Then(OK, Then(YES, Then(OK, Then(OK, Then(OK, Then(DIES, End)))))))

  /** After the restart the delivery is tried again and fails; the quarantine tells the source and fails the row. */
  const DELIVERY_FAILS := Cycle(true, Then(OK, Then(Fails(Os), Then(OK, Then(OK, End)))))

  lemma CompletedThenFailed(setup: Setup)
    requires setup.wellFormed
    ensures Served(setup, [COMPLETES]).state == Completing
    ensures Served(setup, [COMPLETES, DELIVERY_FAILS]).state == Failed
  {
    var s := Snapshot(Completing, EMPTY, [Asked(true), Outcome(OtherCause), Wrote(Completing, EMPTY)]);
    assert [COMPLETES][..0] == [];
    assert Served(setup, [COMPLETES]) == AfterCycle(START, setup, COMPLETES);
    FirstCompletes(setup);
    assert [COMPLETES, DELIVERY_FAILS][..1] == [COMPLETES];
  }

  lemma FirstCompletes(setup: Setup)
    requires setup.wellFormed
    ensures AfterCycle(START, setup, COMPLETES)
      == Snapshot(Completing, EMPTY, [Asked(true), Outcome(OtherCause), Wrote(Completing, EMPTY)])
  {
  }

  // ----- A request that is dispatched twice -----

  /** Claimed and not superseded; the package is issued, the allocation reserved, the dispatch announced and called, and
      the worker dies before it records the receipt. */
  const LOSES_RECEIPT := Cycle(false,
    Then(OK, Then(OK, Then(OK, Then(OK, Then(OK, Then(OK, Then(OK, Then(OK, Then(OK, Then(YES, Then(OK, Then(OK,
    Then(DIES, End))))))))))))))

  /** Now the source calls the request superseded: one step of the discard is reported before reporting fails, the
      outcome is recorded, the allocation recovered, and the request released for another try. */
  const REPORTS_DISCARD := Cycle(true,
    Then(OK, Then(YES, Then(YES, Then(OK, Then(Fails(Gate), Then(OK, Then(OK, Then(OK, End)))))))))

  /** The source takes the verdict back; the guard in front of the dispatch finds nothing against it. */
  const DISPATCHES_AGAIN := Cycle(false,
    Then(OK, Then(OK, Then(OK, Then(OK, Then(YES, Then(OK, Then(OK, Then(OK, End)))))))))

  const ISSUED := EMPTY.(phase := Some(PackageIssued), package := true)
  const RESERVED := ISSUED.(phase := Some(Reserved), reserved := true)
  const ANNOUNCED := RESERVED.(phase := Some(Dispatching))
  const DISCARDED := RESERVED.(phase := Some(DiscardReporting))

  const FIRST := [Asked(false), Wrote(Running, ISSUED), Wrote(Running, RESERVED), Wrote(Running, ANNOUNCED), Dispatch]
  const SECOND := [Asked(true), Wrote(Running, DISCARDED), Outcome(OtherCause)]
  const THIRD := [Asked(false), Wrote(Running, ANNOUNCED), Dispatch]

  lemma FirstDispatches(setup: Setup)
    requires setup.wellFormed
    ensures AfterCycle(START, setup, LOSES_RECEIPT) == Snapshot(Running, ANNOUNCED, FIRST)
  {
  }

  lemma SecondReopens(setup: Setup)
    requires setup.wellFormed
    ensures AfterCycle(Snapshot(Running, ANNOUNCED, FIRST), setup, REPORTS_DISCARD)
      == Snapshot(Retry, DISCARDED, FIRST + SECOND)
  {
    assert FIRST + SECOND == FIRST + [Asked(true)] + [Wrote(Running, DISCARDED)] + [Outcome(OtherCause)];
    var told := Snapshot(Running, ANNOUNCED, FIRST + [Asked(true)]);
    forall t: seq<Step> ensures ReportDiscarded(World(told, REPORT, Returned, t)).1 && Reported(told, t) { DiscardPends(told, t); }
  }

  const REPORT := Then(YES, Then(OK, Then(Fails(Gate), RESCUE)))
  const RESCUE := Then(OK, Then(OK, Then(OK, End)))

  /** One step of the discard is reported and recorded before reporting fails. */
  predicate Reported(s: Snapshot, t: seq<Step>) {
    var v := ReportDiscarded(World(s, REPORT, Returned, t)).0;
    v.s == Recorded(s, s.p.(phase := Some(DiscardReporting))) && v.script == RESCUE && v.end == Returned
  }

  lemma DiscardPends(s: Snapshot, t: seq<Step>)
    requires s.state == Running
    ensures ReportDiscarded(World(s, REPORT, Returned, t)).1 && Reported(s, t)
  {
    var w := World(s, REPORT, Returned, t);
    var v := Query(w, Report).0;
    var x := Record(v, s.p.(phase := Some(DiscardReporting)));
    assert ReportDiscarded(x) == (Caught(Query(x, Report).0), true);
  }

  lemma ThirdDispatches(setup: Setup)
    requires setup.wellFormed
    ensures AfterCycle(Snapshot(Retry, DISCARDED, FIRST + SECOND), setup, DISPATCHES_AGAIN)
      == Snapshot(Running, ANNOUNCED, FIRST + SECOND + THIRD)
  {
  }

  /** The worker does dispatch twice when a verdict is withdrawn after a discard was reported over the announced
      dispatch. */
  lemma DispatchedTwice(setup: Setup)
    requires setup.wellFormed
    ensures var log := Served(setup, [LOSES_RECEIPT, REPORTS_DISCARD, DISPATCHES_AGAIN]).log;
      |log| == 11 && log[4].Dispatch? && log[10].Dispatch? && Withdrawn(log, 4, 10) && !VerdictsStand(log)
  {
    hide AfterCycle;
    FirstDispatches(setup);
    SecondReopens(setup);
    ThirdDispatches(setup);
    var one, two := [LOSES_RECEIPT], [LOSES_RECEIPT, REPORTS_DISCARD];
    var three := [LOSES_RECEIPT, REPORTS_DISCARD, DISPATCHES_AGAIN];
    assert one[..0] == [] && two[..1] == one && three[..2] == two;
    assert Served(setup, one) == AfterCycle(START, setup, LOSES_RECEIPT);
    assert Served(setup, two) == AfterCycle(Served(setup, one), setup, REPORTS_DISCARD);
    assert Served(setup, three) == AfterCycle(Served(setup, two), setup, DISPATCHES_AGAIN);
    var log := FIRST + SECOND + THIRD;
    assert log[5] == Asked(true) && Reopens(log[6]) && log[8] == Asked(false);
  }
}
