/**
 The worker keeps to the protocol: every step it takes is allowed by what it did and was answered before.
 */
module PilotConduct {
  import opened Basics
  import opened PilotLog
  import opened PilotCycle
  import opened PilotProtocol
  import opened PilotSteps

  ghost function Memo(setup: Setup, b: Snapshot, w: World): Memory {
    Recall(setup, b, w.trace)
  }

  /** So far every step was allowed, and nothing but these steps changed the row. */
  ghost predicate Keeps(setup: Setup, b: Snapshot, w: World) {
    Honest(setup, b, w.trace) && Memo(setup, b, w).s == w.s
  }

  /** From `w` to `v` the worker did `d`. */
  ghost predicate Walked(setup: Setup, b: Snapshot, w: World, v: World, d: Deed) {
    var m, n := Memo(setup, b, w), Memo(setup, b, v);
    Keeps(setup, b, v) && n.last.Some? && n.last.value.deed == d && n.last.value.answer.ended == v.end
    && n == Next(setup, m, n.last.value)
  }

  /** The worker got to `v`, and if it stopped there it may. */
  ghost predicate Reached(setup: Setup, b: Snapshot, v: World) {
    Keeps(setup, b, v) && (!On(v) ==> MayStop(setup, Memo(setup, b, v), v.end))
  }

  lemma Extends(setup: Setup, b: Snapshot, w: World, v: World, st: Step)
    requires Keeps(setup, b, w) && Allowed(setup, Memo(setup, b, w), st.deed)
    requires v.trace == w.trace + [st] && v.s == Effect(w.s, st)
    ensures Keeps(setup, b, v) && Memo(setup, b, v) == Next(setup, Memo(setup, b, w), st)
  {
    hide Allowed, Next, Effect;
    assert v.trace[..|w.trace|] == w.trace;
    NextRow(setup, Memo(setup, b, w), st);
  }

  lemma NextRow(setup: Setup, m: Memory, st: Step)
    ensures Next(setup, m, st).s == Effect(m.s, st)
  {
  }

  /** A step that did not return is a way to stop. */
  lemma StopsHere(setup: Setup, m: Memory)
    requires m.last.Some? && !m.last.value.answer.ended.Returned?
    ensures MayStop(setup, m, m.last.value.answer.ended)
  {
  }

  predicate Outside(d: Deed) {
    !d.Claim? && !d.Write? && !d.Free? && !d.Close? && !d.Condemn? && !d.Mark? && !d.Logged? && !d.Ask?
  }

  lemma Walk(setup: Setup, b: Snapshot, w: World, d: Deed)
    requires On(w) && Keeps(setup, b, w) && Allowed(setup, Memo(setup, b, w), d) && Outside(d)
    ensures var (v, a) := Query(w, d);
      Walked(setup, b, w, v, d) && Reached(setup, b, v) && Memo(setup, b, v).last == Some(Step(d, a)) && v.s == w.s
  {
    hide Honest, Recall, Allowed;
    var (v, a) := Query(w, d);
    Extends(setup, b, w, v, Step(d, a));
    if !On(v) { StopsHere(setup, Memo(setup, b, v)); }
  }

  lemma WalkAsk(setup: Setup, b: Snapshot, w: World)
    requires On(w) && Keeps(setup, b, w) && Allowed(setup, Memo(setup, b, w), Ask)
    ensures var (v, reason) := SupersessionReason(w);
      Walked(setup, b, w, v, Ask) && Reached(setup, b, v)
      && (On(v) ==> Memo(setup, b, v).last.value.answer.yes == reason && Memo(setup, b, v).verdict == Some(reason))
  {
    hide Honest, Recall, Allowed;
    var (v, reason) := SupersessionReason(w);
    Extends(setup, b, w, v, v.trace[|w.trace|]);
    if !On(v) { StopsHere(setup, Memo(setup, b, v)); }
  }

  lemma WalkCall(setup: Setup, b: Snapshot, w: World, e: Event)
    requires On(w) && Keeps(setup, b, w) && Allowed(setup, Memo(setup, b, w), Logged(e))
    ensures var (v, number) := Call(w, e);
      Walked(setup, b, w, v, Logged(e)) && Reached(setup, b, v)
      && (!v.end.Crash? ==> Memo(setup, b, v).last.value.answer.number == number)
  {
    hide Honest, Recall, Allowed;
    var (v, number) := Call(w, e);
    Extends(setup, b, w, v, v.trace[|w.trace|]);
    if !On(v) { StopsHere(setup, Memo(setup, b, v)); }
  }

  /** A durable write. */
  lemma WalkStore(setup: Setup, b: Snapshot, w: World, d: Deed, ok: bool, s: Snapshot)
    requires On(w) && Keeps(setup, b, w) && Allowed(setup, Memo(setup, b, w), d)
    requires d.Write? || d.Free? || d.Close? || d.Condemn? || d.Mark?
    requires forall a: Answer :: DiedBefore(a) || (Effect(w.s, Step(d, a)) == if ok then s else w.s)
    ensures var v := Store(w, d, ok, s);
      Walked(setup, b, w, v, d) && Reached(setup, b, v)
      && (On(v) ==> ok && v.s == s && Memo(setup, b, v).last == Some(Step(d, Answer(Returned, true, 0))))
  {
    hide Honest, Recall, Allowed;
    var v := Store(w, d, ok, s);
    var st := v.trace[|w.trace|];
    assert DiedBefore(st.answer) || Effect(w.s, st) == if ok then s else w.s;
    Extends(setup, b, w, v, st);
    if !On(v) { StopsHere(setup, Memo(setup, b, v)); }
  }

  lemma WalkRecord(setup: Setup, b: Snapshot, w: World, q: Progress)
    requires On(w) && Keeps(setup, b, w) && Earned(setup, Memo(setup, b, w), q)
    ensures var v := Record(w, q);
      Walked(setup, b, w, v, Write(q)) && Reached(setup, b, v) && (v.s == w.s || v.s == Recorded(w.s, q))
      && (On(v) ==> w.s.state == Running && v.s == Recorded(w.s, q)
                    && Memo(setup, b, v).last == Some(Step(Write(q), Answer(Returned, true, 0))))
  {
    hide Honest, Recall, Earned;
    WalkStore(setup, b, w, Write(q), w.s.state == Running, Recorded(w.s, q));
  }

  // ----- What is let go -----

  /** What was raised is not for the worker to deal with. */
  predicate LetsGo(m: Memory, end: Ended) {
    end.Raise? ==> !MustCatch(m, end.exn)
  }

  /** Nothing that these raise is. */
  predicate Unguarded(d: Deed) {
    !d.ShutChecks? && !d.StartChecks? && !d.Report? && !d.Recover? && !d.Tell? && !d.Complete? && !d.Resume? && !d.Issue?
    && !d.Authenticate? && (d.Logged? ==> !d.event.Cancel? && !d.event.Poll? && d.event != Outcome(NotConverged))
  }

  lemma UnguardedLetsGo(m: Memory, end: Ended)
    requires (m.last.Some? && Unguarded(m.last.value.deed)) || Fault(m).None?
    ensures LetsGo(m, end)
  {
  }

  /** Nor what these raise and was not caught. */
  lemma UncaughtLetsGo(m: Memory, end: Ended)
    requires (Did(m, ShutChecks) || Did(m, StartChecks) || Did(m, Report)) && (end.Raise? ==> !CheckFailure(end.exn))
    ensures LetsGo(m, end)
  {
  }

  lemma CallLetsGo(m: Memory, end: Ended)
    requires m.last.Some?
    requires match m.last.value.deed {
               case Tell => !m.bound && !Phased(m, CancelRecoveryPending)
               case Complete => !m.outcome
               case Logged(Cancel) => end.Raise? ==> !GithubFailure(end.exn)
               case _ => false
             }
    ensures LetsGo(m, end)
  {
  }

  lemma PackageLetsGo(m: Memory, end: Ended)
    requires (Did(m, Issue) || Did(m, Authenticate)) && end != Raise(Pilot)
    ensures LetsGo(m, end)
  {
  }

  lemma RecoverLetsGo(m: Memory, end: Ended)
    requires Did(m, Recover) && !m.resumed && m.s.p.phase != Some(CleanupRequired) && m.s.p.phase != Some(CancelRecoveryPending)
    ensures LetsGo(m, end)
  {
  }

  // ----- What a step leaves alone -----

  /** What a step that neither claims, resumes, binds nor identifies leaves alone. */
  predicate Steady(m: Memory, n: Memory) {
    n.base == m.base && n.mine == m.mine && n.resumed == m.resumed && n.bound == m.bound && n.begun == m.begun
    && n.postponed == m.postponed && n.matched == m.matched
  }

  /** Nor records an outcome, polls, asks, nor ends the allocation. */
  predicate Quiet(m: Memory, n: Memory) {
    Steady(m, n) && n.verdict == m.verdict && n.polls == m.polls && n.outcome == m.outcome && n.cleaned == m.cleaned
    && n.recovered == m.recovered && n.pending == m.pending
  }

  /** What went wrong is not forgotten. */
  ghost predicate Aware(setup: Setup, m: Memory, n: Memory) {
    (Hurt(setup, m) ==> Hurt(setup, n)) && (Upset(setup, m) ==> Upset(setup, n)) && (Expired(m) ==> Expired(n))
  }

  predicate IsQuiet(d: Deed) {
    !d.Claim? && !d.Resume? && !d.Bind? && !d.Postpone? && !d.Match? && !d.Ask? && !d.Clean? && !d.Recover? && !d.Report?
    && !d.Condemn? && (d.Logged? ==> !d.event.Outcome? && !d.event.Poll?)
  }

  /** From `w` to `v` the worker did `d`, which leaves most things alone. */
  ghost predicate Went(setup: Setup, b: Snapshot, w: World, v: World, d: Deed) {
    var m, n := Memo(setup, b, w), Memo(setup, b, v);
    Reached(setup, b, v) && Did(n, d) && n.last.value.answer.ended == v.end && Quiet(m, n) && Aware(setup, m, n)
    && n.tried == (m.tried || d.ShutChecks?) && (!d.Clock? ==> n.now == m.now)
    && (d != Logged(Cancel) ==> n.accepted == m.accepted) && (Unguarded(d) ==> LetsGo(n, v.end))
  }

  lemma QuietStep(setup: Setup, m: Memory, st: Step)
    requires IsQuiet(st.deed)
    ensures var n := Next(setup, m, st);
      Quiet(m, n) && Aware(setup, m, n) && n.last == Some(st) && n.tried == (m.tried || st.deed.ShutChecks?)
      && (!st.deed.Clock? ==> n.now == m.now) && (st.deed != Logged(Cancel) ==> n.accepted == m.accepted)
  {
    hide Hurt, Upset, Expired, Effect, Aware;
    NextAware(setup, m, st);
  }

  lemma NextSays(setup: Setup, m: Memory, st: Step)
    ensures var n := Next(setup, m, st);
      (st.deed.Clock? && st.answer.ended.Returned? ==> n.now == st.answer.number)
      && (st.deed == Logged(Cancel) ==> n.accepted == Some(st.answer.ended.Returned? && st.answer.number != 0))
  {
    hide Hurt, Upset, Expired, Effect;
  }

  lemma NextAware(setup: Setup, m: Memory, st: Step)
    ensures Aware(setup, m, Next(setup, m, st))
  {
    hide Effect, Flaw;
  }

  lemma Wends(setup: Setup, b: Snapshot, w: World, v: World, d: Deed)
    requires Walked(setup, b, w, v, d) && Reached(setup, b, v) && IsQuiet(d)
    ensures Went(setup, b, w, v, d)
    ensures d.Clock? && On(v) ==> Memo(setup, b, v).now == Memo(setup, b, v).last.value.answer.number
    ensures d == Logged(Cancel) ==>
      Memo(setup, b, v).accepted == Some(On(v) && Memo(setup, b, v).last.value.answer.number != 0)
  {
    hide Recall, Next, Honest, MayStop, Aware, Quiet, LetsGo, Unguarded;
    if Unguarded(d) { UnguardedLetsGo(Memo(setup, b, v), v.end); }
    QuietStep(setup, Memo(setup, b, w), Memo(setup, b, v).last.value);
    NextSays(setup, Memo(setup, b, w), Memo(setup, b, v).last.value);
  }

  lemma GoQuietly(setup: Setup, b: Snapshot, w: World, d: Deed)
    requires On(w) && Keeps(setup, b, w) && Allowed(setup, Memo(setup, b, w), d) && Outside(d) && IsQuiet(d)
    ensures var (v, a) := Query(w, d);
      Went(setup, b, w, v, d) && Memo(setup, b, v).last == Some(Step(d, a)) && v.s == w.s
      && (d.Clock? && On(v) ==> Memo(setup, b, v).now == a.number)
  {
    hide Recall, Honest, Allowed, Walked, Reached, Went;
    Walk(setup, b, w, d);
    Wends(setup, b, w, Query(w, d).0, d);
  }

  lemma StoreQuietly(setup: Setup, b: Snapshot, w: World, d: Deed, ok: bool, s: Snapshot)
    requires On(w) && Keeps(setup, b, w) && Allowed(setup, Memo(setup, b, w), d)
    requires d.Write? || d.Free? || d.Close? || d.Mark?
    requires forall a: Answer :: DiedBefore(a) || (Effect(w.s, Step(d, a)) == if ok then s else w.s)
    ensures var v := Store(w, d, ok, s);
      Went(setup, b, w, v, d) && (On(v) ==> ok && v.s == s)
  {
    hide Recall, Honest, Allowed, Walked, Reached, Went;
    WalkStore(setup, b, w, d, ok, s);
    Wends(setup, b, w, Store(w, d, ok, s), d);
  }

  lemma RecordQuietly(setup: Setup, b: Snapshot, w: World, q: Progress)
    requires On(w) && Keeps(setup, b, w) && Earned(setup, Memo(setup, b, w), q)
    ensures var v := Record(w, q);
      Went(setup, b, w, v, Write(q)) && (v.s == w.s || v.s == Recorded(w.s, q)) && (v.end.Raise? ==> v.end.exn == WorkerError)
      && (On(v) ==> w.s.state == Running && v.s == Recorded(w.s, q) && JustWrote(Memo(setup, b, v)) && v.script < w.script)
  {
    hide Recall, Honest, Earned, Walked, Reached;
    WalkRecord(setup, b, w, q);
    hide Went;
    Wends(setup, b, w, Record(w, q), Write(q));
  }

  /** What a question, a poll, an outcome, a clean-up, a recovery or a report is remembered by. */
  predicate Heard(m: Memory, n: Memory, st: Step) {
    var ok := st.answer.ended.Returned?;
    Steady(m, n) && n.last == Some(st) && n.tried == m.tried && n.now == m.now && n.accepted == m.accepted
    && n.verdict == (if st.deed.Ask? && ok then Some(st.answer.yes) else m.verdict)
    && n.polls == (if st.deed == Logged(Poll) then m.polls + 1 else m.polls)
    && n.outcome == (m.outcome || (st.deed == OUTCOME && ok))
    && n.cleaned == (m.cleaned || (st.deed.Clean? && ok))
    && n.recovered == (m.recovered || (st.deed.Recover? && ok))
    && n.pending == (m.pending || (st.deed.Report? && !ok))
  }

  lemma HeardStep(setup: Setup, m: Memory, st: Step)
    requires var d := st.deed; d.Ask? || d.Clean? || d.Recover? || d.Report? || (d.Logged? && d != Logged(Cancel))
    ensures Heard(m, Next(setup, m, st), st) && Aware(setup, m, Next(setup, m, st))
  {
    hide Hurt, Upset, Expired, Effect, Aware;
    NextAware(setup, m, st);
  }

  /** From `w` to `v` the worker did `d` and remembers the answer. */
  ghost predicate Listened(setup: Setup, b: Snapshot, w: World, v: World, d: Deed) {
    var m, n := Memo(setup, b, w), Memo(setup, b, v);
    Reached(setup, b, v) && Did(n, d) && n.last.value.answer.ended == v.end && Heard(m, n, n.last.value)
    && Aware(setup, m, n) && (Unguarded(d) ==> LetsGo(n, v.end))
  }

  lemma Listens(setup: Setup, b: Snapshot, w: World, v: World, d: Deed)
    requires Walked(setup, b, w, v, d) && Reached(setup, b, v)
    requires d.Ask? || d.Clean? || d.Recover? || d.Report? || (d.Logged? && d != Logged(Cancel))
    ensures Listened(setup, b, w, v, d)
  {
    hide Recall, Next, Honest, MayStop, Aware, Heard, LetsGo, Unguarded;
    if Unguarded(d) { UnguardedLetsGo(Memo(setup, b, v), v.end); }
    HeardStep(setup, Memo(setup, b, w), Memo(setup, b, v).last.value);
  }

  lemma DoListening(setup: Setup, b: Snapshot, w: World, d: Deed)
    requires On(w) && Keeps(setup, b, w) && Allowed(setup, Memo(setup, b, w), d) && (d.Clean? || d.Recover? || d.Report?)
    ensures var (v, a) := Query(w, d);
      Listened(setup, b, w, v, d) && Memo(setup, b, v).last == Some(Step(d, a)) && v.s == w.s
  {
    hide Recall, Honest, Allowed, Walked, Reached, Listened;
    Walk(setup, b, w, d);
    Listens(setup, b, w, Query(w, d).0, d);
  }

  lemma AskListening(setup: Setup, b: Snapshot, w: World)
    requires On(w) && Keeps(setup, b, w) && Allowed(setup, Memo(setup, b, w), Ask)
    ensures var (v, reason) := SupersessionReason(w);
      Listened(setup, b, w, v, Ask) && (On(v) ==> Memo(setup, b, v).verdict == Some(reason))
  {
    hide Recall, Honest, Allowed, Walked, Reached, Listened;
    WalkAsk(setup, b, w);
    Listens(setup, b, w, SupersessionReason(w).0, Ask);
  }

  lemma CallListening(setup: Setup, b: Snapshot, w: World, e: Event)
    requires On(w) && Keeps(setup, b, w) && Allowed(setup, Memo(setup, b, w), Logged(e)) && !e.Cancel?
    ensures var (v, number) := Call(w, e);
      Listened(setup, b, w, v, Logged(e)) && (!v.end.Crash? ==> Memo(setup, b, v).last.value.answer.number == number)
  {
    hide Recall, Honest, Allowed, Walked, Reached, Listened;
    WalkCall(setup, b, w, e);
    Listens(setup, b, w, Call(w, e).0, Logged(e));
  }

  lemma LoggedQuietly(setup: Setup, b: Snapshot, w: World, e: Event)
    requires On(w) && Keeps(setup, b, w) && Allowed(setup, Memo(setup, b, w), Logged(e)) && (e.Dispatch? || e.Finalize?)
    ensures var (v, number) := Call(w, e);
      Went(setup, b, w, v, Logged(e)) && v.s.p == w.s.p && v.s.state == w.s.state
      && (On(v) ==> Counts(Memo(setup, b, v), Logged(e), number))
  {
    hide Recall, Honest, Allowed, Walked, Reached, Went;
    WalkCall(setup, b, w, e);
    Wends(setup, b, w, Call(w, e).0, Logged(e));
    WalkedLast(setup, b, w, Call(w, e).0, Logged(e));
  }

  lemma WalkedLast(setup: Setup, b: Snapshot, w: World, v: World, d: Deed)
    requires Walked(setup, b, w, v, d)
    ensures Did(Memo(setup, b, v), d) && Memo(setup, b, v).last.value.answer.ended == v.end
  {
    hide Recall, Honest, Next;
  }

  lemma CancelQuietly(setup: Setup, b: Snapshot, w: World)
    requires On(w) && Keeps(setup, b, w) && Allowed(setup, Memo(setup, b, w), Logged(Cancel))
    ensures var (v, number) := Call(w, Cancel);
      Went(setup, b, w, v, Logged(Cancel)) && Memo(setup, b, v).accepted == Some(On(v) && number != 0)
  {
    hide Recall, Honest, Allowed, Walked, Reached, Went;
    WalkCall(setup, b, w, Cancel);
    Wends(setup, b, w, Call(w, Cancel).0, Logged(Cancel));
  }

  /** What the other steps are remembered by. */
  predicate Turned(m: Memory, n: Memory, st: Step) {
    var ok := st.answer.ended.Returned?;
    n.base == m.base && n.last == Some(st) && n.verdict == m.verdict && n.polls == m.polls && n.now == m.now
    && n.accepted == m.accepted && n.outcome == m.outcome && n.cleaned == m.cleaned && n.recovered == m.recovered
    && n.tried == m.tried && n.pending == m.pending
    && (!st.deed.Claim? ==> n.mine == m.mine)
    && n.resumed == (m.resumed || (st.deed.Resume? && ok))
    && n.bound == (m.bound || (st.deed.Bind? && ok))
    && n.begun == (if st.deed.Bind? then m.s.p.phase.Some? else m.begun)
    && n.postponed == (m.postponed || st.deed.Postpone?)
    && n.matched == (m.matched || (st.deed.Match? && ok && !st.answer.yes))
  }

  lemma TurnStep(setup: Setup, m: Memory, st: Step)
    requires var d := st.deed; d.Claim? || d.Resume? || d.Bind? || d.Postpone? || d.Match? || d.Condemn?
    ensures Turned(m, Next(setup, m, st), st) && Aware(setup, m, Next(setup, m, st))
    ensures Next(setup, m, st).s == Effect(m.s, st)
  {
    hide Hurt, Upset, Expired, Effect, Aware;
    NextAware(setup, m, st);
  }

  lemma GoTurning(setup: Setup, b: Snapshot, w: World, d: Deed)
    requires On(w) && Keeps(setup, b, w) && Allowed(setup, Memo(setup, b, w), d)
    requires d.Resume? || d.Bind? || d.Postpone?
    ensures var (v, a) := Query(w, d);
      var m, n := Memo(setup, b, w), Memo(setup, b, v);
      Reached(setup, b, v) && Turned(m, n, Step(d, a)) && Aware(setup, m, n) && v.s == w.s
      && ((d.Resume? && v.end == Raise(Approval)) || LetsGo(n, v.end))
  {
    hide Recall, Honest, Allowed, MayStop, Next, Aware, Turned;
    Walk(setup, b, w, d);
    TurnStep(setup, Memo(setup, b, w), Memo(setup, b, Query(w, d).0).last.value);
  }

  /** All this adds up over any number of steps. */
  lemma AddsUp(setup: Setup, l: Memory, m: Memory, n: Memory)
    ensures Aware(setup, l, l) && Quiet(l, l)
    ensures Aware(setup, l, m) && Aware(setup, m, n) ==> Aware(setup, l, n)
    ensures Quiet(l, m) && Quiet(m, n) ==> Quiet(l, n) && n.outcome == l.outcome && n.verdict == l.verdict
    ensures Quiet(l, m) ==> m.outcome == l.outcome && m.verdict == l.verdict
  {
    hide Hurt, Upset, Expired;
  }

  /** Record and renew. */
  lemma RenewQuietly(setup: Setup, b: Snapshot, w: World, q: Progress)
    requires On(w) && Keeps(setup, b, w) && Earned(setup, Memo(setup, b, w), q)
    ensures var v := RecordAndClaim(w, q);
      var m, n := Memo(setup, b, w), Memo(setup, b, v);
      Reached(setup, b, v) && Quiet(m, n) && Aware(setup, m, n) && n.tried == m.tried
      && (On(v) ==> Just(n, Renew) && v.s == Recorded(w.s, q)) && (v.end.Raise? ==> Raised(n, v.end.exn))
      && LetsGo(n, v.end)
  {
    hide Honest, Recall, Earned, Record, MayStop, LetsGo, Aware, Quiet, Allowed;
    RecordQuietly(setup, b, w, q);
    var v := Record(w, q);
    AddsUp(setup, Memo(setup, b, w), Memo(setup, b, v), Memo(setup, b, RecordAndClaim(w, q)));
    if On(v) {
      RenewFits(setup, Memo(setup, b, v));
      GoQuietly(setup, b, v, Renew);
    }
  }

  lemma RenewFits(setup: Setup, m: Memory)
    requires JustWrote(m)
    ensures Allowed(setup, m, Renew)
  {
  }

  // ----- Giving back and delivering -----

  /** The cycle may end as it does at `v`. */
  ghost predicate Concluded(setup: Setup, b: Snapshot, v: World) {
    Keeps(setup, b, v) && MayEnd(setup, Memo(setup, b, v), v.end)
  }

  lemma ReachedEnd(setup: Setup, b: Snapshot, v: World)
    requires Reached(setup, b, v)
    ensures !On(v) && LetsGo(Memo(setup, b, v), v.end) ==> Concluded(setup, b, v)
  {
    hide MustCatch, MayRaise;
  }

  lemma YieldConduct(setup: Setup, b: Snapshot, w: World)
    requires On(w) && Keeps(setup, b, w) && MayYield(setup, Memo(setup, b, w))
    ensures var v := Release(w);
      Went(setup, b, w, v, Free) && (On(v) ==> Just(Memo(setup, b, v), Free))
      && (!Memo(setup, b, w).bound && !Memo(setup, b, w).postponed ==> Concluded(setup, b, v))
  {
    hide Honest, Recall, MayYield, MayRaise, Aware;
    assert Allowed(setup, Memo(setup, b, w), Free);
    StoreQuietly(setup, b, w, Free, true, if w.s.state == Running then w.s.(state := Retry) else w.s);
  }

  lemma DeliverConduct(setup: Setup, b: Snapshot, w: World, toleratesApproval: bool)
    requires On(w) && Keeps(setup, b, w) && MayComplete(Memo(setup, b, w))
    requires toleratesApproval <==> w.s.p.runId.None? || w.s.p.phase == Some(CancelRequested)
    ensures var v := Deliver(w, toleratesApproval);
      Concluded(setup, b, v) && (On(v) ==> v.s.state == Done) && Quiet(Memo(setup, b, w), Memo(setup, b, v))
  {
    hide Honest, Recall, MayEnd, MayStop, Allowed, Aware, MayComplete, Quiet, LetsGo, Concluded, FinishRow, Delivered;
    FinishRowConduct(setup, b, w);
    var v := FinishRow(w);
    ReachedEnd(setup, b, v);
    if On(v) {
      HandOverConduct(setup, b, v, toleratesApproval);
      AddsUp(setup, Memo(setup, b, w), Memo(setup, b, v), Memo(setup, b, Deliver(w, toleratesApproval)));
    }
  }

  lemma FinishRowConduct(setup: Setup, b: Snapshot, w: World)
    requires On(w) && Keeps(setup, b, w) && MayComplete(Memo(setup, b, w))
    ensures var v := FinishRow(w);
      var n := Memo(setup, b, v);
      Reached(setup, b, v) && LetsGo(n, v.end) && Quiet(Memo(setup, b, w), n)
      && (On(v) ==> v.s.state == Completing && v.s.p == w.s.p && Allowed(setup, n, Complete) && n.outcome)
  {
    hide Honest, Recall, MayStop, Allowed, Aware, MayComplete, Quiet, LetsGo;
    Completable(setup, Memo(setup, b, w));
    StoreQuietly(setup, b, w, Close(Completing), true, Closed(w.s, Completing, w.s.p.phase));
    var v := FinishRow(w);
    if On(v) {
      Deliverable(setup, Memo(setup, b, v));
      AddsUp(setup, Memo(setup, b, w), Memo(setup, b, v), Memo(setup, b, v));
    }
  }

  /** Hand the result to the source, and mark it delivered. */
  lemma HandOverConduct(setup: Setup, b: Snapshot, w: World, toleratesApproval: bool)
    requires On(w) && Keeps(setup, b, w) && w.s.state == Completing && Allowed(setup, Memo(setup, b, w), Complete)
    requires toleratesApproval <==>
      Memo(setup, b, w).outcome && (w.s.p.runId.None? || w.s.p.phase == Some(CancelRequested))
    ensures var x := External(w, Complete);
      var v := if On(x) || (toleratesApproval && x.end == Raise(Approval)) then Delivered(Caught(x)) else x;
      Concluded(setup, b, v) && (On(v) ==> v.s.state == Done) && Quiet(Memo(setup, b, w), Memo(setup, b, v))
  {
    hide Honest, Recall, MayEnd, Allowed, Aware;
    GoQuietly(setup, b, w, Complete);
    var x := External(w, Complete);
    ReachedEnd(setup, b, x);
    if On(x) || (toleratesApproval && x.end == Raise(Approval)) {
      Markable(setup, Memo(setup, b, x));
      MarkConduct(setup, b, Caught(x));
    }
  }

  lemma Completable(setup: Setup, m: Memory)
    requires MayComplete(m)
    ensures Allowed(setup, m, Close(Completing)) && m.s.state == Running && m.outcome
  {
  }

  lemma Deliverable(setup: Setup, m: Memory)
    requires Just(m, Close(Completing))
    ensures Allowed(setup, m, Complete)
  {
  }

  lemma Markable(setup: Setup, m: Memory)
    requires m.s.state == Completing && Did(m, Complete)
    requires Just(m, Complete)
      || (Raised(m, Approval) && m.outcome && (m.s.p.runId.None? || m.s.p.phase == Some(CancelRequested)))
    ensures Allowed(setup, m, Mark)
  {
  }

  lemma MarkConduct(setup: Setup, b: Snapshot, w: World)
    requires On(w) && Keeps(setup, b, w) && Allowed(setup, Memo(setup, b, w), Mark) && w.s.state == Completing
    ensures var v := Delivered(w);
      Concluded(setup, b, v) && (On(v) ==> v.s.state == Done) && Quiet(Memo(setup, b, w), Memo(setup, b, v))
  {
    hide Honest, Recall, MayRaise, Allowed, Aware;
    StoreQuietly(setup, b, w, Mark, true, w.s.(state := Done));
  }

  // ----- Check Runs -----

  lemma CloseChecksConduct(setup: Setup, b: Snapshot, w: World)
    requires On(w) && Keeps(setup, b, w)
    requires NoOpenChecks(w.s.p) || MayShutChecks(setup, Memo(setup, b, w))
    ensures var (v, closed) := CloseChecks(w);
      var m, n := Memo(setup, b, w), Memo(setup, b, v);
      Reached(setup, b, v) && Quiet(m, n) && Aware(setup, m, n) && (NoOpenChecks(w.s.p) ==> v == w)
      && (On(v) ==> ClosingTried(n) && (closed <==> NoOpenChecks(v.s.p)))
      && (v.end.Raise? ==> Fell(n, ShutChecks) && n.tried && Raised(n, v.end.exn)) && LetsGo(n, v.end)
      && (On(v) && !NoOpenChecks(w.s.p) ==> !Raised(n, Transport))
  {
    hide Honest, Recall, MayShutChecks, MayStop, MayEnd, Aware, Quiet, Went, CloseChecks;
    if NoOpenChecks(w.s.p) {
      NothingToClose(w);
      AddsUp(setup, Memo(setup, b, w), Memo(setup, b, w), Memo(setup, b, w));
    } else {
      assert Allowed(setup, Memo(setup, b, w), ShutChecks);
      GoQuietly(setup, b, w, ShutChecks);
      ShutConduct(setup, b, w);
    }
  }

  lemma NothingToClose(w: World)
    requires NoOpenChecks(w.s.p)
    ensures CloseChecks(w) == (w, true)
  {
  }

  lemma ShutConduct(setup: Setup, b: Snapshot, w: World)
    requires On(w) && Keeps(setup, b, w) && !NoOpenChecks(w.s.p)
    requires Went(setup, b, w, External(w, ShutChecks), ShutChecks) && External(w, ShutChecks).s == w.s
    ensures var (v, closed) := CloseChecks(w);
      var m, n := Memo(setup, b, w), Memo(setup, b, v);
      Reached(setup, b, v) && Quiet(m, n) && Aware(setup, m, n)
      && (On(v) ==> n.tried && (closed <==> NoOpenChecks(v.s.p)))
      && (v.end.Raise? ==> Fell(n, ShutChecks) && n.tried && Raised(n, v.end.exn))
      && (On(v) ==> !Raised(n, Transport)) && LetsGo(n, v.end)
  {
    hide Honest, Recall, MayStop, MayEnd, Aware, Quiet, WithChecks, External, Record;
    var v := External(w, ShutChecks);
    if !v.end.Crash? && (v.end.Raise? ==> CheckFailure(v.end.exn)) {
      NoteConduct(setup, b, Caught(v), On(v));
      NoteCloses(w.s.p, On(v));
      AddsUp(setup, Memo(setup, b, w), Memo(setup, b, v), Memo(setup, b, CloseChecks(w).0));
    }
  }

  lemma NoteCloses(p: Progress, closed: bool)
    requires !NoOpenChecks(p)
    ensures NoOpenChecks(WithChecks(p, if closed then ChecksClosed else ChecksCloseFailed, closed)) <==> closed
  {
  }

  lemma NoteConduct(setup: Setup, b: Snapshot, w: World, closed: bool)
    requires On(w) && Keeps(setup, b, w) && Did(Memo(setup, b, w), ShutChecks)
    requires var m := Memo(setup, b, w);
      if closed then Just(m, ShutChecks) else Fault(m).Some? && CheckFailure(Fault(m).value)
    ensures var q := WithChecks(w.s.p, if closed then ChecksClosed else ChecksCloseFailed, closed);
      var v := Record(w, q);
      Went(setup, b, w, v, Write(q)) && (On(v) ==> v.s == Recorded(w.s, q))
      && (v.end.Raise? ==> v.s == w.s && v.end == Raise(WorkerError))
  {
    hide Honest, Recall, Went;
    RecordQuietly(setup, b, w, WithChecks(w.s.p, if closed then ChecksClosed else ChecksCloseFailed, closed));
  }
}
