/**
 The automatic dispatcher: it plans from what GitHub lists and what the approval store holds, then applies the plan one
 action at a time while the worker goes on polling, claiming and settling approvals.
 */
module AutoDispatch {
  import opened Basics
  import opened Approvals

  type Listed = map<int, string>

  datatype Action = RevokePr(pr: int) | ApproveHead(pr: int, head: string)

  /** An approval as the planner sees it. */
  datatype Seen = Seen(pr: int, head: string, state: State)

  predicate ActiveAt(seen: seq<Seen>, pr: int, head: string) {
    exists i :: 0 <= i < |seen| && seen[i].pr == pr && seen[i].head == head && Active(seen[i].state)
  }

  predicate SettledAt(seen: seq<Seen>, pr: int, head: string) {
    exists i :: 0 <= i < |seen| && seen[i].pr == pr && seen[i].head == head && !Active(seen[i].state)
  }

  predicate Current(listed: Listed, pr: int, head: string) {
    pr in listed && listed[pr] == head
  }

  /** Some active approval of the pull request is for another head, or for one that is no longer open. */
  predicate Stale(listed: Listed, seen: seq<Seen>, pr: int) {
    exists i :: 0 <= i < |seen| && seen[i].pr == pr && Active(seen[i].state) && !Current(listed, pr, seen[i].head)
  }

  /** The head is open and has never had its turn. */
  predicate Missing(listed: Listed, seen: seq<Seen>, pr: int) {
    pr in listed && !ActiveAt(seen, pr, listed[pr]) && !SettledAt(seen, pr, listed[pr])
  }

  predicate Ascending(s: seq<int>) {
    forall i, j :: 0 <= i < j < |s| ==> s[i] < s[j]
  }

  /** GitHub reported a pull request twice. */
  predicate Twice(open: seq<(int, string)>) {
    exists i, j :: 0 <= i < j < |open| && open[i].0 == open[j].0
  }

  function Heads(open: seq<(int, string)>): Listed {
    if open == [] then map[] else Heads(open[..|open| - 1])[open[|open| - 1].0 := open[|open| - 1].1]
  }

  /** The numbers of a set in ascending order. */
  method Sorted(numbers: set<int>) returns (s: seq<int>)
    ensures Ascending(s) && forall n :: n in s <==> n in numbers
  {
    s := [];
    var rest := numbers;
    while rest != {}
      invariant rest <= numbers && Ascending(s)
      invariant forall n :: n in numbers <==> n in s || n in rest
      invariant forall n, m :: n in s && m in rest ==> n < m
      decreases |rest|
    {
      var least := Least(rest);
      forall i | 0 <= i < |s| ensures s[i] < least {
        assert s[i] in s;
      }
      s := s + [least];
      rest := rest - {least};
    }
  }

  method Least(numbers: set<int>) returns (least: int)
    requires numbers != {}
    ensures least in numbers && forall n :: n in numbers ==> least <= n
  {
    assert exists n :: n in numbers by { assert (forall n :: n !in numbers) ==> numbers == {}; }
    least :| least in numbers;
    var rest := numbers - {least};
    while rest != {}
      invariant rest <= numbers && least in numbers
      invariant forall n :: n in numbers && n !in rest ==> least <= n
      decreases |rest|
    {
      assert exists n :: n in rest by { assert (forall n :: n !in rest) ==> rest == {}; }
      var n :| n in rest;
      rest := rest - {n};
      if n < least { least := n; }
    }
  }

  /** What a plan promises: revocations first, then approvals, each in ascending order, and exactly the needed ones. */
  ghost predicate PlanFor(listed: Listed, seen: seq<Seen>, revokes: seq<int>, approves: seq<int>) {
    Ascending(revokes) && Ascending(approves)
    && (forall n :: n in revokes <==> Stale(listed, seen, n))
    && (forall n :: n in approves <==> Missing(listed, seen, n))
  }

  function Revokes(prs: seq<int>): seq<Action> {
    seq(|prs|, i requires 0 <= i < |prs| => RevokePr(prs[i]))
  }

  function HeadOf(listed: Listed, pr: int): string {
    if pr in listed then listed[pr] else ""
  }

  function Approves(listed: Listed, prs: seq<int>): seq<Action> {
    seq(|prs|, i requires 0 <= i < |prs| => ApproveHead(prs[i], HeadOf(listed, prs[i])))
  }

  lemma HeadsAreListed(open: seq<(int, string)>, i: nat)
    requires i < |open| && !Twice(open)
    ensures open[i].0 in Heads(open) && Heads(open)[open[i].0] == open[i].1
  {
    var init := open[..|open| - 1];
    if i < |init| {
      assert !Twice(init) by {
        assert forall a, b :: 0 <= a < b < |init| ==> init[a] == open[a] && init[b] == open[b];
      }
      HeadsAreListed(init, i);
      assert open[i].0 != open[|open| - 1].0;
    }
  }

  /** The planner. It refuses a listing that names a pull request twice. */
  method Plan(open: seq<(int, string)>, seen: seq<Seen>) returns (plan: Option<(Listed, seq<int>, seq<int>)>)
    ensures plan.None? <==> Twice(open)
    ensures plan.Some? ==> plan.value.0 == Heads(open) && PlanFor(plan.value.0, seen, plan.value.1, plan.value.2)
  {
    var heads: Listed := map[];
    var i := 0;
    while i < |open|
      invariant 0 <= i <= |open| && heads == Heads(open[..i]) && !Twice(open[..i])
      invariant forall n :: n in heads <==> exists k :: 0 <= k < i && open[k].0 == n
    {
      assert open[..i + 1][..i] == open[..i];
      if open[i].0 in heads { return None; }
      heads := heads[open[i].0 := open[i].1];
      i := i + 1;
    }
    assert open[..i] == open;
    var active, settled := {}, {};
    var j := 0;
    while j < |seen|
      invariant 0 <= j <= |seen|
      invariant forall n, h :: (n, h) in active <==> ActiveAt(seen[..j], n, h)
      invariant forall n, h :: (n, h) in settled <==> SettledAt(seen[..j], n, h)
    {
      var row := seen[j];
      SeenGrows(seen, j);
      if Active(row.state) {
        active := active + {(row.pr, row.head)};
      } else {
        settled := settled + {(row.pr, row.head)};
      }
      j := j + 1;
    }
    assert seen[..j] == seen;
    var stale := set a | a in active && !Current(heads, a.0, a.1) :: a.0;
    var missing := set n | n in heads && (n, heads[n]) !in active && (n, heads[n]) !in settled;
    var revokes := Sorted(stale);
    var approves := Sorted(missing);
    forall n ensures n in revokes <==> Stale(heads, seen, n) {
      StaleMeans(heads, seen, n);
      assert n in stale <==> exists h :: (n, h) in active && !Current(heads, n, h);
    }
    plan := Some((heads, revokes, approves));
  }

  lemma SeenGrows(seen: seq<Seen>, j: nat)
    requires j < |seen|
    ensures forall n, h :: ActiveAt(seen[..j + 1], n, h) <==>
      ActiveAt(seen[..j], n, h) || (n == seen[j].pr && h == seen[j].head && Active(seen[j].state))
    ensures forall n, h :: SettledAt(seen[..j + 1], n, h) <==>
      SettledAt(seen[..j], n, h) || (n == seen[j].pr && h == seen[j].head && !Active(seen[j].state))
  {
    var s, t := seen[..j], seen[..j + 1];
    assert t == s + [seen[j]];
    forall n, h | ActiveAt(s, n, h) ensures ActiveAt(t, n, h) {
      var i :| 0 <= i < |s| && s[i].pr == n && s[i].head == h && Active(s[i].state);
      assert t[i] == s[i];
    }
    forall n, h | SettledAt(s, n, h) ensures SettledAt(t, n, h) {
      var i :| 0 <= i < |s| && s[i].pr == n && s[i].head == h && !Active(s[i].state);
      assert t[i] == s[i];
    }
    assert t[j] == seen[j];
  }

  lemma StaleMeans(listed: Listed, seen: seq<Seen>, n: int)
    ensures Stale(listed, seen, n) <==> exists h :: ActiveAt(seen, n, h) && !Current(listed, n, h)
  {
    if Stale(listed, seen, n) {
      var i :| 0 <= i < |seen| && seen[i].pr == n && Active(seen[i].state) && !Current(listed, n, seen[i].head);
      assert ActiveAt(seen, n, seen[i].head);
    }
  }

  // ----- Each head is approved at most once -----

  predicate Recorded(rows: Rows, key: Key) {
    exists id :: id in rows && rows[id].key == key
  }

  /** What `status` reports of the repository: every approval, and every preflight block as a failed one. */
  ghost predicate View(rows: Rows, blocks: set<Key>, repository: string, seen: seq<Seen>) {
    (forall id :: id in rows && rows[id].key.repository == repository ==> Reported(rows[id], seen))
    && (forall k :: k in blocks && k.repository == repository ==> Seen(k.pr, k.head, Failed) in seen)
    && forall s :: s in seen ==>
         FromARow(rows, repository, s) || (Key(repository, s.pr, s.head) in blocks && s.state == Failed)
  }

  predicate Reported(row: Row, seen: seq<Seen>) {
    Seen(row.key.pr, row.key.head, row.state) in seen
  }

  predicate FromARow(rows: Rows, repository: string, s: Seen) {
    exists id :: id in rows && rows[id].key == Key(repository, s.pr, s.head) && rows[id].state == s.state
  }

  datatype World = World(rows: Rows, blocks: set<Key>, todo: seq<Action>)

  /** What one applied action is given: a fresh id, and what the resolver reports. */
  datatype Input = Input(id: string, target: Target, generation: int, now: int)

  datatype Event =
    | Replan(listed: Listed, seen: seq<Seen>, revokes: seq<int>, approves: seq<int>)
    | Do(input: Input)
    | Skip(blocked: set<Key>)
    | Other(rows: Rows)

  ghost function Act(rows: Rows, repository: string, ttl: int, a: Action, input: Input): Rows {
    match a
    case RevokePr(pr) => Revoke(rows, repository, pr)
    case ApproveHead(_, _) => Approved(rows, input.id, input.target, input.generation, input.now, ttl)
  }

  /** The resolver reports the head that was listed. */
  predicate Faithful(repository: string, a: Action, input: Input) {
    a.ApproveHead? ==> KeyOf(input.target) == Key(repository, a.pr, a.head)
  }

  /** The event can happen: a plan is made when the last one is done, from what is really there; the rest of the system
      only ages rows. */
  ghost predicate Enabled(w: World, repository: string, e: Event) {
    match e
    case Replan(listed, seen, revokes, approves) =>
      w.todo == [] && View(w.rows, w.blocks, repository, seen) && PlanFor(listed, seen, revokes, approves)
    case Do(input) => w.todo != [] && Faithful(repository, w.todo[0], input)
    case Skip(_) => w.todo != []
    case Other(rows) => StoreOk(rows) && RowsLast(w.rows, rows) && NoNewRows(w.rows, rows)
  }

  ghost function Next(w: World, repository: string, ttl: int, e: Event): World
    requires Enabled(w, repository, e)
  {
    match e
    case Replan(listed, seen, revokes, approves) =>
      w.(todo := Revokes(revokes) + Approves(listed, approves))
    case Do(input) => w.(rows := Act(w.rows, repository, ttl, w.todo[0], input), todo := w.todo[1..])
    case Skip(blocked) => w.(blocks := w.blocks + blocked, todo := w.todo[1..])
    case Other(rows) => w.(rows := rows)
  }

  lemma ApprovesAreListed(listed: Listed, seen: seq<Seen>, revokes: seq<int>, approves: seq<int>)
    requires PlanFor(listed, seen, revokes, approves)
    ensures forall n :: n in approves ==> n in listed && Missing(listed, seen, n)
  {
  }

  predicate DistinctKeys(rows: Rows) {
    forall i, j :: i in rows && j in rows && rows[i].key == rows[j].key ==> i == j
  }

  /** No head still to be approved has a row, and none is listed twice. */
  predicate TodoOk(rows: Rows, repository: string, todo: seq<Action>) {
    (forall i :: 0 <= i < |todo| && todo[i].ApproveHead? ==> !Recorded(rows, Key(repository, todo[i].pr, todo[i].head)))
    && forall i, j :: 0 <= i < j < |todo| && todo[i].ApproveHead? && todo[j].ApproveHead? ==> todo[i].pr != todo[j].pr
  }

  predicate OncePer(w: World, repository: string) {
    StoreOk(w.rows) && DistinctKeys(w.rows) && TodoOk(w.rows, repository, w.todo)
  }

  lemma AgeingKeepsOnce(before: Rows, after: Rows, repository: string, todo: seq<Action>)
    requires RowsLast(before, after) && NoNewRows(before, after) && DistinctKeys(before) && TodoOk(before, repository, todo)
    ensures DistinctKeys(after) && TodoOk(after, repository, todo)
  {
    forall i, j | i in after && j in after && after[i].key == after[j].key ensures i == j {
      assert i in before && j in before;
    }
    forall i | 0 <= i < |todo| && todo[i].ApproveHead?
      ensures !Recorded(after, Key(repository, todo[i].pr, todo[i].head))
    {
      assert !Recorded(before, Key(repository, todo[i].pr, todo[i].head));
    }
  }

  lemma PlanKeepsOnce(w: World, repository: string, ttl: int, e: Event)
    requires OncePer(w, repository) && e.Replan? && Enabled(w, repository, e)
    ensures OncePer(Next(w, repository, ttl, e), repository)
  {
    ApprovesAreListed(e.listed, e.seen, e.revokes, e.approves);
    var todo := Revokes(e.revokes) + Approves(e.listed, e.approves);
    forall i | 0 <= i < |todo| && todo[i].ApproveHead?
      ensures !Recorded(w.rows, Key(repository, todo[i].pr, todo[i].head)) && i >= |e.revokes|
        && todo[i].pr == e.approves[i - |e.revokes|]
    {
      var n := todo[i].pr;
      assert n in e.approves && todo[i].head == e.listed[n];
      RecordedMeansSeen(w.rows, w.blocks, repository, e.seen, n, e.listed[n]);
    }
  }

  lemma RecordedMeansSeen(rows: Rows, blocks: set<Key>, repository: string, seen: seq<Seen>, pr: int, head: string)
    requires View(rows, blocks, repository, seen)
    ensures Recorded(rows, Key(repository, pr, head)) ==> ActiveAt(seen, pr, head) || SettledAt(seen, pr, head)
  {
    if Recorded(rows, Key(repository, pr, head)) {
      var id :| id in rows && rows[id].key == Key(repository, pr, head);
      assert Reported(rows[id], seen);
      var i :| 0 <= i < |seen| && seen[i] == Seen(pr, head, rows[id].state);
      assert Active(seen[i].state) ==> ActiveAt(seen, pr, head);
    }
  }

  /** Approving a head that has no row adds at most that one row. */
  lemma ApprovingUnrecorded(rows: Rows, id: string, target: Target, generation: int, now: int, ttl: int)
    requires StoreOk(rows) && !Recorded(rows, KeyOf(target))
    ensures var after := Approved(rows, id, target, generation, now, ttl);
      StoreOk(after) && RowsLast(rows, after)
      && after == (if id in rows then rows else rows[id := NewRow(KeyOf(target), generation, target, now, ttl)])
  {
    var key := KeyOf(target);
    assert ActiveId(rows, key) == None;
    NoActiveNoKey(rows, key);
    InsertKeeps(rows, id, NewRow(key, generation, target, now, ttl));
  }

  lemma DoKeepsOnce(w: World, repository: string, ttl: int, input: Input)
    requires OncePer(w, repository) && Enabled(w, repository, Do(input))
    ensures OncePer(Next(w, repository, ttl, Do(input)), repository)
  {
    hide StoreOk, RowsLast, NoNewRows, Approved;
    var a, rest := w.todo[0], w.todo[1..];
    TodoRest(w.rows, repository, w.todo);
    if a.RevokePr? {
      RevokeKeeps(w.rows, repository, a.pr);
      AgeingKeepsOnce(w.rows, Revoke(w.rows, repository, a.pr), repository, rest);
    } else {
      ApprovingUnrecorded(w.rows, input.id, input.target, input.generation, input.now, ttl);
    }
  }

  lemma TodoRest(rows: Rows, repository: string, todo: seq<Action>)
    requires TodoOk(rows, repository, todo) && todo != []
    ensures TodoOk(rows, repository, todo[1..])
    ensures todo[0].ApproveHead? ==>
      forall i :: 0 <= i < |todo[1..]| && todo[1..][i].ApproveHead? ==> todo[1..][i].pr != todo[0].pr
  {
    assert forall i :: 0 <= i < |todo[1..]| ==> todo[1..][i] == todo[i + 1];
  }

  /** A run of enabled events. */
  ghost predicate Run(w: World, repository: string, ttl: int, events: seq<Event>, last: World)
    decreases |events|
  {
    if events == [] then last == w
    else Enabled(w, repository, events[0]) && Run(Next(w, repository, ttl, events[0]), repository, ttl, events[1..], last)
  }

  /** Over any sequence of polls, with the worker, the operator's revocations and the TTL sweeps in between, no two
      approvals are ever made for one head. */
  lemma {:induction false} ApprovedAtMostOnce(w: World, repository: string, ttl: int, events: seq<Event>, last: World)
    requires OncePer(w, repository) && Run(w, repository, ttl, events, last)
    ensures OncePer(last, repository)
    ensures forall i, j :: i in last.rows && j in last.rows && last.rows[i].key == last.rows[j].key ==> i == j
    decreases |events|
  {
    if events != [] {
      hide StoreOk, RowsLast, NoNewRows, Approved, View, PlanFor;
      var e := events[0];
      match e {
        case Replan(_, _, _, _) => PlanKeepsOnce(w, repository, ttl, e);
        case Do(input) => DoKeepsOnce(w, repository, ttl, input);
        case Skip(_) => TodoRest(w.rows, repository, w.todo);
        case Other(rows) => AgeingKeepsOnce(w.rows, rows, repository, w.todo);
      }
      ApprovedAtMostOnce(Next(w, repository, ttl, e), repository, ttl, events[1..], last);
    }
  }

  // ----- A plan that was applied leaves nothing to plan -----

  ghost function ApplyAll(rows: Rows, repository: string, ttl: int, todo: seq<Action>, inputs: seq<Input>): Rows
    requires |inputs| == |todo|
    decreases |todo|
  {
    if todo == [] then rows
    else ApplyAll(Act(rows, repository, ttl, todo[0], inputs[0]), repository, ttl, todo[1..], inputs[1..])
  }

  /** Every action succeeds: the resolver reports the listed head, and every approval gets an id of its own. */
  predicate AllFaithful(rows: Rows, repository: string, todo: seq<Action>, inputs: seq<Input>) {
    |inputs| == |todo|
    && (forall i :: 0 <= i < |todo| ==> Faithful(repository, todo[i], inputs[i]) && inputs[i].id !in rows)
    && forall i, j :: 0 <= i < j < |inputs| ==> inputs[i].id != inputs[j].id
  }

  /** Where the store stands with `todo` left of a plan made on `first`. */
  ghost predicate Halfway(first: Rows, rows: Rows, repository: string, listed: Listed, gone: iset<int>, todo: seq<Action>) {
    StoreOk(rows) && RowsLast(first, rows) && TodoOk(rows, repository, todo)
    && (forall id :: id in rows && rows[id].key.repository == repository && Active(rows[id].state) ==>
          Current(listed, rows[id].key.pr, rows[id].key.head)
          || (ActiveFor(first, id, rows[id].key) && rows[id].key.pr !in gone))
  }

  ghost function Gone(todo: seq<Action>): iset<int> {
    iset n | RevokePr(n) in todo
  }

  predicate ListedApproves(listed: Listed, todo: seq<Action>) {
    forall i :: 0 <= i < |todo| && todo[i].ApproveHead? ==> Current(listed, todo[i].pr, todo[i].head)
  }

  predicate RevokesFirst(todo: seq<Action>) {
    forall i, j :: 0 <= i < j < |todo| && todo[j].RevokePr? ==> todo[i].RevokePr?
  }

  lemma RevokeHalfway(first: Rows, rows: Rows, repository: string, listed: Listed, gone: iset<int>, todo: seq<Action>)
    requires todo != [] && todo[0].RevokePr? && Halfway(first, rows, repository, listed, gone, todo)
    ensures Halfway(first, Revoke(rows, repository, todo[0].pr), repository, listed, gone + iset{todo[0].pr}, todo[1..])
  {
    var after := Revoke(rows, repository, todo[0].pr);
    TodoRest(rows, repository, todo);
    RevokeKeeps(rows, repository, todo[0].pr);
    LastTransitive(first, rows, after);
    forall i | 0 <= i < |todo[1..]| && todo[1..][i].ApproveHead?
      ensures !Recorded(after, Key(repository, todo[1..][i].pr, todo[1..][i].head))
    {
      assert !Recorded(rows, Key(repository, todo[1..][i].pr, todo[1..][i].head));
    }
  }

  lemma LastTransitive(a: Rows, b: Rows, c: Rows)
    requires RowsLast(a, b) && RowsLast(b, c)
    ensures RowsLast(a, c)
  {
  }

  lemma ApproveHalfway(first: Rows, rows: Rows, repository: string, ttl: int, listed: Listed, gone: iset<int>,
                       todo: seq<Action>, input: Input)
    requires todo != [] && todo[0].ApproveHead? && Halfway(first, rows, repository, listed, gone, todo)
    requires Current(listed, todo[0].pr, todo[0].head) && Faithful(repository, todo[0], input) && input.id !in rows
    ensures var after := Act(rows, repository, ttl, todo[0], input);
      Halfway(first, after, repository, listed, gone, todo[1..])
      && after.Keys == rows.Keys + {input.id} && HasActive(after, Key(repository, todo[0].pr, todo[0].head))
      && (forall id :: id in rows ==> after[id] == rows[id])
  {
    hide StoreOk, Approved;
    var after := Act(rows, repository, ttl, todo[0], input);
    TodoRest(rows, repository, todo);
    ApprovingUnrecorded(rows, input.id, input.target, input.generation, input.now, ttl);
    assert ActiveFor(after, input.id, Key(repository, todo[0].pr, todo[0].head));
    LastTransitive(first, rows, after);
  }

  lemma {:induction false} AppliedHalfway(first: Rows, rows: Rows, repository: string, ttl: int, listed: Listed,
                                         gone: iset<int>, todo: seq<Action>, inputs: seq<Input>)
    requires Halfway(first, rows, repository, listed, gone, todo) && AllFaithful(rows, repository, todo, inputs)
    requires ListedApproves(listed, todo) && RevokesFirst(todo)
    ensures var last := ApplyAll(rows, repository, ttl, todo, inputs);
      Halfway(first, last, repository, listed, gone + Gone(todo), [])
      && (forall i :: 0 <= i < |todo| && todo[i].ApproveHead? ==> HasActive(last, Key(repository, todo[i].pr, todo[i].head)))
      && (todo == [] || todo[0].ApproveHead? ==> forall id :: id in rows ==> id in last && last[id] == rows[id])
    decreases |todo|
  {
    hide Halfway, HasActive, Act, StoreOk;
    if todo == [] {
      assert gone + Gone(todo) == gone;
    } else {
      var rest, after := todo[1..], Act(rows, repository, ttl, todo[0], inputs[0]);
      assert forall i :: 0 <= i < |rest| ==> rest[i] == todo[i + 1] && inputs[1..][i] == inputs[i + 1];
      if todo[0].RevokePr? {
        RevokeHalfway(first, rows, repository, listed, gone, todo);
        assert after == Revoke(rows, repository, todo[0].pr) by { ActRevokes(rows, repository, ttl, todo[0], inputs[0]); }
        AppliedHalfway(first, after, repository, ttl, listed, gone + iset{todo[0].pr}, rest, inputs[1..]);
        assert gone + iset{todo[0].pr} + Gone(rest) == gone + Gone(todo) by { GoneSplits(todo); }
      } else {
        ApproveHalfway(first, rows, repository, ttl, listed, gone, todo, inputs[0]);
        AppliedHalfway(first, after, repository, ttl, listed, gone, rest, inputs[1..]);
        assert Gone(rest) == Gone(todo) by { GoneSplits(todo); }
        var last := ApplyAll(rows, repository, ttl, todo, inputs);
        HoldsOn(after, last, Key(repository, todo[0].pr, todo[0].head));
      }
    }
  }

  lemma ActRevokes(rows: Rows, repository: string, ttl: int, a: Action, input: Input)
    requires a.RevokePr?
    ensures Act(rows, repository, ttl, a, input) == Revoke(rows, repository, a.pr)
  {
  }

  lemma HoldsOn(rows: Rows, last: Rows, key: Key)
    requires HasActive(rows, key) && forall id :: id in rows ==> id in last && last[id] == rows[id]
    ensures HasActive(last, key)
  {
    var id :| ActiveFor(rows, id, key);
    assert ActiveFor(last, id, key);
  }

  lemma GoneSplits(todo: seq<Action>)
    requires todo != []
    ensures todo[0].RevokePr? ==> Gone(todo) == iset{todo[0].pr} + Gone(todo[1..])
    ensures todo[0].ApproveHead? ==> Gone(todo) == Gone(todo[1..])
  {
    assert todo == [todo[0]] + todo[1..];
  }

  /** Planning again from what an applied plan left behind yields no action: no active approval is stale, and every open
      head has had, or has, its turn. */
  lemma ReplanningIsIdle(rows: Rows, blocks: set<Key>, repository: string, ttl: int, listed: Listed, seen: seq<Seen>,
                         revokes: seq<int>, approves: seq<int>, inputs: seq<Input>, later: seq<Seen>)
    requires StoreOk(rows) && View(rows, blocks, repository, seen) && PlanFor(listed, seen, revokes, approves)
    requires AllFaithful(rows, repository, Revokes(revokes) + Approves(listed, approves), inputs)
    requires var last := ApplyAll(rows, repository, ttl, Revokes(revokes) + Approves(listed, approves), inputs);
      View(last, blocks, repository, later)
    ensures forall n :: !Stale(listed, later, n) && !Missing(listed, later, n)
  {
    hide StoreOk, Approved, ApplyAll;
    var todo := Revokes(revokes) + Approves(listed, approves);
    var last := ApplyAll(rows, repository, ttl, todo, inputs);
    PlanIsHalfway(rows, blocks, repository, ttl, listed, seen, revokes, approves);
    AppliedHalfway(rows, rows, repository, ttl, listed, iset{}, todo, inputs);
    forall n ensures !Stale(listed, later, n) {
      NothingStale(rows, last, blocks, repository, listed, seen, later, revokes, todo, n);
    }
    forall n ensures !Missing(listed, later, n) {
      if n in listed {
        if n in approves {
          var k :| 0 <= k < |approves| && approves[k] == n;
          assert todo[|revokes| + k] == ApproveHead(n, listed[n]);
        }
        NothingMissing(rows, last, blocks, repository, listed, seen, later, n);
      }
    }
  }

  lemma PlanIsHalfway(rows: Rows, blocks: set<Key>, repository: string, ttl: int, listed: Listed, seen: seq<Seen>,
                      revokes: seq<int>, approves: seq<int>)
    requires StoreOk(rows) && View(rows, blocks, repository, seen) && PlanFor(listed, seen, revokes, approves)
    ensures var todo := Revokes(revokes) + Approves(listed, approves);
      Halfway(rows, rows, repository, listed, iset{}, todo) && ListedApproves(listed, todo) && RevokesFirst(todo)
      && Gone(todo) == iset n | n in revokes
  {
    hide StoreOk;
    var todo := Revokes(revokes) + Approves(listed, approves);
    forall i | 0 <= i < |todo| && todo[i].ApproveHead?
      ensures !Recorded(rows, Key(repository, todo[i].pr, todo[i].head)) && i >= |revokes|
        && Current(listed, todo[i].pr, todo[i].head)
    {
      assert todo[i].pr == approves[i - |revokes|];
      RecordedMeansSeen(rows, blocks, repository, seen, todo[i].pr, todo[i].head);
      assert todo[i].pr in approves && Missing(listed, seen, todo[i].pr);
    }
    forall n ensures RevokePr(n) in todo <==> n in revokes {
      if n in revokes {
        var k :| 0 <= k < |revokes| && revokes[k] == n;
        assert todo[k] == RevokePr(n);
      }
    }
  }

  lemma NothingStale(rows: Rows, last: Rows, blocks: set<Key>, repository: string, listed: Listed, seen: seq<Seen>,
                     later: seq<Seen>, revokes: seq<int>, todo: seq<Action>, n: int)
    requires View(rows, blocks, repository, seen) && View(last, blocks, repository, later)
    requires Halfway(rows, last, repository, listed, iset{} + Gone(todo), [])
    requires Gone(todo) == (iset m | m in revokes) && (n in revokes <==> Stale(listed, seen, n))
    ensures !Stale(listed, later, n)
  {
    hide StoreOk, RowsLast;
    forall i | 0 <= i < |later| && later[i].pr == n && Active(later[i].state)
      ensures Current(listed, n, later[i].head)
    {
      assert later[i] in later;
      var id :| id in last && last[id].key == Key(repository, n, later[i].head) && last[id].state == later[i].state;
      if ActiveFor(rows, id, last[id].key) && n !in revokes {
        assert Reported(rows[id], seen);
        var k :| 0 <= k < |seen| && seen[k] == Seen(n, later[i].head, rows[id].state);
      }
    }
  }

  lemma NothingMissing(rows: Rows, last: Rows, blocks: set<Key>, repository: string, listed: Listed, seen: seq<Seen>,
                       later: seq<Seen>, n: int)
    requires View(rows, blocks, repository, seen) && View(last, blocks, repository, later) && RowsLast(rows, last)
    requires n in listed
    requires Missing(listed, seen, n) ==> HasActive(last, Key(repository, n, listed[n]))
    ensures !Missing(listed, later, n)
  {
    var key := Key(repository, n, listed[n]);
    RecordedMeansSeen(last, blocks, repository, later, n, listed[n]);
    if Missing(listed, seen, n) {
      var id :| ActiveFor(last, id, key);
      assert Recorded(last, key);
    } else {
      var i :| 0 <= i < |seen| && seen[i].pr == n && seen[i].head == listed[n];
      assert seen[i] in seen;
      if FromARow(rows, repository, seen[i]) {
        var id :| id in rows && rows[id].key == key && rows[id].state == seen[i].state;
        assert id in last && last[id].key == key;
      } else {
        assert Seen(n, listed[n], Failed) in later;
        var k :| 0 <= k < |later| && later[k] == Seen(n, listed[n], Failed);
        assert SettledAt(later, n, listed[n]);
      }
    }
  }

  // ----- What a plan does to a head that is approved already -----

  /** The revocation names only the pull request, so the current head loses its approval together with the stale one;
      the same plan does not give it back, and no later one will. */
  lemma RevocationTakesTheCurrentHead(rows: Rows, repository: string, listed: Listed, seen: seq<Seen>,
                                      revokes: seq<int>, approves: seq<int>, n: int, id: string)
    requires PlanFor(listed, seen, revokes, approves) && Stale(listed, seen, n)
    requires n in listed && ActiveAt(seen, n, listed[n]) && ActiveFor(rows, id, Key(repository, n, listed[n]))
    ensures n in revokes && n !in approves
    ensures id in Revoke(rows, repository, n) && !Active(Revoke(rows, repository, n)[id].state)
    ensures forall blocks, later :: View(Revoke(rows, repository, n), blocks, repository, later) ==>
      !Missing(listed, later, n)
  {
    var after := Revoke(rows, repository, n);
    forall blocks, later | View(after, blocks, repository, later) ensures !Missing(listed, later, n) {
      assert id in after && after[id].key == Key(repository, n, listed[n]);
      RecordedMeansSeen(after, blocks, repository, later, n, listed[n]);
    }
  }

  lemma RevokeDecides(rows: Rows, repository: string, pr: int, id: string)
    requires id in rows && rows[id].key.repository == repository
    ensures var after := Revoke(rows, repository, pr);
      after.Keys == rows.Keys && after[id].key == rows[id].key
      && (Active(after[id].state) <==> Active(rows[id].state) && rows[id].key.pr != pr)
  {
  }

  lemma FaithfulRest(rows: Rows, after: Rows, repository: string, listed: Listed, todo: seq<Action>, inputs: seq<Input>)
    requires AllFaithful(rows, repository, todo, inputs) && ListedApproves(listed, todo) && todo != []
    requires forall id :: id in after ==> id in rows || id == inputs[0].id
    ensures AllFaithful(after, repository, todo[1..], inputs[1..]) && ListedApproves(listed, todo[1..])
  {
    hide Faithful;
    assert forall i :: 0 <= i < |todo[1..]| ==> todo[1..][i] == todo[i + 1] && inputs[1..][i] == inputs[i + 1];
  }

  lemma FaithfulFirst(rows: Rows, repository: string, listed: Listed, todo: seq<Action>, inputs: seq<Input>)
    requires AllFaithful(rows, repository, todo, inputs) && ListedApproves(listed, todo) && todo != []
    ensures Faithful(repository, todo[0], inputs[0]) && inputs[0].id !in rows
    ensures todo[0].ApproveHead? ==> Current(listed, todo[0].pr, todo[0].head)
  {
  }

  /** An active approval survives a plan's actions exactly when the plan does not revoke its pull request. */
  lemma {:induction false} SurvivesUnlessRevoked(first: Rows, rows: Rows, repository: string, ttl: int, listed: Listed,
                                                gone: iset<int>, todo: seq<Action>, inputs: seq<Input>, id: string)
    requires Halfway(first, rows, repository, listed, gone, todo) && AllFaithful(rows, repository, todo, inputs)
    requires ListedApproves(listed, todo) && id in rows && rows[id].key.repository == repository
    ensures var last := ApplyAll(rows, repository, ttl, todo, inputs);
      id in last && (Active(last[id].state) <==> Active(rows[id].state) && RevokePr(rows[id].key.pr) !in todo)
    decreases |todo|
  {
    hide Halfway, Act, StoreOk, HasActive, Revoke, Faithful, ListedApproves, Current;
    if todo != [] {
      var rest, after := todo[1..], Act(rows, repository, ttl, todo[0], inputs[0]);
      assert todo == [todo[0]] + rest;
      FaithfulFirst(rows, repository, listed, todo, inputs);
      var lost := gone;
      if todo[0].RevokePr? {
        RevokeHalfway(first, rows, repository, listed, gone, todo);
        ActRevokes(rows, repository, ttl, todo[0], inputs[0]);
        RevokeDecides(rows, repository, todo[0].pr, id);
        lost := gone + iset{todo[0].pr};
      } else {
        ApproveHalfway(first, rows, repository, ttl, listed, gone, todo, inputs[0]);
      }
      assert forall i :: i in after ==> i in rows || i == inputs[0].id;
      FaithfulRest(rows, after, repository, listed, todo, inputs);
      hide AllFaithful;
      SurvivesUnlessRevoked(first, after, repository, ttl, listed, lost, rest, inputs[1..], id);
    }
  }

  /** Applied in full, a plan ends the approval of a listed head exactly when the pull request also has a stale one. */
  lemma ListedApprovalEndsIff(rows: Rows, blocks: set<Key>, repository: string, ttl: int, listed: Listed,
                              seen: seq<Seen>, revokes: seq<int>, approves: seq<int>, inputs: seq<Input>, n: int, id: string)
    requires StoreOk(rows) && View(rows, blocks, repository, seen) && PlanFor(listed, seen, revokes, approves)
    requires AllFaithful(rows, repository, Revokes(revokes) + Approves(listed, approves), inputs)
    requires n in listed && ActiveFor(rows, id, Key(repository, n, listed[n]))
    ensures var last := ApplyAll(rows, repository, ttl, Revokes(revokes) + Approves(listed, approves), inputs);
      id in last && (!Active(last[id].state) <==> Stale(listed, seen, n))
  {
    hide StoreOk, ApplyAll, View, Halfway, AllFaithful;
    var todo := Revokes(revokes) + Approves(listed, approves);
    PlanIsHalfway(rows, blocks, repository, ttl, listed, seen, revokes, approves);
    SurvivesUnlessRevoked(rows, rows, repository, ttl, listed, iset{}, todo, inputs, id);
    assert RevokePr(n) in todo <==> n in Gone(todo);
  }

  // ----- Such a head is reachable -----

  const REPOSITORY := "owner/repo"

  function TargetAt(head: string): Target {
    Target("1", REPOSITORY, 7, head, "main", "workflow", "base", "merge")
  }

  function InputAt(id: string, head: string): Input {
    Input(id, TargetAt(head), 1, 0)
  }

  function PendingAt(head: string, ttl: int): Row {
    NewRow(KeyOf(TargetAt(head)), 1, TargetAt(head), 0, ttl)
  }

  const OLDER: Listed := map[7 := "h0"]
  const NEWER: Listed := map[7 := "h1"]
  const BOTH := [Seen(7, "h0", Pending), Seen(7, "h1", Pending)]

  /** The older head is approved; the revocation that a new commit calls for fails and is skipped; and the new head is
      approved. */
  const TWO_HEADS := [
    Replan(OLDER, [], [], [7]), Do(InputAt("a", "h0")),
    Replan(NEWER, [Seen(7, "h0", Pending)], [7], [7]), Skip({}), Do(InputAt("b", "h1"))]

  /** The next poll revokes the pull request. */
  const NEXT_POLL := [Replan(NEWER, BOTH, [7], []), Do(InputAt("c", "h1"))]

  function RowsOf(second: bool, ttl: int): Rows {
    if second then map["a" := PendingAt("h0", ttl), "b" := PendingAt("h1", ttl)] else map["a" := PendingAt("h0", ttl)]
  }

  lemma FirstApproval(ttl: int)
    ensures Act(map[], REPOSITORY, ttl, ApproveHead(7, "h0"), InputAt("a", "h0")) == RowsOf(false, ttl)
  {
    ApprovingUnrecorded(map[], "a", TargetAt("h0"), 1, 0, ttl);
  }

  lemma SecondApproval(ttl: int)
    ensures Act(RowsOf(false, ttl), REPOSITORY, ttl, ApproveHead(7, "h1"), InputAt("b", "h1")) == RowsOf(true, ttl)
  {
    assert StoreOk(RowsOf(false, ttl));
    ApprovingUnrecorded(RowsOf(false, ttl), "b", TargetAt("h1"), 1, 0, ttl);
  }

  lemma OlderPlan()
    ensures View(map[], {}, REPOSITORY, []) && PlanFor(OLDER, [], [], [7])
    ensures Revokes([]) + Approves(OLDER, [7]) == [ApproveHead(7, "h0")]
  {
  }

  lemma NewerPlan(ttl: int)
    ensures View(RowsOf(false, ttl), {}, REPOSITORY, [Seen(7, "h0", Pending)])
    ensures PlanFor(NEWER, [Seen(7, "h0", Pending)], [7], [7])
    ensures Revokes([7]) + Approves(NEWER, [7]) == [RevokePr(7), ApproveHead(7, "h1")]
  {
    var seen := [Seen(7, "h0", Pending)];
    assert seen[0].pr == 7 && Active(seen[0].state) && !Current(NEWER, 7, seen[0].head);
    assert Stale(NEWER, seen, 7) && Missing(NEWER, seen, 7);
    assert Seen(7, "h0", Pending) in seen;
    assert FromARow(RowsOf(false, ttl), REPOSITORY, seen[0]) by { assert "a" in RowsOf(false, ttl); }
  }

  lemma LastPlan(ttl: int)
    ensures View(RowsOf(true, ttl), {}, REPOSITORY, BOTH) && PlanFor(NEWER, BOTH, [7], [])
    ensures Revokes([7]) + Approves(NEWER, []) == [RevokePr(7)]
  {
    hide View;
    LastView(ttl);
    assert BOTH[0].pr == 7 && Active(BOTH[0].state) && !Current(NEWER, 7, BOTH[0].head);
    assert Stale(NEWER, BOTH, 7);
    assert BOTH[1].pr == 7 && BOTH[1].head == "h1" && Active(BOTH[1].state);
    assert ActiveAt(BOTH, 7, "h1");
  }

  lemma LastView(ttl: int)
    ensures View(RowsOf(true, ttl), {}, REPOSITORY, BOTH)
  {
    assert "a" in RowsOf(true, ttl) && "b" in RowsOf(true, ttl);
    assert FromARow(RowsOf(true, ttl), REPOSITORY, BOTH[0]) && FromARow(RowsOf(true, ttl), REPOSITORY, BOTH[1]);
  }

  lemma RunTakes(w: World, ttl: int, e: Event, rest: seq<Event>, next: World, last: World)
    requires Enabled(w, REPOSITORY, e) && Next(w, REPOSITORY, ttl, e) == next && Run(next, REPOSITORY, ttl, rest, last)
    ensures Run(w, REPOSITORY, ttl, [e] + rest, last)
  {
    hide Enabled, Next;
    assert ([e] + rest)[1..] == rest;
  }

  lemma FirstHeadApproved(ttl: int, rest: seq<Event>, last: World)
    requires Run(World(RowsOf(false, ttl), {}, []), REPOSITORY, ttl, rest, last)
    ensures Run(World(map[], {}, []), REPOSITORY, ttl, TWO_HEADS[..2] + rest, last)
  {
    hide View, PlanFor, Revokes, Approves, Act, Run;
    OlderPlan();
    FirstApproval(ttl);
    var w0, w1, w2 := World(map[], {}, []), World(map[], {}, [ApproveHead(7, "h0")]), World(RowsOf(false, ttl), {}, []);
    assert w1.todo[1..] == [];
    RunTakes(w1, ttl, Do(InputAt("a", "h0")), rest, w2, last);
    RunTakes(w0, ttl, Replan(OLDER, [], [], [7]), [Do(InputAt("a", "h0"))] + rest, w1, last);
    assert TWO_HEADS[..2] + rest == [Replan(OLDER, [], [], [7])] + ([Do(InputAt("a", "h0"))] + rest);
  }

  lemma SecondHeadApproved(ttl: int)
    ensures Run(World(RowsOf(false, ttl), {}, []), REPOSITORY, ttl, TWO_HEADS[2..], World(RowsOf(true, ttl), {}, []))
  {
    hide View, PlanFor, Revokes, Approves, Act, Run;
    NewerPlan(ttl);
    SecondApproval(ttl);
    var w2, w3 := World(RowsOf(false, ttl), {}, []), World(RowsOf(false, ttl), {}, [RevokePr(7), ApproveHead(7, "h1")]);
    var w4, w5 := World(RowsOf(false, ttl), {}, [ApproveHead(7, "h1")]), World(RowsOf(true, ttl), {}, []);
    assert w3.todo[1..] == w4.todo && w4.todo[1..] == [] && w3.blocks + {} == {};
    var e2, e4 := Replan(NEWER, [Seen(7, "h0", Pending)], [7], [7]), Do(InputAt("b", "h1"));
    RunEnds(w5, ttl);
    RunTakes(w4, ttl, e4, [], w5, w5);
    RunTakes(w3, ttl, Skip({}), [e4] + [], w4, w5);
    RunTakes(w2, ttl, e2, [Skip({})] + ([e4] + []), w3, w5);
    assert TWO_HEADS[2..] == [e2] + ([Skip({})] + ([e4] + []));
  }

  lemma RunEnds(w: World, ttl: int)
    ensures Run(w, REPOSITORY, ttl, [], w)
  {
  }

  lemma PollRevokesBoth(ttl: int)
    ensures Run(World(RowsOf(true, ttl), {}, []), REPOSITORY, ttl, NEXT_POLL,
                World(Revoke(RowsOf(true, ttl), REPOSITORY, 7), {}, []))
  {
    hide View, PlanFor, Revokes, Approves, Run, Revoke;
    LastPlan(ttl);
    var w5, w6 := World(RowsOf(true, ttl), {}, []), World(RowsOf(true, ttl), {}, [RevokePr(7)]);
    var w7 := World(Revoke(RowsOf(true, ttl), REPOSITORY, 7), {}, []);
    assert w6.todo[1..] == [];
    RunEnds(w7, ttl);
    RunTakes(w6, ttl, Do(InputAt("c", "h1")), [], w7, w7);
    RunTakes(w5, ttl, Replan(NEWER, BOTH, [7], []), [Do(InputAt("c", "h1"))] + [], w6, w7);
    assert NEXT_POLL == [Replan(NEWER, BOTH, [7], [])] + ([Do(InputAt("c", "h1"))] + []);
  }

  /** Two heads of one pull request can be approved at once, and the next poll takes the open one's approval away. */
  lemma CurrentHeadIsLost(ttl: int)
    ensures var before, after := RowsOf(true, ttl), Revoke(RowsOf(true, ttl), REPOSITORY, 7);
      Run(World(map[], {}, []), REPOSITORY, ttl, TWO_HEADS, World(before, {}, []))
      && Run(World(before, {}, []), REPOSITORY, ttl, NEXT_POLL, World(after, {}, []))
      && ActiveFor(before, "a", Key(REPOSITORY, 7, "h0")) && ActiveFor(before, "b", Key(REPOSITORY, 7, "h1"))
      && Current(NEWER, 7, "h1") && !Active(after["b"].state)
  {
    hide Run;
    SecondHeadApproved(ttl);
    FirstHeadApproved(ttl, TWO_HEADS[2..], World(RowsOf(true, ttl), {}, []));
    assert TWO_HEADS[..2] + TWO_HEADS[2..] == TWO_HEADS;
    PollRevokesBoth(ttl);
  }
}
