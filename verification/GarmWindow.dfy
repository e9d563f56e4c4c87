/**
 What is atomic about a GARM driver call, and what is not.

 A mutation shows the scale set, then runs a command that knows the set by its id only, then (but for a deletion) shows
 it again. The broker's step machine takes the three as one step. Here the table may change between them: `shown` is
 what the first look sees, `met` what the command meets, `seen` what the second look sees.
 */
module GarmWindow {
  import opened Basics
  import opened Ledger
  import opened Garm
  import opened BrokerRuns

  datatype Command = ToDisable | ToEnable | ToDelete | ToInstall(p: Payload)

  /** The set is the expected one, and in the expected state when one is expected. */
  predicate ShowsExact(g: Sets, id: int, name: Name, enabled: Option<bool>) {
    Named(g, id, name) && (enabled.Some? ==> g[id].enabled == enabled.value)
  }

  /** What the first look insists on. */
  function Needs(c: Command): Option<bool> {
    if c.ToDisable? then None else Some(false)
  }

  /** What the second look insists on. */
  predicate Confirms(g: Sets, id: int, name: Name, c: Command) {
    match c
    case ToDisable => ShowsExact(g, id, name, Some(false))
    case ToEnable => ShowsExact(g, id, name, Some(true))
    case ToDelete => true
    case ToInstall(p) => ShowsExact(g, id, name, Some(false)) && g[id].bootstrap == Some(p)
  }

  /** The command itself: it acts on whatever carries the id. */
  function Act(g: Sets, id: int, c: Command): Sets {
    if id !in g then g
    else
      match c
      case ToDisable => g[id := g[id].(enabled := false)]
      case ToEnable => g[id := g[id].(enabled := true)]
      case ToDelete => g - {id}
      case ToInstall(p) => g[id := g[id].(bootstrap := Some(p))]
  }

  /** What the command leaves of the table it met, and whether the driver method returns. */
  function Mutate(shown: Sets, met: Sets, seen: Sets, id: int, name: Name, c: Command): (Sets, bool) {
    if !ShowsExact(shown, id, name, Needs(c)) then (met, false)
    else (Act(met, id, c), id in met && Confirms(seen, id, name, c))
  }

  /** With nothing in between, the three pieces are the one step of the step machine. */
  lemma UndisturbedIsAtomic(g: Sets, id: int, name: Name, p: Payload)
    requires p.identity.scaleSetName == name
    ensures forall c: Command ::
      (c.ToInstall? ==> c.p == p) ==>
        var (after, returned) := Mutate(g, g, Act(g, id, c), id, name, c);
        var step := match c
          case ToDisable => Disable(g, id, name)
          case ToEnable => Enable(g, id, name)
          case ToDelete => Delete(g, id, name)
          case ToInstall(q) => Install(g, id, p);
        (returned <==> step.Ok?) && after == if step.Ok? then step.value else g
  {
  }

  /** The command would change the set that carries the id. */
  predicate Changes(g: Sets, id: int, c: Command) {
    id in g && Act(g, id, c) != g
  }

  /** A mutation changes another name's scale set exactly when its own set was there at the first look, and the id had
      been given to another name by the time the command ran. */
  lemma StrayIff(shown: Sets, met: Sets, seen: Sets, id: int, name: Name, c: Command)
    ensures !SameElsewhere(met, Mutate(shown, met, seen, id, name, c).0, name) <==>
      ShowsExact(shown, id, name, Needs(c)) && Changes(met, id, c) && met[id].name != name
  {
    var after := Mutate(shown, met, seen, id, name, c).0;
    if ShowsExact(shown, id, name, Needs(c)) && Changes(met, id, c) && met[id].name != name {
      if id in after {
        ChangedAt(met, id, c);
      }
    }
  }

  lemma ChangedAt(g: Sets, id: int, c: Command)
    requires Changes(g, id, c)
    ensures id in Act(g, id, c) ==> Act(g, id, c)[id] != g[id]
  {
    assert g[id := g[id]] == g;
  }

  /** The second look finds out: a command that met another name's set is reported by an exception, once it has acted,
      as long as that set keeps the id. A deletion has no second look. */
  lemma StrayIsReported(shown: Sets, met: Sets, seen: Sets, id: int, name: Name, c: Command)
    requires id in met && met[id].name != name && id in seen && seen[id].name == met[id].name && !c.ToDelete?
    ensures !Mutate(shown, met, seen, id, name, c).1
  {
  }

  // ----- When the window is harmless -----

  /** GARM between two commands of the broker: sets come and go, but an id is handed out only once. */
  datatype Table = Table(sets: Sets, next: int)

  predicate Turns(t: Table, u: Table) {
    t.next <= u.next
    && (forall i :: i in u.sets ==> i < u.next)
    && forall i :: i in u.sets && i < t.next ==> i in t.sets && u.sets[i].name == t.sets[i].name
  }

  predicate History(h: seq<Table>) {
    h != [] && (forall i :: i in h[0].sets ==> i < h[0].next) && forall k :: 0 <= k < |h| - 1 ==> Turns(h[k], h[k + 1])
  }

  lemma {:induction false} IdsKeepTheirName(h: seq<Table>, n: nat, id: int)
    requires History(h) && n < |h| && id in h[n].sets && id < h[0].next
    ensures id in h[0].sets && h[n].sets[id].name == h[0].sets[id].name
    decreases n
  {
    if n > 0 {
      assert Turns(h[n - 1], h[n]);
      NextGrows(h, n - 1);
      IdsKeepTheirName(h, n - 1, id);
    }
  }

  lemma {:induction false} NextGrows(h: seq<Table>, n: nat)
    requires History(h) && n < |h|
    ensures h[0].next <= h[n].next
    decreases n
  {
    if n > 0 {
      assert Turns(h[n - 1], h[n]);
      NextGrows(h, n - 1);
    }
  }

  /** If ids are never handed out twice, the window is harmless, however long it is. */
  lemma FreshIdsAreSafe(h: seq<Table>, n: nat, seen: Sets, id: int, name: Name, c: Command)
    requires History(h) && n < |h|
    ensures SameElsewhere(h[n].sets, Mutate(h[0].sets, h[n].sets, seen, id, name, c).0, name)
  {
    StrayIff(h[0].sets, h[n].sets, seen, id, name, c);
    if ShowsExact(h[0].sets, id, name, Needs(c)) && id in h[n].sets { IdsKeepTheirName(h, n, id); }
  }

  /** If they are, it is not: the set is deleted and its id given away between look and command, and the driver deletes
      the other name's set without noticing. */
  lemma ReusedIdIsDeleted(id: int, name: Name, other: Name)
    requires name != other
    ensures var shown, met := map[id := ScaleSet(name, false, [], None)], map[id := ScaleSet(other, false, [], None)];
      Mutate(shown, met, map[], id, name, ToDelete) == (map[], true)
      && !SameElsewhere(met, map[], name)
  {
    var met := map[id := ScaleSet(other, false, [], None)];
    assert (met - {id}).Keys == {};
    assert id in met && met[id].name != name;
  }
}
