/** GARM's table of scale sets, and what each driver method does to it. A driver method that raises changes nothing. */
module Garm {
  import opened Basics
  import opened Ledger

  /** `bootstrap` is the signed allocation installed in the set's runner bootstrap. */
  datatype ScaleSet = ScaleSet(name: Name, enabled: bool, runners: seq<string>, bootstrap: Option<Payload>)

  type Sets = map<int, ScaleSet>

  predicate Named(g: Sets, id: int, name: Name) {
    id in g && g[id].name == name
  }

  predicate Duplicated(g: Sets, name: Name) {
    exists i, j :: i in g && j in g && i != j && g[i].name == name && g[j].name == name
  }

  predicate Absent(g: Sets, name: Name) {
    forall i :: i in g ==> g[i].name != name
  }

  /** The scale set of that name, if there is one; two of them are an error. */
  ghost function Find(g: Sets, name: Name): (r: Result<Option<int>, ()>)
    ensures r.Err? <==> Duplicated(g, name)
    ensures r.Ok? && r.value.Some? ==> Named(g, r.value.value, name)
    ensures r == Ok(None) <==> Absent(g, name)
  {
    if Duplicated(g, name) then Err(())
    else if Absent(g, name) then Ok(None)
    else
      var i :| i in g && g[i].name == name;
      Ok(Some(i))
  }

  function Disable(g: Sets, id: int, name: Name): Result<Sets, ()> {
    if Named(g, id, name) then Ok(g[id := g[id].(enabled := false)]) else Err(())
  }

  /** The set of that name, disabled; created under `freshId` if it is not there. */
  ghost function EnsureDisabled(g: Sets, name: Name, freshId: int): Result<(Sets, int), ()> {
    match Find(g, name)
    case Err(_) => Err(())
    case Ok(Some(id)) => Ok((g[id := g[id].(enabled := false)], id))
    case Ok(None) =>
      if freshId < 1 || freshId in g then Err(())
      else Ok((g[freshId := ScaleSet(name, false, [], None)], freshId))
  }

  function Install(g: Sets, id: int, p: Payload): Result<Sets, ()> {
    if Named(g, id, p.identity.scaleSetName) && !g[id].enabled
    then Ok(g[id := g[id].(bootstrap := Some(p))])
    else Err(())
  }

  function Enable(g: Sets, id: int, name: Name): Result<Sets, ()> {
    if Named(g, id, name) && !g[id].enabled then Ok(g[id := g[id].(enabled := true)]) else Err(())
  }

  /** `runner` is the one registration of the enabled set. */
  predicate Claimed(g: Sets, id: int, name: Name, runner: string) {
    Named(g, id, name) && g[id].enabled && g[id].runners == [runner]
  }

  predicate Drained(g: Sets, id: int, name: Name) {
    Named(g, id, name) && !g[id].enabled && g[id].runners == []
  }

  function Delete(g: Sets, id: int, name: Name): Result<Sets, ()> {
    if Named(g, id, name) && !g[id].enabled then Ok(g - {id}) else Err(())
  }
}
