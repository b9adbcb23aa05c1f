/** The action wheel shown beside the selected unit. */
module ActionWheel {
  import opened Wrappers
  import opened Units

  /** The actions offered for the selected unit: `move` always, `pila_toss`
      for hastati that have not used their ability; nothing without a unit. */
  function OfferedActions(selectedUnit: Option<Unit>): (r: seq<string>)
    ensures selectedUnit.None? ==> r == []
    ensures selectedUnit.Some? ==> "move" in r
    ensures "pila_toss" in r <==>
              selectedUnit.Some? && selectedUnit.value.unitType == "hastati" && !selectedUnit.value.abilityUsed
    ensures forall a :: a in r ==> a == "move" || a == "pila_toss"
    ensures forall i, j :: 0 <= i < j < |r| ==> r[i] != r[j]
  {
    match selectedUnit
    case None => []
    case Some(u) =>
      ["move"] + (if u.unitType == "hastati" && !u.abilityUsed then ["pila_toss"] else [])
  }
}
