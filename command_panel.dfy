/** The command panel: the selected unit's details and the action and
    formation buttons. */
module CommandPanel {
  import opened Wrappers
  import opened Units
  import UnitRoster

  /** `getMoraleColor` (a text colour here): at least 80, 60, 40, or less. */
  function MoraleColor(morale: int): (r: string)
    ensures r == "text-green-600" <==> morale >= 80
    ensures r == "text-yellow-600" <==> 60 <= morale < 80
    ensures r == "text-orange-600" <==> 40 <= morale < 60
    ensures r == "text-red-600" <==> morale < 40
  {
    if morale >= 80 then "text-green-600"
    else if morale >= 60 then "text-yellow-600"
    else if morale >= 40 then "text-orange-600"
    else "text-red-600"
  }

  /** The panel and the roster put every morale in the same band. */
  lemma MoraleBandsAgree(morale: int)
    ensures MoraleColor(morale) == "text-green-600" <==> UnitRoster.MoraleColor(morale) == "bg-green-500"
    ensures MoraleColor(morale) == "text-yellow-600" <==> UnitRoster.MoraleColor(morale) == "bg-yellow-500"
    ensures MoraleColor(morale) == "text-orange-600" <==> UnitRoster.MoraleColor(morale) == "bg-orange-500"
    ensures MoraleColor(morale) == "text-red-600" <==> UnitRoster.MoraleColor(morale) == "bg-red-500"
  {
  }

  /** `getUnitTypeDescription`: a text for each of the four types, and
      "Unknown unit type" for anything else. */
  function UnitTypeDescription(unitType: string): (r: string)
    ensures r == "Unknown unit type" <==> unitType !in UnitRoster.RomanTypes
    ensures unitType == "legionnaire" ==> r == "Heavy infantry - Balanced fighter"
    ensures unitType == "hastati" ==> r == "Front line troops - High offense"
    ensures unitType == "triarii" ==> r == "Elite veterans - High defense"
    ensures unitType == "archer" ==> r == "Ranged support - Long range attacks"
  {
    match unitType
    case "legionnaire" => "Heavy infantry - Balanced fighter"
    case "hastati" => "Front line troops - High offense"
    case "triarii" => "Elite veterans - High defense"
    case "archer" => "Ranged support - Long range attacks"
    case _ => "Unknown unit type"
  }

  const ActionIds: seq<string> := ["move", "attack", "defend", "charge"]
  const FormationIds: seq<string> := ["line", "wedge", "testudo", "column"]

  datatype ButtonState = ButtonState(id: string, disabled: bool, highlighted: bool)

  /** The action buttons: all disabled without a selected unit, and the one
      whose id is the selected action highlighted. */
  function ActionButtons(selectedUnit: Option<Unit>, selectedAction: Option<string>): (r: seq<ButtonState>)
    ensures |r| == |ActionIds|
    ensures forall i :: 0 <= i < |r| ==> r[i].id == ActionIds[i]
    ensures forall i :: 0 <= i < |r| ==> (r[i].disabled <==> selectedUnit.None?)
    ensures forall i :: 0 <= i < |r| ==> (r[i].highlighted <==> selectedAction == Some(ActionIds[i]))
    ensures forall i, j :: 0 <= i < |r| && 0 <= j < |r| && r[i].highlighted && r[j].highlighted ==> i == j
  {
    seq(|ActionIds|, i requires 0 <= i < |ActionIds| =>
      ButtonState(ActionIds[i], selectedUnit.None?, selectedAction == Some(ActionIds[i])))
  }

  /** The formation buttons: disabled without a selected unit, never highlighted. */
  function FormationButtons(selectedUnit: Option<Unit>): (r: seq<ButtonState>)
    ensures |r| == |FormationIds|
    ensures forall i :: 0 <= i < |r| ==> r[i].id == FormationIds[i] && !r[i].highlighted
    ensures forall i :: 0 <= i < |r| ==> (r[i].disabled <==> selectedUnit.None?)
  {
    seq(|FormationIds|, i requires 0 <= i < |FormationIds| =>
      ButtonState(FormationIds[i], selectedUnit.None?, false))
  }
}
