/** The top-level game state container: the roster, the player's
    experience, the turn and mission counters, the selected action and the
    flags that open the combat resolver and the combat view. Each handler of
    the source is a method that reassigns the fields it changes. */
module App {
  import opened Wrappers
  import opened Units
  import CombatService

  /** The two snapshots handed to the resolver and the combat view. */
  datatype CombatData = CombatData(attacker: Option<Unit>, defender: Option<Unit>)

  const NoCombat: CombatData := CombatData(None, None)

  function Min(a: int, b: int): (r: int)
    ensures r <= a && r <= b && (r == a || r == b)
  {
    if a < b then a else b
  }

  function Max(a: int, b: int): (r: int)
    ensures r >= a && r >= b && (r == a || r == b)
  {
    if a > b then a else b
  }

  /** `Math.min(max, x)` never exceeds `max` and is `x` when `x` fits. */
  function CapAt(max: int, x: int): (r: int)
    ensures r <= max
    ensures x <= max ==> r == x
    ensures x > max ==> r == max
  {
    Min(max, x)
  }

  // ---- the per-unit updates (each a `prev.map(...)` in the source) ----

  /** handleUnitSelect's map: toggle the units with this id, clear the rest. */
  function ToggleSelection(units: seq<Unit>, unitId: string): (r: seq<Unit>)
    ensures |r| == |units|
    ensures forall i :: 0 <= i < |units| ==>
              r[i].(isSelected := units[i].isSelected) == units[i]
    ensures forall i :: 0 <= i < |units| ==>
              (r[i].isSelected <==> units[i].id == unitId && !units[i].isSelected)
  {
    seq(|units|, i requires 0 <= i < |units| =>
      units[i].(isSelected := if units[i].id == unitId then !units[i].isSelected else false))
  }

  /** handleSelectAll's map. */
  function SelectAllUnits(units: seq<Unit>): (r: seq<Unit>)
    ensures |r| == |units|
    ensures forall i :: 0 <= i < |units| ==> r[i] == units[i].(isSelected := true)
  {
    seq(|units|, i requires 0 <= i < |units| => units[i].(isSelected := true))
  }

  /** handleMoveUnit's map: only the units with this id change, and only
      their position. */
  function MoveUnitTo(units: seq<Unit>, unitId: string, newPosition: Tile): (r: seq<Unit>)
    ensures |r| == |units|
    ensures forall i :: 0 <= i < |units| ==>
              r[i] == if units[i].id == unitId then units[i].(position := newPosition) else units[i]
  {
    seq(|units|, i requires 0 <= i < |units| =>
      if units[i].id == unitId then units[i].(position := newPosition) else units[i])
  }

  /** handleFormationSelect's map: +5 morale, capped at 100, for selected units. */
  function RaiseSelectedMorale(units: seq<Unit>): (r: seq<Unit>)
    ensures |r| == |units|
    ensures forall i :: 0 <= i < |units| && !units[i].isSelected ==> r[i] == units[i]
    ensures forall i :: 0 <= i < |units| && units[i].isSelected ==>
              r[i] == units[i].(morale := CapAt(100, units[i].morale + 5))
  {
    seq(|units|, i requires 0 <= i < |units| =>
      if units[i].isSelected then units[i].(morale := Min(100, units[i].morale + 5)) else units[i])
  }

  /** The random morale step of handleEndTurn: +1 when the draw exceeds 0.5. */
  function MoraleStep(draw: CombatService.Draw): (d: int)
    ensures d == 1 || d == -1
  {
    if draw > 0.5 then 1 else -1
  }

  /** handleEndTurn's map: every morale takes its step and is clamped into
      [20, 100]; every unit is deselected; nothing else changes. */
  function EndTurnUnits(units: seq<Unit>, draws: seq<CombatService.Draw>): (r: seq<Unit>)
    requires |draws| == |units|
    ensures |r| == |units|
    ensures forall i :: 0 <= i < |units| ==> 20 <= r[i].morale <= 100 && !r[i].isSelected
    ensures forall i :: 0 <= i < |units| ==>
              r[i] == units[i].(morale := r[i].morale, isSelected := false)
    ensures forall i :: 0 <= i < |units| && 20 <= units[i].morale + MoraleStep(draws[i]) <= 100 ==>
              r[i].morale == units[i].morale + MoraleStep(draws[i])
    ensures forall i :: 0 <= i < |units| && units[i].morale + MoraleStep(draws[i]) > 100 ==>
              r[i].morale == 100
    ensures forall i :: 0 <= i < |units| && units[i].morale + MoraleStep(draws[i]) < 20 ==>
              r[i].morale == 20
  {
    seq(|units|, i requires 0 <= i < |units| =>
      units[i].(morale := Max(20, Min(100, units[i].morale + MoraleStep(draws[i]))),
                isSelected := false))
  }

  /** One side's share of handleCombatComplete: health loses the damage,
      floored at 0; morale takes the change, clamped into [0, 100]. */
  function TakeHit(u: Unit, damage: int, moraleChange: int): (r: Unit)
    ensures r == u.(health := r.health, morale := r.morale)
    ensures r.health >= 0 && 0 <= r.morale <= 100
    ensures u.health - damage >= 0 ==> r.health == u.health - damage
    ensures u.health - damage < 0 ==> r.health == 0
    ensures 0 <= u.morale + moraleChange <= 100 ==> r.morale == u.morale + moraleChange
    ensures u.morale + moraleChange > 100 ==> r.morale == 100
    ensures u.morale + moraleChange < 0 ==> r.morale == 0
  {
    u.(health := Max(0, u.health - damage), morale := Max(0, Min(100, u.morale + moraleChange)))
  }

  /** `u.id === combatData.attacker?.id`: false when there is no snapshot. */
  predicate IsCombatant(u: Unit, who: Option<Unit>)
  {
    who.Some? && u.id == who.value.id
  }

  /** handleCombatComplete's map: the attacker's units take the attacker's
      share, the defender's units the defender's share (the attacker test comes
      first), all other units are left alone. */
  function ApplyCombatResult(units: seq<Unit>, data: CombatData,
                             result: CombatService.CombatResult): (r: seq<Unit>)
    ensures |r| == |units|
    ensures forall i :: 0 <= i < |units| && IsCombatant(units[i], data.attacker) ==>
              r[i] == TakeHit(units[i], result.attackerDamage, result.attackerMoraleChange)
    ensures forall i :: 0 <= i < |units| && !IsCombatant(units[i], data.attacker) &&
                        IsCombatant(units[i], data.defender) ==>
              r[i] == TakeHit(units[i], result.defenderDamage, result.defenderMoraleChange)
    ensures forall i :: 0 <= i < |units| && !IsCombatant(units[i], data.attacker) &&
                        !IsCombatant(units[i], data.defender) ==>
              r[i] == units[i]
  {
    seq(|units|, i requires 0 <= i < |units| =>
      if IsCombatant(units[i], data.attacker) then
        TakeHit(units[i], result.attackerDamage, result.attackerMoraleChange)
      else if IsCombatant(units[i], data.defender) then
        TakeHit(units[i], result.defenderDamage, result.defenderMoraleChange)
      else units[i])
  }

  /** The damage handleCombatAction deals on "attack". */
  const AttackDamage: int := 15

  /** handleCombatAction's map: lower the defender's health by 15, floored at 0. */
  function StrikeDefender(units: seq<Unit>, defender: Option<Unit>): (r: seq<Unit>)
    ensures |r| == |units|
    ensures forall i :: 0 <= i < |units| && !IsCombatant(units[i], defender) ==> r[i] == units[i]
    ensures forall i :: 0 <= i < |units| && IsCombatant(units[i], defender) ==>
              r[i] == units[i].(health := Max(0, units[i].health - AttackDamage))
  {
    seq(|units|, i requires 0 <= i < |units| =>
      if IsCombatant(units[i], defender)
      then units[i].(health := Max(0, units[i].health - AttackDamage))
      else units[i])
  }

  // ---- the combat trigger of handleMoveUnit ----

  /** Another unit within one step in both directions (Chebyshev distance 1)
      of the destination. Faction is not looked at. */
  predicate Nearby(u: Unit, unitId: string, newPosition: Tile)
  {
    u.id != unitId && Abs(u.position.x - newPosition.x) <= 1 && Abs(u.position.y - newPosition.y) <= 1
  }

  /** `units.find(u => u.id === unitId)`: the first unit with that id. */
  function WithId(units: seq<Unit>, unitId: string): (r: Option<Unit>)
    ensures r.None? <==> forall i :: 0 <= i < |units| ==> units[i].id != unitId
    ensures r.Some? ==> exists i :: 0 <= i < |units| && units[i] == r.value && r.value.id == unitId &&
                          forall k :: 0 <= k < i ==> units[k].id != unitId
  {
    if units == [] then None
    else if units[0].id == unitId then Some(units[0])
    else
      var r := WithId(units[1..], unitId);
      assert forall i :: 1 <= i < |units| ==> units[i] == units[1..][i - 1];
      r
  }

  /** `nearbyEnemies[0]`: the first unit handleMoveUnit's filter keeps. */
  function FirstNearby(units: seq<Unit>, unitId: string, newPosition: Tile): (r: Option<Unit>)
    ensures r.None? <==> forall i :: 0 <= i < |units| ==> !Nearby(units[i], unitId, newPosition)
    ensures r.Some? ==>
              exists i :: 0 <= i < |units| && units[i] == r.value && Nearby(r.value, unitId, newPosition) &&
                forall k :: 0 <= k < i ==> !Nearby(units[k], unitId, newPosition)
  {
    if units == [] then None
    else if Nearby(units[0], unitId, newPosition) then Some(units[0])
    else
      var r := FirstNearby(units[1..], unitId, newPosition);
      assert forall i :: 1 <= i < |units| ==> units[i] == units[1..][i - 1];
      r
  }

  /** The attacker/defender pair handleMoveUnit would start a combat with,
      looked up in the roster as it was before the move. */
  function Encounter(units: seq<Unit>, unitId: string, newPosition: Tile): (r: Option<CombatData>)
    ensures r.Some? ==> r.value.attacker.Some? && r.value.defender.Some?
  {
    var moved := WithId(units, unitId);
    var nearby := FirstNearby(units, unitId, newPosition);
    if moved.Some? && nearby.Some? then Some(CombatData(moved, nearby)) else None
  }

  /** A combat starts exactly when the moved unit exists and some other unit
      is nearby; the pair is that unit and the first nearby one. */
  lemma EncounterFinds(units: seq<Unit>, unitId: string, newPosition: Tile)
    ensures var r := Encounter(units, unitId, newPosition);
      r.Some? <==>
        (exists i :: 0 <= i < |units| && units[i].id == unitId) &&
        (exists j :: 0 <= j < |units| && Nearby(units[j], unitId, newPosition))
    ensures var r := Encounter(units, unitId, newPosition);
      r.Some? ==> exists i :: 0 <= i < |units| && units[i] == r.value.attacker.value &&
                    r.value.attacker.value.id == unitId && forall k :: 0 <= k < i ==> units[k].id != unitId
    ensures var r := Encounter(units, unitId, newPosition);
      r.Some? ==> r.value.defender.value in units && Nearby(r.value.defender.value, unitId, newPosition)
    ensures var r := Encounter(units, unitId, newPosition);
      r.Some? ==> exists j :: 0 <= j < |units| && units[j] == r.value.defender.value &&
                    forall k :: 0 <= k < j ==> !Nearby(units[k], unitId, newPosition)
  {
  }

  /** The defender of an encounter is never the moved unit itself, but it may
      be one of its own side: two Roman units side by side start a combat. */
  lemma FriendlyEncounter()
    ensures var a := Unit("1", "A", "legionnaire", 100, 100, 50, Tile(2, 3), false, false);
            var b := Unit("2", "B", "hastati", 100, 100, 50, Tile(3, 3), false, false);
            Encounter([a, b], "1", Tile(2, 4)) == Some(CombatData(Some(a), Some(b)))
  {
    var a := Unit("1", "A", "legionnaire", 100, 100, 50, Tile(2, 3), false, false);
    var b := Unit("2", "B", "hastati", 100, 100, 50, Tile(3, 3), false, false);
    assert Nearby(b, "1", Tile(2, 4));
    assert !Nearby(a, "1", Tile(2, 4));
  }

  /** Selecting a unit leaves only units with that id selected; with
      distinct ids, at most one unit is selected afterwards. */
  lemma ToggleSelectionAtMostOne(units: seq<Unit>, unitId: string)
    requires DistinctIds(units)
    ensures var r := ToggleSelection(units, unitId);
      forall i, j :: 0 <= i < |r| && 0 <= j < |r| && r[i].isSelected && r[j].isSelected ==> i == j
  {
  }

  /** Selecting the same unit twice restores its selection and clears every
      other unit: a unit that was not selected ends up deselected again. */
  lemma ToggleSelectionTwice(units: seq<Unit>, unitId: string)
    ensures var r := ToggleSelection(ToggleSelection(units, unitId), unitId);
      forall i :: 0 <= i < |units| ==>
        r[i].isSelected == (units[i].id == unitId && units[i].isSelected)
  {
  }

  /** The formation guard `if (selectedUnit)` changes nothing: with no unit
      selected the map is already the identity. */
  lemma RaiseMoraleWithoutSelection(units: seq<Unit>)
    requires SelectedUnit(units).None?
    ensures RaiseSelectedMorale(units) == units
  {
  }

  /** Moving the same unit twice leaves it where the second move put it. */
  lemma MoveUnitToLastWins(units: seq<Unit>, unitId: string, p: Tile, q: Tile)
    ensures MoveUnitTo(MoveUnitTo(units, unitId, p), unitId, q) == MoveUnitTo(units, unitId, q)
  {
    var a := MoveUnitTo(MoveUnitTo(units, unitId, p), unitId, q);
    var b := MoveUnitTo(units, unitId, q);
    assert forall i :: 0 <= i < |units| ==> a[i] == b[i];
  }

  /** After "Select All" the panels show the first unit of the roster, and
      nothing only when the roster is empty. */
  lemma SelectAllShowsFirst(units: seq<Unit>)
    ensures SelectedUnit(SelectAllUnits(units)).None? <==> units == []
    ensures units != [] ==> SelectedUnit(SelectAllUnits(units)) == Some(units[0].(isSelected := true))
  {
    var r := SelectAllUnits(units);
    if units != [] {
      assert r[0].isSelected;
    }
  }

  /** `selectedAction === action ? null : action`. */
  function ToggleAction(current: Option<string>, action: string): (r: Option<string>)
    ensures r == None <==> current == Some(action)
    ensures r != None ==> r == Some(action)
  {
    if current == Some(action) then None else Some(action)
  }

  /** No two units share an id. */
  ghost predicate DistinctIds(units: seq<Unit>)
  {
    forall i, j :: 0 <= i < j < |units| ==> units[i].id != units[j].id
  }

  /** Health and morale bounds on every unit. */
  ghost predicate UnitsBounded(units: seq<Unit>)
  {
    forall i :: 0 <= i < |units| ==> 0 <= units[i].morale <= 100 && units[i].health >= 0
  }

  /** Moving a unit changes no health or morale. */
  lemma MoveKeepsUnitsBounded(units: seq<Unit>, unitId: string, newPosition: Tile)
    requires UnitsBounded(units)
    ensures UnitsBounded(MoveUnitTo(units, unitId, newPosition))
  {
  }

  /** The invariant every handler keeps: experience within [0, maxExperience],
      turns counted from 1, progress a percentage, morale within [0, 100],
      health never negative and unit ids distinct (no handler changes an id). */
  ghost predicate Bounded(units: seq<Unit>, experience: int, maxExperience: int,
                          turnNumber: int, missionProgress: int)
  {
    && 0 <= experience <= maxExperience
    && turnNumber >= 1
    && 0 <= missionProgress <= 100
    && UnitsBounded(units)
    && DistinctIds(units)
  }

  /** The roster the game starts with: four Roman units (ids "1" to "4")
      and two enemy units (ids starting with "enemy"). */
  const InitialRoster: seq<Unit> := [
    Unit("1", "Marcus Aurelius", "legionnaire", 100, 100, 85, Tile(2, 3), false, false),
    Unit("2", "Gaius Brutus", "hastati", 90, 100, 78, Tile(3, 3), false, false),
    Unit("3", "Lucius Maximus", "triarii", 95, 100, 92, Tile(4, 3), false, false),
    Unit("4", "Quintus Archer", "archer", 75, 80, 65, Tile(1, 4), false, false),
    Unit("enemy1", "Barbarian Warrior", "hastati", 85, 100, 70, Tile(8, 8), false, false),
    Unit("enemy2", "Celtic Archer", "archer", 65, 80, 60, Tile(9, 7), false, false)
  ]

  class Game {
    var units: seq<Unit>
    var selectedAction: Option<string>
    const playerRank: string
    const leadership: int
    var experience: int
    const maxExperience: int
    var turnNumber: int
    const missionObjective: string
    var missionProgress: int
    var combatActive: bool
    var combatViewActive: bool
    var combatData: CombatData

    ghost predicate Valid()
      reads this
    {
      Bounded(units, experience, maxExperience, turnNumber, missionProgress)
    }

    /** `units.find(unit => unit.isSelected) || null`. */
    function Selected(): (r: Option<Unit>)
      reads this
      ensures r.None? <==> forall i :: 0 <= i < |units| ==> !units[i].isSelected
    {
      SelectedUnit(units)
    }

    /** The initial state: four Roman units, two enemy units, 180/250 XP,
      turn 1 and a quarter of the mission done. */
    constructor ()
      ensures Valid()
      ensures units == InitialRoster && Selected().None?
      ensures |units| == 6 && DistinctIds(units)
      ensures forall i :: 0 <= i < |units| ==> (IsEnemyId(units[i].id) <==> i >= 4)
      ensures selectedAction == None && !combatActive && !combatViewActive && combatData == NoCombat
      ensures experience == 180 && maxExperience == 250 && turnNumber == 1 && missionProgress == 25
    {
      units := InitialRoster;
      selectedAction := None;
      playerRank := "Decanus";
      leadership := 12;
      experience := 180;
      maxExperience := 250;
      turnNumber := 1;
      missionObjective := "Secure the crossroads and eliminate enemy resistance";
      missionProgress := 25;
      combatActive := false;
      combatViewActive := false;
      combatData := NoCombat;
    }

    /** handleUnitSelect. */
    method UnitSelect(unitId: string)
      requires Valid()
      modifies this`units
      ensures Valid()
      ensures units == ToggleSelection(old(units), unitId)
      ensures forall i, j ::
                0 <= i < |units| && 0 <= j < |units| && units[i].isSelected && units[j].isSelected ==> i == j
    {
      ToggleSelectionAtMostOne(units, unitId);
      units := ToggleSelection(units, unitId);
    }

    /** handleSelectAll. */
    method SelectAll()
      requires Valid()
      modifies this`units
      ensures Valid()
      ensures units == SelectAllUnits(old(units))
    {
      units := SelectAllUnits(units);
    }

    /** handleMoveUnit: move the unit, clear the action, start a combat when
      some other unit stood next to the destination, and gain 5 XP. */
    method MoveUnit(unitId: string, newPosition: Tile)
      requires Valid()
      modifies this`units, this`selectedAction, this`combatData, this`combatActive, this`experience
      ensures Valid()
      ensures units == MoveUnitTo(old(units), unitId, newPosition)
      ensures selectedAction == None
      ensures experience == CapAt(maxExperience, old(experience) + 5)
      ensures Encounter(old(units), unitId, newPosition).Some? ==>
                combatActive && combatData == Encounter(old(units), unitId, newPosition).value
      ensures Encounter(old(units), unitId, newPosition).None? ==>
                combatActive == old(combatActive) && combatData == old(combatData)
    {
      var encounter := Encounter(units, unitId, newPosition);
      MoveKeepsUnitsBounded(units, unitId, newPosition);
      units := MoveUnitTo(units, unitId, newPosition);
      selectedAction := None;
      if encounter.Some? {
        combatData := encounter.value;
        combatActive := true;
      }
      experience := Min(maxExperience, experience + 5);
    }

    /** handleActionSelect. */
    method ActionSelect(action: string)
      requires Valid()
      modifies this`selectedAction
      ensures Valid()
      ensures selectedAction == ToggleAction(old(selectedAction), action)
    {
      selectedAction := if selectedAction == Some(action) then None else Some(action);
    }

    /** handleFormationSelect: the formation name itself only reaches a log line. */
    method FormationSelect(formation: string)
      requires Valid()
      modifies this`units
      ensures Valid()
      ensures old(Selected()).Some? ==> units == RaiseSelectedMorale(old(units))
      ensures old(Selected()).None? ==> units == old(units)
    {
      if Selected().Some? {
        units := RaiseSelectedMorale(units);
      }
    }

    /** handleEndTurn. `draws` holds one `Math.random()` value per unit. */
    method EndTurn(draws: seq<CombatService.Draw>)
      requires Valid()
      requires |draws| == |units|
      modifies this`turnNumber, this`missionProgress, this`units, this`selectedAction
      ensures Valid()
      ensures turnNumber == old(turnNumber) + 1
      ensures missionProgress == CapAt(100, old(missionProgress) + 5)
      ensures units == EndTurnUnits(old(units), draws)
      ensures selectedAction == None
    {
      turnNumber := turnNumber + 1;
      missionProgress := Min(100, missionProgress + 5);
      units := EndTurnUnits(units, draws);
      selectedAction := None;
    }

    /** handleCombatComplete: apply the result, gain 15 XP, close the
      resolver and open the combat view. */
    method CombatComplete(result: CombatService.CombatResult)
      requires Valid()
      modifies this`units, this`experience, this`combatActive, this`combatViewActive
      ensures Valid()
      ensures units == ApplyCombatResult(old(units), combatData, result)
      ensures experience == CapAt(maxExperience, old(experience) + 15)
      ensures !combatActive && combatViewActive
    {
      units := ApplyCombatResult(units, combatData, result);
      experience := Min(maxExperience, experience + 15);
      combatActive := false;
      combatViewActive := true;
    }

    /** handleCombatCancel. */
    method CombatCancel()
      requires Valid()
      modifies this`combatActive, this`combatData
      ensures Valid()
      ensures !combatActive && combatData == NoCombat
    {
      combatActive := false;
      combatData := NoCombat;
    }

    /** handleExitCombatView. */
    method ExitCombatView()
      requires Valid()
      modifies this`combatViewActive, this`combatData
      ensures Valid()
      ensures !combatViewActive && combatData == NoCombat
    {
      combatViewActive := false;
      combatData := NoCombat;
    }

    /** handleCombatAction: only "attack" has an effect. */
    method CombatAction(action: string)
      requires Valid()
      modifies this`units
      ensures Valid()
      ensures action == "attack" ==> units == StrikeDefender(old(units), combatData.defender)
      ensures action != "attack" ==> units == old(units)
    {
      if action == "attack" {
        units := StrikeDefender(units, combatData.defender);
      }
    }
  }
}
