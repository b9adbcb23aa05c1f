/** The 12 x 12 board's click handling and its per-unit health bar. A click
    is modelled as the one callback it ends in. */
module GameBoard {
  import opened Wrappers
  import opened Units
  import CombatView

  const CellSize: int := 40

  /** The callback a click reaches: `onUnitSelect(id)`, `onAbilityUse(target)`,
      `onMoveUnit(id, {x, y})`, or none. */
  datatype ClickEffect =
    | SelectUnit(unitId: string)
    | UseAbility(target: Unit)
    | MoveUnit(unitId: string, destination: Tile)
    | NoEffect

  predicate OnCell(u: Unit, x: int, y: int)
  {
    u.position.x == x && u.position.y == y
  }

  /** `t` is the first unit of `us` standing on cell (x, y), as
      `us.find(u => u.position.x === x && u.position.y === y)` returns it. */
  predicate FirstOnCell(us: seq<Unit>, t: Unit, x: int, y: int)
  {
    exists i :: 0 <= i < |us| && us[i] == t && OnCell(t, x, y) &&
                forall j :: 0 <= j < i ==> !OnCell(us[j], x, y)
  }

  /** `handleCellClick`: a Pila toss at an attackable unit on the cell wins
      and returns early; otherwise a unit is moved only when one is
      selected, the action is `move` and the cell is a movable tile. */
  function HandleCellClick(units: seq<Unit>, selectedAction: Option<string>, movableTiles: seq<Tile>,
                           attackableTiles: seq<Unit>, x: int, y: int): (r: ClickEffect)
    ensures r.UseAbility? <==>
              selectedAction == Some("pila_toss") && exists u :: u in attackableTiles && OnCell(u, x, y)
    ensures r.UseAbility? ==> FirstOnCell(attackableTiles, r.target, x, y)
    ensures r.MoveUnit? <==>
              SelectedUnit(units).Some? && selectedAction == Some("move") && Tile(x, y) in movableTiles
    ensures r.MoveUnit? ==> r.unitId == SelectedUnit(units).value.id && r.destination == Tile(x, y)
    ensures !r.SelectUnit?
  {
    var targetUnit := Find(attackableTiles, (u: Unit) => OnCell(u, x, y));
    if selectedAction == Some("pila_toss") && targetUnit.Some? then
      UseAbility(targetUnit.value)
    else
      var selected := SelectedUnit(units);
      if selected.Some? && selectedAction == Some("move") && Tile(x, y) in movableTiles then
        MoveUnit(selected.value.id, Tile(x, y))
      else NoEffect
  }

  /** A cell's `onClick`: an occupied cell selects the first unit standing
      on it and never reaches `handleCellClick`. */
  function CellClick(units: seq<Unit>, selectedAction: Option<string>, movableTiles: seq<Tile>,
                     attackableTiles: seq<Unit>, x: int, y: int): (r: ClickEffect)
    ensures (exists u :: u in units && OnCell(u, x, y)) ==>
              r.SelectUnit? &&
              exists i :: 0 <= i < |units| && OnCell(units[i], x, y) && r.unitId == units[i].id &&
                          forall j :: 0 <= j < i ==> !OnCell(units[j], x, y)
    ensures (forall u :: u in units ==> !OnCell(u, x, y)) ==>
              r == HandleCellClick(units, selectedAction, movableTiles, attackableTiles, x, y)
  {
    var unitOnCell := Find(units, (u: Unit) => OnCell(u, x, y));
    if unitOnCell.Some? then SelectUnit(unitOnCell.value.id)
    else HandleCellClick(units, selectedAction, movableTiles, attackableTiles, x, y)
  }

  /** As written the Pila toss can never be thrown by a click: every
      attackable unit stands on the board, so its cell is occupied and the
      click selects it instead. */
  lemma PilaTossUnreachable(units: seq<Unit>, selectedAction: Option<string>, movableTiles: seq<Tile>,
                            attackableTiles: seq<Unit>, x: int, y: int)
    requires forall u :: u in attackableTiles ==> u in units
    ensures !CellClick(units, selectedAction, movableTiles, attackableTiles, x, y).UseAbility?
  {
    if exists u :: u in attackableTiles && OnCell(u, x, y) {
      var u :| u in attackableTiles && OnCell(u, x, y);
      assert u in units;
    }
  }

  /** The concrete case: Pila toss selected, the enemy at (8, 8) attackable,
      a click on (8, 8) selects the enemy. */
  lemma PilaTossClickSelects()
    ensures var enemy := Unit("enemy1", "Barbarian Warrior", "hastati", 85, 100, 70, Tile(8, 8), false, false);
            CellClick([enemy], Some("pila_toss"), [], [enemy], 8, 8) == SelectUnit("enemy1")
  {
    var enemy := Unit("enemy1", "Barbarian Warrior", "hastati", 85, 100, 70, Tile(8, 8), false, false);
    assert OnCell(enemy, 8, 8);
  }

  /** The evidently intended routing: with a Pila toss selected, a click on
      an attackable unit throws the pila; the occupied-cell selection comes
      after that test. */
  function CellClickCorrected(units: seq<Unit>, selectedAction: Option<string>, movableTiles: seq<Tile>,
                              attackableTiles: seq<Unit>, x: int, y: int): (r: ClickEffect)
    ensures selectedAction == Some("pila_toss") && (exists u :: u in attackableTiles && OnCell(u, x, y)) ==>
              r.UseAbility? && FirstOnCell(attackableTiles, r.target, x, y)
    ensures !(selectedAction == Some("pila_toss") && exists u :: u in attackableTiles && OnCell(u, x, y)) ==>
              r == CellClick(units, selectedAction, movableTiles, attackableTiles, x, y)
  {
    var targetUnit := Find(attackableTiles, (u: Unit) => OnCell(u, x, y));
    if selectedAction == Some("pila_toss") && targetUnit.Some? then UseAbility(targetUnit.value)
    else CellClick(units, selectedAction, movableTiles, attackableTiles, x, y)
  }

  /** The width of a unit's health bar: `(cellSize - 8) * health / maxHealth`. */
  function HealthBarWidth(health: int, maxHealth: int): (w: real)
    requires maxHealth != 0
    ensures w * (maxHealth as real) == ((CellSize - 8) as real) * (health as real)
    ensures 0 <= health <= maxHealth ==> 0.0 <= w <= (CellSize - 8) as real
    ensures health == maxHealth ==> w == (CellSize - 8) as real
  {
    var p := Percentage(health, maxHealth);
    assert (p / 100.0) * (maxHealth as real) == (p * (maxHealth as real)) / 100.0;
    ((CellSize - 8) as real) * (p / 100.0)
  }

  /** The bar's colour compares health with 60 % and 30 % of the maximum. */
  function HealthBarColor(health: int, maxHealth: int): (r: string)
    ensures r == "#10b981" <==> (health as real) > (maxHealth as real) * 0.6
    ensures r == "#f59e0b" <==>
              !((health as real) > (maxHealth as real) * 0.6) && (health as real) > (maxHealth as real) * 0.3
    ensures r == "#ef4444" <==>
              !((health as real) > (maxHealth as real) * 0.6) && !((health as real) > (maxHealth as real) * 0.3)
  {
    if (health as real) > (maxHealth as real) * 0.6 then "#10b981"
    else if (health as real) > (maxHealth as real) * 0.3 then "#f59e0b"
    else "#ef4444"
  }

  /** For a positive maximum the board's bar and the combat sprite's bar
      pick the same colour. */
  lemma BoardBarMatchesSprite(health: int, maxHealth: int)
    requires maxHealth > 0
    ensures HealthBarColor(health, maxHealth) == CombatView.HealthBarColor(health, maxHealth)
  {
  }
}
