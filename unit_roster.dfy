/** The unit roster panel: its colour classifiers and its two counters. */
module UnitRoster {
  import opened Units

  const RomanTypes: set<string> := {"legionnaire", "hastati", "triarii", "archer"}

  /** The badge style of a unit type; any other type gets the gray style. */
  function UnitTypeColor(unitType: string): (r: string)
    ensures unitType !in RomanTypes ==> r == "bg-gray-100 text-gray-800 border-gray-200"
    ensures unitType in RomanTypes ==> r != "bg-gray-100 text-gray-800 border-gray-200"
  {
    match unitType
    case "legionnaire" => "bg-red-100 text-red-800 border-red-200"
    case "hastati" => "bg-blue-100 text-blue-800 border-blue-200"
    case "triarii" => "bg-purple-100 text-purple-800 border-purple-200"
    case "archer" => "bg-green-100 text-green-800 border-green-200"
    case _ => "bg-gray-100 text-gray-800 border-gray-200"
  }

  /** `getHealthColor`: the health percentage above 75, 50, 25, or not. */
  function HealthColor(health: int, maxHealth: int): (r: string)
    ensures r == "bg-green-500" <==> QuotientAbove(health, maxHealth, 0.75)
    ensures r == "bg-yellow-500" <==>
              !QuotientAbove(health, maxHealth, 0.75) && QuotientAbove(health, maxHealth, 0.5)
    ensures r == "bg-orange-500" <==>
              !QuotientAbove(health, maxHealth, 0.5) && QuotientAbove(health, maxHealth, 0.25)
    ensures r == "bg-red-500" <==> !QuotientAbove(health, maxHealth, 0.25)
  {
    if QuotientAbove(health, maxHealth, 0.75) then "bg-green-500"
    else if QuotientAbove(health, maxHealth, 0.5) then "bg-yellow-500"
    else if QuotientAbove(health, maxHealth, 0.25) then "bg-orange-500"
    else "bg-red-500"
  }

  /** The width of a unit's health bar in percent; not clamped. */
  function HealthBarWidth(u: Unit): (w: real)
    requires u.maxHealth != 0
    ensures w * (u.maxHealth as real) == 100.0 * (u.health as real)
    ensures 0 <= u.health <= u.maxHealth ==> 0.0 <= w <= 100.0
    ensures w == 100.0 <==> u.health == u.maxHealth
    ensures 0 < u.maxHealth < u.health ==> w > 100.0
  {
    Percentage(u.health, u.maxHealth)
  }

  /** The colour band of the health bar agrees with its width. */
  lemma HealthColorMatchesWidth(u: Unit)
    requires u.maxHealth != 0
    ensures HealthColor(u.health, u.maxHealth) == "bg-green-500" <==> HealthBarWidth(u) > 75.0
    ensures HealthColor(u.health, u.maxHealth) == "bg-red-500" <==> HealthBarWidth(u) <= 25.0
  {
    var q := (u.health as real) / (u.maxHealth as real);
    assert HealthBarWidth(u) == q * 100.0;
  }

  /** `getMoraleColor`: morale at least 80, 60, 40, or less. */
  function MoraleColor(morale: int): (r: string)
    ensures r == "bg-green-500" <==> morale >= 80
    ensures r == "bg-yellow-500" <==> 60 <= morale < 80
    ensures r == "bg-orange-500" <==> 40 <= morale < 60
    ensures r == "bg-red-500" <==> morale < 40
  {
    if morale >= 80 then "bg-green-500"
    else if morale >= 60 then "bg-yellow-500"
    else if morale >= 40 then "bg-orange-500"
    else "bg-red-500"
  }

  /** `units.filter(p).length`. */
  function Count(units: seq<Unit>, p: Unit -> bool): (n: nat)
    ensures n <= |units|
    ensures n == |units| <==> forall i :: 0 <= i < |units| ==> p(units[i])
    ensures n == 0 <==> forall i :: 0 <= i < |units| ==> !p(units[i])
  {
    if units == [] then 0
    else
      var rest := Count(units[1..], p);
      assert forall i :: 1 <= i < |units| ==> units[i] == units[1..][i - 1];
      (if p(units[0]) then 1 else 0) + rest
  }

  /** More than half of the maximum health (`health > maxHealth * 0.5`). */
  predicate Healthy(u: Unit)
  {
    (u.health as real) > (u.maxHealth as real) * 0.5
  }

  predicate HighMorale(u: Unit)
  {
    u.morale >= 70
  }

  /** `healthyUnits`: never more than `totalUnits`. */
  function HealthyUnits(units: seq<Unit>): (n: nat)
    ensures n <= |units|
    ensures n == |units| <==> forall i :: 0 <= i < |units| ==> Healthy(units[i])
  {
    Count(units, Healthy)
  }

  /** `highMoraleUnits`: never more than `totalUnits`. */
  function HighMoraleUnits(units: seq<Unit>): (n: nat)
    ensures n <= |units|
    ensures n == |units| <==> forall i :: 0 <= i < |units| ==> HighMorale(units[i])
  {
    Count(units, HighMorale)
  }

  /** Adding a unit adds one to a count exactly when the unit qualifies. */
  lemma {:induction false} CountAppend(units: seq<Unit>, u: Unit, p: Unit -> bool)
    ensures Count(units + [u], p) == Count(units, p) + (if p(u) then 1 else 0)
  {
    if units != [] {
      assert (units + [u])[1..] == units[1..] + [u];
      CountAppend(units[1..], u, p);
    } else {
      assert ([] + [u])[1..] == [];
    }
  }
}
