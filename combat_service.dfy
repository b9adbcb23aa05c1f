/** The combat-outcome calculator and the target finder. The dice are the
    successive values `Math.random()` returns, passed in as parameters. */
module CombatService {
  import opened Wrappers
  import opened Units
  import Text

  /** One value of `Math.random()`: a real in [0, 1). */
  type Draw = r: real | 0.0 <= r < 1.0

  /** `Math.floor(Math.random() * n)`: an integer in [0, n). */
  function Scaled(r: Draw, n: nat): (k: int)
    requires n > 0
    ensures 0 <= k < n
  {
    assert 0.0 <= r * n as real < n as real;
    (r * n as real).Floor
  }

  datatype CombatResult = CombatResult(
    attackerDamage: int,
    defenderDamage: int,
    attackerMoraleChange: int,
    defenderMoraleChange: int)

  datatype CombatOutcome = CombatOutcome(result: CombatResult, log: seq<string>)

  const PilaToss: string := "pila_toss"

  /** `Math.floor(n / 10)`: Dafny's division rounds down for a positive
      divisor, exactly as `Math.floor` does. */
  function FloorDiv10(n: int): (q: int)
    ensures q * 10 <= n < q * 10 + 10
  {
    n / 10
  }

  /** `Math.max(1, 8 + Math.floor((morale - 50) / 10))`. */
  function Strength(morale: int): (s: int)
    ensures s >= 1
    ensures morale >= 50 ==> s >= 8
    ensures 8 + FloorDiv10(morale - 50) >= 1 ==> s == 8 + FloorDiv10(morale - 50)
    ensures 8 + FloorDiv10(morale - 50) < 1 ==> s == 1
  {
    var raw := 8 + FloorDiv10(morale - 50);
    if raw > 1 then raw else 1
  }

  /** Higher morale never lowers strength. */
  lemma StrengthMonotone(m1: int, m2: int)
    requires m1 <= m2
    ensures Strength(m1) <= Strength(m2)
  {
    assert FloorDiv10(m1 - 50) <= FloorDiv10(m2 - 50);
  }

  /** `Math.floor(Math.random() * 20) + 1 + strength`: a d20 plus strength. */
  function Roll(morale: int, die: Draw): (roll: int)
    ensures 1 + Strength(morale) <= roll <= 20 + Strength(morale)
  {
    Scaled(die, 20) + 1 + Strength(morale)
  }

  /** The attacker wins the melee exactly when its roll is strictly higher:
      a tie goes to the defender. */
  predicate MeleeWon(attacker: Unit, defender: Unit, attackDie: Draw, defenseDie: Draw)
  {
    Roll(attacker.morale, attackDie) > Roll(defender.morale, defenseDie)
  }

  /** `calculateCombatOutcome`. `r1`, `r2`, `r3` are the values of
      `Math.random()` in the order the source draws them: for a Pila toss
      only `r1` (the damage), for a melee the attack die, the defence die and
      the damage. */
  function CalculateCombatOutcome(attacker: Unit, defender: Unit, actionType: Option<string>,
                                  r1: Draw, r2: Draw, r3: Draw): (r: CombatOutcome)
    ensures |r.log| == 2
    ensures actionType == Some(PilaToss) ==>
      && r.result.attackerDamage == 0
      && 20 <= r.result.defenderDamage <= 29
      && r.result.attackerMoraleChange == 5
      && r.result.defenderMoraleChange == -15
    ensures actionType != Some(PilaToss) && MeleeWon(attacker, defender, r1, r2) ==>
      && r.result.attackerDamage == 0
      && 5 <= r.result.defenderDamage <= 19
      && r.result.attackerMoraleChange == 5
      && r.result.defenderMoraleChange == -10
    ensures actionType != Some(PilaToss) && !MeleeWon(attacker, defender, r1, r2) ==>
      && r.result.defenderDamage == 0
      && 3 <= r.result.attackerDamage <= 12
      && r.result.attackerMoraleChange == -5
      && r.result.defenderMoraleChange == 3
  {
    if actionType == Some(PilaToss) then
      var damage := Scaled(r1, 10) + 20;
      CombatOutcome(
        CombatResult(0, damage, 5, -15),
        [attacker.name + " hurls a Pila at " + defender.name + "!",
         defender.name + " takes " + Text.NatToString(damage) + " damage!"])
    else if Roll(attacker.morale, r1) > Roll(defender.morale, r2) then
      var damage := Scaled(r3, 15) + 5;
      CombatOutcome(
        CombatResult(0, damage, 5, -10),
        ["Melee clash! " + attacker.name + " overpowers " + defender.name + "!",
         defender.name + " takes " + Text.NatToString(damage) + " damage."])
    else
      var damage := Scaled(r3, 10) + 3;
      CombatOutcome(
        CombatResult(damage, 0, -5, 3),
        ["Melee clash! " + defender.name + " repels the attack!",
         attacker.name + " takes " + Text.NatToString(damage) + " damage."])
  }

  /** Exactly one side of any clash takes damage, and it is never negative. */
  lemma ExactlyOneSideHurt(attacker: Unit, defender: Unit, actionType: Option<string>,
                           r1: Draw, r2: Draw, r3: Draw)
    ensures var res := CalculateCombatOutcome(attacker, defender, actionType, r1, r2, r3).result;
      && res.attackerDamage >= 0 && res.defenderDamage >= 0
      && (res.attackerDamage == 0 <==> res.defenderDamage > 0)
  {
  }

  /** With equal morale and equal dice the defender holds: ties never favour
      the attacker. */
  lemma TieGoesToDefender(attacker: Unit, defender: Unit, r: Draw, r3: Draw)
    requires attacker.morale == defender.morale
    ensures var res := CalculateCombatOutcome(attacker, defender, None, r, r, r3).result;
      res.defenderDamage == 0 && res.attackerDamage > 0
  {
  }

  /** The target filter of `findAttackableTargets`: the other faction (one
      id starts with "enemy", the other does not) within Manhattan `range`. */
  predicate Attackable(attacker: Unit, u: Unit, range: int)
  {
    IsEnemyId(u.id) != IsEnemyId(attacker.id) &&
    Abs(u.position.x - attacker.position.x) + Abs(u.position.y - attacker.position.y) <= range
  }

  /** `xs` is `ys` with some elements left out, order kept. */
  ghost predicate SubsequenceOf<T>(xs: seq<T>, ys: seq<T>)
    decreases |ys|
  {
    if xs == [] then true
    else if ys == [] then false
    else (xs[0] == ys[0] && SubsequenceOf(xs[1..], ys[1..])) || SubsequenceOf(xs, ys[1..])
  }

  /** `findAttackableTargets`: `allUnits.filter(...)`. The result keeps the
      order of `allUnits`, holds every unit that passes the filter as often
      as it occurs there, and nothing else. */
  function FindAttackableTargets(attacker: Unit, allUnits: seq<Unit>, range: int): (r: seq<Unit>)
    ensures forall u :: u in r ==> Attackable(attacker, u, range)
    ensures forall u :: u in allUnits && Attackable(attacker, u, range) ==> u in r
    ensures forall u :: multiset(r)[u] ==
                          if Attackable(attacker, u, range) then multiset(allUnits)[u] else 0
    ensures SubsequenceOf(r, allUnits)
  {
    if allUnits == [] then []
    else
      var rest := FindAttackableTargets(attacker, allUnits[1..], range);
      assert allUnits == [allUnits[0]] + allUnits[1..];
      if Attackable(attacker, allUnits[0], range) then [allUnits[0]] + rest else rest
  }

  /** The attacker, and every unit of its own faction, is never a target. */
  lemma NoFriendlyTargets(attacker: Unit, allUnits: seq<Unit>, range: int, u: Unit)
    requires u in FindAttackableTargets(attacker, allUnits, range)
    ensures u.id != attacker.id
    ensures IsEnemyId(u.id) != IsEnemyId(attacker.id)
  {
  }
}
