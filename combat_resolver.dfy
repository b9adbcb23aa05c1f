/** The combat resolver dialog: its own inline copy of the combat rules
    (with an `outcome` label), and the two-phase resolution around the
    two-second timer. */
module CombatResolver {
  import opened Wrappers
  import opened Units
  import Text
  import CombatService

  datatype Outcome = Victory | Defeat | Draw

  datatype ResolverResult = ResolverResult(
    attackerDamage: int,
    defenderDamage: int,
    attackerMoraleChange: int,
    defenderMoraleChange: int,
    outcome: Outcome)

  /** The dialog renders only when active and given both combatants. */
  predicate Renders(isActive: bool, attacker: Option<Unit>, defender: Option<Unit>)
  {
    isActive && attacker.Some? && defender.Some?
  }

  function MaxInt(a: int, b: int): int
  {
    if a > b then a else b
  }

  /** The result `resolveCombat` computes, with the log it shows; `r1`, `r2`,
      `r3` are the successive `Math.random()` values. */
  function ResolveOutcome(attacker: Unit, defender: Unit, actionType: Option<string>,
                          r1: CombatService.Draw, r2: CombatService.Draw, r3: CombatService.Draw)
    : (r: (ResolverResult, seq<string>))
    ensures |r.1| == 2
    ensures r.0.outcome != Draw
    ensures r.0.outcome == Victory <==>
              actionType == Some("pila_toss") || CombatService.MeleeWon(attacker, defender, r1, r2)
    ensures actionType == Some("pila_toss") ==>
              r.0.attackerDamage == 0 && 20 <= r.0.defenderDamage <= 29 &&
              r.0.attackerMoraleChange == 5 && r.0.defenderMoraleChange == -15
    ensures actionType != Some("pila_toss") && r.0.outcome == Victory ==>
              r.0.attackerDamage == 0 && 5 <= r.0.defenderDamage <= 19 &&
              r.0.attackerMoraleChange == 5 && r.0.defenderMoraleChange == -10
    ensures r.0.outcome == Defeat ==>
              r.0.defenderDamage == 0 && 3 <= r.0.attackerDamage <= 12 &&
              r.0.attackerMoraleChange == -5 && r.0.defenderMoraleChange == 3
  {
    if actionType == Some("pila_toss") then
      var damage := (r1 * 10.0).Floor + 20;
      assert 0.0 <= r1 * 10.0 < 10.0;
      (ResolverResult(0, damage, 5, -15, Victory),
       [attacker.name + " hurls a Pila at " + defender.name + "!",
        defender.name + " takes " + Text.NatToString(damage) + " damage!"])
    else
      var attackerStrength := MaxInt(1, 8 + (attacker.morale - 50) / 10);
      var defenderStrength := MaxInt(1, 8 + (defender.morale - 50) / 10);
      var attackRoll := (r1 * 20.0).Floor + 1 + attackerStrength;
      var defenseRoll := (r2 * 20.0).Floor + 1 + defenderStrength;
      assert attackerStrength == CombatService.Strength(attacker.morale);
      assert defenderStrength == CombatService.Strength(defender.morale);
      assert attackRoll == CombatService.Roll(attacker.morale, r1);
      assert defenseRoll == CombatService.Roll(defender.morale, r2);
      if attackRoll > defenseRoll then
        var damage := (r3 * 15.0).Floor + 5;
        assert 0.0 <= r3 * 15.0 < 15.0;
        (ResolverResult(0, damage, 5, -10, Victory),
         ["Melee clash! " + attacker.name + " overpowers " + defender.name + "!",
          defender.name + " takes " + Text.NatToString(damage) + " damage."])
      else
        var damage := (r3 * 10.0).Floor + 3;
        assert 0.0 <= r3 * 10.0 < 10.0;
        (ResolverResult(damage, 0, -5, 3, Defeat),
         ["Melee clash! " + defender.name + " repels the attack!",
          attacker.name + " takes " + Text.NatToString(damage) + " damage."])
  }

  /** The dialog's copy of the rules and the combat service agree on every
      number and on the log. */
  lemma AgreesWithService(attacker: Unit, defender: Unit, actionType: Option<string>,
                          r1: CombatService.Draw, r2: CombatService.Draw, r3: CombatService.Draw)
    ensures var (res, log) := ResolveOutcome(attacker, defender, actionType, r1, r2, r3);
            var svc := CombatService.CalculateCombatOutcome(attacker, defender, actionType, r1, r2, r3);
            && svc.result == CombatService.CombatResult(res.attackerDamage, res.defenderDamage,
                                                        res.attackerMoraleChange, res.defenderMoraleChange)
            && svc.log == log
  {
    assert CombatService.PilaToss == "pila_toss";
  }

  class Resolver {
    var isResolving: bool
    var combatLog: seq<string>
    /** The result the pending timer will hand over. */
    var pending: Option<ResolverResult>
    /** Every value passed to `onCombatComplete`, in order. */
    var completed: seq<ResolverResult>

    /** A timer is pending exactly while the dialog shows "Resolving...". */
    ghost predicate Valid()
      reads this
    {
      isResolving <==> pending.Some?
    }

    constructor ()
      ensures Valid() && !isResolving && combatLog == [] && completed == []
    {
      isResolving := false;
      combatLog := [];
      pending := None;
      completed := [];
    }

    /** The "Resolve Combat" button, shown only while not resolving: compute
      the result, show the log and start the timer. */
    method Resolve(attacker: Unit, defender: Unit, actionType: Option<string>,
                   r1: CombatService.Draw, r2: CombatService.Draw, r3: CombatService.Draw)
      requires Valid() && !isResolving
      modifies this`isResolving, this`combatLog, this`pending
      ensures Valid() && isResolving
      ensures pending == Some(ResolveOutcome(attacker, defender, actionType, r1, r2, r3).0)
      ensures combatLog == ResolveOutcome(attacker, defender, actionType, r1, r2, r3).1
      ensures |combatLog| == 2
    {
      isResolving := true;
      var (result, log) := ResolveOutcome(attacker, defender, actionType, r1, r2, r3);
      combatLog := log;
      pending := Some(result);
    }

    /** The timer firing: stop resolving, then call `onCombatComplete` once
      with the pending result. */
    method TimerFires() returns (result: ResolverResult)
      requires Valid() && isResolving
      modifies this`isResolving, this`pending, this`completed
      ensures Valid() && !isResolving
      ensures result == old(pending).value
      ensures completed == old(completed) + [result]
    {
      isResolving := false;
      result := pending.value;
      pending := None;
      completed := completed + [result];
    }
  }

  /** One resolution delivers exactly one result, the one it computed. */
  method ResolveThenComplete(r: Resolver, attacker: Unit, defender: Unit, actionType: Option<string>,
                             r1: CombatService.Draw, r2: CombatService.Draw, r3: CombatService.Draw)
    returns (result: ResolverResult)
    requires r.Valid() && !r.isResolving
    modifies r
    ensures r.Valid() && !r.isResolving
    ensures result == ResolveOutcome(attacker, defender, actionType, r1, r2, r3).0
    ensures r.completed == old(r.completed) + [result]
  {
    r.Resolve(attacker, defender, actionType, r1, r2, r3);
    result := r.TimerFires();
  }
}
