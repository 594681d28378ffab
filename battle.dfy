/**
 * The damage pipeline of one attack (api/pokemon.py, attack), as a
 * function of the numbers it reads. The class method Creature.Pokemon.Attack
 * runs it step by step on the two creatures and is proved to agree with it.
 *
 * Every float step of the source (the ×1.5 factors, the spread roll / 100,
 * the stat quotient) is taken as the exact rational value, floored; the type
 * effectiveness is a real number supplied by the caller.
 */
module Battle {
  import opened Wrappers

  /** Python's floor division. Dafny's `/` is Euclidean, which differs from it for a negative divisor. */
  function FloorDiv(a: int, b: int): (q: int)
    requires b != 0
    ensures b > 0 ==> b * q <= a < b * q + b
    ensures b < 0 ==> b * q + b < a <= b * q
  {
    if b > 0 then a / b else (-a) / (-b)
  }

  /** The exceptions attack() can raise; each leaves the defender untouched. */
  datatype AttackError =
    | ZeroDefense  // ZeroDivisionError: the defender's defending stat is 0
    | NoTypes      // IndexError: the attacker has no type at all
    | ZeroMaxHp    // ZeroDivisionError: the defender's maximum HP, which the report divides by, is 0

  datatype AttackOutcome = Missed | Hit(damage: int) | Raised(error: AttackError)

  /**
   * The same-type bonus test: with one type, compare it; otherwise compare
   * the first two, which fails when there is no type at all.
   */
  function SameType(types: seq<string>, moveType: string): (r: Option<bool>)
    ensures r.None? <==> |types| == 0
    ensures r.Some? ==> (r.value <==> moveType in types[..if |types| < 2 then |types| else 2])
  {
    if |types| == 1 then Some(types[0] == moveType)
    else if |types| == 0 then None
    else Some(types[0] == moveType || types[1] == moveType)
  }

  /** The type-effectiveness step: the product, floored. */
  function Effective(damage: int, effectiveness: real): int
  {
    (damage as real * effectiveness).Floor
  }

  /** Damage before the clamp to the defender's HP, floors in the source's order. */
  function HitDamage(level: int, power: int, attack: int, defense: int, critical: bool,
                     spread: int, stab: bool, effectiveness: real): int
    requires defense != 0
  {
    var base := (level * 2 / 5 + 2) * power;
    var scaled := FloorDiv(base * attack, 50 * defense) + 2;
    var afterCritical := if critical then scaled * 3 / 2 else scaled;
    var afterSpread := afterCritical * spread / 100;
    var afterStab := if stab then afterSpread * 3 / 2 else afterSpread;
    Effective(afterStab, effectiveness)
  }

  /** The damage actually dealt: never more than the defender's current HP. */
  function Clamp(damage: int, hp: int): (r: int)
    ensures r <= hp && r <= damage
    ensures r == damage || r == hp
    ensures hp - r >= 0
  {
    if damage > hp then hp else damage
  }

  /**
   * The outcome of one attack. `attacker` and `defender` are the two
   * creatures' current stats and `defenderMaxHp` the defender's maximum HP;
   * the rolls are the accuracy draw (1..100), the critical draw (1..100)
   * and the spread draw (85..100).
   */
  function AttackOutcomeFor(accuracyRoll: int, accuracy: int, level: int, power: int, special: bool,
                            attacker: seq<int>, defender: seq<int>, defenderMaxHp: int,
                            types: seq<string>, moveType: string,
                            criticalRoll: int, spreadRoll: int, effectiveness: real): AttackOutcome
    requires |attacker| == 6 && |defender| == 6
  {
    if accuracyRoll > accuracy then Missed
    else
      var attack := if special then attacker[3] else attacker[1];
      var defense := if special then defender[4] else defender[2];
      if defense == 0 then Raised(ZeroDefense)
      else match SameType(types, moveType)
        case None => Raised(NoTypes)
        case Some(stab) =>
          if defenderMaxHp == 0 then Raised(ZeroMaxHp)
          else
            Hit(Clamp(HitDamage(level, power, attack, defense, criticalRoll < 7, spreadRoll, stab, effectiveness),
                      defender[0]))
  }

  lemma MulNonNegative(a: int, b: int)
    requires 0 <= a && 0 <= b
    ensures 0 <= a * b
  {
  }

  /** With non-negative inputs the pipeline never produces negative damage. */
  lemma HitDamageNonNegative(level: int, power: int, attack: int, defense: int, critical: bool,
                             spread: int, stab: bool, effectiveness: real)
    requires 0 <= level && 0 <= power && 0 <= attack && 0 < defense && 0 <= spread
    requires 0.0 <= effectiveness
    ensures 0 <= HitDamage(level, power, attack, defense, critical, spread, stab, effectiveness)
  {
    var base := (level * 2 / 5 + 2) * power;
    MulNonNegative(level * 2 / 5 + 2, power);
    MulNonNegative(base, attack);
    var scaled := FloorDiv(base * attack, 50 * defense) + 2;
    var afterCritical := if critical then scaled * 3 / 2 else scaled;
    MulNonNegative(afterCritical, spread);
    var afterSpread := afterCritical * spread / 100;
    var afterStab := if stab then afterSpread * 3 / 2 else afterSpread;
    assert 0 <= afterStab;
    assert 0.0 <= afterStab as real * effectiveness by {
      assert 0.0 <= afterStab as real;
    }
  }

  /**
   * A move of power 0 (the fallback move's power) still deals damage: the
   * "+ 2" survives the spread roll whenever the type does not resist.
   */
  lemma ZeroPowerStillHits(level: int, attack: int, defense: int, critical: bool,
                           spread: int, stab: bool, effectiveness: real)
    requires defense != 0 && 85 <= spread <= 100 && 1.0 <= effectiveness
    ensures 1 <= HitDamage(level, 0, attack, defense, critical, spread, stab, effectiveness)
  {
    var afterCritical := if critical then 3 else 2;
    assert FloorDiv(0, 50 * defense) == 0;
    assert afterCritical * spread / 100 >= 1;
  }

  /**
   * What an attack does to the defender: a miss exactly when the roll is
   * above the move's accuracy; no hit on a defender whose maximum HP is 0;
   * a hit never deals more than the defender's HP, leaves it at 0 or above,
   * and deals no negative damage when the inputs are non-negative.
   */
  lemma AttackOutcomeBounds(accuracyRoll: int, accuracy: int, level: int, power: int, special: bool,
                            attacker: seq<int>, defender: seq<int>, defenderMaxHp: int,
                            types: seq<string>, moveType: string,
                            criticalRoll: int, spreadRoll: int, effectiveness: real)
    requires |attacker| == 6 && |defender| == 6
    ensures var o := AttackOutcomeFor(accuracyRoll, accuracy, level, power, special, attacker, defender,
                                      defenderMaxHp, types, moveType, criticalRoll, spreadRoll, effectiveness);
      && (o == Missed <==> accuracyRoll > accuracy)
      && (o.Raised? <==> accuracyRoll <= accuracy
                         && ((if special then defender[4] else defender[2]) == 0 || |types| == 0
                             || defenderMaxHp == 0))
      && (o.Hit? ==> o.damage <= defender[0] && defender[0] - o.damage >= 0)
      && (o.Hit? && 0 <= level && 0 <= power && 0 <= spreadRoll && 0.0 <= effectiveness
          && (forall i :: 0 <= i < 6 ==> 0 <= attacker[i] && 0 <= defender[i])
          ==> 0 <= o.damage)
  {
    if accuracyRoll <= accuracy {
      var attack := if special then attacker[3] else attacker[1];
      var defense := if special then defender[4] else defender[2];
      if defense != 0 && |types| != 0 {
        var stab := SameType(types, moveType).value;
        if 0 <= level && 0 <= power && 0 <= spreadRoll && 0.0 <= effectiveness && 0 <= attack && 0 < defense {
          HitDamageNonNegative(level, power, attack, defense, criticalRoll < 7, spreadRoll, stab, effectiveness);
        }
      }
    }
  }
}
