/**
 * A move (api/Move.py): a template read from the move database, or a
 * fallback built from the name alone when the lookup fails, plus the one
 * field that changes, the current PP.
 */
module MoveData {
  import opened Wrappers
  import Text

  datatype DamageClass = Physical | Special | Status

  /** What the move database returns for a name it knows. */
  datatype MoveRecord = MoveRecord(
    id: int,
    name: string,
    accuracy: int,
    power: int,
    pp: int,
    effectChance: Option<int>,
    priority: int,
    damageClass: DamageClass,
    typeName: string)

  /** set_current_pp's rule: the value itself, or `pp` when it is above `pp`. */
  function ClampedPp(value: int, pp: int): (r: int)
    ensures r <= pp
    ensures value <= pp ==> r == value
    ensures value > pp ==> r == pp
  {
    if value <= pp then value else pp
  }

  /** Setting the same value twice leaves what setting it once leaves. */
  lemma ClampedPpIdempotent(value: int, pp: int)
    ensures ClampedPp(ClampedPp(value, pp), pp) == ClampedPp(value, pp)
  {
  }

  class Move {
    const id: int
    const name: string
    const accuracy: int
    const power: int
    const pp: int
    const effectChance: Option<int>
    const priority: int
    const damageClass: DamageClass
    const typeName: string
    var currentPp: int

    /**
     * Builds the move called `name`; `found` is what the move database
     * returned for it (None when the lookup failed).
     */
    constructor (name: string, found: Option<MoveRecord>)
      ensures found.Some? ==>
        && id == found.value.id
        && this.name == Text.Capitalize(found.value.name)
        && accuracy == found.value.accuracy
        && power == found.value.power
        && pp == found.value.pp
        && effectChance == found.value.effectChance
        && priority == found.value.priority
        && damageClass == found.value.damageClass
        && typeName == found.value.typeName
      ensures found.None? ==>
        && id == -1
        && this.name == name
        && accuracy == 100
        && power == 0
        && pp == 5
        && effectChance == None
        && priority == 0
        && damageClass == Physical
        && typeName == "normal"
      ensures currentPp == pp
    {
      match found
      case Some(raw) =>
        id := raw.id;
        this.name := Text.Capitalize(raw.name);
        accuracy := raw.accuracy;
        power := raw.power;
        pp := raw.pp;
        effectChance := raw.effectChance;
        priority := raw.priority;
        damageClass := raw.damageClass;
        typeName := raw.typeName;
        currentPp := raw.pp;
      case None =>
        id := -1;
        this.name := name;
        accuracy := 100;
        power := 0;
        pp := 5;
        effectChance := None;
        priority := 0;
        damageClass := Physical;
        typeName := "normal";
        currentPp := 5;
    }

    method GetName() returns (r: string)
      ensures r == name
    {
      r := name;
    }

    method GetAccuracy() returns (r: int)
      ensures r == accuracy
    {
      r := accuracy;
    }

    method GetPower() returns (r: int)
      ensures r == power
    {
      r := power;
    }

    method GetPp() returns (r: int)
      ensures r == pp
    {
      r := pp;
    }

    method GetEffectChance() returns (r: Option<int>)
      ensures r == effectChance
    {
      r := effectChance;
    }

    method GetPriority() returns (r: int)
      ensures r == priority
    {
      r := priority;
    }

    method GetDamageClass() returns (r: DamageClass)
      ensures r == damageClass
    {
      r := damageClass;
    }

    method GetType() returns (r: string)
      ensures r == typeName
    {
      r := typeName;
    }

    method GetCurrentPp() returns (r: int)
      ensures r == currentPp
    {
      r := currentPp;
    }

    /**
     * Caps `value` at `pp` and stores it. Nothing stops a zero or negative
     * value: it is stored as given.
     */
    method SetCurrentPp(value: int)
      modifies this`currentPp
      ensures currentPp == ClampedPp(value, pp)
      ensures currentPp <= pp
      ensures value <= pp ==> currentPp == value
    {
      currentPp := if value <= pp then value else pp;
    }
  }

  /** What a caller sees of the setter: a ceiling at `pp`, no floor, and a repeat changes nothing. */
  method SetCurrentPpTwice(m: Move, value: int)
    modifies m
    ensures m.currentPp == ClampedPp(value, m.pp)
    ensures value <= 0 <= m.pp ==> m.currentPp == value
  {
    m.SetCurrentPp(value);
    var once := m.currentPp;
    m.SetCurrentPp(value);
    assert m.currentPp == once;
  }
}
