# Creature rules engine

A Dafny model of the rules engine for one creature of a text role-playing
game: the `Pokemon` class of `api/pokemon.py` and the `Move` class of
`api/Move.py`. It covers:

- the six experience curves;
- the stat formulas and the nature bonus;
- construction with its fallback defaults;
- healing, levelling, EV changes, gaining experience and learning moves;
- level-based evolution;
- the damage pipeline of an attack;
- a move's fallback construction, its getters and its PP setter.

The files:

- `stat_engine.dfy` (module `StatEngine`): `calculate_xp` and the formulas of `calculate_stats`, as pure functions, with their monotonicity proofs.
- `battle.dfy` (module `Battle`): the damage pipeline of `attack`, as a function of the numbers it reads.
- `move.dfy` (module `MoveData`): class `Move`. Its template fields are constants; `currentPp` is its only mutable field.
- `pokemon.dfy` (module `Creature`): class `Pokemon` and the specification functions of move learning, levelling and evolution.
- `text.dfy` (module `Text`): `str.title()` and `str.capitalize()` on ASCII letters, used for display names.
- `wrappers.dfy` (module `Wrappers`): `Option`.

How the model represents the source:

- **Stat lists are shared arrays.** `stats` and `currentStats` are `array<int>` fields. `Heal` assigns the reference, as `heal` does, so after construction the two names denote one array. This has three consequences, all modelled and stated in contracts:
  - `SetLevel` on aliased lists restores HP to the new maximum.
  - Damage in `Attack` lowers the defender's maximum HP as well.
  - A defender whose aliased HP has reached 0 can no longer be hit. The damage report (api/pokemon.py:325) divides by its maximum HP, which is then 0, so the attack raises.
- **Species data is one value.** The species attributes (id through `hatch_counter`) are held together in one `Species` value, because evolution replaces all of them at once. `self.__dict__ = evolution.__dict__` becomes `TakeOver`, which assigns every field from the new creature.
- **Collaborators are parameters.**
  - Species and move databases: a `Pokedex` value, which also holds the evolution chain reported for id -1 and `Nature('hardy')`, whose indices the model leaves open.
  - Prompts: a `ForgetPolicy` and an `EvolvePolicy`, or a boolean.
  - Random draws: parameters.
  - Type effectiveness: a `real`.
- **Floats are exact.** Every float step (`/`, `1.1`, `0.9`, `1.5`, `/ 100`) is the exact rational value, floored. Every divisor in the curves and stat formulas is positive, so Dafny's `/` is that floor. The stat quotient in `attack` can have a negative divisor; `Battle.FloorDiv` is Python's floor division there.

Where the code's own comments disagree with what it does, the model follows the code:

- The comment in `set_level` (api/pokemon.py:88-90) says missing HP is kept. In fact:
  - on aliased lists the difference it computes is 0, so HP ends at the new maximum;
  - on distinct lists both lists end with the old current HP.
- The level-up loop (api/pokemon.py:104) raises the level as soon as the current level's threshold is exceeded. So one point of experience takes a new slow-curve creature from level 1 to level 2, whose threshold is 10 (`Creature.OneXpLevelsUp`).
- The medium-fast curve gives 1 for level 1; every other curve gives 0.

## Model

| member | source | states |
|---|---|---|
| StatEngine.XpFor | api/pokemon.py:153-191 | at level 1 or below every curve needs 0 experience except medium-fast, which needs level³ |
| StatEngine.SlowThenVeryFastStep | api/pokemon.py:155-165 | the slow-then-very-fast curve never decreases from one level to the next, across its four pieces |
| StatEngine.MediumSlowStep | api/pokemon.py:173-177 | the medium-slow cubic never decreases from one level to the next |
| StatEngine.FastThenVerySlowStep | api/pokemon.py:183-191 | the fast-then-very-slow curve never decreases from one level to the next, across its three pieces |
| StatEngine.XpStep | api/pokemon.py:153-191 | on every curve, level n+1 needs at least as much experience as level n, for n in 1..99 |
| StatEngine.XpMonotone | api/pokemon.py:153-191 | every curve is non-decreasing over levels 1 to 100, which the level-up loop relies on |
| StatEngine.XpNonNegative | api/pokemon.py:153-191 | no curve asks for negative experience on levels 1 to 100 |
| StatEngine.NatureAdjusted | api/pokemon.py:260-263 | the increased index gets ×1.1 floored; otherwise the decreased index gets ×0.9 floored; any other index is unchanged. So for a non-negative stat a raise happens only on the increased index and a cut only on a decreased index that is not also the increased one |
| StatEngine.NatureAdjustedMono | api/pokemon.py:260-263 | the nature adjustment preserves order |
| StatEngine.StatsFor | api/pokemon.py:253-263 | six stats: HP by its own formula, indices 1-5 by the other formula followed by the nature |
| StatEngine.StatAt | api/pokemon.py:255-263 | the reference definition of one stat: HP's formula at index 0, the other formula and then the nature at 1-5. It has no contract of its own; `StatsFor` collects the six, and `HpIgnoresNature`, `SameIndexNatureRaises` and `StatsGrowWithLevel` state its properties |
| StatEngine.HpIgnoresNature | api/pokemon.py:255-256 | HP is the same under any two natures |
| StatEngine.SameIndexNatureRaises | api/pokemon.py:260-263 | when a nature names the same index as increased and decreased, the ×1.1 wins |
| StatEngine.StatsGrowWithLevel | api/pokemon.py:253-263 | with non-negative base stats, IVs and EVs, no stat falls when the level rises |
| StatEngine.HpExample | api/pokemon.py:255-256 | base HP 45 with no IVs or EVs gives 11 HP at level 1 and 13 at level 2 |
| Battle.FloorDiv | api/pokemon.py:298-301 | the floor of the stat quotient, for either sign of the divisor |
| Battle.SameType | api/pokemon.py:309-313 | the same-type test fails (IndexError) exactly when the attacker has no type; otherwise it holds when the move's type is among the first two types |
| Battle.Clamp | api/pokemon.py:324 | the damage dealt is the computed damage or the defender's HP, never above either, and leaves HP at 0 or above |
| Battle.HitDamage | api/pokemon.py:295-323 | the reference definition of the damage of a hit, before the clamp: level term, power, floored stat quotient, +2, critical, spread, same-type bonus, effectiveness, each floored. It has no contract of its own; `HitDamageNonNegative` and `ZeroPowerStillHits` state its properties |
| Battle.AttackOutcomeFor | api/pokemon.py:292-327 | the reference definition of attack's outcome: a miss, one of the three exceptions, or a hit of the clamped damage. It has no contract of its own; `AttackOutcomeBounds` states its properties and `Creature.Pokemon.Attack` is proved equal to it |
| Battle.HitDamageNonNegative | api/pokemon.py:295-323 | with non-negative level, power, stats, spread and effectiveness, the pipeline gives no negative damage |
| Battle.ZeroPowerStillHits | api/pokemon.py:295-308 | a move of power 0 still deals at least 1 damage under the 85-100 spread when the type does not resist |
| Battle.AttackOutcomeBounds | api/pokemon.py:292-327 | a miss exactly when the roll exceeds the accuracy; an exception exactly when the defending stat is 0, the attacker has no type or the defender's maximum HP is 0; a hit never exceeds the defender's HP and is non-negative for non-negative inputs |
| MoveData.Move.constructor | api/Move.py:5-33 | the record's fields with the name capitalized; otherwise the fallback: the given name, id -1, accuracy 100, power 0, pp 5, no effect chance, priority 0, physical, type "normal"; `currentPp == pp` either way |
| MoveData.Move.GetName | api/Move.py:37-38 | returns the name, changes nothing |
| MoveData.Move.GetAccuracy | api/Move.py:40-41 | returns the accuracy, changes nothing |
| MoveData.Move.GetPower | api/Move.py:43-44 | returns the power, changes nothing |
| MoveData.Move.GetPp | api/Move.py:46-47 | returns the maximum PP, changes nothing |
| MoveData.Move.GetEffectChance | api/Move.py:49-50 | returns the effect chance, changes nothing |
| MoveData.Move.GetPriority | api/Move.py:52-53 | returns the priority, changes nothing |
| MoveData.Move.GetDamageClass | api/Move.py:55-56 | returns the damage class, changes nothing |
| MoveData.Move.GetType | api/Move.py:58-59 | returns the type name, changes nothing |
| MoveData.Move.GetCurrentPp | api/Move.py:61-62 | returns the current PP, changes nothing |
| MoveData.ClampedPp | api/Move.py:64-65 | the stored value never exceeds `pp`; it is the value itself whenever that is at most `pp`, so there is no floor at 0 |
| MoveData.ClampedPpIdempotent | api/Move.py:64-65 | clamping twice equals clamping once |
| MoveData.Move.SetCurrentPp | api/Move.py:64-65 | only `currentPp` changes; it becomes min(value, pp) |
| MoveData.SetCurrentPpTwice | api/Move.py:64-65 | two calls with the same value leave what one call leaves; a value of 0 or below is stored unchanged |
| Text.Capitalize | api/Move.py:15 | same length; every character keeps its letter up to case, and characters without case are unchanged; the first is not lower case and the others are not upper case |
| Text.TitleFrom | api/pokemon.py:30 | title case: every character keeps its letter up to case, and characters without case are unchanged; the first letter of each run of letters is not lower case, and the others are not upper case, including the first position when the character to its left is a letter |
| Text.Title | api/pokemon.py:30 | `str.title()` from the start of a string: same length, letters kept up to case, characters without case unchanged, upper case at the start of each run of letters and lower case inside it |
| Text.DisplayName | api/pokemon.py:30 | a display name has the raw name's length and no '-'. Each '-' becomes ' '. Every other character keeps its letter up to case, and characters without case are unchanged. Letters are title-cased: a letter is upper case after a character without case or at the start, and lower case after a letter |
| Creature.EvolvesTo | api/pokemon.py:40-43 | the reference definition of `evolves_to`: the stage-1 targets at stage 0, the stage-2 targets at stage 1, none otherwise. It has no contract of its own; `SpeciesFor` states where it is used |
| Creature.SpeciesFor | api/pokemon.py:25-65 | a known name gives every field of the record (id, types, abilities, base experience, growth rate, base stats, learnset, chain, happiness, capture and gender rates, hatch counter), the title-cased name and the chain's evolution targets; an unknown one gives the arguments and the defaults (slow curve, happiness 70, capture rate 45, gender rate 4, hatch counter 20, no targets) |
| Creature.FirstMinLevel | api/pokemon.py:202-211 | a non-zero minimum level comes from a first target that has one |
| Creature.EvolutionOffered | api/pokemon.py:200-212 | the reference definition of try_level_evolution's test. It has no contract of its own; `EvolutionOfferedExactly` spells it out and `Creature.Pokemon.TryLevelEvolution` is stated with it |
| Creature.EvolutionOfferedExactly | api/pokemon.py:200-212 | an evolution is offered exactly when the stage is not 2, a first target exists with a minimum level that is not 0, and the level has reached it |
| Creature.FirstMoves | api/pokemon.py:72-78 | the reference definition of the constructor's level-1 move loop: append below four, else overwrite the drawn slot. It has no contract of its own; `FirstMovesCount` states its properties and `LearnFirstMoves` is proved equal to it |
| Creature.FirstMovesCount | api/pokemon.py:72-78 | a new creature keeps min(4, n) of its n level-1 moves, and all of them, in learnset order, when they fit |
| Creature.LearnFirstMoves | api/pokemon.py:72-78 | the constructor's learnset loop yields at most 4 new moves, named as the specification `FirstMoves` says |
| Creature.LevelUpLearn | api/pokemon.py:121-146 | one offered move is appended unless 4 are known; with 4 known, the chosen slot is overwritten and the others kept, or nothing changes |
| Creature.LevelUpMoves | api/pokemon.py:118-146 | the reference definition of the learnset pass at one level, as a fold of `LevelUpLearn`. It has no contract of its own; `LevelUpMovesBounds` states its properties and `Creature.Pokemon.LearnLevelMoves` is proved equal to it |
| Creature.LevelUpMovesBounds | api/pokemon.py:118-146 | a level-up never exceeds 4 moves and never shortens the list, and learns everything offered, in order, when it fits |
| Creature.LevelReached | api/pokemon.py:103-105 | the reference definition of the level add_xp's while loop stops at. It has no contract of its own; `LevelReachedIsLeast` and `NoLevelUpPending` state its properties and `Creature.Pokemon.AddXp` is proved to reach it |
| Creature.LevelReachedIsLeast | api/pokemon.py:103-105 | the level-up loop stops at the least level from the old one whose threshold is not exceeded, or at 100, and never lowers the level |
| Creature.NoLevelUpPending | api/pokemon.py:104 | below 100, no threshold between the level reached and 100 is exceeded |
| Creature.OneXpLevelsUp | api/pokemon.py:104 | 1 experience point takes a new slow-curve creature to level 2, whose threshold is 10 |
| Creature.Pokemon.constructor | api/pokemon.py:17-82 | species data from the record or the fallback; level 1, zero IVs and EVs, `Nature('hardy')` (indices left open), experience of level 1, the level-1 moves, stats from the formula, and `currentStats` the same array as `stats` |
| Creature.Pokemon.CalculateStats | api/pokemon.py:253-263 | the stats array holds `StatsFor` of the current data |
| Creature.Pokemon.Heal | api/pokemon.py:285-287 | `currentStats` becomes the very array `stats` |
| Creature.Pokemon.SetLevel | api/pokemon.py:84-93 | new level and stats, lists aliased; HP is the new maximum if they were aliased on entry, else the old current HP |
| Creature.Pokemon.SetEv | api/pokemon.py:148-151 | one EV replaced, with negative indices counted from the end; stats recomputed |
| Creature.Pokemon.GenerateIvs | api/pokemon.py:265-269 | the IVs become the six draws; stats recomputed |
| Creature.Pokemon.GenerateNature | api/pokemon.py:271-274 | the nature becomes the drawn one; stats recomputed |
| Creature.Pokemon.Generate | api/pokemon.py:276-281 | new IVs and nature, stats recomputed, lists aliased |
| Creature.Pokemon.LearnLevelMoves | api/pokemon.py:118-146 | the known moves after one level's learnset pass are those `LevelUpMoves` gives |
| Creature.Pokemon.TryLevelEvolution | api/pokemon.py:198-236 | nothing changes at stage 2, without a first target, with a missing or zero minimum level, below it, or when declined; otherwise the target's species data, with level, experience, moves, IVs, EVs and nature carried over and full fresh stats |
| Creature.Pokemon.Evolve | api/pokemon.py:224-233 | the species data of a new creature of the target species; individual data kept; stats recomputed at the current level on a fresh aliased array |
| Creature.Pokemon.Inherit | api/pokemon.py:227-231 | the new creature receives experience, moves, IVs, EVs and nature |
| Creature.Pokemon.TakeOver | api/pokemon.py:233 | every attribute of the new creature becomes this one's |
| Creature.Pokemon.AddXp | api/pokemon.py:95-146 | experience grows by exactly the amount; the level becomes the one the loop stops at, never lower and at most 100; IVs, EVs and nature kept; without a level-up nothing else changes; after one, the lists are aliased and, if they were aliased on entry, the stats are current; the move list never shrinks; a creature at the final stage, or one whose every offered evolution at the levels gained is declined, keeps its species |
| Creature.Pokemon.Attack | api/pokemon.py:289-327 | the outcome is the pipeline's; on a hit the defender's HP drops by the damage and stays at 0 or above; on a miss or an exception it is untouched; no other stat changes; an aliased defender at 0 HP is never hit |

## Left out

- Species loading is left out: the `pokemon_data` cache, the `dl_utils` download, and the key normalisation `name.replace(' ', '-').lower()`. They are global state and I/O. The model looks the given name up in `Pokedex.species`.
- The network lookup in `Move.__init__` is left out. The record it returns is a parameter, and None stands for the "not found" error. Other network errors are not modelled.
- `EvolutionChain`, `Nature` and `Type` are not part of this model.
  - A chain is the stage and the two target lists it reports.
  - A nature is a pair of stat indices.
  - A type is its name.
- `battle_xp` is left out. It uses `** 2.5`, which is floating-point numerics.
- Console output is left out: every `print` and the `print` method. The stat-gain report in `add_xp` is part of this.
- The two `input` prompts become policy parameters. Re-prompting on invalid input is not modelled, since a policy only returns valid answers.
- The move-type mismatch: `api/pokemon.py` imports `api.move`, reads `move.type.name` and calls `move.get_effectivity`, none of which `api/Move.py` provides. The model compares the move's type name and takes the effectiveness as an input.
- Floating-point rounding is not modelled. Results near an integer boundary could in principle differ from the source's double arithmetic.
- A growth-rate name outside the six is not modelled. In the source `calculate_xp` then returns None, which fails later; here `GrowthRate` has six values.
- A `min_level` whose value is null is not modelled. In the source the comparison raises TypeError. A missing key is modelled, as None.
- Null `accuracy` or `power` from the move database is not modelled. These are integers here.
- The evolution's discarded level-1 moves use the same slot draws as the creature's own construction.
- Unicode case mapping of names is not modelled. `Text` applies `str.title()` and `str.capitalize()` to the ASCII letters A-Z and a-z only, and treats every other character as having no case.
- `evolution.name.replace('-', ' ').title()` (api/pokemon.py:226) discards its result, so there is nothing to model.
- Creature.Pokemon.constructor: on the fallback path it requires exactly six base stats. The source raises IndexError from `calculate_stats` for fewer and ignores any beyond the sixth.
- Creature.Pokemon.SetEv: requires an index in -6..5. The source raises IndexError for any other index.
- Creature.Pokemon.Attack: requires each roll within its `randint` range.
- Creature.Pokemon.AddXp: after a level-up on lists that were distinct on entry, the stats are not stated. The moves after several levels are stated only level by level, through `LearnLevelMoves`, beyond the list never shrinking. After an accepted evolution the species is not stated; `TryLevelEvolution` states it for one level.
