/**
 * One creature (api/pokemon.py, class Pokemon): its species data, its
 * individual data (level, IVs, EVs, nature, experience, known moves) and the
 * two stat lists.
 *
 * `stats` and `currentStats` are arrays because the source shares them:
 * heal() makes `current_stats` the very same list as `stats`, so from the
 * constructor on, damage taken in attack() lowers both, and set_level()
 * sees no missing HP.
 *
 * The collaborators the source reaches through globals, the network and
 * the console are parameters: a Pokedex (species and move databases, the
 * evolution chain the provider gives for id -1, and Nature('hardy')), a
 * ForgetPolicy and an EvolvePolicy for the two prompts, and `draw` for the
 * random slot the constructor overwrites.
 */
module Creature {
  import opened Wrappers
  import opened StatEngine
  import opened MoveData
  import opened Battle
  import Text

  /** One row of a species' learnset: a move and the level at which it is learned. */
  datatype LearnableMove = LearnableMove(moveName: string, levelLearnedAt: int)

  /** A next-stage species and its minimum level, None when its record has none. */
  datatype EvolutionTarget = EvolutionTarget(species: string, minLevel: Option<int>)

  /** What the evolution-chain provider reports for a species: its stage and the targets of each stage. */
  datatype EvolutionChain = EvolutionChain(
    stage: int,
    stage1Evolutions: seq<EvolutionTarget>,
    stage2Evolutions: seq<EvolutionTarget>)

  /** What the species provider returns for a name it knows. */
  datatype SpeciesRecord = SpeciesRecord(
    id: int,
    name: string,
    baseStats: seq<int>,
    types: seq<string>,
    abilities: seq<string>,
    baseXp: int,
    growthRate: GrowthRate,
    moves: seq<LearnableMove>,
    chain: EvolutionChain,
    baseHappiness: int,
    captureRate: int,
    genderRate: int,
    hatchCounter: int)

  datatype Pokedex = Pokedex(
    species: map<string, SpeciesRecord>,
    moves: map<string, MoveRecord>,
    unknownChain: EvolutionChain,
    hardy: Nature)
  {
    /** Every species record carries six base stats. */
    predicate Valid()
    {
      forall n :: n in species ==> |species[n].baseStats| == 6
    }

    function MoveLookup(name: string): Option<MoveRecord>
    {
      if name in moves then Some(moves[name]) else None
    }

    /** The name a Move built for `name` ends up with. */
    function MoveDisplayName(name: string): string
    {
      if name in moves then Text.Capitalize(moves[name].name) else name
    }
  }

  /** The species half of a creature: everything evolution replaces. */
  datatype Species = Species(
    id: int,
    name: string,
    baseStats: seq<int>,
    types: seq<string>,
    abilities: seq<string>,
    baseExperience: int,
    growthRate: GrowthRate,
    moves: seq<LearnableMove>,
    evolutionChain: EvolutionChain,
    evolvesTo: seq<EvolutionTarget>,
    baseHappiness: int,
    captureRate: int,
    genderRate: int,
    hatchCounter: int)

  /** The constructor's defaults for `base_stats` and `types`. */
  const DefaultBaseStats: seq<int> := [0, 0, 0, 0, 0, 0]
  const DefaultTypes: seq<string> := ["normal"]

  /** A slot the player names when forgetting a move (1 to 4). */
  type Slot = s: int | 1 <= s <= 4 witness 1

  /** A slot drawn by random.randint(0, 3). */
  type DrawnSlot = s: int | 0 <= s <= 3 witness 0

  /** The forget-a-move prompt: given the level, the known move names and the new move's name, a slot or None. */
  type ForgetPolicy = (int, seq<string>, string) -> Option<Slot>

  /** The evolution prompt: accept (true) or abort, given the level at which it is offered. */
  type EvolvePolicy = int -> bool

  /** The targets a species may evolve into, by its stage in the chain. */
  function EvolvesTo(chain: EvolutionChain): seq<EvolutionTarget>
  {
    if chain.stage == 0 then chain.stage1Evolutions
    else if chain.stage == 1 then chain.stage2Evolutions
    else []
  }

  /** The species half the constructor fills in for `name`: the record's, or the fallback's. */
  function SpeciesFor(dex: Pokedex, name: string, baseStats: seq<int>, types: seq<string>, index: int): (s: Species)
    ensures name !in dex.species ==>
      && s.id == index && s.baseStats == baseStats && s.types == types
      && s.abilities == [] && s.baseExperience == 0 && s.growthRate == Slow && s.moves == []
      && s.evolutionChain == dex.unknownChain && s.evolvesTo == []
      && s.baseHappiness == 70 && s.captureRate == 45 && s.genderRate == 4 && s.hatchCounter == 20
    ensures name in dex.species ==>
      && s.baseStats == dex.species[name].baseStats
      && s.evolutionChain == dex.species[name].chain && s.moves == dex.species[name].moves
      && s.evolvesTo == EvolvesTo(dex.species[name].chain)
    ensures name in dex.species ==>
      var raw := dex.species[name];
      && s.id == raw.id && s.types == raw.types && s.abilities == raw.abilities
      && s.baseExperience == raw.baseXp && s.growthRate == raw.growthRate
      && s.baseHappiness == raw.baseHappiness && s.captureRate == raw.captureRate
      && s.genderRate == raw.genderRate && s.hatchCounter == raw.hatchCounter
    ensures s.name == Text.DisplayName(if name in dex.species then dex.species[name].name else name)
  {
    if name in dex.species then
      var raw := dex.species[name];
      Species(raw.id, Text.DisplayName(raw.name), raw.baseStats, raw.types, raw.abilities, raw.baseXp,
              raw.growthRate, raw.moves, raw.chain, EvolvesTo(raw.chain),
              raw.baseHappiness, raw.captureRate, raw.genderRate, raw.hatchCounter)
    else
      Species(index, Text.DisplayName(name), baseStats, types, [], 0, Slow, [], dex.unknownChain, [],
              70, 45, 4, 20)
  }

  /**
   * The first target's minimum level as try_level_evolution reads it: 0
   * when there is no target or the target gives no minimum level.
   */
  function FirstMinLevel(evolvesTo: seq<EvolutionTarget>): (m: int)
    ensures m != 0 ==> |evolvesTo| > 0 && evolvesTo[0].minLevel == Some(m)
  {
    if evolvesTo == [] then 0
    else match evolvesTo[0].minLevel
      case None => 0
      case Some(m) => m
  }

  /** Whether try_level_evolution offers an evolution. */
  predicate EvolutionOffered(stage: int, evolvesTo: seq<EvolutionTarget>, level: int)
  {
    stage != 2 && level >= FirstMinLevel(evolvesTo) && FirstMinLevel(evolvesTo) != 0
  }

  /**
   * try_level_evolution's test with its fallbacks spelled out: an offer
   * needs a non-final stage, a first target, a minimum level on it that is
   * not 0, and the creature at or above that level.
   */
  lemma EvolutionOfferedExactly(stage: int, evolvesTo: seq<EvolutionTarget>, level: int)
    ensures EvolutionOffered(stage, evolvesTo, level) <==>
      && stage != 2 && |evolvesTo| > 0 && evolvesTo[0].minLevel.Some?
      && evolvesTo[0].minLevel.value != 0 && level >= evolvesTo[0].minLevel.value
  {
  }

  /** The names of a list of moves. */
  function Names(ms: seq<Move>): (r: seq<string>)
    ensures |r| == |ms|
    ensures forall i :: 0 <= i < |ms| ==> r[i] == ms[i].name
  {
    seq(|ms|, i requires 0 <= i < |ms| => ms[i].name)
  }

  /** The display names of the learnset entries learned at `level`, in learnset order. */
  function Candidates(learnset: seq<LearnableMove>, level: int, dex: Pokedex): seq<string>
  {
    if learnset == [] then []
    else if learnset[0].levelLearnedAt == level
    then [dex.MoveDisplayName(learnset[0].moveName)] + Candidates(learnset[1..], level, dex)
    else Candidates(learnset[1..], level, dex)
  }

  /**
   * The constructor's handling of the level-1 learnset: append while fewer
   * than four moves are known, else overwrite the drawn slot; `drawn`
   * counts the draws used so far.
   */
  function FirstMoves(known: seq<string>, learnset: seq<LearnableMove>, dex: Pokedex,
                      draw: nat -> DrawnSlot, drawn: nat): seq<string>
    decreases |learnset|
  {
    if learnset == [] then known
    else if learnset[0].levelLearnedAt == 1 then
      var name := dex.MoveDisplayName(learnset[0].moveName);
      if |known| < 4 then FirstMoves(known + [name], learnset[1..], dex, draw, drawn)
      else FirstMoves(known[draw(drawn) := name], learnset[1..], dex, draw, drawn + 1)
    else FirstMoves(known, learnset[1..], dex, draw, drawn)
  }

  /** A new creature knows the first min(4, n) of its n level-1 moves' worth of slots. */
  lemma {:induction false} FirstMovesCount(known: seq<string>, learnset: seq<LearnableMove>, dex: Pokedex,
                                           draw: nat -> DrawnSlot, drawn: nat)
    requires |known| <= 4
    ensures var n := |known| + |Candidates(learnset, 1, dex)|;
      |FirstMoves(known, learnset, dex, draw, drawn)| == if n < 4 then n else 4
    ensures |known| + |Candidates(learnset, 1, dex)| <= 4 ==>
      FirstMoves(known, learnset, dex, draw, drawn) == known + Candidates(learnset, 1, dex)
    decreases |learnset|
  {
    if learnset != [] {
      if learnset[0].levelLearnedAt == 1 {
        var name := dex.MoveDisplayName(learnset[0].moveName);
        if |known| < 4 {
          FirstMovesCount(known + [name], learnset[1..], dex, draw, drawn);
          assert known + [name] + Candidates(learnset[1..], 1, dex) == known + Candidates(learnset, 1, dex);
        } else {
          FirstMovesCount(known[draw(drawn) := name], learnset[1..], dex, draw, drawn + 1);
        }
      } else {
        FirstMovesCount(known, learnset[1..], dex, draw, drawn);
      }
    }
  }

  /**
   * One move offered during a level-up: appended unless exactly four are
   * known; with four, the chosen slot is overwritten, or nothing changes.
   */
  function LevelUpLearn(known: seq<string>, candidate: string, choice: Option<Slot>): (r: seq<string>)
    ensures |known| != 4 ==> r == known + [candidate]
    ensures |known| == 4 && choice.None? ==> r == known
    ensures |known| == 4 && choice.Some? ==>
      && |r| == 4 && r[choice.value - 1] == candidate
      && forall i :: 0 <= i < 4 && i != choice.value - 1 ==> r[i] == known[i]
  {
    if |known| == 4 then
      match choice
      case None => known
      case Some(s) => known[s - 1 := candidate]
    else known + [candidate]
  }

  /** add_xp's pass over the learnset for the level just reached. */
  function LevelUpMoves(known: seq<string>, learnset: seq<LearnableMove>, level: int, dex: Pokedex,
                        choose: ForgetPolicy): seq<string>
    decreases |learnset|
  {
    if learnset == [] then known
    else
      var next :=
        if learnset[0].levelLearnedAt == level then
          var name := dex.MoveDisplayName(learnset[0].moveName);
          LevelUpLearn(known, name, if |known| == 4 then choose(level, known, name) else None)
        else known;
      LevelUpMoves(next, learnset[1..], level, dex, choose)
  }

  /**
   * A level-up never takes a creature past four moves nor makes it forget
   * one without learning another, and when everything offered fits, all of
   * it is learned in learnset order.
   */
  lemma {:induction false} LevelUpMovesBounds(known: seq<string>, learnset: seq<LearnableMove>, level: int,
                                              dex: Pokedex, choose: ForgetPolicy)
    requires |known| <= 4
    ensures var r := LevelUpMoves(known, learnset, level, dex, choose);
      && |known| <= |r| <= 4
      && (|known| + |Candidates(learnset, level, dex)| <= 4 ==> r == known + Candidates(learnset, level, dex))
    decreases |learnset|
  {
    if learnset != [] {
      if learnset[0].levelLearnedAt == level {
        var name := dex.MoveDisplayName(learnset[0].moveName);
        var next := LevelUpLearn(known, name, if |known| == 4 then choose(level, known, name) else None);
        LevelUpMovesBounds(next, learnset[1..], level, dex, choose);
        if |known| + |Candidates(learnset, level, dex)| <= 4 {
          assert next == known + [name];
          assert known + [name] + Candidates(learnset[1..], level, dex) == known + Candidates(learnset, level, dex);
        }
      } else {
        LevelUpMovesBounds(known, learnset[1..], level, dex, choose);
      }
    }
  }

  /** The level add_xp's while loop stops at, starting from `from` with `xp` experience. */
  function LevelReached(rate: GrowthRate, xp: int, from: int): int
    decreases 100 - from
  {
    if xp > XpFor(rate, from) && from < 100 then LevelReached(rate, xp, from + 1) else from
  }

  /**
   * The loop stops at the least level l >= `from` whose threshold is not
   * exceeded, or at 100: the level rises as soon as the current level's
   * threshold is exceeded.
   */
  lemma {:induction false} LevelReachedIsLeast(rate: GrowthRate, xp: int, from: int)
    ensures var l := LevelReached(rate, xp, from);
      && from <= l
      && (from <= 100 ==> l <= 100)
      && (forall k :: from <= k < l ==> xp > XpFor(rate, k))
      && (l < 100 ==> xp <= XpFor(rate, l))
    decreases 100 - from
  {
    if xp > XpFor(rate, from) && from < 100 {
      LevelReachedIsLeast(rate, xp, from + 1);
    }
  }

  /** Because the curves are non-decreasing, no threshold between the level reached and 100 is exceeded. */
  lemma NoLevelUpPending(rate: GrowthRate, xp: int, from: int)
    requires 1 <= from <= 100
    ensures var l := LevelReached(rate, xp, from);
      l < 100 ==> forall k :: l <= k <= 100 ==> xp <= XpFor(rate, k)
  {
    LevelReachedIsLeast(rate, xp, from);
    var l := LevelReached(rate, xp, from);
    if l < 100 {
      forall k | l <= k <= 100
        ensures xp <= XpFor(rate, k)
      {
        XpMonotone(rate, l, k);
      }
    }
  }

  /** One point of experience takes a new slow-curve creature to level 2, whose threshold is 10. */
  lemma OneXpLevelsUp()
    ensures LevelReached(Slow, 1, 1) == 2 && XpFor(Slow, 2) == 10
  {
  }

  /**
   * The constructor's loop over the learnset: a new Move for each level-1
   * entry, appended while fewer than four are known, else written over the
   * drawn slot.
   */
  method LearnFirstMoves(learnset: seq<LearnableMove>, dex: Pokedex, draw: nat -> DrawnSlot)
    returns (learned: seq<Move>)
    ensures |learned| <= 4
    ensures Names(learned) == FirstMoves([], learnset, dex, draw, 0)
    ensures forall m :: m in learned ==> fresh(m)
  {
    learned := [];
    var drawn: nat := 0;
    for j := 0 to |learnset|
      invariant |learned| <= 4
      invariant forall i :: 0 <= i < |learned| ==> fresh(learned[i])
      invariant FirstMoves(Names(learned), learnset[j..], dex, draw, drawn) == FirstMoves([], learnset, dex, draw, 0)
    {
      assert learnset[j..][1..] == learnset[j + 1..];
      if learnset[j].levelLearnedAt == 1 {
        var move := new Move(learnset[j].moveName, dex.MoveLookup(learnset[j].moveName));
        if |learned| < 4 {
          assert Names(learned + [move]) == Names(learned) + [move.name];
          learned := learned + [move];
        } else {
          var slot := draw(drawn);
          assert Names(learned[slot := move]) == Names(learned)[slot := move.name];
          learned := learned[slot := move];
          drawn := drawn + 1;
        }
      }
    }
  }

  /**
   * A creature. The species attributes of the source (id, name, base stats,
   * types, abilities, base experience, growth rate, learnset, evolution
   * chain and targets, happiness, capture rate, gender rate, hatch counter)
   * are held together in `species`, since evolution replaces them together;
   * the individual attributes are fields of their own.
   */
  class Pokemon {
    var species: Species
    var level: int
    var ivs: seq<int>
    var evs: seq<int>
    var nature: Nature
    var stats: array<int>
    var currentMoves: seq<Move>
    var currentXp: int
    var currentStats: array<int>

    ghost predicate Valid()
      reads this
    {
      && SixStats(species.baseStats, ivs, evs)
      && stats.Length == 6
      && currentStats.Length == 6
      && |currentMoves| <= 4
    }

    /** heal() has made the two stat lists one and the same. */
    predicate Aliased()
      reads this
    {
      currentStats == stats
    }

    ghost predicate StatsUpToDate()
      reads this, stats
      requires Valid()
    {
      stats[..] == StatsFor(species.baseStats, ivs, evs, level, nature)
    }

    /**
     * Pokemon(name, base_stats, types, index): the species record for
     * `name` if the provider has one, else a new species from the other
     * arguments; level 1, zero IVs and EVs, `Nature('hardy')` (`dex.hardy`),
     * whose indices the model leaves open, the level-1 moves, the experience
     * of level 1, healed.
     */
    constructor (dex: Pokedex, name: string, baseStats: seq<int>, types: seq<string>, index: int,
                 draw: nat -> DrawnSlot)
      requires dex.Valid()
      requires name !in dex.species ==> |baseStats| == 6
      ensures Valid() && fresh(stats) && Aliased()
      ensures species == SpeciesFor(dex, name, baseStats, types, index)
      ensures level == 1 && ivs == [0, 0, 0, 0, 0, 0] && evs == [0, 0, 0, 0, 0, 0] && nature == dex.hardy
      ensures currentXp == XpFor(species.growthRate, 1)
      ensures StatsUpToDate()
      ensures Names(currentMoves) == FirstMoves([], species.moves, dex, draw, 0)
      ensures forall m :: m in currentMoves ==> fresh(m)
    {
      species := SpeciesFor(dex, name, baseStats, types, index);
      level := 1;
      ivs := [0, 0, 0, 0, 0, 0];
      evs := [0, 0, 0, 0, 0, 0];
      nature := dex.hardy;
      stats := new int[6](_ => 0);
      currentMoves := [];
      currentStats := new int[6](_ => 0);
      new;
      var learned := LearnFirstMoves(species.moves, dex, draw);
      currentMoves := learned;
      currentXp := XpFor(species.growthRate, level);
      CalculateStats();
      Heal();
    }

    /** calculate_stats: rewrites the six entries of `stats` in place. */
    method CalculateStats()
      requires Valid()
      modifies stats
      ensures StatsUpToDate()
    {
      var baseStats := species.baseStats;
      stats[0] := HpStat(baseStats[0], ivs[0], evs[0], level);
      for x := 1 to 6
        invariant stats[0] == StatAt(0, baseStats, ivs, evs, level, nature)
        invariant forall k :: 1 <= k < x ==> stats[k] == StatAt(k, baseStats, ivs, evs, level, nature)
      {
        stats[x] := PlainStat(baseStats[x], ivs[x], evs[x], level);
        if x == nature.increasedStat {
          stats[x] := stats[x] * 11 / 10;
        } else if x == nature.decreasedStat {
          stats[x] := stats[x] * 9 / 10;
        }
      }
    }

    /** heal: `currentStats` becomes the very list `stats` is. */
    method Heal()
      requires Valid()
      modifies this`currentStats
      ensures Valid() && Aliased()
    {
      currentStats := stats;
    }

    /**
     * set_level: the new level, stats recomputed, the lists aliased. HP is
     * the new maximum when the lists were aliased on entry, and the old
     * current HP (in both lists) when they were not.
     */
    method SetLevel(newLevel: int)
      requires Valid()
      modifies this`level, this`currentStats, stats
      ensures Valid() && Aliased() && level == newLevel
      ensures forall i :: 1 <= i < 6 ==> stats[i] == StatAt(i, species.baseStats, ivs, evs, newLevel, nature)
      ensures stats[0] == if old(Aliased()) then StatAt(0, species.baseStats, ivs, evs, newLevel, nature)
                          else old(currentStats[0])
      ensures old(Aliased()) ==> StatsUpToDate()
    {
      level := newLevel;
      CalculateStats();
      var hpDiff := stats[0] - currentStats[0];
      Heal();
      currentStats[0] := currentStats[0] - hpDiff;
    }

    /** set_ev: stores one EV (a negative index counts from the end) and recomputes the stats. */
    method SetEv(index: int, value: int)
      requires Valid() && -6 <= index < 6
      modifies this`evs, stats
      ensures Valid()
      ensures evs == old(evs)[(if index < 0 then index + 6 else index) := value]
      ensures StatsUpToDate()
    {
      evs := evs[(if index < 0 then index + 6 else index) := value];
      CalculateStats();
    }

    /** generate_ivs, with the six randint(0, 31) draws as `draws`: the IVs become the draws, stats recomputed. */
    method GenerateIvs(draws: seq<int>)
      requires Valid() && |draws| == 6
      requires forall i :: 0 <= i < 6 ==> 0 <= draws[i] <= 31
      modifies this`ivs, stats
      ensures Valid() && ivs == draws && StatsUpToDate()
    {
      for x := 0 to 6
        invariant |ivs| == 6
        invariant forall i :: 0 <= i < x ==> ivs[i] == draws[i]
      {
        ivs := ivs[x := draws[x]];
      }
      CalculateStats();
    }

    /** generate_nature, with the drawn nature as `drawn`. */
    method GenerateNature(drawn: Nature)
      requires Valid()
      modifies this`nature, stats
      ensures Valid() && nature == drawn && StatsUpToDate()
    {
      nature := drawn;
      CalculateStats();
    }

    /** generate: new IVs and nature, stats recomputed, healed. */
    method Generate(draws: seq<int>, drawn: Nature)
      requires Valid() && |draws| == 6
      requires forall i :: 0 <= i < 6 ==> 0 <= draws[i] <= 31
      modifies this`ivs, this`nature, this`currentStats, stats
      ensures Valid() && ivs == draws && nature == drawn && Aliased() && StatsUpToDate()
    {
      GenerateIvs(draws);
      GenerateNature(drawn);
      CalculateStats();
      Heal();
    }

    /** The part of add_xp that handles the learnset at the level just reached. */
    method LearnLevelMoves(dex: Pokedex, choose: ForgetPolicy)
      requires Valid()
      modifies this`currentMoves
      ensures Valid()
      ensures Names(currentMoves) == LevelUpMoves(Names(old(currentMoves)), species.moves, level, dex, choose)
      ensures |old(currentMoves)| <= |currentMoves|
    {
      LevelUpMovesBounds(Names(currentMoves), species.moves, level, dex, choose);
      var learnset := species.moves;
      for j := 0 to |learnset|
        invariant |currentMoves| <= 4
        invariant LevelUpMoves(Names(currentMoves), learnset[j..], level, dex, choose)
               == LevelUpMoves(Names(old(currentMoves)), learnset, level, dex, choose)
      {
        assert learnset[j..][1..] == learnset[j + 1..];
        if learnset[j].levelLearnedAt == level {
          var move := new Move(learnset[j].moveName, dex.MoveLookup(learnset[j].moveName));
          if |currentMoves| == 4 {
            var replace := choose(level, Names(currentMoves), move.name);
            if replace.Some? {
              assert Names(currentMoves[replace.value - 1 := move])
                  == Names(currentMoves)[replace.value - 1 := move.name];
              currentMoves := currentMoves[replace.value - 1 := move];
            }
          } else {
            assert Names(currentMoves + [move]) == Names(currentMoves) + [move.name];
            currentMoves := currentMoves + [move];
          }
        }
      }
    }

    /**
     * try_level_evolution: when the stage is not final and the first
     * target's minimum level is set and reached, and the player accepts,
     * this creature takes on every attribute of a new creature of the
     * target species that was given this one's experience, moves, IVs, EVs
     * and nature and brought to its level. Otherwise nothing changes.
     */
    method TryLevelEvolution(dex: Pokedex, accept: bool, draw: nat -> DrawnSlot)
      requires Valid() && dex.Valid()
      modifies this
      ensures Valid()
      ensures !(old(EvolutionOffered(species.evolutionChain.stage, species.evolvesTo, level)) && accept) ==>
        unchanged(this)
      ensures old(EvolutionOffered(species.evolutionChain.stage, species.evolvesTo, level)) && accept ==>
        && species == SpeciesFor(dex, old(species.evolvesTo[0].species), DefaultBaseStats, DefaultTypes, -1)
        && level == old(level) && currentXp == old(currentXp) && currentMoves == old(currentMoves)
        && ivs == old(ivs) && evs == old(evs) && nature == old(nature)
        && fresh(stats) && Aliased() && StatsUpToDate()
    {
      if species.evolutionChain.stage == 2 {
        return;
      }
      var evolutionLevel := FirstMinLevel(species.evolvesTo);
      if level >= evolutionLevel && evolutionLevel != 0 && accept {
        Evolve(dex, species.evolvesTo[0].species, draw);
      }
    }

    /**
     * The evolution itself: a new creature of species `target` is given
     * this one's experience, moves, IVs, EVs and nature and brought to its
     * level, and this creature takes on every attribute of it.
     */
    method Evolve(dex: Pokedex, target: string, draw: nat -> DrawnSlot)
      requires Valid() && dex.Valid()
      modifies this
      ensures Valid()
      ensures species == SpeciesFor(dex, target, DefaultBaseStats, DefaultTypes, -1)
      ensures level == old(level) && currentXp == old(currentXp) && currentMoves == old(currentMoves)
      ensures ivs == old(ivs) && evs == old(evs) && nature == old(nature)
      ensures fresh(stats) && Aliased() && StatsUpToDate()
    {
      var evolution := new Pokemon(dex, target, DefaultBaseStats, DefaultTypes, -1, draw);
      evolution.Inherit(this);
      evolution.SetLevel(level);
      TakeOver(evolution);
    }

    /** The attributes a new evolution receives from the creature it replaces. */
    method Inherit(from: Pokemon)
      requires Valid() && from.Valid() && from != this
      modifies this`currentXp, this`currentMoves, this`ivs, this`evs, this`nature
      ensures Valid()
      ensures currentXp == from.currentXp && currentMoves == from.currentMoves
      ensures ivs == from.ivs && evs == from.evs && nature == from.nature
    {
      currentXp := from.currentXp;
      currentMoves := from.currentMoves;
      ivs := from.ivs;
      evs := from.evs;
      nature := from.nature;
    }

    /** Every attribute of `other` becomes this creature's. */
    method TakeOver(other: Pokemon)
      requires other != this
      modifies this
      ensures species == other.species && level == other.level
      ensures ivs == other.ivs && evs == other.evs && nature == other.nature
      ensures stats == other.stats && currentMoves == other.currentMoves
      ensures currentXp == other.currentXp && currentStats == other.currentStats
    {
      species, level, ivs, evs, nature :=
        other.species, other.level, other.ivs, other.evs, other.nature;
      stats, currentMoves, currentXp, currentStats :=
        other.stats, other.currentMoves, other.currentXp, other.currentStats;
    }

    /**
     * add_xp: adds `amount` to the experience, finds the level the while
     * loop stops at, then for each level gained calls set_level, offers an
     * evolution unless the stage is final, and handles that level's moves.
     */
    method AddXp(amount: int, dex: Pokedex, choose: ForgetPolicy, accept: EvolvePolicy, draw: nat -> DrawnSlot)
      requires Valid() && dex.Valid()
      modifies this, stats
      ensures Valid()
      ensures currentXp == old(currentXp) + amount
      ensures level == LevelReached(old(species.growthRate), old(currentXp) + amount, old(level))
      ensures old(level) <= level && (old(level) <= 100 ==> level <= 100)
      ensures ivs == old(ivs) && evs == old(evs) && nature == old(nature)
      ensures level == old(level) ==>
        && species == old(species) && currentMoves == old(currentMoves)
        && stats == old(stats) && currentStats == old(currentStats) && stats[..] == old(stats[..])
      ensures level > old(level) ==> Aliased()
      ensures level > old(level) && old(Aliased()) ==> StatsUpToDate()
      ensures |old(currentMoves)| <= |currentMoves|
      ensures old(species.evolutionChain.stage) == 2 ==> species == old(species)
      ensures (forall l :: old(level) < l <= level ==> !accept(l)) ==> species == old(species)
    {
      currentXp := currentXp + amount;
      var oldLevel := level;
      var newLevel := level;
      while currentXp > XpFor(species.growthRate, newLevel) && newLevel < 100
        invariant oldLevel <= newLevel
        invariant LevelReached(species.growthRate, currentXp, newLevel)
               == LevelReached(species.growthRate, currentXp, oldLevel)
        decreases 100 - newLevel
      {
        newLevel := newLevel + 1;
      }
      LevelReachedIsLeast(species.growthRate, currentXp, oldLevel);
      for i := 0 to newLevel - oldLevel
        invariant Valid()
        invariant level == oldLevel + i
        invariant currentXp == old(currentXp) + amount
        invariant ivs == old(ivs) && evs == old(evs) && nature == old(nature)
        invariant stats == old(stats) || fresh(stats)
        invariant i == 0 ==>
          && species == old(species) && currentMoves == old(currentMoves)
          && stats == old(stats) && currentStats == old(currentStats) && stats[..] == old(stats[..])
        invariant i > 0 ==> Aliased()
        invariant i > 0 && old(Aliased()) ==> StatsUpToDate()
        invariant |old(currentMoves)| <= |currentMoves|
        invariant old(species.evolutionChain.stage) == 2 ==> species == old(species)
        invariant (forall l :: oldLevel < l <= level ==> !accept(l)) ==> species == old(species)
      {
        SetLevel(level + 1);
        if species.evolutionChain.stage != 2 {
          TryLevelEvolution(dex, accept(level), draw);
        }
        LearnLevelMoves(dex, choose);
      }
    }

    /**
     * attack: one attack on `other` with `move`, given the accuracy,
     * critical and spread draws and the type effectiveness. The outcome is
     * the one Battle.AttackOutcomeFor gives; on a hit the damage, already
     * clamped to the defender's current HP, is taken off it. The damage
     * report divides by the defender's maximum HP, so a defender whose
     * lists are aliased and whose HP is 0 can no longer be hit.
     */
    method Attack(other: Pokemon, move: Move, accuracyRoll: int, criticalRoll: int, spreadRoll: int,
                  effectiveness: real) returns (outcome: AttackOutcome)
      requires Valid() && other.Valid()
      requires 1 <= accuracyRoll <= 100 && 1 <= criticalRoll <= 100 && 85 <= spreadRoll <= 100
      modifies other.currentStats
      ensures outcome == AttackOutcomeFor(accuracyRoll, move.accuracy, level, move.power, move.damageClass == Special,
                                          old(currentStats[..]), old(other.currentStats[..]), old(other.stats[0]),
                                          species.types, move.typeName, criticalRoll, spreadRoll, effectiveness)
      ensures outcome.Hit? ==> other.currentStats[0] == old(other.currentStats[0]) - outcome.damage >= 0
      ensures !outcome.Hit? ==> other.currentStats[0] == old(other.currentStats[0])
      ensures forall i :: 1 <= i < 6 ==> other.currentStats[i] == old(other.currentStats[i])
      ensures other.Aliased() && old(other.currentStats[0]) == 0 ==> !outcome.Hit?
    {
      if accuracyRoll > move.accuracy {
        return Missed;
      }
      var damage := level * 2 / 5 + 2;
      damage := damage * move.power;
      var attack, defense;
      if move.damageClass == Special {
        attack, defense := currentStats[3], other.currentStats[4];
      } else {
        attack, defense := currentStats[1], other.currentStats[2];
      }
      if defense == 0 {
        return Raised(ZeroDefense);
      }
      damage := FloorDiv(damage * attack, 50 * defense);
      damage := damage + 2;
      if criticalRoll < 7 {
        damage := damage * 3 / 2;
      }
      damage := damage * spreadRoll / 100;
      var types := species.types;
      if |types| == 1 {
        if types[0] == move.typeName {
          damage := damage * 3 / 2;
        }
      } else if |types| == 0 {
        return Raised(NoTypes);
      } else if types[0] == move.typeName || types[1] == move.typeName {
        damage := damage * 3 / 2;
      }
      damage := Effective(damage, effectiveness);
      if damage > other.currentStats[0] {
        damage := other.currentStats[0];
      }
      if other.stats[0] == 0 {
        return Raised(ZeroMaxHp);
      }
      other.currentStats[0] := other.currentStats[0] - damage;
      outcome := Hit(damage);
    }
  }
}
