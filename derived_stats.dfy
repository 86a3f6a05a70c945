/** The data of an actor and the derived values the calculator writes into it,
    as pure specification: what every derived field must hold after one pass,
    and what the pass leaves alone. The imperative pass itself is in module
    Actor. */
module DerivedStats {
  import opened Config

  // ---------------------------------------------------------------------
  // Data model
  // ---------------------------------------------------------------------

  /** One ability entry. The first five fields are entered by the user;
      abilityScore and checkBonus are derived. */
  datatype Ability = Ability(
    base: int,
    abilityBonus: int,
    otherBonus: int,
    classBonus: int,
    abilityScoreBonus: int,
    abilityScore: int,
    checkBonus: int)

  datatype HitCheck = HitCheck(base: int, hitModifier: int, skillModifier: int, otherModifier: int, total: int)
  /** attackPower has no ability tie-in: its `base` is never written. */
  datatype AttackPower = AttackPower(base: int, attackPower: int, skillModifier: int, otherModifier: int, total: int)
  datatype DodgeCheck = DodgeCheck(base: int, dodgeModifier: int, skillModifier: int, otherModifier: int, total: int)
  /** physicalDefense has no ability tie-in: its `base` is never written. */
  datatype PhysicalDefense = PhysicalDefense(base: int, armorModifier: int, skillModifier: int, otherModifier: int, total: int)
  datatype MagicalDefense = MagicalDefense(base: int, armorModifier: int, skillModifier: int, otherModifier: int, total: int)
  datatype ActionPoints = ActionPoints(base: int, actionModifier: int, skillModifier: int, otherModifier: int, total: int)
  datatype Movement = Movement(base: int, movementModifier: int, skillModifier: int, otherModifier: int, total: int)

  datatype CombatStats = CombatStats(
    hitCheck: HitCheck,
    attackPower: AttackPower,
    dodgeCheck: DodgeCheck,
    physicalDefense: PhysicalDefense,
    magicalDefense: MagicalDefense,
    actionPoints: ActionPoints,
    movement: Movement)

  /** Every special stat has the same shape: base, two modifiers, total. */
  datatype SpecialStat = SpecialStat(base: int, skillModifier: int, otherModifier: int, total: int)

  datatype SpecialStats = SpecialStats(
    magicCheck: SpecialStat,
    detectTraps: SpecialStat,
    disarmTraps: SpecialStat,
    senseThreats: SpecialStat,
    identifyEnemy: SpecialStat)

  datatype Stats = Stats(combat: CombatStats, special: SpecialStats)

  /** An actor's data record: its type tag, its ability entries and its stat blocks. */
  datatype ActorData = ActorData(actorType: string, abilities: map<AbilityKey, Ability>, stats: Stats)

  const CharacterType: string := "character"
  const NpcType: string := "npc"

  /** The fixed offset added to a character's movement base. */
  const MovementOffset: int := 5

  // ---------------------------------------------------------------------
  // Abilities
  // ---------------------------------------------------------------------

  /** The ability score: the sum of base, abilityBonus and otherBonus divided
      by three and rounded toward negative infinity, plus the two flat bonuses. */
  function AbilityScore(a: Ability): (score: int)
    ensures var q := score - a.classBonus - a.abilityScoreBonus;
            3 * q <= a.base + a.abilityBonus + a.otherBonus < 3 * q + 3
  {
    (a.base + a.abilityBonus + a.otherBonus) / 3 + a.classBonus + a.abilityScoreBonus
  }

  /** The division in the score is floor division: the integer part of the
      score is the one q with 3q <= sum < 3q + 3, also for negative sums. */
  lemma AbilityScoreIsFloor(a: Ability, q: int)
    ensures AbilityScore(a) - a.classBonus - a.abilityScoreBonus == q
        <==> 3 * q <= a.base + a.abilityBonus + a.otherBonus < 3 * q + 3
  {
  }

  /** The derived fields of an ability agree with its inputs. */
  predicate AbilityPrepared(a: Ability)
  {
    a.abilityScore == AbilityScore(a) && a.checkBonus == a.abilityScore
  }

  /** Two ability entries carry the same user-entered fields. */
  predicate SameAbilityInputs(a: Ability, b: Ability)
  {
    && a.base == b.base
    && a.abilityBonus == b.abilityBonus
    && a.otherBonus == b.otherBonus
    && a.classBonus == b.classBonus
    && a.abilityScoreBonus == b.abilityScoreBonus
  }

  /** `r` holds the same entries as `abs`, each with its derived fields filled in. */
  predicate AbilitiesPreparedFrom(abs: map<AbilityKey, Ability>, r: map<AbilityKey, Ability>)
  {
    && r.Keys == abs.Keys
    && forall k :: k in r ==> AbilityPrepared(r[k]) && SameAbilityInputs(abs[k], r[k])
  }

  /** The body of the ability loop applied to one entry. */
  function DeriveAbility(a: Ability): (r: Ability)
    ensures AbilityPrepared(r) && SameAbilityInputs(a, r)
  {
    var score := AbilityScore(a);
    a.(abilityScore := score, checkBonus := score)
  }

  /** The ability loop applied to every entry. */
  function DerivedAbilities(abs: map<AbilityKey, Ability>): (r: map<AbilityKey, Ability>)
    ensures AbilitiesPreparedFrom(abs, r)
  {
    map k | k in abs :: DeriveAbility(abs[k])
  }

  /** The ability loop run over the entry keys `keys`, in that order: the
      loop body is applied to each key in turn. */
  function ApplyEntries(abs: map<AbilityKey, Ability>, keys: seq<AbilityKey>): (r: map<AbilityKey, Ability>)
    ensures r.Keys == abs.Keys
    decreases |keys|
  {
    if keys == [] then abs
    else
      var m := ApplyEntries(abs, keys[..|keys| - 1]);
      var k := keys[|keys| - 1];
      if k in m then m[k := DeriveAbility(m[k])] else m
  }

  /** After the loop has visited `keys`, an entry is derived exactly when its
      key was visited, however often and in whatever order. */
  lemma {:induction false} ApplyEntriesAt(abs: map<AbilityKey, Ability>, keys: seq<AbilityKey>, k: AbilityKey)
    requires k in abs
    ensures ApplyEntries(abs, keys)[k] == if k in keys then DeriveAbility(abs[k]) else abs[k]
  {
    if keys != [] {
      var init := keys[..|keys| - 1];
      assert keys == init + [keys[|keys| - 1]];
      ApplyEntriesAt(abs, init, k);
    }
  }

  /** Iteration order is irrelevant: a loop that visits every key yields the
      map in which every entry is derived. */
  lemma EntriesLoopDerivesAll(abs: map<AbilityKey, Ability>, keys: seq<AbilityKey>)
    requires forall k :: k in abs ==> k in keys
    ensures ApplyEntries(abs, keys) == DerivedAbilities(abs)
  {
    forall k | k in abs
      ensures ApplyEntries(abs, keys)[k] == DerivedAbilities(abs)[k]
    {
      ApplyEntriesAt(abs, keys, k);
    }
  }

  // ---------------------------------------------------------------------
  // Combat and special stats (character actors only)
  // ---------------------------------------------------------------------

  /** The abilities whose checkBonus the stat derivation reads. */
  predicate HasCharacterAbilities(abs: map<AbilityKey, Ability>)
  {
    Strength in abs && Dexterity in abs && Agility in abs && Intelligence in abs && Perception in abs && Mind in abs
  }

  /** The derived bases and totals of the combat stats agree with the
      abilities' check bonuses and the stats' own modifiers. */
  predicate CombatPrepared(abs: map<AbilityKey, Ability>, c: CombatStats)
    requires HasCharacterAbilities(abs)
  {
    && c.hitCheck.base == abs[Dexterity].checkBonus
    && c.hitCheck.total == c.hitCheck.base + c.hitCheck.hitModifier + c.hitCheck.skillModifier + c.hitCheck.otherModifier
    && c.attackPower.total == c.attackPower.attackPower + c.attackPower.skillModifier + c.attackPower.otherModifier
    && c.dodgeCheck.base == abs[Agility].checkBonus
    && c.dodgeCheck.total == c.dodgeCheck.base + c.dodgeCheck.dodgeModifier + c.dodgeCheck.skillModifier + c.dodgeCheck.otherModifier
    && c.physicalDefense.total == c.physicalDefense.armorModifier + c.physicalDefense.skillModifier + c.physicalDefense.otherModifier
    && c.magicalDefense.base == abs[Mind].checkBonus
    && c.magicalDefense.total == c.magicalDefense.base + c.magicalDefense.armorModifier + c.magicalDefense.skillModifier + c.magicalDefense.otherModifier
    && c.actionPoints.base == abs[Agility].checkBonus + abs[Perception].checkBonus
    && c.actionPoints.total == c.actionPoints.base + c.actionPoints.actionModifier + c.actionPoints.skillModifier + c.actionPoints.otherModifier
    && c.movement.base == abs[Strength].checkBonus + MovementOffset
    && c.movement.total == c.movement.base + c.movement.movementModifier + c.movement.skillModifier + c.movement.otherModifier
  }

  /** Two combat records agree on every field the derivation does not write:
      all modifiers, and the bases of attackPower and physicalDefense. */
  predicate SameCombatInputs(c: CombatStats, d: CombatStats)
  {
    && c.hitCheck.hitModifier == d.hitCheck.hitModifier
    && c.hitCheck.skillModifier == d.hitCheck.skillModifier
    && c.hitCheck.otherModifier == d.hitCheck.otherModifier
    && c.attackPower.base == d.attackPower.base
    && c.attackPower.attackPower == d.attackPower.attackPower
    && c.attackPower.skillModifier == d.attackPower.skillModifier
    && c.attackPower.otherModifier == d.attackPower.otherModifier
    && c.dodgeCheck.dodgeModifier == d.dodgeCheck.dodgeModifier
    && c.dodgeCheck.skillModifier == d.dodgeCheck.skillModifier
    && c.dodgeCheck.otherModifier == d.dodgeCheck.otherModifier
    && c.physicalDefense.base == d.physicalDefense.base
    && c.physicalDefense.armorModifier == d.physicalDefense.armorModifier
    && c.physicalDefense.skillModifier == d.physicalDefense.skillModifier
    && c.physicalDefense.otherModifier == d.physicalDefense.otherModifier
    && c.magicalDefense.armorModifier == d.magicalDefense.armorModifier
    && c.magicalDefense.skillModifier == d.magicalDefense.skillModifier
    && c.magicalDefense.otherModifier == d.magicalDefense.otherModifier
    && c.actionPoints.actionModifier == d.actionPoints.actionModifier
    && c.actionPoints.skillModifier == d.actionPoints.skillModifier
    && c.actionPoints.otherModifier == d.actionPoints.otherModifier
    && c.movement.movementModifier == d.movement.movementModifier
    && c.movement.skillModifier == d.movement.skillModifier
    && c.movement.otherModifier == d.movement.otherModifier
  }

  /** A special stat's total is its base plus its two modifiers. */
  predicate SpecialTotalPrepared(s: SpecialStat)
  {
    s.total == s.base + s.skillModifier + s.otherModifier
  }

  /** Each special stat's base is the check bonus of the ability it is tied to,
      and its total agrees with that base. */
  predicate SpecialPrepared(abs: map<AbilityKey, Ability>, s: SpecialStats)
    requires HasCharacterAbilities(abs)
  {
    && s.magicCheck.base == abs[Intelligence].checkBonus && SpecialTotalPrepared(s.magicCheck)
    && s.detectTraps.base == abs[Perception].checkBonus && SpecialTotalPrepared(s.detectTraps)
    && s.disarmTraps.base == abs[Dexterity].checkBonus && SpecialTotalPrepared(s.disarmTraps)
    && s.senseThreats.base == abs[Perception].checkBonus && SpecialTotalPrepared(s.senseThreats)
    && s.identifyEnemy.base == abs[Intelligence].checkBonus && SpecialTotalPrepared(s.identifyEnemy)
  }

  predicate SameSpecialStatInputs(s: SpecialStat, t: SpecialStat)
  {
    s.skillModifier == t.skillModifier && s.otherModifier == t.otherModifier
  }

  /** Two special records agree on every modifier. */
  predicate SameSpecialInputs(s: SpecialStats, t: SpecialStats)
  {
    && SameSpecialStatInputs(s.magicCheck, t.magicCheck)
    && SameSpecialStatInputs(s.detectTraps, t.detectTraps)
    && SameSpecialStatInputs(s.disarmTraps, t.disarmTraps)
    && SameSpecialStatInputs(s.senseThreats, t.senseThreats)
    && SameSpecialStatInputs(s.identifyEnemy, t.identifyEnemy)
  }

  /** The combat stats with base and total derived from the (already derived)
      abilities `abs`. */
  function DeriveCombat(abs: map<AbilityKey, Ability>, c: CombatStats): (r: CombatStats)
    requires HasCharacterAbilities(abs)
    ensures CombatPrepared(abs, r) && SameCombatInputs(c, r)
  {
    var hitBase := abs[Dexterity].checkBonus;
    var dodgeBase := abs[Agility].checkBonus;
    var magicalBase := abs[Mind].checkBonus;
    var actionBase := abs[Agility].checkBonus + abs[Perception].checkBonus;
    var movementBase := abs[Strength].checkBonus + MovementOffset;
    c.(
      hitCheck := c.hitCheck.(
        base := hitBase,
        total := hitBase + c.hitCheck.hitModifier + c.hitCheck.skillModifier + c.hitCheck.otherModifier),
      attackPower := c.attackPower.(
        total := c.attackPower.attackPower + c.attackPower.skillModifier + c.attackPower.otherModifier),
      dodgeCheck := c.dodgeCheck.(
        base := dodgeBase,
        total := dodgeBase + c.dodgeCheck.dodgeModifier + c.dodgeCheck.skillModifier + c.dodgeCheck.otherModifier),
      physicalDefense := c.physicalDefense.(
        total := c.physicalDefense.armorModifier + c.physicalDefense.skillModifier + c.physicalDefense.otherModifier),
      magicalDefense := c.magicalDefense.(
        base := magicalBase,
        total := magicalBase + c.magicalDefense.armorModifier + c.magicalDefense.skillModifier + c.magicalDefense.otherModifier),
      actionPoints := c.actionPoints.(
        base := actionBase,
        total := actionBase + c.actionPoints.actionModifier + c.actionPoints.skillModifier + c.actionPoints.otherModifier),
      movement := c.movement.(
        base := movementBase,
        total := movementBase + c.movement.movementModifier + c.movement.skillModifier + c.movement.otherModifier))
  }

  /** One special stat with the given base and its total. */
  function DeriveSpecialStat(base: int, s: SpecialStat): (r: SpecialStat)
    ensures r.base == base && SpecialTotalPrepared(r) && SameSpecialStatInputs(s, r)
  {
    s.(base := base, total := base + s.skillModifier + s.otherModifier)
  }

  /** The special stats with base and total derived from the (already derived)
      abilities `abs`. */
  function DeriveSpecial(abs: map<AbilityKey, Ability>, s: SpecialStats): (r: SpecialStats)
    requires HasCharacterAbilities(abs)
    ensures SpecialPrepared(abs, r) && SameSpecialInputs(s, r)
  {
    SpecialStats(
      DeriveSpecialStat(abs[Intelligence].checkBonus, s.magicCheck),
      DeriveSpecialStat(abs[Perception].checkBonus, s.detectTraps),
      DeriveSpecialStat(abs[Dexterity].checkBonus, s.disarmTraps),
      DeriveSpecialStat(abs[Perception].checkBonus, s.senseThreats),
      DeriveSpecialStat(abs[Intelligence].checkBonus, s.identifyEnemy))
  }

  // ---------------------------------------------------------------------
  // The whole pass
  // ---------------------------------------------------------------------

  /** What the pass needs: a character must carry every ability the stat
      formulas read. Other actor types need nothing. */
  predicate CanPrepare(d: ActorData)
  {
    d.actorType == CharacterType ==> HasCharacterAbilities(d.abilities)
  }

  /** `r` is a correct result of the pass on `d`: the type tag is kept; a
      character or npc gets every ability derived; only a character gets its
      stats derived; everything else is left as it was. */
  predicate PreparedFrom(d: ActorData, r: ActorData)
  {
    && r.actorType == d.actorType
    && (if d.actorType == CharacterType || d.actorType == NpcType
        then AbilitiesPreparedFrom(d.abilities, r.abilities)
        else r.abilities == d.abilities)
    && (if d.actorType == CharacterType
        then
          && HasCharacterAbilities(r.abilities)
          && CombatPrepared(r.abilities, r.stats.combat)
          && SameCombatInputs(d.stats.combat, r.stats.combat)
          && SpecialPrepared(r.abilities, r.stats.special)
          && SameSpecialInputs(d.stats.special, r.stats.special)
        else r.stats == d.stats)
  }

  /** The derived-data pass on an actor's data record. */
  function Prepare(d: ActorData): (r: ActorData)
    requires CanPrepare(d)
    ensures PreparedFrom(d, r)
    ensures d.actorType == NpcType ==> r.stats == d.stats
    ensures d.actorType != CharacterType && d.actorType != NpcType ==> r == d
  {
    if d.actorType == CharacterType then
      var abs := DerivedAbilities(d.abilities);
      d.(abilities := abs, stats := Stats(DeriveCombat(abs, d.stats.combat), DeriveSpecial(abs, d.stats.special)))
    else if d.actorType == NpcType then
      d.(abilities := DerivedAbilities(d.abilities))
    else
      d
  }

  // ---------------------------------------------------------------------
  // Properties of the pass
  // ---------------------------------------------------------------------

  /** Two correctly prepared abilities with the same inputs are equal. */
  lemma AbilityDetermined(a: Ability, b: Ability)
    requires AbilityPrepared(a) && AbilityPrepared(b) && SameAbilityInputs(a, b)
    ensures a == b
  {
  }

  /** The pass has one correct result per record: two correct results of the
      pass on the same record are equal. */
  lemma PreparedFromUnique(d: ActorData, r1: ActorData, r2: ActorData)
    requires PreparedFrom(d, r1) && PreparedFrom(d, r2)
    ensures r1 == r2
  {
    assert r1.abilities == r2.abilities by {
      if d.actorType == CharacterType || d.actorType == NpcType {
        forall k | k in r1.abilities
          ensures r1.abilities[k] == r2.abilities[k]
        {
          AbilityDetermined(r1.abilities[k], r2.abilities[k]);
        }
      }
    }
  }

  /** Two records agree on their type tag, their ability keys and every input
      field; their derived fields may differ. */
  predicate SameInputs(d1: ActorData, d2: ActorData)
  {
    && d1.actorType == d2.actorType
    && d1.abilities.Keys == d2.abilities.Keys
    && (forall k :: k in d1.abilities ==> SameAbilityInputs(d1.abilities[k], d2.abilities[k]))
    && SameCombatInputs(d1.stats.combat, d2.stats.combat)
    && SameSpecialInputs(d1.stats.special, d2.stats.special)
  }

  /** Every field a character's pass writes is a function of the input fields
      alone: stale derived values left in the record do not affect the result. */
  lemma PrepareIgnoresStaleFields(d1: ActorData, d2: ActorData)
    requires d1.actorType == CharacterType && CanPrepare(d1) && CanPrepare(d2) && SameInputs(d1, d2)
    ensures Prepare(d1) == Prepare(d2)
  {
    assert Prepare(d1).abilities == Prepare(d2).abilities;
  }

  /** For an npc the derived abilities depend on the input fields alone; its
      stat blocks are kept as they are. */
  lemma NpcPrepareIgnoresStaleFields(d1: ActorData, d2: ActorData)
    requires d1.actorType == NpcType && SameInputs(d1, d2)
    ensures Prepare(d1).abilities == Prepare(d2).abilities
  {
  }

  /** A record the pass produced is already consistent: running the pass on it
      finds nothing to change. */
  lemma PreparedIsFixpoint(d: ActorData)
    requires CanPrepare(d)
    ensures CanPrepare(Prepare(d))
    ensures PreparedFrom(Prepare(d), Prepare(d))
  {
  }

  /** Running the pass twice gives the same record as running it once. */
  lemma PrepareIdempotent(d: ActorData)
    requires CanPrepare(d)
    ensures CanPrepare(Prepare(d)) && Prepare(Prepare(d)) == Prepare(d)
  {
    var r := Prepare(d);
    PreparedIsFixpoint(d);
    PreparedFromUnique(r, Prepare(r), r);
  }

  /** The pass never writes an input field, whatever the actor type. */
  lemma PrepareKeepsInputs(d: ActorData)
    requires CanPrepare(d)
    ensures var r := Prepare(d);
      && r.actorType == d.actorType
      && r.abilities.Keys == d.abilities.Keys
      && (forall k :: k in d.abilities ==> SameAbilityInputs(d.abilities[k], r.abilities[k]))
      && SameCombatInputs(d.stats.combat, r.stats.combat)
      && SameSpecialInputs(d.stats.special, r.stats.special)
  {
  }

  /** For a character, the combat bases in terms of the raw ability inputs. */
  lemma CombatBasesFromInputs(d: ActorData)
    requires d.actorType == CharacterType && HasCharacterAbilities(d.abilities)
    ensures var c := Prepare(d).stats.combat; var abs := d.abilities;
      && c.hitCheck.base == AbilityScore(abs[Dexterity])
      && c.dodgeCheck.base == AbilityScore(abs[Agility])
      && c.magicalDefense.base == AbilityScore(abs[Mind])
      && c.actionPoints.base == AbilityScore(abs[Agility]) + AbilityScore(abs[Perception])
      && c.movement.base == AbilityScore(abs[Strength]) + MovementOffset
      && c.attackPower.base == d.stats.combat.attackPower.base
      && c.physicalDefense.base == d.stats.combat.physicalDefense.base
  {
  }

  /** For a character, the special bases in terms of the raw ability inputs. */
  lemma SpecialBasesFromInputs(d: ActorData)
    requires d.actorType == CharacterType && HasCharacterAbilities(d.abilities)
    ensures var s := Prepare(d).stats.special; var abs := d.abilities;
      && s.magicCheck.base == AbilityScore(abs[Intelligence])
      && s.identifyEnemy.base == AbilityScore(abs[Intelligence])
      && s.detectTraps.base == AbilityScore(abs[Perception])
      && s.senseThreats.base == AbilityScore(abs[Perception])
      && s.disarmTraps.base == AbilityScore(abs[Dexterity])
  {
  }

  /** Worked value: a sum of 3 gives a score of 1. */
  lemma ScoreOfExactThird()
    ensures AbilityScore(Ability(1, 1, 1, 0, 0, 0, 0)) == 1
  {
  }

  /** Worked value: a sum of 2 rounds down to a score of 0. */
  lemma ScoreRoundsDown()
    ensures AbilityScore(Ability(1, 1, 0, 0, 0, 0, 0)) == 0
  {
  }

  /** Worked value: a sum of -1 rounds toward negative infinity, to -1
      (truncation would give 0). */
  lemma NegativeScoreRoundsDown()
    ensures AbilityScore(Ability(-1, 0, 0, 0, 0, 0, 0)) == -1
  {
  }
}
