/** The actor document of module/documents/actor.mjs: an object whose derived
    fields are written in place by prepareDerivedData. */
module Actor {
  import opened Config
  import opened DerivedStats

  class KonosubaActor {
    var actorType: string
    var abilities: map<AbilityKey, Ability>
    var combat: CombatStats
    var special: SpecialStats

    constructor (actorType: string, abilities: map<AbilityKey, Ability>, stats: Stats)
      ensures Data() == ActorData(actorType, abilities, stats)
    {
      this.actorType := actorType;
      this.abilities := abilities;
      this.combat := stats.combat;
      this.special := stats.special;
    }

    /** The actor's data record as a value. */
    function Data(): ActorData
      reads this
    {
      ActorData(actorType, abilities, Stats(combat, special))
    }

    /** Derives the actor's data: the character step, then the npc step; each
        does nothing unless the actor has its type. */
    method PrepareDerivedData()
      requires CanPrepare(Data())
      modifies this
      ensures Data() == Prepare(old(Data()))
    {
      PrepareCharacterData();
      PrepareNpcData();
    }

    /** For a character: derive every ability, then the combat and special
        stats in the source's order, each total read after its base is written. */
    method PrepareCharacterData()
      requires CanPrepare(Data())
      modifies this
      ensures if old(actorType) == CharacterType then Data() == Prepare(old(Data())) else Data() == old(Data())
    {
      if actorType != CharacterType {
        return;
      }
      DeriveAbilityScores();

      combat := combat.(hitCheck := combat.hitCheck.(base := abilities[Dexterity].checkBonus));
      combat := combat.(hitCheck := combat.hitCheck.(
        total := combat.hitCheck.base + combat.hitCheck.hitModifier + combat.hitCheck.skillModifier + combat.hitCheck.otherModifier));

      combat := combat.(attackPower := combat.attackPower.(
        total := combat.attackPower.attackPower + combat.attackPower.skillModifier + combat.attackPower.otherModifier));

      combat := combat.(dodgeCheck := combat.dodgeCheck.(base := abilities[Agility].checkBonus));
      combat := combat.(dodgeCheck := combat.dodgeCheck.(
        total := combat.dodgeCheck.base + combat.dodgeCheck.dodgeModifier + combat.dodgeCheck.skillModifier + combat.dodgeCheck.otherModifier));

      combat := combat.(physicalDefense := combat.physicalDefense.(
        total := combat.physicalDefense.armorModifier + combat.physicalDefense.skillModifier + combat.physicalDefense.otherModifier));

      combat := combat.(magicalDefense := combat.magicalDefense.(base := abilities[Mind].checkBonus));
      combat := combat.(magicalDefense := combat.magicalDefense.(
        total := combat.magicalDefense.base + combat.magicalDefense.armorModifier + combat.magicalDefense.skillModifier + combat.magicalDefense.otherModifier));

      combat := combat.(actionPoints := combat.actionPoints.(base := abilities[Agility].checkBonus + abilities[Perception].checkBonus));
      combat := combat.(actionPoints := combat.actionPoints.(
        total := combat.actionPoints.base + combat.actionPoints.actionModifier + combat.actionPoints.skillModifier + combat.actionPoints.otherModifier));

      combat := combat.(movement := combat.movement.(base := abilities[Strength].checkBonus + MovementOffset));
      combat := combat.(movement := combat.movement.(
        total := combat.movement.base + combat.movement.movementModifier + combat.movement.skillModifier + combat.movement.otherModifier));

      special := special.(magicCheck := special.magicCheck.(base := abilities[Intelligence].checkBonus));
      special := special.(magicCheck := special.magicCheck.(
        total := special.magicCheck.base + special.magicCheck.skillModifier + special.magicCheck.otherModifier));

      special := special.(detectTraps := special.detectTraps.(base := abilities[Perception].checkBonus));
      special := special.(detectTraps := special.detectTraps.(
        total := special.detectTraps.base + special.detectTraps.skillModifier + special.detectTraps.otherModifier));

      special := special.(disarmTraps := special.disarmTraps.(base := abilities[Dexterity].checkBonus));
      special := special.(disarmTraps := special.disarmTraps.(
        total := special.disarmTraps.base + special.disarmTraps.skillModifier + special.disarmTraps.otherModifier));

      special := special.(senseThreats := special.senseThreats.(base := abilities[Perception].checkBonus));
      special := special.(senseThreats := special.senseThreats.(
        total := special.senseThreats.base + special.senseThreats.skillModifier + special.senseThreats.otherModifier));

      special := special.(identifyEnemy := special.identifyEnemy.(base := abilities[Intelligence].checkBonus));
      special := special.(identifyEnemy := special.identifyEnemy.(
        total := special.identifyEnemy.base + special.identifyEnemy.skillModifier + special.identifyEnemy.otherModifier));
    }

    /** For an npc: derive every ability and nothing else. */
    method PrepareNpcData()
      modifies this
      ensures if old(actorType) == NpcType then Data() == Prepare(old(Data())) else Data() == old(Data())
    {
      if actorType != NpcType {
        return;
      }
      DeriveAbilityScores();
    }

    /** The loop over the ability entries: each entry's abilityScore is
        computed from its inputs and copied into its checkBonus. The entries
        are visited in an order the model leaves open. */
    method DeriveAbilityScores()
      modifies this
      ensures abilities == DerivedAbilities(old(abilities))
      ensures actorType == old(actorType) && combat == old(combat) && special == old(special)
    {
      var remaining := abilities.Keys;
      ghost var visited: seq<AbilityKey> := [];
      while remaining != {}
        invariant remaining <= old(abilities).Keys
        invariant forall k :: k in old(abilities) && k !in remaining ==> k in visited
        invariant abilities == ApplyEntries(old(abilities), visited)
        invariant actorType == old(actorType) && combat == old(combat) && special == old(special)
        decreases remaining
      {
        var key :| key in remaining;
        var ability := abilities[key];
        ability := ability.(abilityScore := (ability.base + ability.abilityBonus + ability.otherBonus) / 3 + ability.classBonus + ability.abilityScoreBonus);
        ability := ability.(checkBonus := ability.abilityScore);
        abilities := abilities[key := ability];
        remaining := remaining - {key};
        assert (visited + [key])[..|visited|] == visited;
        visited := visited + [key];
      }
      EntriesLoopDerivesAll(old(abilities), visited);
    }
  }

  /** Stat blocks for the worked sheets below. */
  function SampleStats(): Stats
  {
    Stats(
      CombatStats(
        HitCheck(0, 1, 2, 0, 0), AttackPower(7, 3, 0, 0, 0), DodgeCheck(0, 0, 0, 0, 0),
        PhysicalDefense(8, 2, 1, 1, 0), MagicalDefense(0, 0, 0, 0, 0), ActionPoints(0, 0, 0, 0, 0),
        Movement(0, 0, 0, 0, 0)),
      SpecialStats(
        SpecialStat(0, 1, 1, 0), SpecialStat(0, 0, 0, 0), SpecialStat(0, 0, 0, 0),
        SpecialStat(0, 0, 0, 0), SpecialStat(0, 0, 0, 0)))
  }

  /** A worked sheet: a dexterity check bonus of 3 with hit modifiers 1 and 2
      makes a hit check of 6. */
  method HitCheckExample(abilities: map<AbilityKey, Ability>)
    requires HasCharacterAbilities(abilities) && AbilityScore(abilities[Dexterity]) == 3
  {
    var hero := new KonosubaActor(CharacterType, abilities, SampleStats());
    hero.PrepareDerivedData();
    assert hero.abilities[Dexterity].checkBonus == 3;
    assert hero.combat.hitCheck.base == 3 && hero.combat.hitCheck.total == 6;
  }

  /** A worked sheet: a strength check bonus of 2 makes a movement of 2 + 5. */
  method MovementExample(abilities: map<AbilityKey, Ability>)
    requires HasCharacterAbilities(abilities) && AbilityScore(abilities[Strength]) == 2
  {
    var hero := new KonosubaActor(CharacterType, abilities, SampleStats());
    hero.PrepareDerivedData();
    assert hero.combat.movement.base == 7 && hero.combat.movement.total == 7;
  }

  /** A worked sheet: attackPower and physicalDefense keep their bases and
      total their own fields. */
  method UntiedStatsExample(abilities: map<AbilityKey, Ability>)
    requires HasCharacterAbilities(abilities)
  {
    var hero := new KonosubaActor(CharacterType, abilities, SampleStats());
    hero.PrepareDerivedData();
    assert hero.combat.attackPower.base == 7 && hero.combat.attackPower.total == 3;
    assert hero.combat.physicalDefense.base == 8 && hero.combat.physicalDefense.total == 4;
  }

  /** An npc's stat blocks come out of the pass exactly as they went in. */
  method NpcExample(abilities: map<AbilityKey, Ability>, stats: Stats)
  {
    var goblin := new KonosubaActor(NpcType, abilities, stats);
    goblin.PrepareDerivedData();
    assert goblin.combat == stats.combat && goblin.special == stats.special;
    assert forall k :: k in abilities ==> goblin.abilities[k].checkBonus == AbilityScore(abilities[k]);
  }

  /** An actor of any other type comes out of the pass unchanged. */
  method OtherTypeExample(actorType: string, abilities: map<AbilityKey, Ability>, stats: Stats)
    requires actorType != CharacterType && actorType != NpcType
  {
    var other := new KonosubaActor(actorType, abilities, stats);
    other.PrepareDerivedData();
    assert other.Data() == ActorData(actorType, abilities, stats);
  }

  /** A second pass over an unchanged actor changes nothing. */
  method RepeatedPrepareExample(actor: KonosubaActor)
    requires CanPrepare(actor.Data())
    modifies actor
  {
    var entered := actor.Data();
    actor.PrepareDerivedData();
    var once := actor.Data();
    PrepareIdempotent(entered);
    actor.PrepareDerivedData();
    assert actor.Data() == once;
  }
}
