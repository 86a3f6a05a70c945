# Konosuba TRPG derived-stat calculator

A Dafny model of the derived-data pass of the Konosuba tabletop RPG system's
actor document (`KonosubaActor.prepareDerivedData` and its two per-type steps).
On each data refresh the pass walks an actor's data record and writes, in place:

- for every ability entry, `abilityScore = floor((base + abilityBonus + otherBonus) / 3) + classBonus + abilityScoreBonus`
  and `checkBonus = abilityScore`, for `character` and `npc` actors;
- for `character` actors only, the `base` and `total` of the seven combat stats
  (hitCheck, attackPower, dodgeCheck, physicalDefense, magicalDefense,
  actionPoints, movement) and the five special stats (magicCheck, detectTraps,
  disarmTraps, senseThreats, identifyEnemy), from a fixed table of ability links
  and the stats' own modifier fields; movement adds a fixed 5.

An actor whose type is neither `character` nor `npc` is left untouched.

Files:

- `config.dfy` — module `Config`: the seven ability identifiers.
- `derived_stats.dfy` — module `DerivedStats`: the data record as datatypes,
  the specification of every derived field (`AbilityPrepared`, `CombatPrepared`,
  `SpecialPrepared`, and the "same inputs" predicates), the pure reference pass
  `Prepare`, and the lemmas: floor rounding, order-independence of the ability
  loop, determinism, idempotence, inputs never written, bases in terms of the
  raw ability inputs.
- `actor.dfy` — module `Actor`: class `KonosubaActor`, whose fields the methods
  update in place exactly as the source does (ability loop, then the stat
  assignments in source order, each `total` read after its `base` is written).
  The postconditions of `PrepareDerivedData`, `PrepareCharacterData` and
  `PrepareNpcData` tie the new state to `Prepare` of the old state; that of
  `DeriveAbilityScores` ties the new ability map to `DerivedAbilities` of the
  old one. The methods `HitCheckExample`, `MovementExample`, `UntiedStatsExample`,
  `NpcExample`, `OtherTypeExample` and `RepeatedPrepareExample` are callers that
  have no postconditions of their own: they rely only on the contracts above and show the worked sheets (dexterity 3 gives a hit
  check of 6, strength 2 gives a movement of 7), the npc and other-type
  exclusions, and that a second pass changes nothing.

JavaScript numbers are modelled as unbounded integers. `Math.floor(x / 3)` is
Dafny's `x / 3`: for the positive divisor 3, Euclidean division is floor
division, negative sums included.

## Model

| member | source | states |
|---|---|---|
| DerivedStats.AbilityScore | module/documents/actor.mjs:54 | the score minus classBonus and abilityScoreBonus is the q with 3q <= base + abilityBonus + otherBonus < 3q + 3 (floor, not truncation) |
| DerivedStats.AbilityScoreIsFloor | module/documents/actor.mjs:54 | both directions: q is the integer part of the score exactly when 3q <= sum < 3q + 3 |
| DerivedStats.ScoreOfExactThird | module/documents/actor.mjs:54 | a sum of 3 with no flat bonuses gives a score of 1 |
| DerivedStats.ScoreRoundsDown | module/documents/actor.mjs:54 | a sum of 2 gives 0 (rounds down, not to nearest) |
| DerivedStats.NegativeScoreRoundsDown | module/documents/actor.mjs:54 | a sum of -1 gives -1 (toward negative infinity) |
| DerivedStats.DeriveAbility | module/documents/actor.mjs:54-55 | the entry gets abilityScore equal to the score of its inputs and checkBonus equal to abilityScore; its five inputs are unchanged |
| DerivedStats.DerivedAbilities | module/documents/actor.mjs:52-56 | same keys; every entry derived as above with its inputs unchanged |
| DerivedStats.ApplyEntries | module/documents/actor.mjs:52-56 | the loop over entries in a given key order keeps the set of keys |
| DerivedStats.ApplyEntriesAt | module/documents/actor.mjs:52-56 | after the loop visits a key sequence, an entry is derived if its key was visited and unchanged otherwise, whatever the order or repetition |
| DerivedStats.EntriesLoopDerivesAll | module/documents/actor.mjs:52-56 | a loop that visits every key yields every entry derived, so the entry order is irrelevant |
| DerivedStats.DeriveCombat | module/documents/actor.mjs:59-76 | hitCheck, dodgeCheck and magicalDefense bases are the dexterity, agility and mind check bonuses; actionPoints base is agility plus perception; movement base is strength plus 5; each total is its base plus its modifier, skillModifier and otherModifier; attackPower and physicalDefense total their own three fields; every modifier and the attackPower and physicalDefense bases are unchanged |
| DerivedStats.DeriveSpecialStat | module/documents/actor.mjs:79-80 | the special stat gets the given base and total = base + skillModifier + otherModifier, modifiers unchanged |
| DerivedStats.DeriveSpecial | module/documents/actor.mjs:78-92 | magicCheck and identifyEnemy from intelligence, detectTraps and senseThreats from perception, disarmTraps from dexterity; each total is base + skillModifier + otherModifier; modifiers unchanged |
| DerivedStats.Prepare | module/documents/actor.mjs:31-110 | type tag kept; character and npc get every ability derived; only a character gets its stats derived; an npc's stats are unchanged; any other type gets the record back unchanged |
| DerivedStats.AbilityDetermined | module/documents/actor.mjs:54-55 | two derived entries with the same inputs are equal |
| DerivedStats.PreparedFromUnique | module/documents/actor.mjs:45-110 | the derived-field equations pin down one result per record: two correct results of the pass on the same record are equal |
| DerivedStats.PrepareIgnoresStaleFields | module/documents/actor.mjs:31-92 | every field a character's pass writes is a function of the input fields alone: two character records with the same type, ability keys and inputs, but any stale abilityScore, checkBonus, base or total values, give the same result |
| DerivedStats.NpcPrepareIgnoresStaleFields | module/documents/actor.mjs:98-110 | for an npc, two records with the same inputs give the same derived abilities, whatever stale derived values they held |
| DerivedStats.PreparedIsFixpoint | module/documents/actor.mjs:45-110 | the record the pass produces already satisfies every derived-field equation with respect to itself |
| DerivedStats.PrepareIdempotent | module/documents/actor.mjs:31-110 | running the pass twice gives the same record as running it once |
| DerivedStats.PrepareKeepsInputs | module/documents/actor.mjs:45-110 | for every actor type, the type tag, the ability keys, every ability input and every stat modifier are unchanged |
| DerivedStats.CombatBasesFromInputs | module/documents/actor.mjs:59-76 | for a character, each combat base in terms of the raw ability inputs (for example movement base = score of strength + 5); attackPower and physicalDefense bases untouched |
| DerivedStats.SpecialBasesFromInputs | module/documents/actor.mjs:79-92 | for a character, each special base is the score of its tied ability's raw inputs |
| Actor.KonosubaActor.PrepareDerivedData | module/documents/actor.mjs:31-40 | the actor's new data is `Prepare` of its old data (character step, then npc step) |
| Actor.KonosubaActor.PrepareCharacterData | module/documents/actor.mjs:45-93 | a character's new data is `Prepare` of its old data; any other actor is unchanged |
| Actor.KonosubaActor.PrepareNpcData | module/documents/actor.mjs:98-110 | an npc's new data is `Prepare` of its old data (abilities only); any other actor is unchanged |
| Actor.KonosubaActor.DeriveAbilityScores | module/documents/actor.mjs:52-56 | the loop leaves the ability map equal to `DerivedAbilities` of the old map, and the type tag and stat blocks unchanged |

## Left out

- Missing abilities: a character must carry strength, dexterity, agility, intelligence, perception and mind (the `CanPrepare` precondition). In the source, a missing ability makes a property read on `undefined` throw a native error, after earlier assignments have already happened. The model does not specify that partial state. The source raises no named error, and neither does the model.
- Stat blocks are always present: they are datatype fields, so the native error on a missing stat block has no counterpart.
- The ability collection is always present: it is a map field, and an empty map makes the ability loop do nothing. In the source, a missing `abilities` object makes `Object.entries` throw (module/documents/actor.mjs:52, module/documents/actor.mjs:105); the model has no counterpart for that error.
- JavaScript number semantics are not modelled: floating point, `NaN` from an absent modifier field, and string concatenation when a field arrives as a string. Every field is an unbounded integer.
- `prepareData`, `prepareBaseData`, the `super` calls and the unused `flags` read (module/documents/actor.mjs:8-20, 34) are not modelled. They are plumbing of the host framework's `Actor` class, and that class is not part of this model.
- `getRollData`, `_getCharacterRollData` and `_getNpcRollData` (module/documents/actor.mjs:115-141) are not modelled. The two helpers do nothing, and `getRollData` returns the foreign `super.getRollData()`.
- The localisation labels of module/helpers/config.mjs are not modelled. Only the seven identifiers are used, as `Config.AbilityKey`.
- Iteration order of `Object.entries`: `DeriveAbilityScores` picks keys in an unspecified order. `EntriesLoopDerivesAll` proves that the result does not depend on that order.
- Aliasing between ability entries (two keys sharing one object) is not modelled. Entries are values in a map.
