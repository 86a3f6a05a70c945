/** The static configuration of the system: the seven ability identifiers
    (module/helpers/config.mjs). The localisation label attached to each
    identifier is not part of this model. */
module Config {

  /** The abilities recognised by the system, in configuration order. */
  datatype AbilityKey = Strength | Dexterity | Agility | Intelligence | Perception | Mind | Luck
}
