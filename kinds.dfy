/**
 * Enumerations and small records the core refers to but that are declared in
 * files outside it (the src/data/enums directory, src/data/type.ts, src/data/pokemon-stat.ts,
 * src/data/terrain.ts, src/data/move.ts, src/field/pokemon.ts).  Only the
 * members the core names are listed; `OtherMove` stands for every move the
 * core never names.
 */
module Kinds {

  /** Elemental types (src/data/type.ts). */
  datatype PokemonType =
    | UNKNOWN | NORMAL | FIGHTING | FLYING | POISON | GROUND | ROCK | BUG | GHOST | STEEL
    | FIRE | WATER | GRASS | ELECTRIC | PSYCHIC | ICE | DRAGON | DARK | FAIRY | STELLAR

  /** Permanent stats (src/data/pokemon-stat.ts); HP is the first member. */
  datatype Stat = HP | ATK | DEF | SPATK | SPDEF | SPD

  /** Terrains (src/data/terrain.ts). */
  datatype TerrainType = MISTY | ELECTRIC_TERRAIN | GRASSY | PSYCHIC_TERRAIN

  /** Damage categories of moves (src/data/move.ts). */
  datatype MoveCategory = PHYSICAL | SPECIAL | STATUS

  /** Result of a recorded move use (src/field/pokemon.ts). */
  datatype MoveResult = PENDING | SUCCESS | FAIL | MISS | OTHER

  /** Abilities the core names (src/data/enums/abilities.ts). */
  datatype Ability = TRUANT | SLOW_START | PROTOSYNTHESIS | QUARK_DRIVE

  /** Moves the core names (src/data/enums/moves.ts). */
  datatype Move =
    | NONE_MOVE | LEECH_SEED | NIGHTMARE | ENCORE | HELPING_HAND | INGRAIN | AQUA_RING | MINIMIZE | YAWN
    | BIND | WRAP | FIRE_SPIN | WHIRLPOOL | CLAMP | SAND_TOMB | MAGMA_STORM | SNAP_TRAP | THUNDER_CAGE
    | INFESTATION | PERISH_SONG | SALT_CURE | CURSE
    | MIMIC | MIRROR_MOVE | TRANSFORM | STRUGGLE | SKETCH | SLEEP_TALK
    | MIST | REFLECT | LIGHT_SCREEN | AURORA_VEIL | WISH | MUD_SPORT | WATER_SPORT | SPIKES
    | TOXIC_SPIKES | STEALTH_ROCK | STICKY_WEB | TRICK_ROOM | GRAVITY | TAILWIND
    | OtherMove(id: nat)

  /** Battle animations the damaging trap tags carry (src/data/battle-anims.ts). */
  datatype CommonAnim =
    | BIND_ANIM | WRAP_ANIM | FIRE_SPIN_ANIM | WHIRLPOOL_ANIM | CLAMP_ANIM | SAND_TOMB_ANIM
    | MAGMA_STORM_ANIM | SNAP_TRAP_ANIM | THUNDER_CAGE_ANIM | INFESTATION_ANIM

  /** Battler tag discriminators (src/data/enums/battler-tag-type.ts). */
  datatype BattlerTagType =
    | NONE_TAG | RECHARGING | FLINCHED | INTERRUPTED | CONFUSED | INFATUATED | SEEDED | NIGHTMARE_TAG
    | FRENZY | CHARGING | ENCORE_TAG | HELPING_HAND_TAG | INGRAIN_TAG | AQUA_RING_TAG | DROWSY | TRAPPED
    | BIND_TAG | WRAP_TAG | FIRE_SPIN_TAG | WHIRLPOOL_TAG | CLAMP_TAG | SAND_TOMB_TAG | MAGMA_STORM_TAG
    | SNAP_TRAP_TAG | THUNDER_CAGE_TAG | INFESTATION_TAG
    | PROTECTED | SPIKY_SHIELD | KINGS_SHIELD | OBSTRUCT | SILK_TRAP | BANEFUL_BUNKER | BURNING_BULWARK
    | ENDURING | STURDY | PERISH_SONG_TAG | TRUANT_TAG | SLOW_START_TAG | PROTOSYNTHESIS_TAG | QUARK_DRIVE_TAG
    | FLYING_TAG | UNDERGROUND | UNDERWATER | HIDDEN | FIRE_BOOST | CRIT_BOOST | ALWAYS_CRIT | NO_CRIT
    | IGNORE_ACCURACY | BYPASS_SLEEP | IGNORE_FLYING | GROUNDED | SALT_CURED | CURSED | CHARGED
    | MAGNET_RISEN | MINIMIZED
}
