/**
 * Battler tags (src/data/battler-tags.ts): the effects attached to one
 * combatant.  A tag is a record of its type, the checkpoint at which it
 * lapses, a turn counter, the move and combatant that caused it, and the
 * fields of its subclass.  The rules are pure functions over that record
 * and a view of the combatant bearing it; the `BattlerTag` class holds the
 * same fields and changes them as the game's tag objects do.
 */
module BattlerTags {
  import opened Wrappers
  import opened Kinds
  import opened HpFractions
  import SE = StatusEffects
  import BS = BattleStats
  import W = Weathers

  /** The checkpoints at which a tag is asked to lapse. */
  datatype LapseType = FAINT | MOVE | PRE_MOVE | AFTER_MOVE | MOVE_EFFECT | TURN_END | CUSTOM

  /** The subclass a tag object belongs to, by the tag type the factory builds it for. */
  datatype TagClass =
    | Base | Recharging | Flinched | Interrupted | Confused | Infatuated | Seed | Nightmare
    | Frenzy | Charging | Encore | HelpingHand | Ingrain | AquaRing | Drowsy | Trapped | DamagingTrap
    | Protected | ContactDamageProtected | ContactStatChangeProtected | ContactPoisonProtected
    | ContactBurnProtected | Enduring | Sturdy | PerishSong | Truant | SlowStart
    | WeatherHighestStatBoost | TerrainHighestStatBoost | HideSprite | TypeBoost | CritBoost
    | AlwaysCrit | IgnoreAccuracy | SaltCured | Cursed | MagnetRisen | Minimize

  function ClassOf(t: BattlerTagType): TagClass {
    match t
    case RECHARGING => Recharging
    case FLINCHED => Flinched
    case INTERRUPTED => Interrupted
    case CONFUSED => Confused
    case INFATUATED => Infatuated
    case SEEDED => Seed
    case NIGHTMARE_TAG => Nightmare
    case FRENZY => Frenzy
    case CHARGING => Charging
    case ENCORE_TAG => Encore
    case HELPING_HAND_TAG => HelpingHand
    case INGRAIN_TAG => Ingrain
    case AQUA_RING_TAG => AquaRing
    case DROWSY => Drowsy
    case TRAPPED => Trapped
    case BIND_TAG | WRAP_TAG | FIRE_SPIN_TAG | WHIRLPOOL_TAG | CLAMP_TAG | SAND_TOMB_TAG
       | MAGMA_STORM_TAG | SNAP_TRAP_TAG | THUNDER_CAGE_TAG | INFESTATION_TAG => DamagingTrap
    case PROTECTED => Protected
    case SPIKY_SHIELD => ContactDamageProtected
    case KINGS_SHIELD | OBSTRUCT | SILK_TRAP => ContactStatChangeProtected
    case BANEFUL_BUNKER => ContactPoisonProtected
    case BURNING_BULWARK => ContactBurnProtected
    case ENDURING => Enduring
    case STURDY => Sturdy
    case PERISH_SONG_TAG => PerishSong
    case TRUANT_TAG => Truant
    case SLOW_START_TAG => SlowStart
    case PROTOSYNTHESIS_TAG => WeatherHighestStatBoost
    case QUARK_DRIVE_TAG => TerrainHighestStatBoost
    case FLYING_TAG | UNDERGROUND | UNDERWATER | HIDDEN => HideSprite
    case FIRE_BOOST | CHARGED => TypeBoost
    case CRIT_BOOST => CritBoost
    case ALWAYS_CRIT => AlwaysCrit
    case IGNORE_ACCURACY => IgnoreAccuracy
    case SALT_CURED => SaltCured
    case CURSED => Cursed
    case MAGNET_RISEN => MagnetRisen
    case MINIMIZED => Minimize
    case _ => Base
  }

  /** The damaging traps: the tag types whose objects are DamagingTrapTag instances. */
  predicate IsDamagingTrap(t: BattlerTagType) {
    ClassOf(t) == DamagingTrap
  }

  /** The fields a subclass adds to the base record. */
  datatype TagExtra =
    | Plain
    | SourceIndexed(sourceIndex: Option<int>)
    | EncoreMove(moveId: Option<Move>)
    | TrapAnim(commonAnim: CommonAnim)
    | ContactDamage(damageRatio: int)
    | ContactStatChange(changedStat: BS.BattleStat, levels: int)
    | AbilityTag(ability: Ability)
    | WeatherStatBoost(ability: Ability, stat: Option<Stat>, multiplier: Option<real>, weatherTypes: seq<W.WeatherType>)
    | TerrainStatBoost(ability: Ability, stat: Option<Stat>, multiplier: Option<real>, terrainTypes: seq<TerrainType>)
    | TypeImmune(immuneType: Option<PokemonType>)
    | TypeBoostExtra(boostedType: PokemonType, boostValue: real, oneUse: bool)

  /** A tag: `sourceMove` and `sourceId` are None where the game leaves them undefined. */
  datatype TagState = TagState(tagType: BattlerTagType, lapseType: LapseType, turnCount: int,
                               sourceMove: Option<Move>, sourceId: Option<int>, extra: TagExtra)

  /** Whether the subclass fields have the shape the tag's class declares. */
  predicate ExtraFits(c: TagClass, e: TagExtra) {
    match c
    case Seed | SaltCured | Cursed => e.SourceIndexed?
    case Encore => e.EncoreMove?
    case DamagingTrap => e.TrapAnim?
    case ContactDamageProtected => e.ContactDamage?
    case ContactStatChangeProtected => e.ContactStatChange?
    case Truant | SlowStart => e.AbilityTag?
    case WeatherHighestStatBoost => e.WeatherStatBoost?
    case TerrainHighestStatBoost => e.TerrainStatBoost?
    case MagnetRisen => e.TypeImmune?
    case TypeBoost => e.TypeBoostExtra?
    case _ => e.Plain?
  }

  function TrapAnimOf(t: BattlerTagType): CommonAnim
    requires IsDamagingTrap(t)
  {
    match t
    case BIND_TAG => BIND_ANIM
    case WRAP_TAG => WRAP_ANIM
    case FIRE_SPIN_TAG => FIRE_SPIN_ANIM
    case WHIRLPOOL_TAG => WHIRLPOOL_ANIM
    case CLAMP_TAG => CLAMP_ANIM
    case SAND_TOMB_TAG => SAND_TOMB_ANIM
    case MAGMA_STORM_TAG => MAGMA_STORM_ANIM
    case SNAP_TRAP_TAG => SNAP_TRAP_ANIM
    case THUNDER_CAGE_TAG => THUNDER_CAGE_ANIM
    case INFESTATION_TAG => INFESTATION_ANIM
  }

  function TrapMoveOf(t: BattlerTagType): Move
    requires IsDamagingTrap(t)
  {
    match t
    case BIND_TAG => BIND
    case WRAP_TAG => WRAP
    case FIRE_SPIN_TAG => FIRE_SPIN
    case WHIRLPOOL_TAG => WHIRLPOOL
    case CLAMP_TAG => CLAMP
    case SAND_TOMB_TAG => SAND_TOMB
    case MAGMA_STORM_TAG => MAGMA_STORM
    case SNAP_TRAP_TAG => SNAP_TRAP
    case THUNDER_CAGE_TAG => THUNDER_CAGE
    case INFESTATION_TAG => INFESTATION
  }

  /** The tag the factory builds for a tag type, from a turn count, a source move and a source id. */
  function GetBattlerTag(tt: BattlerTagType, turnCount: int, sourceMove: Option<Move>, sourceId: Option<int>): TagState {
    match tt
    case RECHARGING => TagState(tt, PRE_MOVE, 1, sourceMove, None, Plain)
    case FLINCHED => TagState(tt, PRE_MOVE, 0, sourceMove, None, Plain)
    case INTERRUPTED => TagState(tt, PRE_MOVE, 0, sourceMove, None, Plain)
    case CONFUSED => TagState(tt, MOVE, turnCount, sourceMove, None, Plain)
    case INFATUATED => TagState(tt, MOVE, 1, sourceMove, sourceId, Plain)
    case SEEDED => TagState(tt, TURN_END, 1, Some(LEECH_SEED), sourceId, SourceIndexed(None))
    case NIGHTMARE_TAG => TagState(tt, AFTER_MOVE, 1, Some(NIGHTMARE), None, Plain)
    case FRENZY => TagState(tt, CUSTOM, 1, sourceMove, sourceId, Plain)
    case CHARGING => TagState(tt, CUSTOM, 1, sourceMove, sourceId, Plain)
    case ENCORE_TAG => TagState(tt, AFTER_MOVE, 3, Some(ENCORE), sourceId, EncoreMove(None))
    case HELPING_HAND_TAG => TagState(tt, TURN_END, 1, Some(HELPING_HAND), sourceId, Plain)
    case INGRAIN_TAG => TagState(tt, TURN_END, 1, Some(INGRAIN), sourceId, Plain)
    case AQUA_RING_TAG => TagState(tt, TURN_END, 1, Some(AQUA_RING), None, Plain)
    case DROWSY => TagState(tt, TURN_END, 2, Some(YAWN), None, Plain)
    case TRAPPED => TagState(tt, CUSTOM, turnCount, sourceMove, sourceId, Plain)
    case BIND_TAG | WRAP_TAG | FIRE_SPIN_TAG | WHIRLPOOL_TAG | CLAMP_TAG | SAND_TOMB_TAG
       | MAGMA_STORM_TAG | SNAP_TRAP_TAG | THUNDER_CAGE_TAG | INFESTATION_TAG =>
      TagState(tt, TURN_END, turnCount, Some(TrapMoveOf(tt)), sourceId, TrapAnim(TrapAnimOf(tt)))
    case PROTECTED => TagState(tt, CUSTOM, 0, sourceMove, None, Plain)
    case SPIKY_SHIELD => TagState(tt, CUSTOM, 0, sourceMove, None, ContactDamage(8))
    case KINGS_SHIELD => TagState(tt, CUSTOM, 0, sourceMove, None, ContactStatChange(BS.ATK, -1))
    case OBSTRUCT => TagState(tt, CUSTOM, 0, sourceMove, None, ContactStatChange(BS.DEF, -2))
    case SILK_TRAP => TagState(tt, CUSTOM, 0, sourceMove, None, ContactStatChange(BS.SPD, -1))
    case BANEFUL_BUNKER => TagState(tt, CUSTOM, 0, sourceMove, None, Plain)
    case BURNING_BULWARK => TagState(tt, CUSTOM, 0, sourceMove, None, Plain)
    case ENDURING => TagState(tt, TURN_END, 0, sourceMove, None, Plain)
    case STURDY => TagState(tt, TURN_END, 0, sourceMove, None, Plain)
    case PERISH_SONG_TAG => TagState(tt, TURN_END, turnCount, Some(PERISH_SONG), None, Plain)
    case TRUANT_TAG => TagState(tt, MOVE, 1, None, None, AbilityTag(TRUANT))
    case SLOW_START_TAG => TagState(tt, TURN_END, 5, None, None, AbilityTag(SLOW_START))
    case PROTOSYNTHESIS_TAG =>
      TagState(tt, CUSTOM, 1, None, None, WeatherStatBoost(PROTOSYNTHESIS, None, None, [W.SUNNY, W.HARSH_SUN]))
    case QUARK_DRIVE_TAG =>
      TagState(tt, CUSTOM, 1, None, None, TerrainStatBoost(QUARK_DRIVE, None, None, [ELECTRIC_TERRAIN]))
    case FLYING_TAG | UNDERGROUND | UNDERWATER | HIDDEN => TagState(tt, MOVE_EFFECT, turnCount, sourceMove, None, Plain)
    case FIRE_BOOST => TagState(tt, TURN_END, 1, sourceMove, None, TypeBoostExtra(FIRE, 1.5, false))
    case CRIT_BOOST => TagState(tt, TURN_END, 1, sourceMove, None, Plain)
    case ALWAYS_CRIT => TagState(tt, TURN_END, 2, sourceMove, None, Plain)
    case NO_CRIT => TagState(tt, AFTER_MOVE, turnCount, sourceMove, None, Plain)
    case IGNORE_ACCURACY => TagState(tt, TURN_END, 2, sourceMove, None, Plain)
    case BYPASS_SLEEP => TagState(tt, TURN_END, turnCount, sourceMove, None, Plain)
    case IGNORE_FLYING => TagState(tt, TURN_END, turnCount, sourceMove, None, Plain)
    case GROUNDED => TagState(tt, TURN_END, turnCount - 1, sourceMove, None, Plain)
    case SALT_CURED => TagState(tt, TURN_END, 1, Some(SALT_CURE), sourceId, SourceIndexed(None))
    case CURSED => TagState(tt, TURN_END, 1, Some(CURSE), sourceId, SourceIndexed(None))
    case CHARGED => TagState(tt, TURN_END, 1, sourceMove, None, TypeBoostExtra(ELECTRIC, 2.0, true))
    case MAGNET_RISEN => TagState(tt, TURN_END, 1, sourceMove, None, TypeImmune(None))
    case MINIMIZED => TagState(tt, TURN_END, 1, Some(MINIMIZE), None, Plain)
    case NONE_TAG => TagState(tt, CUSTOM, turnCount, sourceMove, sourceId, Plain)
  }

  /** The checkpoint the factory gives a tag type. */
  function FactoryLapseType(tt: BattlerTagType): LapseType {
    GetBattlerTag(tt, 0, None, None).lapseType
  }

  /** A tag as the factory could have built it, with any counter, moves, ids and subclass field values. */
  predicate WellFormed(t: TagState) {
    ExtraFits(ClassOf(t.tagType), t.extra) && t.lapseType == FactoryLapseType(t.tagType)
  }

  /** The tag types in runs of the enum; the proofs about the factory go run by run. */
  function TagRun(tt: BattlerTagType): (r: nat)
    ensures r < 6
  {
    match tt
    case NONE_TAG | RECHARGING | FLINCHED | INTERRUPTED | CONFUSED | INFATUATED | SEEDED
       | NIGHTMARE_TAG | FRENZY | CHARGING | ENCORE_TAG | HELPING_HAND_TAG => 0
    case INGRAIN_TAG | AQUA_RING_TAG | DROWSY | TRAPPED | BIND_TAG | WRAP_TAG | FIRE_SPIN_TAG
       | WHIRLPOOL_TAG | CLAMP_TAG | SAND_TOMB_TAG => 1
    case MAGMA_STORM_TAG | SNAP_TRAP_TAG | THUNDER_CAGE_TAG | INFESTATION_TAG | PROTECTED
       | SPIKY_SHIELD | KINGS_SHIELD | OBSTRUCT | SILK_TRAP => 2
    case BANEFUL_BUNKER | BURNING_BULWARK | ENDURING | STURDY | PERISH_SONG_TAG | TRUANT_TAG
       | SLOW_START_TAG | PROTOSYNTHESIS_TAG | QUARK_DRIVE_TAG => 3
    case FLYING_TAG | UNDERGROUND | UNDERWATER | HIDDEN | FIRE_BOOST | CRIT_BOOST | ALWAYS_CRIT
       | NO_CRIT | IGNORE_ACCURACY => 4
    case _ => 5
  }

  /** The factory keeps the tag type and builds the subclass the type names, with the checkpoint it always gives that type. */
  lemma FactoryWellFormed(tt: BattlerTagType, n: int, m: Option<Move>, id: Option<int>)
    ensures GetBattlerTag(tt, n, m, id).tagType == tt
    ensures WellFormed(GetBattlerTag(tt, n, m, id))
  {
    var run := TagRun(tt);
    if run == 0 {
      FactoryWellFormedRun0(tt, n, m, id);
    } else if run == 1 {
      FactoryWellFormedRun1(tt, n, m, id);
    } else if run == 2 {
      FactoryWellFormedRun2(tt, n, m, id);
    } else if run == 3 {
      FactoryWellFormedRun3(tt, n, m, id);
    } else if run == 4 {
      FactoryWellFormedRun4(tt, n, m, id);
    } else {
      FactoryWellFormedRun5(tt, n, m, id);
    }
  }

  lemma FactoryWellFormedRun0(tt: BattlerTagType, n: int, m: Option<Move>, id: Option<int>)
    requires TagRun(tt) == 0
    ensures GetBattlerTag(tt, n, m, id).tagType == tt
    ensures WellFormed(GetBattlerTag(tt, n, m, id))
  {
    match tt
    case NONE_TAG =>
    case RECHARGING =>
    case FLINCHED =>
    case INTERRUPTED =>
    case CONFUSED =>
    case INFATUATED =>
    case SEEDED =>
    case NIGHTMARE_TAG =>
    case FRENZY =>
    case CHARGING =>
    case ENCORE_TAG =>
    case HELPING_HAND_TAG =>
    case _ => assert false;
  }

  lemma FactoryWellFormedRun1(tt: BattlerTagType, n: int, m: Option<Move>, id: Option<int>)
    requires TagRun(tt) == 1
    ensures GetBattlerTag(tt, n, m, id).tagType == tt
    ensures WellFormed(GetBattlerTag(tt, n, m, id))
  {
    match tt
    case INGRAIN_TAG =>
    case AQUA_RING_TAG =>
    case DROWSY =>
    case TRAPPED =>
    case BIND_TAG =>
    case WRAP_TAG =>
    case FIRE_SPIN_TAG =>
    case WHIRLPOOL_TAG =>
    case CLAMP_TAG =>
    case SAND_TOMB_TAG =>
    case _ => assert false;
  }

  lemma FactoryWellFormedRun2(tt: BattlerTagType, n: int, m: Option<Move>, id: Option<int>)
    requires TagRun(tt) == 2
    ensures GetBattlerTag(tt, n, m, id).tagType == tt
    ensures WellFormed(GetBattlerTag(tt, n, m, id))
  {
    match tt
    case MAGMA_STORM_TAG =>
    case SNAP_TRAP_TAG =>
    case THUNDER_CAGE_TAG =>
    case INFESTATION_TAG =>
    case PROTECTED =>
    case SPIKY_SHIELD =>
    case KINGS_SHIELD =>
    case OBSTRUCT =>
    case SILK_TRAP =>
    case _ => assert false;
  }

  lemma FactoryWellFormedRun3(tt: BattlerTagType, n: int, m: Option<Move>, id: Option<int>)
    requires TagRun(tt) == 3
    ensures GetBattlerTag(tt, n, m, id).tagType == tt
    ensures WellFormed(GetBattlerTag(tt, n, m, id))
  {
    match tt
    case BANEFUL_BUNKER =>
    case BURNING_BULWARK =>
    case ENDURING =>
    case STURDY =>
    case PERISH_SONG_TAG =>
    case TRUANT_TAG =>
    case SLOW_START_TAG =>
    case PROTOSYNTHESIS_TAG =>
    case QUARK_DRIVE_TAG =>
    case _ => assert false;
  }

  lemma FactoryWellFormedRun4(tt: BattlerTagType, n: int, m: Option<Move>, id: Option<int>)
    requires TagRun(tt) == 4
    ensures GetBattlerTag(tt, n, m, id).tagType == tt
    ensures WellFormed(GetBattlerTag(tt, n, m, id))
  {
    match tt
    case FLYING_TAG =>
    case UNDERGROUND =>
    case UNDERWATER =>
    case HIDDEN =>
    case FIRE_BOOST =>
    case CRIT_BOOST =>
    case ALWAYS_CRIT =>
    case NO_CRIT =>
    case IGNORE_ACCURACY =>
    case _ => assert false;
  }

  lemma FactoryWellFormedRun5(tt: BattlerTagType, n: int, m: Option<Move>, id: Option<int>)
    requires TagRun(tt) == 5
    ensures GetBattlerTag(tt, n, m, id).tagType == tt
    ensures WellFormed(GetBattlerTag(tt, n, m, id))
  {
    match tt
    case BYPASS_SLEEP =>
    case IGNORE_FLYING =>
    case GROUNDED =>
    case SALT_CURED =>
    case CURSED =>
    case CHARGED =>
    case MAGNET_RISEN =>
    case MINIMIZED =>
    case _ => assert false;
  }

  /** The tag types whose constructors take the factory's turn count as given. */
  predicate TakesTurnCount(tt: BattlerTagType) {
    match tt
    case CONFUSED | TRAPPED | PERISH_SONG_TAG | FLYING_TAG | UNDERGROUND | UNDERWATER | HIDDEN
       | NO_CRIT | BYPASS_SLEEP | IGNORE_FLYING | NONE_TAG => true
    case _ => IsDamagingTrap(tt)
  }

  /**
   * The factory uses the given turn count only for the tag types whose
   * constructors take one (GROUNDED one less); the others start at their
   * own fixed counts.
   */
  lemma FactoryTurnCount(tt: BattlerTagType, n: int, m: Option<Move>, id: Option<int>)
    ensures var t := GetBattlerTag(tt, n, m, id);
      && (TakesTurnCount(tt) ==> t.turnCount == n)
      && (tt == GROUNDED ==> t.turnCount == n - 1)
      && (tt == DROWSY ==> t.turnCount == 2)
      && (tt == SLOW_START_TAG ==> t.turnCount == 5)
      && (tt == ENCORE_TAG ==> t.turnCount == 3)
      && (IsProtecting(ClassOf(tt)) ==> t.turnCount == 0)
  {
    if TakesTurnCount(tt) {
      GivenTurnCount(tt, n, m, id);
    }
    if IsProtecting(ClassOf(tt)) {
      ProtectingTurnCount(tt, n, m, id);
    }
  }

  lemma GivenTurnCount(tt: BattlerTagType, n: int, m: Option<Move>, id: Option<int>)
    requires TakesTurnCount(tt)
    ensures GetBattlerTag(tt, n, m, id).turnCount == n
  {
    match tt
    case NONE_TAG | CONFUSED | TRAPPED | PERISH_SONG_TAG | FLYING_TAG | UNDERGROUND | UNDERWATER | HIDDEN
       | NO_CRIT | BYPASS_SLEEP | IGNORE_FLYING =>
    case BIND_TAG | WRAP_TAG | FIRE_SPIN_TAG | WHIRLPOOL_TAG | CLAMP_TAG | SAND_TOMB_TAG
       | MAGMA_STORM_TAG | SNAP_TRAP_TAG | THUNDER_CAGE_TAG | INFESTATION_TAG =>
    case _ => assert false;
  }

  lemma ProtectingTurnCount(tt: BattlerTagType, n: int, m: Option<Move>, id: Option<int>)
    requires IsProtecting(ClassOf(tt))
    ensures GetBattlerTag(tt, n, m, id).turnCount == 0
  {
    match tt
    case PROTECTED | SPIKY_SHIELD | KINGS_SHIELD | OBSTRUCT | SILK_TRAP | BANEFUL_BUNKER | BURNING_BULWARK
       | ENDURING | STURDY =>
    case _ => assert false;
  }

  /** `loadTag` of the tag's class: the base fields and the subclass fields come from the saved tag. */
  function LoadFields(t: TagState, source: TagState): TagState {
    t.(turnCount := source.turnCount, sourceMove := source.sourceMove, sourceId := source.sourceId,
       extra := LoadExtra(t.extra, source.extra))
  }

  /**
   * The subclass fields after loading: each field the class declares is
   * copied from the saved tag.  A saved tag whose subclass fields have a
   * different shape leaves the factory's values.
   */
  function LoadExtra(own: TagExtra, saved: TagExtra): TagExtra {
    if own.SourceIndexed? && saved.SourceIndexed? then saved
    else if own.EncoreMove? && saved.EncoreMove? then saved
    else if own.TrapAnim? && saved.TrapAnim? then saved
    else if own.ContactDamage? && saved.ContactDamage? then saved
    else if own.ContactStatChange? && saved.ContactStatChange? then saved
    else if own.AbilityTag? && saved.AbilityTag? then saved
    else if own.WeatherStatBoost? && saved.WeatherStatBoost? then saved
    else if own.TerrainStatBoost? && saved.TerrainStatBoost? then saved
    else if own.TypeImmune? && saved.TypeImmune? then saved
    else if own.TypeBoostExtra? && saved.TypeBoostExtra? then saved
    else own
  }

  /** Rebuilding a saved tag: the factory for its type, then its own `loadTag`. */
  function LoadBattlerTag(source: TagState): TagState {
    LoadFields(GetBattlerTag(source.tagType, source.turnCount, source.sourceMove, source.sourceId), source)
  }

  /**
   * Saving a well-formed tag and loading it back gives the same tag; any
   * loaded tag is well-formed, keeps the saved type, counter, source move,
   * source id, and takes its checkpoint from the factory.
   */
  lemma LoadRoundTrip(t: TagState)
    ensures WellFormed(t) ==> LoadBattlerTag(t) == t
    ensures var l := LoadBattlerTag(t);
      && WellFormed(l) && l.tagType == t.tagType && l.turnCount == t.turnCount
      && l.sourceMove == t.sourceMove && l.sourceId == t.sourceId && l.lapseType == FactoryLapseType(t.tagType)
  {
    var f := GetBattlerTag(t.tagType, t.turnCount, t.sourceMove, t.sourceId);
    FactoryWellFormed(t.tagType, t.turnCount, t.sourceMove, t.sourceId);
    LoadExtraFits(ClassOf(t.tagType), f.extra, t.extra);
  }

  /** Loading keeps the subclass fields of the class's shape, and takes the saved ones when they have that shape too. */
  lemma LoadExtraFits(c: TagClass, own: TagExtra, saved: TagExtra)
    requires ExtraFits(c, own)
    ensures ExtraFits(c, LoadExtra(own, saved))
    ensures ExtraFits(c, saved) ==> LoadExtra(own, saved) == saved
  {
  }

  /** A move the bearer used, most recent first: its move, result, whether it was called by another move, and whether it charges. */
  datatype MoveRecord = MoveRecord(move: Move, result: MoveResult, virtual: bool, isChargeMove: bool)

  /**
   * What the tag rules read of the bearer: its battler index, HP, types,
   * the tag types it holds, where it stands, its abilities (with whether one
   * blocks indirect damage or reverses drains), the battler indices of its
   * opponents, its recent moves and the field's terrain.
   */
  datatype Bearer = Bearer(index: int, hp: int, maxHp: int, types: set<PokemonType>, tags: seq<BattlerTagType>,
                           isGrounded: bool, isMax: bool, isBossImmune: bool, terrain: Option<TerrainType>,
                           abilities: set<Ability>, blocksIndirectDamage: bool, reverseDrain: bool,
                           opponentIndices: seq<int>, lastMoves: seq<MoveRecord>)

  predicate HoldsTag(b: Bearer, tt: BattlerTagType) {
    tt in b.tags
  }

  predicate HoldsDamagingTrap(b: Bearer) {
    exists i :: 0 <= i < |b.tags| && IsDamagingTrap(b.tags[i])
  }

  /** What a lapse does beyond the tag itself: damage to the bearer, a heal phase for a battler, a status, a cancelled move, a perish count message. */
  datatype TagEvent =
    | Damage(amount: int)
    | Heal(target: int, amount: int)
    | SetStatus(effect: SE.StatusEffect)
    | MoveCancelled
    | PerishCount(turns: int)

  /** The random outcomes a lapse may draw: the self-hit damage of confusion (None when it does not hit itself) and whether infatuation stops the move. */
  datatype Draws = Draws(confusionSelfHit: Option<int>, infatuationStops: bool)

  /** The outcome of a lapse: whether the tag stays, its new counter, and what it did, in order. */
  datatype LapseResult = LapseResult(keep: bool, turnCount: int, events: seq<TagEvent>)

  /** The base countdown: one turn less, and the tag stays while turns remain. */
  function BaseLapse(turnCount: int): LapseResult {
    LapseResult(turnCount - 1 > 0, turnCount - 1, [])
  }

  /** Counts down only at the CUSTOM checkpoint; every other checkpoint keeps the tag untouched. */
  function CustomGated(lt: LapseType, turnCount: int): LapseResult {
    if lt != CUSTOM then LapseResult(true, turnCount, []) else BaseLapse(turnCount)
  }

  /** The classes whose lapse is `lapseType !== CUSTOM || super.lapse(...)`. */
  predicate IsCustomGated(c: TagClass) {
    match c
    case Seed | Nightmare | Ingrain | AquaRing | SaltCured | Cursed | TypeBoost | CritBoost | Infatuated => true
    case _ => false
  }

  /** The classes that do not override lapse. */
  predicate UsesBaseLapse(c: TagClass) {
    match c
    case Base | Frenzy | Charging | Encore | HelpingHand | Trapped | AlwaysCrit | IgnoreAccuracy | HideSprite
       | MagnetRisen | WeatherHighestStatBoost | TerrainHighestStatBoost => true
    case _ => false
  }

  /** The protecting classes, which report at CUSTOM without counting down. */
  predicate IsProtecting(c: TagClass) {
    match c
    case Protected | ContactDamageProtected | ContactStatChangeProtected | ContactPoisonProtected
       | ContactBurnProtected | Enduring | Sturdy => true
    case _ => false
  }

  /** How the gated result goes on when it keeps the tag. */
  function Then(r: LapseResult, events: seq<TagEvent>): LapseResult {
    if r.keep then r.(events := r.events + events) else r
  }

  /** The drain of a seed tag: the hit on the bearer and the heal of its source. */
  function SeedEvents(t: TagState, b: Bearer): seq<TagEvent>
    requires t.extra.SourceIndexed?
  {
    var si := t.extra.sourceIndex;
    if si.Some? && si.value in b.opponentIndices && !b.blocksIndirectDamage then
      var amount := if b.maxHp / 8 > 1 then b.maxHp / 8 else 1;
      var dealt := DamageDealt(b.hp, amount);
      [Damage(amount), Heal(si.value, if b.reverseDrain then -dealt else dealt)]
    else []
  }

  /** The HP a salt cure takes: a quarter for Steel and Water types, else an eighth, at least 1. */
  function SaltCureDamage(b: Bearer): int {
    var share := if STEEL in b.types || WATER in b.types then b.maxHp / 4 else b.maxHp / 8;
    if share > 1 then share else 1
  }

  /** One lapse of a tag at a checkpoint. */
  function TagLapse(t: TagState, lt: LapseType, b: Bearer, d: Draws): LapseResult {
    var base := BaseLapse(t.turnCount);
    var gated := CustomGated(lt, t.turnCount);
    match ClassOf(t.tagType)
    case Recharging | Flinched | Interrupted => LapseResult(true, base.turnCount, [MoveCancelled])
    case Confused =>
      if lt == CUSTOM then LapseResult(false, t.turnCount, [])
      else if !base.keep then base
      else base.(events := if d.confusionSelfHit.Some? then [Damage(d.confusionSelfHit.value), MoveCancelled] else [])
    case Infatuated => Then(gated, if d.infatuationStops then [MoveCancelled] else [])
    case Seed => if t.extra.SourceIndexed? then Then(gated, SeedEvents(t, b)) else gated
    case Nightmare => Then(gated, if !b.blocksIndirectDamage then [Damage(CeilDiv(b.maxHp, 4))] else [])
    case Ingrain | AquaRing => Then(gated, [Heal(b.index, b.maxHp / 16)])
    case Drowsy => if !base.keep then base.(events := [SetStatus(SE.SLEEP)]) else base
    case DamagingTrap => Then(base, if !b.blocksIndirectDamage then [Damage(CeilDiv(b.maxHp, 8))] else [])
    case Protected | ContactDamageProtected | ContactStatChangeProtected | ContactPoisonProtected
       | ContactBurnProtected | Enduring | Sturdy =>
      if lt == CUSTOM then LapseResult(true, t.turnCount, []) else base
    case PerishSong => if base.keep then base.(events := [PerishCount(base.turnCount)]) else base.(events := [Damage(b.hp)])
    case Truant =>
      if TRUANT !in b.abilities then base
      else LapseResult(true, t.turnCount, if |b.lastMoves| > 0 && b.lastMoves[0].move != NONE_MOVE then [MoveCancelled] else [])
    case SlowStart =>
      if t.extra.AbilityTag? && t.extra.ability !in b.abilities then BaseLapse(1) else base
    case TypeBoost | CritBoost => gated
    case SaltCured => Then(gated, if !b.blocksIndirectDamage then [Damage(SaltCureDamage(b))] else [])
    case Cursed => Then(gated, if !b.blocksIndirectDamage then [Damage(b.maxHp / 4)] else [])
    case Minimize => if b.isMax then LapseResult(false, t.turnCount, []) else gated
    case _ => base
  }

  /**
   * The base countdown lowers the counter by exactly one and keeps the tag
   * exactly while the new count is positive: a count of 1 expires on the
   * first lapse, and a count of 0 goes negative and expires too.
   */
  lemma BaseLapseCountdown(t: TagState, lt: LapseType, b: Bearer, d: Draws)
    requires UsesBaseLapse(ClassOf(t.tagType))
    ensures var r := TagLapse(t, lt, b, d);
      && r.turnCount == t.turnCount - 1
      && (r.keep <==> r.turnCount > 0)
      && r.events == []
      && (t.turnCount == 1 ==> !r.keep && r.turnCount == 0)
      && (t.turnCount == 0 ==> !r.keep && r.turnCount == -1)
  {
  }

  /**
   * The gated tags keep their counter and stay at every checkpoint other
   * than CUSTOM, and count down like the base tag only at CUSTOM.  While
   * kept, a nightmare takes a quarter of the maximum HP rounded up, a curse
   * a quarter rounded down and a salt cure its share, each unless the
   * bearer blocks indirect damage; ingrain and aqua ring heal the bearer by
   * a sixteenth rounded down; infatuation cancels the move exactly when the
   * roll says so; and the boost tags do nothing.
   */
  lemma CustomGatedLapse(t: TagState, lt: LapseType, b: Bearer, d: Draws)
    requires IsCustomGated(ClassOf(t.tagType))
    ensures var r := TagLapse(t, lt, b, d);
      && (lt != CUSTOM ==> r.keep && r.turnCount == t.turnCount)
      && (lt == CUSTOM ==> r.turnCount == t.turnCount - 1 && (r.keep <==> t.turnCount - 1 > 0))
      && (!r.keep ==> r.events == [])
    ensures var r := TagLapse(t, lt, b, d);
      var c := ClassOf(t.tagType);
      && (r.keep && (c == Nightmare || c == Cursed || c == SaltCured) ==>
            (b.blocksIndirectDamage <==> r.events == []) && (r.events == [] || (|r.events| == 1 && r.events[0].Damage?)))
      && (r.keep && c == Nightmare && !b.blocksIndirectDamage ==>
            4 * (r.events[0].amount - 1) < b.maxHp <= 4 * r.events[0].amount)
      && (r.keep && c == Cursed && !b.blocksIndirectDamage ==>
            4 * r.events[0].amount <= b.maxHp < 4 * r.events[0].amount + 4)
      && (r.keep && c == SaltCured ==> r.events == if b.blocksIndirectDamage then [] else [Damage(SaltCureDamage(b))])
      && (r.keep && (c == Ingrain || c == AquaRing) ==>
            |r.events| == 1 && r.events[0].Heal? && r.events[0].target == b.index
            && 16 * r.events[0].amount <= b.maxHp < 16 * r.events[0].amount + 16)
      && (r.keep && c == Infatuated ==> (r.events == [MoveCancelled] <==> d.infatuationStops) && (r.events == [] <==> !d.infatuationStops))
      && (c == TypeBoost || c == CritBoost ==> r.events == [])
  {
  }

  /**
   * At CUSTOM confusion ends without counting down, while a protecting tag
   * stays without counting down; at every other checkpoint both count down.
   */
  lemma ConfusedAndProtectedAtCustom(t: TagState, b: Bearer, d: Draws, lt: LapseType)
    ensures ClassOf(t.tagType) == Confused ==>
      TagLapse(t, CUSTOM, b, d) == LapseResult(false, t.turnCount, [])
    ensures IsProtecting(ClassOf(t.tagType)) ==>
      TagLapse(t, CUSTOM, b, d) == LapseResult(true, t.turnCount, [])
    ensures (ClassOf(t.tagType) == Confused || IsProtecting(ClassOf(t.tagType))) && lt != CUSTOM ==>
      TagLapse(t, lt, b, d).turnCount == t.turnCount - 1 && (TagLapse(t, lt, b, d).keep <==> t.turnCount - 1 > 0)
  {
  }

  /**
   * A damaging trap hits for an eighth of the maximum HP, rounded up, exactly
   * when its countdown survives and the bearer does not block indirect
   * damage; otherwise it does nothing to the bearer.
   */
  lemma DamagingTrapLapse(t: TagState, lt: LapseType, b: Bearer, d: Draws)
    requires IsDamagingTrap(t.tagType)
    ensures var r := TagLapse(t, lt, b, d);
      && r.turnCount == t.turnCount - 1
      && (r.events == [Damage(CeilDiv(b.maxHp, 8))] <==> t.turnCount - 1 > 0 && !b.blocksIndirectDamage)
      && (r.events != [Damage(CeilDiv(b.maxHp, 8))] ==> r.events == [])
  {
  }

  /**
   * A seed tag that stays drains its bearer only when the source's battler
   * index is among the opponents and the bearer does not block indirect
   * damage: it hits for an eighth of the maximum HP (at least 1) and heals
   * the source by the HP taken, or hurts it by as much under reverse drain.
   * With no such opponent nothing happens.
   */
  lemma SeedLapse(t: TagState, lt: LapseType, b: Bearer, d: Draws)
    requires ClassOf(t.tagType) == Seed && t.extra.SourceIndexed?
    ensures var r := TagLapse(t, lt, b, d);
      var si := t.extra.sourceIndex;
      var amount := if b.maxHp / 8 > 1 then b.maxHp / 8 else 1;
      && (r.keep && si.Some? && si.value in b.opponentIndices && !b.blocksIndirectDamage ==>
            r.events == [Damage(amount), Heal(si.value, if b.reverseDrain then -DamageDealt(b.hp, amount) else DamageDealt(b.hp, amount))]
            && amount >= 1 && 8 * amount >= b.maxHp - 7)
      && (si.None? || si.value !in b.opponentIndices || b.blocksIndirectDamage ==> r.events == [])
  {
  }

  /** Salt cure takes a quarter from Steel and Water types and an eighth from the rest, never less than 1. */
  lemma SaltCureShare(b: Bearer)
    requires b.maxHp >= 0
    ensures SaltCureDamage(b) >= 1
    ensures STEEL in b.types || WATER in b.types ==> SaltCureDamage(b) == (if b.maxHp >= 8 then b.maxHp / 4 else 1)
    ensures STEEL !in b.types && WATER !in b.types ==> SaltCureDamage(b) == (if b.maxHp >= 16 then b.maxHp / 8 else 1)
  {
  }

  /**
   * A drowsy tag starts at 2 turns and puts its bearer to sleep exactly on
   * the lapse that ends it: a fresh one survives its first lapse and
   * induces sleep on the second.
   */
  lemma DrowsySleeps(t: TagState, lt: LapseType, b: Bearer, d: Draws)
    requires t.tagType == DROWSY
    ensures GetBattlerTag(DROWSY, t.turnCount, t.sourceMove, t.sourceId).turnCount == 2
    ensures var r := TagLapse(t, lt, b, d);
      (SetStatus(SE.SLEEP) in r.events <==> !r.keep) && r.turnCount == t.turnCount - 1
    ensures var t0 := GetBattlerTag(DROWSY, 0, None, None);
      var r1 := TagLapse(t0, lt, b, d);
      r1.keep && r1.events == [] &&
      var r2 := TagLapse(t0.(turnCount := r1.turnCount), lt, b, d);
      !r2.keep && r2.events == [SetStatus(SE.SLEEP)]
  {
  }

  /** Perish song announces the remaining count while it lasts and takes all the bearer's HP when it runs out. */
  lemma PerishSongLapse(t: TagState, lt: LapseType, b: Bearer, d: Draws)
    requires t.tagType == PERISH_SONG_TAG
    ensures var r := TagLapse(t, lt, b, d);
      && r.turnCount == t.turnCount - 1
      && (r.keep ==> r.events == [PerishCount(t.turnCount - 1)])
      && (!r.keep ==> r.events == [Damage(b.hp)])
  {
  }

  /**
   * Slow start without its ability is cut short: the counter becomes 1 and
   * then counts down, so the tag ends on that lapse.  With the ability it
   * counts down normally.
   */
  lemma SlowStartLapse(t: TagState, lt: LapseType, b: Bearer, d: Draws)
    requires t.tagType == SLOW_START_TAG && t.extra == AbilityTag(SLOW_START)
    ensures SLOW_START !in b.abilities ==> TagLapse(t, lt, b, d) == LapseResult(false, 0, [])
    ensures SLOW_START in b.abilities ==> TagLapse(t, lt, b, d) == BaseLapse(t.turnCount)
  {
  }

  /** With its ability, truant never counts down and always stays, cancelling the move after a real last move. */
  lemma TruantLapse(t: TagState, lt: LapseType, b: Bearer, d: Draws)
    requires t.tagType == TRUANT_TAG
    ensures TRUANT in b.abilities ==> var r := TagLapse(t, lt, b, d);
      r.keep && r.turnCount == t.turnCount &&
      (r.events == [MoveCancelled] <==> |b.lastMoves| > 0 && b.lastMoves[0].move != NONE_MOVE)
    ensures TRUANT !in b.abilities ==> TagLapse(t, lt, b, d) == BaseLapse(t.turnCount)
  {
  }

  /** Whether a tag can be added to the bearer; `oppositeGender` is whether the source of an infatuation is of the opposite gender. */
  predicate TagCanAdd(t: TagState, b: Bearer, oppositeGender: bool) {
    match ClassOf(t.tagType)
    case Trapped => !HoldsTag(b, TRAPPED) && GHOST !in b.types
    case Ingrain => !HoldsTag(b, TRAPPED)
    case DamagingTrap => GHOST !in b.types && !HoldsDamagingTrap(b)
    case Flinched | Minimize => !b.isMax
    case Interrupted => HoldsTag(b, FLYING_TAG)
    case Confused => b.terrain != Some(MISTY) || !b.isGrounded
    case Drowsy => b.terrain != Some(ELECTRIC_TERRAIN) || !b.isGrounded
    case Infatuated => oppositeGender
    case Seed => GRASS !in b.types
    case PerishSong => !b.isBossImmune
    case Encore => EncoreTarget(b).Some?
    case _ => true
  }

  /** The moves encore refuses to repeat. */
  predicate IsUnencorable(m: Move) {
    m in {MIMIC, MIRROR_MOVE, TRANSFORM, STRUGGLE, SKETCH, SLEEP_TALK, ENCORE}
  }

  /** The move encore would lock in, if it can be added. */
  function EncoreTarget(b: Bearer): Option<Move> {
    if b.isMax || |b.lastMoves| == 0 then None
    else
      var last := b.lastMoves[0];
      if last.move == NONE_MOVE || last.virtual || IsUnencorable(last.move) then None
      else if last.isChargeMove && last.result == OTHER then None
      else Some(last.move)
  }

  /**
   * Encore can be added exactly when the bearer is not dynamaxed and its
   * last move was a real, directly chosen move other than the excluded ones
   * and not a charging move still charging; it then locks in that move.
   */
  lemma EncoreCanAdd(b: Bearer)
    ensures var r := EncoreTarget(b);
      (r.Some? <==> !b.isMax && |b.lastMoves| > 0 && b.lastMoves[0].move != NONE_MOVE && !b.lastMoves[0].virtual
                    && !IsUnencorable(b.lastMoves[0].move)
                    && !(b.lastMoves[0].isChargeMove && b.lastMoves[0].result == OTHER))
      && (r.Some? ==> r.value == b.lastMoves[0].move)
  {
  }

  /**
   * Traps exclude each other: a Ghost-type never gets a trap, a bearer
   * already TRAPPED gets neither TRAPPED nor ingrain, and a bearer holding
   * any damaging trap gets no second one.
   */
  lemma TrapExclusivity(t: TagState, b: Bearer, g: bool)
    ensures ClassOf(t.tagType) in {Trapped, DamagingTrap} && GHOST in b.types ==> !TagCanAdd(t, b, g)
    ensures ClassOf(t.tagType) in {Trapped, Ingrain} && HoldsTag(b, TRAPPED) ==> !TagCanAdd(t, b, g)
    ensures IsDamagingTrap(t.tagType) && (exists i :: 0 <= i < |b.tags| && IsDamagingTrap(b.tags[i])) ==> !TagCanAdd(t, b, g)
    ensures t.tagType == TRAPPED ==> (TagCanAdd(t, b, g) <==> TRAPPED !in b.tags && GHOST !in b.types)
    ensures IsDamagingTrap(t.tagType) ==> (TagCanAdd(t, b, g) <==> GHOST !in b.types && !HoldsDamagingTrap(b))
  {
  }

  /** The five stats the highest-stat boost compares, in the order it scans them. */
  function BoostStats(): seq<Stat> {
    [ATK, DEF, SPATK, SPDEF, SPD]
  }

  /** The reduce of the highest-stat boost over the values so far: the best value, starting from 0, and the index where it was found. */
  function BestSoFar(values: seq<int>): (int, Option<nat>)
  {
    if values == [] then (0, None)
    else
      var prev := BestSoFar(values[..|values| - 1]);
      if values[|values| - 1] > prev.0 then (values[|values| - 1], Some(|values| - 1)) else prev
  }

  /**
   * The index the reduce settles on is the first strict maximum, provided it
   * is positive; if no value beats 0 none is chosen.
   */
  lemma {:induction false} BestSoFarIsFirstMax(values: seq<int>)
    ensures var (best, idx) := BestSoFar(values);
      && best >= 0
      && (forall j :: 0 <= j < |values| ==> values[j] <= best)
      && (idx.None? <==> forall j :: 0 <= j < |values| ==> values[j] <= 0)
      && (idx.None? ==> best == 0)
      && (idx.Some? ==> idx.value < |values| && values[idx.value] == best && best > 0
                        && forall j :: 0 <= j < idx.value ==> values[j] < best)
  {
    if values != [] {
      var init := values[..|values| - 1];
      BestSoFarIsFirstMax(init);
      assert forall j :: 0 <= j < |init| ==> init[j] == values[j];
    }
  }

  /** The multiplier of a highest-stat boost: 1.5 for speed, 1.3 for any other stat or none. */
  function BoostMultiplier(s: Option<Stat>): real {
    if s == Some(SPD) then 1.5 else 1.3
  }

  /** The effect of `onAdd` on the tag's own fields. */
  function OnAddStep(t: TagState, sourceIndex: int, statValue: Stat -> int): TagState {
    match t.extra
    case SourceIndexed(_) => t.(extra := SourceIndexed(Some(sourceIndex)))
    case WeatherStatBoost(a, _, _, ws) =>
      var s := HighestStat(statValue);
      t.(extra := WeatherStatBoost(a, s, Some(BoostMultiplier(s)), ws))
    case TerrainStatBoost(a, _, _, ts) =>
      var s := HighestStat(statValue);
      t.(extra := TerrainStatBoost(a, s, Some(BoostMultiplier(s)), ts))
    case _ => t
  }

  /** The stat the boost picks from the bearer's battle stat values. */
  function HighestStat(statValue: Stat -> int): Option<Stat> {
    var values := [statValue(ATK), statValue(DEF), statValue(SPATK), statValue(SPDEF), statValue(SPD)];
    var idx := BestSoFar(values).1;
    if idx.Some? && idx.value < 5 then Some(BoostStats()[idx.value]) else None
  }

  /**
   * The boost goes to the first of ATK, DEF, SPATK, SPDEF, SPD with the
   * greatest value (a later stat must beat it strictly), and its multiplier
   * is 1.5 exactly when that is speed.
   */
  lemma HighestStatBoostPick(statValue: Stat -> int)
    ensures var s := HighestStat(statValue);
      && (s.Some? ==>
            && s.value != HP && statValue(s.value) > 0
            && (forall k :: 0 <= k < 5 ==> statValue(BoostStats()[k]) <= statValue(s.value))
            && (forall k :: 0 <= k < 5 && BoostStats()[k] == s.value ==>
                  forall j :: 0 <= j < k ==> statValue(BoostStats()[j]) < statValue(s.value)))
      && (s.None? <==> forall k :: 0 <= k < 5 ==> statValue(BoostStats()[k]) <= 0)
      && (BoostMultiplier(s) == 1.5 <==> s == Some(SPD))
  {
    var values := [statValue(ATK), statValue(DEF), statValue(SPATK), statValue(SPDEF), statValue(SPD)];
    BestSoFarIsFirstMax(values);
    assert forall k :: 0 <= k < 5 ==> values[k] == statValue(BoostStats()[k]);
  }

  /** A battler tag object. */
  class BattlerTag {
    var tagType: BattlerTagType
    var lapseType: LapseType
    var turnCount: int
    var sourceMove: Option<Move>
    var sourceId: Option<int>
    var extra: TagExtra

    function State(): TagState
      reads this
    {
      TagState(tagType, lapseType, turnCount, sourceMove, sourceId, extra)
    }

    /** The object the factory builds for a tag type. */
    constructor (tt: BattlerTagType, turnCount: int, sourceMove: Option<Move>, sourceId: Option<int>)
      ensures State() == GetBattlerTag(tt, turnCount, sourceMove, sourceId)
    {
      var t := GetBattlerTag(tt, turnCount, sourceMove, sourceId);
      this.tagType, this.lapseType, this.turnCount := t.tagType, t.lapseType, t.turnCount;
      this.sourceMove, this.sourceId, this.extra := t.sourceMove, t.sourceId, t.extra;
    }

    /** Copies the saved fields the tag's class declares. */
    method LoadTag(source: TagState)
      modifies this
      ensures State() == LoadFields(old(State()), source)
    {
      turnCount := source.turnCount;
      sourceMove := source.sourceMove;
      sourceId := source.sourceId;
      extra := LoadExtra(extra, source.extra);
    }

    /** Whether the tag can be added; an encore tag also records the move it will lock in. */
    method CanAdd(b: Bearer, oppositeGender: bool) returns (r: bool)
      modifies this
      ensures r == TagCanAdd(old(State()), b, oppositeGender)
      ensures ClassOf(tagType) == Encore && extra.EncoreMove? && r ==> State() == old(State()).(extra := EncoreMove(EncoreTarget(b)))
      ensures !(ClassOf(tagType) == Encore && extra.EncoreMove? && r) ==> State() == old(State())
    {
      r := TagCanAdd(State(), b, oppositeGender);
      if ClassOf(tagType) == Encore && extra.EncoreMove? && r {
        extra := EncoreMove(EncoreTarget(b));
      }
    }

    /** Records the source's battler index, or picks the boosted stat, as the tag's class does on being added. */
    method OnAdd(sourceIndex: int, statValue: Stat -> int)
      modifies this
      ensures State() == OnAddStep(old(State()), sourceIndex, statValue)
    {
      match extra
      case SourceIndexed(_) =>
        extra := SourceIndexed(Some(sourceIndex));
      case WeatherStatBoost(a, _, _, ws) =>
        var s := PickHighestStat(statValue);
        extra := WeatherStatBoost(a, s, Some(BoostMultiplier(s)), ws);
      case TerrainStatBoost(a, _, _, ts) =>
        var s := PickHighestStat(statValue);
        extra := TerrainStatBoost(a, s, Some(BoostMultiplier(s)), ts);
      case _ =>
    }

    /** Lapses the tag at a checkpoint; returns whether it stays and what it did. */
    method Lapse(lt: LapseType, b: Bearer, d: Draws) returns (keep: bool, events: seq<TagEvent>)
      modifies this
      ensures var r := TagLapse(old(State()), lt, b, d);
        keep == r.keep && events == r.events && State() == old(State()).(turnCount := r.turnCount)
    {
      var r := TagLapse(State(), lt, b, d);
      turnCount := r.turnCount;
      keep, events := r.keep, r.events;
    }
  }

  /** The scan of the highest-stat boost, as the reduce runs it from left to right. */
  method PickHighestStat(statValue: Stat -> int) returns (s: Option<Stat>)
    ensures s == HighestStat(statValue)
  {
    var stats := BoostStats();
    var values := [statValue(ATK), statValue(DEF), statValue(SPATK), statValue(SPDEF), statValue(SPD)];
    var highestValue := 0;
    var highest: Option<nat> := None;
    for i := 0 to 5
      invariant (highestValue, highest) == BestSoFar(values[..i])
    {
      assert values[..i + 1][..i] == values[..i];
      if values[i] > highestValue {
        highestValue := values[i];
        highest := Some(i);
      }
    }
    assert values[..5] == values;
    s := if highest.Some? && highest.value < 5 then Some(stats[highest.value]) else None;
  }

  /** Rebuilds a saved tag as a new object. */
  method LoadBattlerTagObject(source: TagState) returns (tag: BattlerTag)
    ensures fresh(tag) && tag.State() == LoadBattlerTag(source)
  {
    tag := new BattlerTag(source.tagType, source.turnCount, source.sourceMove, source.sourceId);
    tag.LoadTag(source);
  }
}
