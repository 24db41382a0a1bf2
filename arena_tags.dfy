/**
 * Field-wide and side-wide effects (src/data/arena-tag.ts): the tag record
 * and its countdown, the entry hazards with their stacked layers, the damage
 * screens, Mist, Trick Room, the type-weakening sports, Wish, the delayed
 * attacks, and the factory that builds a tag from its type.
 *
 * A tag is an object whose fields change in place (`ArenaTag` below); the
 * rules it follows are the pure functions on `ArenaTagState`.  Messages are
 * left out; queued phases become `ArenaEvent`s.
 */
module ArenaTags {
  import opened Wrappers
  import opened HpFractions
  import opened Holders
  import K = Kinds
  import SE = StatusEffects
  import BS = BattleStats

  /** Which side of the field a tag covers. */
  datatype ArenaTagSide = BOTH | PLAYER | ENEMY

  /**
   * Arena tag discriminators (src/data/enums/arena-tag-type.ts, not part of
   * this model): the members the factory builds, and NONE for any other.
   */
  datatype ArenaTagType =
    | NONE | MUD_SPORT | WATER_SPORT | SPIKES | TOXIC_SPIKES | MIST | FUTURE_SIGHT | DOOM_DESIRE | WISH
    | STEALTH_ROCK | STICKY_WEB | TRICK_ROOM | GRAVITY | REFLECT | LIGHT_SCREEN | AURORA_VEIL | TAILWIND

  /** The fields a tag's class adds to the base record. */
  datatype ArenaExtra =
    | Plain
      /** WeakenMoveTypeTag: the move type whose power is cut. */
    | WeakenType(weakenedType: K.PokemonType)
      /** ArenaTrapTag: stacked layers and their cap. */
    | Trap(layers: int, maxLayers: int)
      /** ToxicSpikesTag: a trap that a Poison-type entrant can absorb. */
    | ToxicTrap(layers: int, maxLayers: int, neutralized: bool)
      /** DelayedAttackTag: the battler slot the attack lands on. */
    | Delayed(targetIndex: Option<int>)
      /** WishTag: the user's slot and the heal, both unset until the tag is added. */
    | WishData(battlerIndex: Option<int>, healHp: Option<int>)

  datatype ArenaTagState = ArenaTagState(
    tagType: ArenaTagType, turnCount: int, sourceMove: K.Move, sourceId: Option<int>,
    side: ArenaTagSide, extra: ArenaExtra)

  predicate IsTrap(e: ArenaExtra) {
    e.Trap? || e.ToxicTrap?
  }

  predicate IsTrapType(tt: ArenaTagType) {
    tt == SPIKES || tt == TOXIC_SPIKES || tt == STEALTH_ROCK || tt == STICKY_WEB
  }

  predicate IsScreen(tt: ArenaTagType) {
    tt == REFLECT || tt == LIGHT_SCREEN || tt == AURORA_VEIL
  }

  /** How many layers each entry hazard stacks to. */
  function MaxLayersOf(tt: ArenaTagType): int {
    match tt
    case SPIKES => 3
    case TOXIC_SPIKES => 2
    case STEALTH_ROCK => 1
    case STICKY_WEB => 1
    case _ => 0
  }

  /** A hazard keeps between one layer and its cap, and its cap is that of its type. */
  predicate TrapInvariant(t: ArenaTagState) {
    IsTrap(t.extra) ==> 1 <= t.extra.layers <= t.extra.maxLayers && t.extra.maxLayers == MaxLayersOf(t.tagType)
  }

  // ---------------------------------------------------------------- factory

  function NewTag(tt: ArenaTagType, turnCount: int, move: K.Move, sourceId: Option<int>,
                  side: ArenaTagSide, extra: ArenaExtra): ArenaTagState
  {
    ArenaTagState(tt, turnCount, move, sourceId, side, extra)
  }

  /** A hazard: no countdown, one layer. */
  function NewTrap(tt: ArenaTagType, move: K.Move, sourceId: int, side: ArenaTagSide, maxLayers: int): ArenaTagState {
    NewTag(tt, 0, move, Some(sourceId), side, Trap(1, maxLayers))
  }

  /**
   * The tag `getArenaTag` builds, with each class's fixed move, side and
   * subtype fields; None for a type the switch does not name.
   */
  function GetArenaTag(tt: ArenaTagType, turnCount: int, sourceMove: K.Move, sourceId: int,
                       targetIndex: Option<int>, side: ArenaTagSide): Option<ArenaTagState>
  {
    match tt
    case MIST => Some(NewTag(MIST, turnCount, K.MIST, Some(sourceId), side, Plain))
    case MUD_SPORT => Some(NewTag(MUD_SPORT, turnCount, K.MUD_SPORT, Some(sourceId), BOTH, WeakenType(K.ELECTRIC)))
    case WATER_SPORT => Some(NewTag(WATER_SPORT, turnCount, K.WATER_SPORT, Some(sourceId), BOTH, WeakenType(K.FIRE)))
    case SPIKES => Some(NewTrap(SPIKES, K.SPIKES, sourceId, side, 3))
    case TOXIC_SPIKES => Some(NewTag(TOXIC_SPIKES, 0, K.TOXIC_SPIKES, Some(sourceId), side, ToxicTrap(1, 2, false)))
    case FUTURE_SIGHT => Some(NewTag(FUTURE_SIGHT, 3, sourceMove, Some(sourceId), BOTH, Delayed(targetIndex)))
    case DOOM_DESIRE => Some(NewTag(DOOM_DESIRE, 3, sourceMove, Some(sourceId), BOTH, Delayed(targetIndex)))
    case WISH => Some(NewTag(WISH, turnCount, K.WISH, Some(sourceId), side, WishData(None, None)))
    case STEALTH_ROCK => Some(NewTrap(STEALTH_ROCK, K.STEALTH_ROCK, sourceId, side, 1))
    case STICKY_WEB => Some(NewTrap(STICKY_WEB, K.STICKY_WEB, sourceId, side, 1))
    case TRICK_ROOM => Some(NewTag(TRICK_ROOM, turnCount, K.TRICK_ROOM, Some(sourceId), BOTH, Plain))
    case GRAVITY => Some(NewTag(GRAVITY, turnCount, K.GRAVITY, None, BOTH, Plain))
    case REFLECT => Some(NewTag(REFLECT, turnCount, K.REFLECT, Some(sourceId), side, Plain))
    case LIGHT_SCREEN => Some(NewTag(LIGHT_SCREEN, turnCount, K.LIGHT_SCREEN, Some(sourceId), side, Plain))
    case AURORA_VEIL => Some(NewTag(AURORA_VEIL, turnCount, K.AURORA_VEIL, Some(sourceId), side, Plain))
    case TAILWIND => Some(NewTag(TAILWIND, turnCount, K.TAILWIND, Some(sourceId), side, Plain))
    case NONE => None
  }

  /**
   * The factory builds a tag for every type but NONE, of that type; hazards
   * start with one layer, their type's cap and no countdown; delayed attacks
   * count three turns; the sports, Trick Room, Gravity and the delayed
   * attacks ignore the requested side and cover both; Gravity has no source.
   */
  lemma FactoryShape(tt: ArenaTagType, turnCount: int, sourceMove: K.Move, sourceId: int,
                     targetIndex: Option<int>, side: ArenaTagSide)
    ensures var r := GetArenaTag(tt, turnCount, sourceMove, sourceId, targetIndex, side);
      && (r.Some? <==> tt != NONE)
      && (r.Some? ==> r.value.tagType == tt && TrapInvariant(r.value))
      && (r.Some? ==> (IsTrap(r.value.extra) <==> IsTrapType(tt)))
      && (IsTrapType(tt) ==> r.value.turnCount == 0 && r.value.extra.layers == 1)
      && (tt == TOXIC_SPIKES ==> !r.value.extra.neutralized)
      && (tt == FUTURE_SIGHT || tt == DOOM_DESIRE ==>
            r.value.turnCount == 3 && r.value.sourceMove == sourceMove && r.value.extra == Delayed(targetIndex))
      && (tt in {MUD_SPORT, WATER_SPORT, TRICK_ROOM, GRAVITY, FUTURE_SIGHT, DOOM_DESIRE} ==> r.value.side == BOTH)
      && (tt in {MIST, SPIKES, TOXIC_SPIKES, WISH, STEALTH_ROCK, STICKY_WEB, REFLECT, LIGHT_SCREEN, AURORA_VEIL, TAILWIND} ==>
            r.value.side == side)
      && (r.Some? ==> (r.value.sourceId.None? <==> tt == GRAVITY))
  {
  }

  // ---------------------------------------------------------------- lapse

  datatype ArenaEvent =
      /** A hazard's hit: `damageAndUpdate` plus the turn's damage tally. */
    | TrapDamage(target: int, amount: int)
      /** A status the hazard inflicts through `trySetStatus`. */
    | StatusInflicted(target: int, effect: SE.StatusEffect)
      /** A queued StatChangePhase on the entrant. */
    | StatChange(target: int, stats: seq<BS.BattleStat>, levels: int)
      /** The tag asks the arena to remove a tag of this type. */
    | TagRemoved(tagType: ArenaTagType)
      /** The Wish heal queued on a slot. */
    | WishHeal(target: int, amount: int)
      /** The delayed attack's MoveEffectPhase: user, target slot, move. */
    | DelayedMove(userId: Option<int>, targetIndex: Option<int>, move: K.Move)
      /** The "effect wore off" message. */
    | EffectEnded

  /**
   * The base countdown: a count below one never runs down; otherwise it is
   * decremented and the tag stays while it is not zero.  Returns
   * (keep, new count).
   */
  function BaseLapse(turnCount: int): (bool, int) {
    if turnCount < 1 then (true, turnCount) else (turnCount - 1 != 0, turnCount - 1)
  }

  datatype ArenaLapseResult = ArenaLapseResult(keep: bool, turnCount: int, events: seq<ArenaEvent>)

  /** A tag's lapse: the base countdown, and a delayed attack strikes on the lapse that ends it. */
  function TagLapse(t: ArenaTagState): ArenaLapseResult {
    var (keep, count) := BaseLapse(t.turnCount);
    var events :=
      if t.extra.Delayed? && !keep then [DelayedMove(t.sourceId, t.extra.targetIndex, t.sourceMove)] else [];
    ArenaLapseResult(keep, count, events)
  }

  /**
   * One lapse: a count below one is kept unchanged; otherwise the count goes
   * down by one and the tag is kept exactly when it has not reached zero.
   * Only a delayed attack produces an event, and only when it expires.
   */
  lemma LapseCountdown(t: ArenaTagState)
    ensures var r := TagLapse(t);
      && (t.turnCount < 1 ==> r.keep && r.turnCount == t.turnCount)
      && (t.turnCount >= 1 ==> r.turnCount == t.turnCount - 1 && (r.keep <==> r.turnCount != 0))
      && (r.events != [] <==> t.extra.Delayed? && !r.keep)
  {
  }

  /** Whether a tag with this count is still on the field after `n` lapses. */
  function Survives(turnCount: int, n: nat): bool {
    if n == 0 then true
    else
      var (keep, count) := BaseLapse(turnCount);
      keep && Survives(count, n - 1)
  }

  /**
   * A tag with a count of k ≥ 1 is removed by exactly its k-th lapse; one
   * with a count below one, such as every hazard, is never removed by
   * lapsing.
   */
  lemma {:induction false} Lifetime(turnCount: int, n: nat)
    ensures turnCount >= 1 ==> (Survives(turnCount, n) <==> n < turnCount)
    ensures turnCount < 1 ==> Survives(turnCount, n)
    decreases n
  {
    if n > 0 {
      Lifetime(turnCount - 1, n - 1);
      if turnCount < 1 {
        Lifetime(turnCount, n - 1);
      }
    }
  }

  /** The delayed attacks of the factory strike on their third lapse and not before. */
  lemma DelayedAttackTiming(tt: ArenaTagType, move: K.Move, sourceId: int, target: Option<int>, side: ArenaTagSide, turnCount: int)
    requires tt == FUTURE_SIGHT || tt == DOOM_DESIRE
    ensures var t := GetArenaTag(tt, turnCount, move, sourceId, target, side).value;
      && Survives(t.turnCount, 2) && !Survives(t.turnCount, 3)
      && TagLapse(t).events == []
      && TagLapse(t.(turnCount := 1)).events == [DelayedMove(Some(sourceId), target, move)]
  {
    Lifetime(3, 2);
    Lifetime(3, 3);
  }

  // ---------------------------------------------------------------- layers

  /** onOverlap: a hazard below its cap gains a layer; anything else is unchanged. */
  function OverlapStep(t: ArenaTagState): ArenaTagState {
    if IsTrap(t.extra) && t.extra.layers < t.extra.maxLayers then t.(extra := t.extra.(layers := t.extra.layers + 1))
    else t
  }

  /** Overlapping keeps the layer invariant, adds a layer below the cap and changes nothing at it. */
  lemma OverlapKeepsLayers(t: ArenaTagState)
    requires TrapInvariant(t)
    ensures TrapInvariant(OverlapStep(t))
    ensures IsTrap(t.extra) && t.extra.layers < t.extra.maxLayers ==>
      OverlapStep(t).extra.layers == t.extra.layers + 1
    ensures !(IsTrap(t.extra) && t.extra.layers < t.extra.maxLayers) ==> OverlapStep(t) == t
    ensures OverlapStep(t).(extra := t.extra) == t
  {
  }

  /** The tag after `n` overlaps. */
  function Overlaps(t: ArenaTagState, n: nat): ArenaTagState {
    if n == 0 then t else OverlapStep(Overlaps(t, n - 1))
  }

  /** After n overlaps a hazard has min(layers + n, cap) layers and is otherwise as it was. */
  lemma {:induction false} OverlapsLayers(t: ArenaTagState, n: nat)
    requires TrapInvariant(t) && IsTrap(t.extra)
    ensures var u := Overlaps(t, n);
      && TrapInvariant(u) && IsTrap(u.extra)
      && u.extra.layers == (if t.extra.layers + n < t.extra.maxLayers then t.extra.layers + n else t.extra.maxLayers)
      && u.(extra := t.extra) == t
      && u.extra.(layers := t.extra.layers) == t.extra
  {
    if n > 0 {
      OverlapsLayers(t, n - 1);
      OverlapKeepsLayers(Overlaps(t, n - 1));
    }
  }

  /** Spikes stack to three layers, Toxic Spikes to two, Stealth Rock and Sticky Web to one. */
  lemma FactoryLayerCaps(tt: ArenaTagType, sourceId: int, side: ArenaTagSide, n: nat)
    requires IsTrapType(tt)
    ensures var t := GetArenaTag(tt, 0, K.NONE_MOVE, sourceId, None, side).value;
      var u := Overlaps(t, n);
      IsTrap(u.extra) && u.extra.layers == (if 1 + n < MaxLayersOf(tt) then 1 + n else MaxLayersOf(tt))
    ensures MaxLayersOf(SPIKES) == 3 && MaxLayersOf(TOXIC_SPIKES) == 2
    ensures MaxLayersOf(STEALTH_ROCK) == 1 && MaxLayersOf(STICKY_WEB) == 1
  {
    var t := GetArenaTag(tt, 0, K.NONE_MOVE, sourceId, None, side).value;
    OverlapsLayers(t, n);
  }

  // ---------------------------------------------------------------- apply: holders

  /**
   * The flag hooks: Mist sets "stat drop prevented", Trick Room negates
   * "speed reversed".  Returns (applied, new flag).
   */
  function FlagApply(tt: ArenaTagType, flag: bool): (r: (bool, bool))
    requires tt == MIST || tt == TRICK_ROOM
  {
    if tt == MIST then (true, true) else (true, !flag)
  }

  /** Both hooks report success; Mist always leaves the flag set, and Trick Room applied twice restores it. */
  lemma FlagApplyLaws(flag: bool)
    ensures FlagApply(MIST, flag) == (true, true)
    ensures FlagApply(MIST, FlagApply(MIST, flag).1) == FlagApply(MIST, flag)
    ensures FlagApply(TRICK_ROOM, flag).0 && FlagApply(TRICK_ROOM, flag).1 != flag
    ensures FlagApply(TRICK_ROOM, FlagApply(TRICK_ROOM, flag).1).1 == flag
  {
  }

  /** Whether a screen cuts moves of this category: Reflect physical, Light Screen special, Aurora Veil any. */
  predicate ScreenMatches(tt: ArenaTagType, category: K.MoveCategory)
    requires IsScreen(tt)
  {
    match tt
    case REFLECT => category == K.PHYSICAL
    case LIGHT_SCREEN => category == K.SPECIAL
    case _ => true
  }

  /** The damage multiplier of a screen: 2732/4096 in a double battle, one half otherwise. */
  function ScreenMultiplier(doubleBattle: bool): real {
    if doubleBattle then 2732.0 / 4096.0 else 0.5
  }

  /** A screen's hook: on a matching category it writes the multiplier; on another it leaves the holder alone. */
  function ScreenApply(tt: ArenaTagType, category: K.MoveCategory, doubleBattle: bool, current: real): (r: (bool, real))
    requires IsScreen(tt)
    ensures r.0 <==> ScreenMatches(tt, category)
    ensures r.0 ==> r.1 == ScreenMultiplier(doubleBattle) && 0.5 <= r.1 < 1.0
    ensures !r.0 ==> r.1 == current
  {
    if ScreenMatches(tt, category) then (true, ScreenMultiplier(doubleBattle)) else (false, current)
  }

  /**
   * Aurora Veil covers whatever Reflect or Light Screen covers; Reflect and
   * Light Screen never both apply, and neither applies to status moves;
   * screens do not compound: the written value does not depend on the old one.
   */
  lemma ScreenCoverage(category: K.MoveCategory, doubleBattle: bool, v1: real, v2: real)
    ensures ScreenApply(REFLECT, category, doubleBattle, v1).0 || ScreenApply(LIGHT_SCREEN, category, doubleBattle, v1).0
      ==> ScreenApply(AURORA_VEIL, category, doubleBattle, v1).0
    ensures !(ScreenApply(REFLECT, category, doubleBattle, v1).0 && ScreenApply(LIGHT_SCREEN, category, doubleBattle, v1).0)
    ensures category == K.STATUS ==>
      !ScreenApply(REFLECT, category, doubleBattle, v1).0 && !ScreenApply(LIGHT_SCREEN, category, doubleBattle, v1).0
    ensures ScreenApply(AURORA_VEIL, category, doubleBattle, v1) == ScreenApply(AURORA_VEIL, category, doubleBattle, v2)
  {
  }

  /** A sport's hook: a move of the weakened type has its power multiplied by 0.33. */
  function WeakenTypeApply(weakenedType: K.PokemonType, moveType: K.PokemonType, power: real): (r: (bool, real))
    ensures r.0 <==> moveType == weakenedType
    ensures r.0 ==> r.1 == power * 0.33
    ensures !r.0 ==> r.1 == power
  {
    if moveType == weakenedType then (true, power * 0.33) else (false, power)
  }

  /** Mud Sport weakens exactly electric moves and Water Sport exactly fire moves, to a third of their power or less. */
  lemma SportsWeaken(turnCount: int, sourceId: int, moveType: K.PokemonType, power: real)
    requires power >= 0.0
    ensures var mud := GetArenaTag(MUD_SPORT, turnCount, K.NONE_MOVE, sourceId, None, BOTH).value;
      WeakenTypeApply(mud.extra.weakenedType, moveType, power).0 <==> moveType == K.ELECTRIC
    ensures var water := GetArenaTag(WATER_SPORT, turnCount, K.NONE_MOVE, sourceId, None, BOTH).value;
      WeakenTypeApply(water.extra.weakenedType, moveType, power).0 <==> moveType == K.FIRE
    ensures 3.0 * WeakenTypeApply(K.FIRE, moveType, power).1 <= power || moveType != K.FIRE
  {
  }

  // ---------------------------------------------------------------- apply: hazards

  /** What a hazard needs to know about the combatant entering the field. */
  datatype Entrant = Entrant(
    id: int, isPlayer: bool, battlerIndex: int, maxHp: int, isGrounded: bool,
    types: set<K.PokemonType>,
      /** Whether the entrant already has a status. */
    hasStatus: bool,
      /** Whether `trySetStatus` would succeed for the status the hazard inflicts. */
    statusAccepted: bool,
      /** A BlockNonDirectDamageAbAttr ability cancels hazard damage. */
    blocksIndirectDamage: bool,
      /** A ProtectStatAbAttr ability cancels the stat drop. */
    protectsStats: bool,
      /** The effectiveness of a Rock attack on the entrant. */
    rockEffectiveness: real)

  datatype TrapOutcome = TrapOutcome(applied: bool, events: seq<ArenaEvent>, tag: ArenaTagState)

  /** Spikes damage: the ceiling of maxHp / (10 − 2·layers). */
  function SpikesDamage(maxHp: int, layers: int): int
    requires layers < 5
  {
    CeilDiv(maxHp, 10 - 2 * layers)
  }

  /** The least integer not below `x`. */
  function RealCeil(x: real): (r: int)
    ensures (r - 1) as real < x <= r as real
  {
    if x == x.Floor as real then x.Floor else x.Floor + 1
  }

  /** The share of maximum HP Stealth Rock takes, by Rock effectiveness; undefined off the table. */
  function StealthRockRatio(effectiveness: real): Option<real> {
    if effectiveness == 0.0 then Some(0.0)
    else if effectiveness == 0.25 then Some(0.03125)
    else if effectiveness == 0.5 then Some(0.0625)
    else if effectiveness == 1.0 then Some(0.125)
    else if effectiveness == 2.0 then Some(0.25)
    else if effectiveness == 4.0 then Some(0.5)
    else None
  }

  /** The denominator of the Stealth Rock share: 1/8 at neutral, doubling with each doubling of effectiveness. */
  function StealthRockDivisor(effectiveness: real): Option<int> {
    if effectiveness == 0.25 then Some(32)
    else if effectiveness == 0.5 then Some(16)
    else if effectiveness == 1.0 then Some(8)
    else if effectiveness == 2.0 then Some(4)
    else if effectiveness == 4.0 then Some(2)
    else None
  }

  function StealthRockDamage(maxHp: int, effectiveness: real): Option<int> {
    var ratio := StealthRockRatio(effectiveness);
    if ratio.Some? && ratio.value != 0.0 then Some(RealCeil(maxHp as real * ratio.value)) else None
  }

  /** The base hook `apply` runs once the source and side checks pass. */
  function ActivateTrap(t: ArenaTagState, e: Entrant): TrapOutcome
    requires TrapInvariant(t) && IsTrap(t.extra)
  {
    match t.tagType
    case SPIKES =>
      if e.isGrounded && !e.blocksIndirectDamage then
        TrapOutcome(true, [TrapDamage(e.battlerIndex, SpikesDamage(e.maxHp, t.extra.layers))], t)
      else TrapOutcome(false, [], t)
    case TOXIC_SPIKES =>
      if !e.isGrounded then TrapOutcome(false, [], t)
      else if K.POISON in e.types then
        TrapOutcome(true, [TagRemoved(TOXIC_SPIKES)], t.(extra := t.extra.(neutralized := true)))
      else if !e.hasStatus && e.statusAccepted then
        TrapOutcome(true, [StatusInflicted(e.battlerIndex, if t.extra.layers > 1 then SE.TOXIC else SE.POISON)], t)
      else TrapOutcome(false, [], t)
    case STEALTH_ROCK =>
      if e.blocksIndirectDamage then TrapOutcome(false, [], t)
      else
        var damage := StealthRockDamage(e.maxHp, e.rockEffectiveness);
        TrapOutcome(false, if damage.Some? then [TrapDamage(e.battlerIndex, damage.value)] else [], t)
    case STICKY_WEB =>
      if e.isGrounded && !e.protectsStats then
        TrapOutcome(false, [StatChange(e.battlerIndex, [BS.SPD], -1)], t)
      else TrapOutcome(false, [], t)
    case _ => TrapOutcome(false, [], t)
  }

  /** Whether the entrant is on the side the hazard is laid on and is not the one who laid it. */
  predicate TrapTargets(t: ArenaTagState, e: Entrant) {
    t.sourceId != Some(e.id) && (t.side == PLAYER) == e.isPlayer
  }

  /** A hazard's `apply` on an entrant. */
  function TrapApply(t: ArenaTagState, e: Entrant): TrapOutcome
    requires TrapInvariant(t) && IsTrap(t.extra)
  {
    if !TrapTargets(t, e) then TrapOutcome(false, [], t) else ActivateTrap(t, e)
  }

  /**
   * Every hazard leaves its source and the other side untouched, keeps the
   * layer invariant, and changes nothing but Toxic Spikes' neutralized flag.
   */
  lemma TrapApplyFrame(t: ArenaTagState, e: Entrant)
    requires TrapInvariant(t) && IsTrap(t.extra)
    ensures !TrapTargets(t, e) ==> TrapApply(t, e) == TrapOutcome(false, [], t)
    ensures TrapInvariant(TrapApply(t, e).tag)
    ensures TrapApply(t, e).tag == t || (t.tagType == TOXIC_SPIKES && TrapApply(t, e).tag == t.(extra := t.extra.(neutralized := true)))
  {
  }

  /**
   * Spikes hit a grounded entrant without an ability that blocks indirect
   * damage for 1/8, 1/6 or 1/4 of its maximum HP, rounded up, at one, two or
   * three layers, and report success; any other entrant is untouched and the
   * hook reports failure.
   */
  lemma SpikesRule(t: ArenaTagState, e: Entrant)
    requires TrapInvariant(t) && t.tagType == SPIKES && IsTrap(t.extra) && TrapTargets(t, e)
    ensures var r := TrapApply(t, e);
      && (r.applied <==> e.isGrounded && !e.blocksIndirectDamage)
      && (r.applied ==> r.events == [TrapDamage(e.battlerIndex, SpikesDamage(e.maxHp, t.extra.layers))])
      && (!r.applied ==> r.events == [])
    ensures t.extra.layers == 1 ==> SpikesDamage(e.maxHp, 1) == CeilDiv(e.maxHp, 8)
    ensures t.extra.layers == 2 ==> SpikesDamage(e.maxHp, 2) == CeilDiv(e.maxHp, 6)
    ensures t.extra.layers == 3 ==> SpikesDamage(e.maxHp, 3) == CeilDiv(e.maxHp, 4)
    ensures e.maxHp > 0 ==> SpikesDamage(e.maxHp, t.extra.layers) >= 1
  {
  }

  /** More layers of Spikes never hurt less. */
  lemma SpikesMonotone(maxHp: int, l1: int, l2: int)
    requires 0 <= maxHp && 1 <= l1 <= l2 <= 3
    ensures SpikesDamage(maxHp, l1) <= SpikesDamage(maxHp, l2)
  {
    var d1, d2 := 10 - 2 * l1, 10 - 2 * l2;
    var c1, c2 := SpikesDamage(maxHp, l1), SpikesDamage(maxHp, l2);
    // d2 * (c1 - 1) <= d1 * (c1 - 1) < maxHp <= d2 * c2
    if c1 >= 1 {
      assert d2 * (c1 - 1) <= d1 * (c1 - 1);
    }
    MulCancelLess(d2, c1 - 1, c2);
  }

  /** Ceiling division is the only integer between a/b and a/b + 1 from above. */
  lemma CeilUnique(a: int, b: int, r: int)
    requires b > 0 && b * (r - 1) < a <= b * r
    ensures r == CeilDiv(a, b)
  {
    var c := CeilDiv(a, b);
    MulCancelLess(b, r - 1, c);
    MulCancelLess(b, c - 1, r);
  }

  /**
   * The Stealth Rock shares are halvings of 1/2: damage is maxHp over the
   * divisor, rounded up; it is undefined exactly where the table has no
   * entry or gives zero.
   */
  lemma StealthRockTable(maxHp: int, effectiveness: real)
    ensures StealthRockDamage(maxHp, effectiveness).Some? <==> StealthRockDivisor(effectiveness).Some?
    ensures StealthRockDivisor(effectiveness).Some? ==>
      StealthRockDamage(maxHp, effectiveness).value == CeilDiv(maxHp, StealthRockDivisor(effectiveness).value)
    ensures StealthRockRatio(effectiveness).Some? <==> effectiveness in {0.0, 0.25, 0.5, 1.0, 2.0, 4.0}
  {
    var d := StealthRockDivisor(effectiveness);
    if d.Some? {
      var k := d.value;
      var ratio := StealthRockRatio(effectiveness).value;
      assert ratio * (k as real) == 1.0;
      var r := RealCeil(maxHp as real * ratio);
      assert (r - 1) as real < maxHp as real * ratio <= r as real;
      ScaleReal(maxHp, ratio, k, r);
      CeilUnique(maxHp, k, r);
    }
  }

  /** Multiplying the ceiling bounds through by the divisor. */
  lemma ScaleReal(m: int, ratio: real, k: int, r: int)
    requires k > 0 && ratio * (k as real) == 1.0
    requires (r - 1) as real < m as real * ratio <= r as real
    ensures k * (r - 1) < m <= k * r
  {
    var kr := k as real;
    assert ((r - 1) as real) * kr < (m as real * ratio) * kr;
    assert (m as real * ratio) * kr == m as real * (ratio * kr);
    assert (m as real * ratio) * kr <= (r as real) * kr;
  }

  /**
   * Stealth Rock never counts as applied; it hurts any entrant without an
   * ability that blocks indirect damage, grounded or not, by the table's
   * share rounded up, and no one where the share is zero or undefined.
   */
  lemma StealthRockRule(t: ArenaTagState, e: Entrant)
    requires TrapInvariant(t) && t.tagType == STEALTH_ROCK && IsTrap(t.extra) && TrapTargets(t, e)
    ensures var r := TrapApply(t, e);
      && !r.applied
      && (e.blocksIndirectDamage || StealthRockDivisor(e.rockEffectiveness).None? ==> r.events == [])
      && (!e.blocksIndirectDamage && StealthRockDivisor(e.rockEffectiveness).Some? ==>
            r.events == [TrapDamage(e.battlerIndex, CeilDiv(e.maxHp, StealthRockDivisor(e.rockEffectiveness).value))])
  {
    StealthRockTable(e.maxHp, e.rockEffectiveness);
  }

  /**
   * Toxic Spikes: a grounded Poison-type absorbs them (the tag is removed and
   * marked neutralized); a grounded entrant without a status is poisoned at
   * one layer and badly poisoned at two, when the status takes; otherwise
   * nothing happens.
   */
  lemma ToxicSpikesRule(t: ArenaTagState, e: Entrant)
    requires TrapInvariant(t) && t.tagType == TOXIC_SPIKES && t.extra.ToxicTrap? && TrapTargets(t, e)
    ensures var r := TrapApply(t, e);
      && (e.isGrounded && K.POISON in e.types ==>
            r.applied && r.events == [TagRemoved(TOXIC_SPIKES)] && r.tag.extra.neutralized)
      && (e.isGrounded && K.POISON !in e.types && !e.hasStatus && e.statusAccepted ==>
            r.applied && r.events == [StatusInflicted(e.battlerIndex, if t.extra.layers == 1 then SE.POISON else SE.TOXIC)])
      && (r.applied <==> e.isGrounded && (K.POISON in e.types || (!e.hasStatus && e.statusAccepted)))
      && (!r.applied ==> r.events == [] && r.tag == t)
  {
  }

  /** Sticky Web never counts as applied and lowers a grounded, unprotected entrant's speed by one stage. */
  lemma StickyWebRule(t: ArenaTagState, e: Entrant)
    requires TrapInvariant(t) && t.tagType == STICKY_WEB && IsTrap(t.extra) && TrapTargets(t, e)
    ensures var r := TrapApply(t, e);
      && !r.applied
      && (r.events != [] <==> e.isGrounded && !e.protectsStats)
      && (r.events != [] ==> r.events == [StatChange(e.battlerIndex, [BS.SPD], -1)])
  {
  }

  // ---------------------------------------------------------------- add / remove

  /** Wish's half-HP heal, at least one. */
  function WishHealHp(maxHp: int): (r: int)
    ensures r >= 1
    ensures maxHp >= 2 ==> 2 * r <= maxHp < 2 * r + 2
  {
    var h := maxHp / 2;
    if h > 1 then h else 1
  }

  /** onAdd: Wish captures its user's slot and heal; every other tag is unchanged. */
  function OnAddStep(t: ArenaTagState, userIndex: int, userMaxHp: int): ArenaTagState {
    if t.extra.WishData? then t.(extra := WishData(Some(userIndex), Some(WishHealHp(userMaxHp)))) else t
  }

  /**
   * onRemove: Wish heals whoever is active in the captured slot (`field`
   * holds, per slot, whether a combatant is there and active); a delayed
   * attack and a neutralized Toxic Spikes end silently; other tags announce
   * that their effect ended.
   */
  function RemoveEvents(t: ArenaTagState, field: seq<Option<bool>>): seq<ArenaEvent> {
    match t.extra
    case WishData(slot, heal) =>
      if slot.Some? && heal.Some? && 0 <= slot.value < |field| && field[slot.value] == Some(true)
      then [WishHeal(slot.value, heal.value)]
      else []
    case Delayed(_) => []
    case ToxicTrap(_, _, neutralized) => if neutralized then [] else [EffectEnded]
    case _ => [EffectEnded]
  }

  /**
   * A Wish made by the factory and added by a user in slot i heals slot i by
   * max(⌊maxHp/2⌋, 1) on removal if a combatant is active there, and heals no
   * one otherwise, whoever is in the other slots.
   */
  lemma WishRule(turnCount: int, sourceId: int, side: ArenaTagSide, i: int, maxHp: int, field: seq<Option<bool>>)
    ensures var t := OnAddStep(GetArenaTag(WISH, turnCount, K.NONE_MOVE, sourceId, None, side).value, i, maxHp);
      && t.extra == WishData(Some(i), Some(if maxHp / 2 > 1 then maxHp / 2 else 1))
      && (0 <= i < |field| && field[i] == Some(true) ==> RemoveEvents(t, field) == [WishHeal(i, WishHealHp(maxHp))])
      && (!(0 <= i < |field| && field[i] == Some(true)) ==> RemoveEvents(t, field) == [])
  {
  }

  /** A Wish whose add hook never ran heals no one. */
  lemma WishWithoutAdd(turnCount: int, sourceId: int, side: ArenaTagSide, field: seq<Option<bool>>)
    ensures RemoveEvents(GetArenaTag(WISH, turnCount, K.NONE_MOVE, sourceId, None, side).value, field) == []
  {
  }

  // ---------------------------------------------------------------- the object

  /** An arena tag on the field. */
  class ArenaTag {
    var tagType: ArenaTagType
    var turnCount: int
    var sourceMove: K.Move
    var sourceId: Option<int>
    var side: ArenaTagSide
    var extra: ArenaExtra

    function State(): ArenaTagState
      reads this
    {
      ArenaTagState(tagType, turnCount, sourceMove, sourceId, side, extra)
    }

    predicate Valid()
      reads this
    {
      TrapInvariant(State())
    }

    constructor (s: ArenaTagState)
      requires TrapInvariant(s)
      ensures State() == s && Valid()
    {
      tagType, turnCount, sourceMove, sourceId, side, extra := s.tagType, s.turnCount, s.sourceMove, s.sourceId, s.side, s.extra;
    }

    /** Counts the tag down; returns whether it stays and the phases it queues. */
    method Lapse() returns (keep: bool, events: seq<ArenaEvent>)
      modifies this
      ensures var r := TagLapse(old(State()));
        keep == r.keep && events == r.events && State() == old(State()).(turnCount := r.turnCount)
      ensures old(Valid()) ==> Valid()
    {
      var r := TagLapse(State());
      turnCount := r.turnCount;
      keep, events := r.keep, r.events;
    }

    /** The same tag type was added again: a hazard gains a layer up to its cap. */
    method OnOverlap()
      modifies this
      ensures State() == OverlapStep(old(State()))
      ensures old(Valid()) ==> Valid()
    {
      if IsTrap(extra) && extra.layers < extra.maxLayers {
        extra := extra.(layers := extra.layers + 1);
      }
      assert old(Valid()) ==> Valid() by {
        if old(Valid()) { OverlapKeepsLayers(old(State())); }
      }
    }

    /** The tag was added; `userIndex` and `userMaxHp` describe the combatant with the tag's source id. */
    method OnAdd(userIndex: int, userMaxHp: int)
      modifies this
      ensures State() == OnAddStep(old(State()), userIndex, userMaxHp)
      ensures old(Valid()) ==> Valid()
    {
      if extra.WishData? {
        extra := WishData(Some(userIndex), Some(WishHealHp(userMaxHp)));
      }
    }

    method OnRemove(field: seq<Option<bool>>) returns (events: seq<ArenaEvent>)
      ensures events == RemoveEvents(State(), field)
    {
      events := RemoveEvents(State(), field);
    }

    /** Mist's and Trick Room's hook on a boolean holder. */
    method ApplyFlag(h: BooleanHolder) returns (applied: bool)
      requires tagType == MIST || tagType == TRICK_ROOM
      modifies h
      ensures (applied, h.value) == FlagApply(tagType, old(h.value))
    {
      if tagType == MIST {
        h.value := true;
      } else {
        h.value := !h.value;
      }
      applied := true;
    }

    /** A screen's hook; `h` receives the damage multiplier. */
    method ApplyScreen(category: K.MoveCategory, doubleBattle: bool, h: NumberHolder) returns (applied: bool)
      requires IsScreen(tagType)
      modifies h
      ensures (applied, h.value) == ScreenApply(tagType, category, doubleBattle, old(h.value))
    {
      applied := ScreenMatches(tagType, category);
      if applied {
        h.value := ScreenMultiplier(doubleBattle);
      }
    }

    /** A sport's hook; `h` holds the move's power. */
    method ApplyWeakenType(moveType: K.PokemonType, h: NumberHolder) returns (applied: bool)
      requires extra.WeakenType?
      modifies h
      ensures (applied, h.value) == WeakenTypeApply(extra.weakenedType, moveType, old(h.value))
    {
      applied := moveType == extra.weakenedType;
      if applied {
        h.value := h.value * 0.33;
      }
    }

    /** A hazard's hook on a combatant entering the field. */
    method ApplyTrap(e: Entrant) returns (applied: bool, events: seq<ArenaEvent>)
      requires Valid() && IsTrap(extra)
      modifies this
      ensures var r := TrapApply(old(State()), e);
        applied == r.applied && events == r.events && State() == r.tag
      ensures Valid()
    {
      TrapApplyFrame(State(), e);
      var r := TrapApply(State(), e);
      extra := r.tag.extra;
      applied, events := r.applied, r.events;
    }
  }

  /** `getArenaTag` as an allocation: a fresh object for every type the switch names. */
  method NewArenaTag(tt: ArenaTagType, turnCount: int, sourceMove: K.Move, sourceId: int,
                     targetIndex: Option<int>, side: ArenaTagSide) returns (tag: Option<ArenaTag>)
    ensures var s := GetArenaTag(tt, turnCount, sourceMove, sourceId, targetIndex, side);
      tag.Some? == s.Some? && (tag.Some? ==> fresh(tag.value) && tag.value.State() == s.value && tag.value.Valid())
  {
    var s := GetArenaTag(tt, turnCount, sourceMove, sourceId, targetIndex, side);
    if s.Some? {
      FactoryShape(tt, turnCount, sourceMove, sourceId, targetIndex, side);
      var t := new ArenaTag(s.value);
      tag := Some(t);
    } else {
      tag := None;
    }
  }
}
