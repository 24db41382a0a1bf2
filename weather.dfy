/**
 * Field-wide weather (src/data/weather.ts): the `Weather` object with its
 * countdown, the rule tables on weather types, the ability-driven
 * suppression check over the field, and the biome-weighted random weather.
 */
module Weathers {
  import opened Wrappers
  import opened Kinds

  datatype WeatherType =
    | NONE | SUNNY | RAIN | SANDSTORM | HAIL | SNOW | FOG | HEAVY_RAIN | HARSH_SUN | STRONG_WINDS

  /** The three extreme weathers, which never count down. */
  predicate IsImmutable(t: WeatherType) {
    t == HEAVY_RAIN || t == HARSH_SUN || t == STRONG_WINDS
  }

  /** The weathers that hurt combatants at the end of the turn. */
  predicate IsDamaging(t: WeatherType) {
    t == SANDSTORM || t == HAIL
  }

  /** Whether a type is spared the end-of-turn damage of the weather. */
  predicate IsTypeDamageImmune(t: WeatherType, ty: PokemonType) {
    match t
    case SANDSTORM => ty == GROUND || ty == ROCK || ty == STEEL
    case HAIL => ty == ICE
    case _ => false
  }

  /** The damage multiplier the weather applies to attacks of a type. */
  function AttackTypeMultiplier(t: WeatherType, attackType: PokemonType): real {
    match t
    case SUNNY | HARSH_SUN =>
      if attackType == FIRE then 1.5 else if attackType == WATER then 0.5 else 1.0
    case RAIN | HEAVY_RAIN =>
      if attackType == FIRE then 0.5 else if attackType == WATER then 1.5 else 1.0
    case _ => 1.0
  }

  /** What the cancellation rule needs to know about a move: whether it is an attack, and its type. */
  datatype MoveInfo = MoveInfo(isAttack: bool, moveType: PokemonType)

  /** Whether the weather makes a move fail outright. */
  predicate IsMoveWeatherCancelled(t: WeatherType, move: MoveInfo) {
    match t
    case HARSH_SUN => move.isAttack && move.moveType == WATER
    case HEAVY_RAIN => move.isAttack && move.moveType == FIRE
    case _ => false
  }

  /** Immutable weathers never damage, and a weather spares some type exactly when it is damaging. */
  lemma DamageRules(t: WeatherType)
    ensures IsImmutable(t) ==> !IsDamaging(t)
    ensures IsDamaging(t) <==> exists ty :: IsTypeDamageImmune(t, ty)
  {
    if t == SANDSTORM { assert IsTypeDamageImmune(t, ROCK); }
    if t == HAIL { assert IsTypeDamageImmune(t, ICE); }
  }

  /** Sand spares exactly Ground, Rock and Steel, hail exactly Ice, and other weather no one. */
  lemma TypeDamageImmunity(t: WeatherType, ty: PokemonType)
    ensures IsTypeDamageImmune(t, ty) ==> IsDamaging(t)
    ensures t == SANDSTORM ==> (IsTypeDamageImmune(t, ty) <==> ty in {GROUND, ROCK, STEEL})
    ensures t == HAIL ==> (IsTypeDamageImmune(t, ty) <==> ty == ICE)
  {
  }

  /**
   * Sun and rain are mirror images: what sun does to Fire, rain does to
   * Water and vice versa.  Every multiplier is 1/2, 1 or 3/2, and only Fire
   * and Water attacks are ever changed.
   */
  lemma AttackTypeMultiplierRules(t: WeatherType, ty: PokemonType)
    ensures AttackTypeMultiplier(t, ty) in {0.5, 1.0, 1.5}
    ensures ty != FIRE && ty != WATER ==> AttackTypeMultiplier(t, ty) == 1.0
    ensures !(t in {SUNNY, HARSH_SUN, RAIN, HEAVY_RAIN}) ==> AttackTypeMultiplier(t, ty) == 1.0
    ensures AttackTypeMultiplier(SUNNY, FIRE) == AttackTypeMultiplier(RAIN, WATER) == 1.5
    ensures AttackTypeMultiplier(SUNNY, WATER) == AttackTypeMultiplier(RAIN, FIRE) == 0.5
    ensures AttackTypeMultiplier(HARSH_SUN, ty) == AttackTypeMultiplier(SUNNY, ty)
    ensures AttackTypeMultiplier(HEAVY_RAIN, ty) == AttackTypeMultiplier(RAIN, ty)
  {
  }

  /**
   * Only the two extreme rain and sun weathers cancel moves, only attacks,
   * and exactly the attacks their milder form would halve.
   */
  lemma MoveCancellationRules(t: WeatherType, m: MoveInfo)
    ensures IsMoveWeatherCancelled(t, m) ==> IsImmutable(t) && m.isAttack
    ensures IsMoveWeatherCancelled(t, m) ==> AttackTypeMultiplier(t, m.moveType) == 0.5
    ensures IsMoveWeatherCancelled(t, m) <==>
      m.isAttack && ((t == HARSH_SUN && m.moveType == WATER) || (t == HEAVY_RAIN && m.moveType == FIRE))
  {
  }

  /** The suppress-weather ability attribute; only whether it also reaches extreme weather matters. */
  datatype SuppressAttr = SuppressAttr(affectsImmutable: bool)

  /**
   * A combatant on the field as the suppression check sees it: the first
   * suppress attribute of its ability, whether it has a passive, and the
   * first suppress attribute of its passive ability.
   */
  datatype FieldMember = FieldMember(abilityAttr: Option<SuppressAttr>, hasPassive: bool, passiveAttr: Option<SuppressAttr>)

  /** The attribute the check uses: the ability's, else the passive's when there is a passive. */
  function EffectiveAttr(m: FieldMember): Option<SuppressAttr> {
    if m.abilityAttr.Some? then m.abilityAttr
    else if m.hasPassive then m.passiveAttr
    else None
  }

  /** Whether this combatant suppresses a weather of the given mutability. */
  predicate Suppresses(m: FieldMember, immutable: bool) {
    var a := EffectiveAttr(m);
    a.Some? && (!immutable || a.value.affectsImmutable)
  }

  /** A mutable weather is suppressed by any combatant with the attribute on its ability or (if it has one) its passive. */
  lemma SuppressesMutable(m: FieldMember)
    ensures Suppresses(m, false) <==> m.abilityAttr.Some? || (m.hasPassive && m.passiveAttr.Some?)
  {
  }

  /**
   * The ability's attribute shadows the passive's: a combatant whose ability
   * attribute does not reach extreme weather does not suppress it, whatever
   * its passive carries.
   */
  lemma AbilityAttrShadowsPassive(m: FieldMember)
    requires m.abilityAttr == Some(SuppressAttr(false))
    ensures !Suppresses(m, true)
  {
  }

  /** Active weather: its type and remaining turns (0 = no countdown). */
  class Weather {
    var weatherType: WeatherType
    var turnsLeft: int

    /** Immutable weather starts with 0 turns; other weather with the given turns, a missing count reading as 0. */
    constructor (weatherType: WeatherType, turnsLeft: Option<int>)
      ensures this.weatherType == weatherType
      ensures this.turnsLeft == (if IsImmutable(weatherType) then 0 else turnsLeft.GetOr(0))
    {
      this.weatherType := weatherType;
      this.turnsLeft := if !IsImmutable(weatherType) then turnsLeft.GetOr(0) else 0;
    }

    /** One end-of-turn countdown step, as LapseStep describes it; false means the weather ends. */
    method Lapse() returns (r: bool)
      modifies this
      ensures (r, turnsLeft) == LapseStep(old(weatherType), old(turnsLeft))
      ensures weatherType == old(weatherType)
    {
      if IsImmutable(weatherType) {
        return true;
      }
      if turnsLeft != 0 {
        turnsLeft := turnsLeft - 1;
        return turnsLeft != 0;
      }
      return true;
    }

    /** Whether some combatant on the field suppresses this weather's effects. */
    method IsEffectSuppressed(field: seq<FieldMember>) returns (r: bool)
      ensures r <==> exists i :: 0 <= i < |field| && Suppresses(field[i], IsImmutable(weatherType))
    {
      var immutable := IsImmutable(weatherType);
      var i := 0;
      while i < |field|
        invariant 0 <= i <= |field|
        invariant forall j :: 0 <= j < i ==> !Suppresses(field[j], immutable)
      {
        var attr := field[i].abilityAttr;
        if attr.None? {
          attr := if field[i].hasPassive then field[i].passiveAttr else None;
        }
        if attr.Some? && (!immutable || attr.value.affectsImmutable) {
          return true;
        }
        i := i + 1;
      }
      return false;
    }
  }

  /** The result and the new turn count of one lapse of a weather with `n` turns left. */
  function LapseStep(t: WeatherType, n: int): (bool, int) {
    if IsImmutable(t) then (true, n)
    else if n != 0 then (n - 1 != 0, n - 1)
    else (true, n)
  }

  /** The results of `k` successive lapses, starting from `n` turns left. */
  function LapseRun(t: WeatherType, n: int, k: nat): seq<bool>
    decreases k
  {
    if k == 0 then []
    else var (ok, n') := LapseStep(t, n); [ok] + LapseRun(t, n', k - 1)
  }

  /** Turns left after `k` successive lapses. */
  function TurnsAfter(t: WeatherType, n: int, k: nat): int
    decreases k
  {
    if k == 0 then n else TurnsAfter(t, LapseStep(t, n).1, k - 1)
  }

  /**
   * A mutable weather set for `n >= 1` turns reports survival on its first
   * n-1 lapses and expiry on the n-th, when it has 0 turns left.
   */
  lemma {:induction false} LapseCountdown(t: WeatherType, n: nat, k: nat)
    requires !IsImmutable(t) && 1 <= n && k <= n
    ensures |LapseRun(t, n, k)| == k
    ensures forall j :: 0 <= j < k ==> (LapseRun(t, n, k)[j] <==> j < n - 1)
    ensures TurnsAfter(t, n, k) == n - k
  {
    if k > 0 {
      if n - 1 == 0 {
        assert k == 1;
      } else {
        LapseCountdown(t, n - 1, k - 1);
        var rest := LapseRun(t, n - 1, k - 1);
        assert LapseRun(t, n, k) == [n - 1 != 0] + rest;
        forall j | 0 <= j < k ensures (LapseRun(t, n, k)[j] <==> j < n - 1) {
          if j > 0 { assert LapseRun(t, n, k)[j] == rest[j - 1]; }
        }
      }
    }
  }

  /** A weather with no countdown (0 turns) or an immutable one survives every lapse and keeps its turn count. */
  lemma {:induction false} LapsePersistent(t: WeatherType, n: int, k: nat)
    requires IsImmutable(t) || n == 0
    ensures forall j :: 0 <= j < |LapseRun(t, n, k)| ==> LapseRun(t, n, k)[j]
    ensures |LapseRun(t, n, k)| == k && TurnsAfter(t, n, k) == n
  {
    if k > 0 {
      LapsePersistent(t, n, k - 1);
      assert LapseRun(t, n, k) == [true] + LapseRun(t, n, k - 1);
    }
  }

  // ------------------------------------------------------------------
  // Random weather for a biome
  // ------------------------------------------------------------------

  /** Biomes the weather table names; `OtherBiome` stands for every other biome. */
  datatype Biome =
    | GRASS_BIOME | TALL_GRASS | FOREST | SEA | SWAMP | BEACH | LAKE | SEABED | BADLANDS | DESERT
    | ICE_CAVE | MEADOW | VOLCANO | GRAVEYARD | JUNGLE | SNOWY_FOREST | ISLAND | OtherBiome(ordinal: nat)

  datatype PoolEntry = PoolEntry(weatherType: WeatherType, weight: int)

  /** There is sun in the first two parts of the day. */
  predicate HasSun(timeOfDay: int) {
    timeOfDay < 2
  }

  /** `pool` followed by `extra` when the condition holds. */
  function PushIf(pool: seq<PoolEntry>, cond: bool, extra: PoolEntry): seq<PoolEntry> {
    if cond then pool + [extra] else pool
  }

  /**
   * The weather pool of a biome as the table is written: the MEADOW case has
   * no `break`, so its pool is overwritten by the VOLCANO case that follows.
   */
  function WeatherPoolAsWritten(biome: Biome, hasSun: bool): seq<PoolEntry> {
    match biome
    case MEADOW => VolcanoPool(hasSun)
    case _ => WeatherPool(biome, hasSun)
  }

  function VolcanoPool(hasSun: bool): seq<PoolEntry> {
    [PoolEntry(if hasSun then SUNNY else NONE, 1)]
  }

  /** The weather pool of a biome with MEADOW keeping its own weights. */
  function WeatherPool(biome: Biome, hasSun: bool): seq<PoolEntry> {
    match biome
    case GRASS_BIOME => PushIf([PoolEntry(NONE, 7)], hasSun, PoolEntry(SUNNY, 3))
    case TALL_GRASS => PushIf([PoolEntry(NONE, 8), PoolEntry(RAIN, 5)], hasSun, PoolEntry(SUNNY, 8))
    case FOREST => [PoolEntry(NONE, 8), PoolEntry(RAIN, 5)]
    case SEA => [PoolEntry(NONE, 3), PoolEntry(RAIN, 12)]
    case SWAMP => [PoolEntry(NONE, 3), PoolEntry(RAIN, 4), PoolEntry(FOG, 1)]
    case BEACH => PushIf([PoolEntry(NONE, 8), PoolEntry(RAIN, 3)], hasSun, PoolEntry(SUNNY, 5))
    case LAKE => [PoolEntry(NONE, 10), PoolEntry(RAIN, 5), PoolEntry(FOG, 1)]
    case SEABED => [PoolEntry(RAIN, 1)]
    case BADLANDS => PushIf([PoolEntry(NONE, 8), PoolEntry(SANDSTORM, 2)], hasSun, PoolEntry(SUNNY, 5))
    case DESERT => PushIf([PoolEntry(SANDSTORM, 2)], hasSun, PoolEntry(SUNNY, 2))
    case ICE_CAVE => [PoolEntry(NONE, 3), PoolEntry(SNOW, 4), PoolEntry(HAIL, 1)]
    case MEADOW => PushIf([PoolEntry(NONE, 2)], hasSun, PoolEntry(SUNNY, 2))
    case VOLCANO => VolcanoPool(hasSun)
    case GRAVEYARD => [PoolEntry(NONE, 3), PoolEntry(FOG, 1)]
    case JUNGLE => [PoolEntry(NONE, 8), PoolEntry(RAIN, 2)]
    case SNOWY_FOREST => [PoolEntry(SNOW, 7), PoolEntry(HAIL, 1)]
    case ISLAND => PushIf([PoolEntry(NONE, 5), PoolEntry(RAIN, 1)], hasSun, PoolEntry(SUNNY, 2))
    case OtherBiome(_) => []
  }

  /** Every pool entry has a positive weight. */
  predicate PositiveWeights(pool: seq<PoolEntry>) {
    forall i :: 0 <= i < |pool| ==> pool[i].weight > 0
  }

  /** Sum of the weights of the pool. */
  function TotalWeight(pool: seq<PoolEntry>): int {
    if pool == [] then 0 else pool[0].weight + TotalWeight(pool[1..])
  }

  /** The first entry whose running weight, counted from the start of `pool`, exceeds `rand`. */
  function FirstExceeding(pool: seq<PoolEntry>, rand: int): Option<WeatherType> {
    if pool == [] then None
    else if rand < pool[0].weight then Some(pool[0].weatherType)
    else FirstExceeding(pool[1..], rand - pool[0].weight)
  }

  /**
   * The weather chosen from a pool and the draw: with more than one entry the
   * first entry whose running weight exceeds the draw; if there is none, or
   * the pool has a single entry, its first entry; NONE for an empty pool.
   */
  function ChooseWeather(pool: seq<PoolEntry>, rand: int): WeatherType {
    if |pool| > 1 && FirstExceeding(pool, rand).Some? then FirstExceeding(pool, rand).value
    else if |pool| > 0 then pool[0].weatherType
    else NONE
  }

  /**
   * A random weather for the biome.  `randSeedInt` stands for the seeded
   * generator, asked for a draw below the pool's total weight only when the
   * pool has more than one entry.
   */
  method GetRandomWeatherType(biome: Biome, timeOfDay: int, randSeedInt: int -> int) returns (r: WeatherType)
    ensures var pool := WeatherPool(biome, HasSun(timeOfDay));
      r == ChooseWeather(pool, if |pool| > 1 then randSeedInt(TotalWeight(pool)) else 0)
  {
    var pool := WeatherPool(biome, HasSun(timeOfDay));
    r := DrawWeather(pool, randSeedInt);
  }

  /** The weighted draw over a pool: sums the weights, draws once, and walks the running weight. */
  method DrawWeather(pool: seq<PoolEntry>, randSeedInt: int -> int) returns (r: WeatherType)
    ensures r == ChooseWeather(pool, if |pool| > 1 then randSeedInt(TotalWeight(pool)) else 0)
  {
    if |pool| > 1 {
      var totalWeight := 0;
      var i := 0;
      while i < |pool|
        invariant 0 <= i <= |pool|
        invariant totalWeight + TotalWeight(pool[i..]) == TotalWeight(pool)
      {
        assert pool[i..] == [pool[i]] + pool[i + 1..];
        totalWeight := totalWeight + pool[i].weight;
        i := i + 1;
      }
      assert pool[|pool|..] == [];
      var rand := randSeedInt(totalWeight);
      var w := 0;
      i := 0;
      while i < |pool|
        invariant 0 <= i <= |pool|
        invariant FirstExceeding(pool, rand) == FirstExceeding(pool[i..], rand - w)
      {
        assert pool[i..] == [pool[i]] + pool[i + 1..];
        w := w + pool[i].weight;
        if rand < w {
          return pool[i].weatherType;
        }
        i := i + 1;
      }
      assert pool[|pool|..] == [];
    }
    return if |pool| > 0 then pool[0].weatherType else NONE;
  }

  /** Sum of the weights of the first `k` entries. */
  function Cumulative(pool: seq<PoolEntry>, k: nat): int
    requires k <= |pool|
  {
    TotalWeight(pool[..k])
  }

  lemma {:induction false} CumulativeStep(pool: seq<PoolEntry>, k: nat)
    requires 0 < k <= |pool|
    ensures Cumulative(pool, k) == pool[0].weight + Cumulative(pool[1..], k - 1)
  {
    assert pool[..k] == [pool[0]] + pool[1..][..k - 1];
    assert pool[..k][1..] == pool[1..][..k - 1];
  }

  /**
   * With positive weights, a draw lands on entry `i` exactly when it lies in
   * [Cumulative(i), Cumulative(i+1)): entry i is chosen for `weight` draws.
   */
  lemma {:induction false} FirstExceedingInterval(pool: seq<PoolEntry>, rand: int, i: nat)
    requires PositiveWeights(pool) && i < |pool|
    requires Cumulative(pool, i) <= rand < Cumulative(pool, i + 1)
    ensures FirstExceeding(pool, rand) == Some(pool[i].weatherType)
  {
    CumulativeStep(pool, i + 1);
    if i == 0 {
      assert pool[..0] == [];
      assert Cumulative(pool[1..], 0) == 0 by { assert pool[1..][..0] == []; }
    } else {
      CumulativeStep(pool, i);
      assert PositiveWeights(pool[1..]) by {
        forall j | 0 <= j < |pool[1..]| ensures pool[1..][j].weight > 0 { assert pool[1..][j] == pool[j + 1]; }
      }
      CumulativeNonNegative(pool[1..], i - 1);
      FirstExceedingInterval(pool[1..], rand - pool[0].weight, i - 1);
    }
  }

  lemma {:induction false} CumulativeNonNegative(pool: seq<PoolEntry>, k: nat)
    requires PositiveWeights(pool) && k <= |pool|
    ensures Cumulative(pool, k) >= k
  {
    if k > 0 {
      CumulativeStep(pool, k);
      assert PositiveWeights(pool[1..]) by {
        forall j | 0 <= j < |pool[1..]| ensures pool[1..][j].weight > 0 { assert pool[1..][j] == pool[j + 1]; }
      }
      CumulativeNonNegative(pool[1..], k - 1);
    }
  }

  /** A draw in [0, total) always finds an entry, and it is one of the pool's weathers. */
  lemma {:induction false} FirstExceedingInRange(pool: seq<PoolEntry>, rand: int)
    requires 0 <= rand < TotalWeight(pool)
    ensures FirstExceeding(pool, rand).Some?
    ensures exists i :: 0 <= i < |pool| && FirstExceeding(pool, rand) == Some(pool[i].weatherType)
  {
    if rand < pool[0].weight {
      assert FirstExceeding(pool, rand) == Some(pool[0].weatherType);
    } else {
      FirstExceedingInRange(pool[1..], rand - pool[0].weight);
      var i :| 0 <= i < |pool[1..]| && FirstExceeding(pool[1..], rand - pool[0].weight) == Some(pool[1..][i].weatherType);
      assert pool[1..][i] == pool[i + 1];
    }
  }

  /** Every pool has positive weights and holds only weathers that count down. */
  lemma PoolShape(biome: Biome, hasSun: bool)
    ensures PositiveWeights(WeatherPool(biome, hasSun))
    ensures forall i :: 0 <= i < |WeatherPool(biome, hasSun)| ==> !IsImmutable(WeatherPool(biome, hasSun)[i].weatherType)
    ensures WeatherPool(biome, hasSun) == [] <==> biome.OtherBiome?
  {
  }

  /**
   * As written, MEADOW gets the VOLCANO pool: a single entry, so the draw is
   * never used and the weather is SUNNY in daylight and NONE otherwise.
   */
  lemma MeadowFallsThrough(hasSun: bool, rand: int)
    ensures WeatherPoolAsWritten(MEADOW, hasSun) == WeatherPoolAsWritten(VOLCANO, hasSun)
    ensures ChooseWeather(WeatherPoolAsWritten(MEADOW, hasSun), rand) == (if hasSun then SUNNY else NONE)
  {
  }

  /**
   * With its own weights, a sunny MEADOW gives NONE for draws 0 and 1 and
   * SUNNY for draws 2 and 3, where the table as written gives SUNNY for all
   * four; without sun both give NONE.
   */
  lemma MeadowIntendedPool(rand: int)
    requires 0 <= rand < TotalWeight(WeatherPool(MEADOW, true))
    ensures TotalWeight(WeatherPool(MEADOW, true)) == 4
    ensures ChooseWeather(WeatherPool(MEADOW, true), rand) == (if rand < 2 then NONE else SUNNY)
    ensures ChooseWeather(WeatherPool(MEADOW, false), rand) == NONE
    ensures ChooseWeather(WeatherPoolAsWritten(MEADOW, true), 0) != ChooseWeather(WeatherPool(MEADOW, true), 0)
  {
    var pool := WeatherPool(MEADOW, true);
    assert pool == [PoolEntry(NONE, 2), PoolEntry(SUNNY, 2)];
    assert TotalWeight(pool[1..]) == 2;
    assert FirstExceeding(pool[1..], rand - 2) == Some(SUNNY) || rand < 2;
  }

  /** Every other biome has the same pool under both readings. */
  lemma OnlyMeadowDiffers(biome: Biome, hasSun: bool)
    requires biome != MEADOW
    ensures WeatherPoolAsWritten(biome, hasSun) == WeatherPool(biome, hasSun)
  {
  }
}
