/**
 * Eggs (src/data/egg.ts): the tier an egg id encodes, the Manaphy egg rule,
 * the egg's key, the default hatch waves of a tier and the descriptive texts.
 */
module Eggs {
  import opened Decimal

  /** Egg ids carry their tier in the bits above bit 30. */
  const EGG_SEED: int := 1073741824

  /** Egg tiers by number (src/data/enums/egg-type.ts): COMMON 0, GREAT 1, ULTRA 2, MASTER 3. */
  const COMMON: int := 0
  const GREAT: int := 1
  const ULTRA: int := 2
  const MASTER: int := 3

  datatype GachaType = MOVE | LEGENDARY | SHINY

  /** An egg; `tier` is derived from `id` once, when the egg is made, and never changes. */
  datatype Egg = Egg(id: int, tier: int, gachaType: GachaType, hatchWaves: int, timestamp: int)

  /** Powers of two, to state the seed as 2^30. */
  function Pow2(k: nat): (r: nat)
    ensures r >= 1
  {
    if k == 0 then 1 else 2 * Pow2(k - 1)
  }

  lemma EggSeedIsPowerOfTwo()
    ensures EGG_SEED == Pow2(30)
  {
    assert Pow2(10) == 1024;
    assert Pow2(20) == 1024 * Pow2(10) by { Pow2Add(10, 10); }
    assert Pow2(30) == 1024 * Pow2(20) by { Pow2Add(10, 20); }
  }

  lemma {:induction false} Pow2Add(a: nat, b: nat)
    ensures Pow2(a + b) == Pow2(a) * Pow2(b)
  {
    if a > 0 { Pow2Add(a - 1, b); }
  }

  /** The egg made from an id: its tier is the id divided by EGG_SEED, rounded down. */
  function NewEgg(id: int, gachaType: GachaType, hatchWaves: int, timestamp: int): (e: Egg)
    ensures e.id == id && e.gachaType == gachaType && e.hatchWaves == hatchWaves && e.timestamp == timestamp
    ensures e.tier * EGG_SEED <= id < (e.tier + 1) * EGG_SEED
  {
    Egg(id, id / EGG_SEED, gachaType, hatchWaves, timestamp)
  }

  /** A common egg whose id is a multiple of 255. */
  predicate IsManaphyEgg(e: Egg) {
    e.tier == COMMON && e.id % 255 == 0
  }

  /**
   * For an egg made by NewEgg, being a Manaphy egg means the id is one of the
   * multiples of 255 in [0, 2^30); a common egg's id is never negative, so
   * the remainder agrees with the source's truncating `%`.
   */
  lemma ManaphyIds(id: int, g: GachaType, w: int, t: int)
    ensures IsManaphyEgg(NewEgg(id, g, w, t)) <==> 0 <= id < EGG_SEED && exists k :: 0 <= k && id == 255 * k
  {
    var e := NewEgg(id, g, w, t);
    if 0 <= id < EGG_SEED && id % 255 == 0 {
      assert id == 255 * (id / 255);
    }
    if 0 <= id && exists k :: 0 <= k && id == 255 * k {
      var k :| 0 <= k && id == 255 * k;
      assert id % 255 == 0;
    }
  }

  /** The egg's key: 'manaphy' for a Manaphy egg, else its tier in decimal. */
  function GetKey(e: Egg): string {
    if IsManaphyEgg(e) then "manaphy" else IntToString(e.tier)
  }

  /** The key names the Manaphy egg distinctly; for every other egg it reads back as the tier. */
  lemma GetKeyReadsBack(e: Egg)
    ensures GetKey(e) == "manaphy" <==> IsManaphyEgg(e)
    ensures !IsManaphyEgg(e) ==> ParseInt(GetKey(e)) == e.tier
  {
    IntToStringRoundTrip(e.tier);
    if !IsManaphyEgg(e) {
      var s := IntToString(e.tier);
      if e.tier < 0 {
        NatToStringRoundTrip(-e.tier);
        assert s[0] == '-';
      } else {
        NatToStringRoundTrip(e.tier);
        assert '0' <= s[0] <= '9';
      }
      assert s[0] != 'm';
    }
  }

  /** Hatch waves of a fresh egg of a tier: 10, 25, 50, and 100 for any other tier. */
  function DefaultHatchWaves(tier: int): int {
    if tier == COMMON then 10
    else if tier == GREAT then 25
    else if tier == ULTRA then 50
    else 100
  }

  /** Among non-negative tiers, a higher tier never hatches sooner. */
  lemma DefaultHatchWavesMonotone(t1: int, t2: int)
    requires 0 <= t1 <= t2
    ensures DefaultHatchWaves(t1) <= DefaultHatchWaves(t2)
    ensures DefaultHatchWaves(t1) in {10, 25, 50, 100}
  {
  }

  function EggDescriptor(e: Egg): string {
    if IsManaphyEgg(e) then "Manaphy"
    else if e.tier == GREAT then "稀有"
    else if e.tier == ULTRA then "史诗"
    else if e.tier == MASTER then "传说"
    else "普通"
  }

  /**
   * The Manaphy check comes first: a Manaphy egg is never described as common
   * although its tier is COMMON, and any tier outside GREAT..MASTER reads as
   * common.
   */
  lemma EggDescriptorOrder(e: Egg)
    ensures EggDescriptor(e) == "Manaphy" <==> IsManaphyEgg(e)
    ensures e.tier == COMMON && !IsManaphyEgg(e) ==> EggDescriptor(e) == "普通"
    ensures !(GREAT <= e.tier <= MASTER) && !IsManaphyEgg(e) ==> EggDescriptor(e) == "普通"
  {
    if !IsManaphyEgg(e) {
      assert EggDescriptor(e)[0] != 'M';
    }
  }

  /** How close to hatching an egg sounds. */
  datatype HatchBracket = VerySoon | Soon | Far | VeryFar

  function HatchBracketOf(hatchWaves: int): HatchBracket {
    if hatchWaves <= 5 then VerySoon
    else if hatchWaves <= 15 then Soon
    else if hatchWaves <= 50 then Far
    else VeryFar
  }

  function HatchWavesMessage(hatchWaves: int): string {
    if hatchWaves <= 5 then "可以听到里面传来的声音！很快就会孵化！"
    else if hatchWaves <= 15 then "它似乎偶尔会动。可能快要孵化了。"
    else if hatchWaves <= 50 then "会从里面孵出什么？它看起来离孵化还很远。"
    else "看起来这颗蛋需要很长时间才能孵化。"
  }

  /** Two wave counts get the same message exactly when they fall in the same bracket (≤5, 6–15, 16–50, >50). */
  lemma HatchWavesMessageBrackets(w1: int, w2: int)
    ensures HatchWavesMessage(w1) == HatchWavesMessage(w2) <==> HatchBracketOf(w1) == HatchBracketOf(w2)
  {
    var m1, m2 := HatchWavesMessage(w1), HatchWavesMessage(w2);
    if HatchBracketOf(w1) != HatchBracketOf(w2) {
      assert |m1| != |m2|;
    }
  }

  /** A fresh egg's message: common eggs sound close, great and ultra ones far, master ones very far. */
  lemma DefaultHatchMessage(tier: int)
    ensures HatchBracketOf(DefaultHatchWaves(tier)) ==
      (if tier == COMMON then Soon else if tier == GREAT || tier == ULTRA then Far else VeryFar)
  {
  }

  /** The gacha text; `legendaryName` stands for the species name of the week's featured legendary. */
  function GachaTypeDescriptor(g: GachaType, legendaryName: string): string {
    match g
    case LEGENDARY => "传说宝可梦概率提升（" + legendaryName + "）"
    case MOVE => "稀有招式概率提升"
    case SHINY => "闪光宝可梦概率提升"
  }

  /** Only the legendary text names a species, and it shows the name between the brackets. */
  lemma GachaTypeDescriptorNames(g: GachaType, name: string)
    ensures var d := GachaTypeDescriptor(g, name);
      g == LEGENDARY ==> d[10..|d| - 1] == name
    ensures g != LEGENDARY ==> GachaTypeDescriptor(g, name) == GachaTypeDescriptor(g, "")
  {
    if g == LEGENDARY {
      var d := GachaTypeDescriptor(g, name);
      assert d == "传说宝可梦概率提升（" + name + "）";
      assert |"传说宝可梦概率提升（"| == 10;
      assert d[10..|d| - 1] == name;
    }
  }
}
