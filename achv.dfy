/**
 * Achievements (src/system/achv.ts): the achievement record, its secrecy
 * flag, its unlock condition, the tier its score earns, the table of all
 * achievements and the start-up pass that writes each one's id and parent.
 */
module Achievements {
  import opened Wrappers
  import opened Decimal

  datatype AchvTier = COMMON | GREAT | ULTRA | ROGUE | MASTER

  function TierRank(t: AchvTier): nat {
    match t case COMMON => 0 case GREAT => 1 case ULTRA => 2 case ROGUE => 3 case MASTER => 4
  }

  /** The tier a score earns. */
  function TierFor(score: int): AchvTier {
    if score >= 100 then MASTER
    else if score >= 75 then ROGUE
    else if score >= 50 then ULTRA
    else if score >= 25 then GREAT
    else COMMON
  }

  /** The tier's lower score bound. */
  function TierFloor(t: AchvTier): int {
    match t case COMMON => 0 case GREAT => 25 case ULTRA => 50 case ROGUE => 75 case MASTER => 100
  }

  /**
   * A score earns the highest tier whose floor it reaches: at least that
   * floor, and below the next floor up.  A higher score never earns a lower
   * tier.
   */
  lemma TierForBounds(score: int, other: int)
    ensures TierFor(score) != COMMON ==> score >= TierFloor(TierFor(score))
    ensures forall t :: TierRank(t) > TierRank(TierFor(score)) ==> score < TierFloor(t)
    ensures score <= other ==> TierRank(TierFor(score)) <= TierRank(TierFor(other))
  {
  }

  /**
   * The unlock condition an achievement was built with: none (always met), a
   * threshold on money, ribbons, damage in one hit, healing in one go or a
   * level, or the modifier test of the item achievement.
   */
  datatype AchvCondition =
    | NoCondition
    | MoneyAtLeast(moneyAmount: int)
    | RibbonsAtLeast(ribbonAmount: int)
    | DamageAtLeast(damageAmount: int)
    | HealAtLeast(healAmount: int)
    | LevelAtLeast(level: int)
    | TransferModifierObtained

  /**
   * What a condition looks at: the player's money and ribbon count, the value
   * of the number holder passed as the first argument, and whether the
   * modifier passed as the first argument is a turn-held-item-transfer one.
   */
  datatype Observation = Observation(money: int, ribbonsOwned: int, argValue: int, argIsTransferModifier: bool)

  /** Whether the condition holds of an observation. */
  predicate Holds(c: AchvCondition, o: Observation) {
    match c
    case NoCondition => true
    case MoneyAtLeast(n) => o.money >= n
    case RibbonsAtLeast(n) => o.ribbonsOwned >= n
    case DamageAtLeast(n) => o.argValue >= n
    case HealAtLeast(n) => o.argValue >= n
    case LevelAtLeast(n) => o.argValue >= n
    case TransferModifierObtained => o.argIsTransferModifier
  }

  /** `o2` has at least the money, ribbons and argument value of `o1`, and the same modifier. */
  predicate Dominates(o2: Observation, o1: Observation) {
    o2.money >= o1.money && o2.ribbonsOwned >= o1.ribbonsOwned && o2.argValue >= o1.argValue
    && o2.argIsTransferModifier == o1.argIsTransferModifier
  }

  /** The threshold of a threshold condition. */
  function Threshold(c: AchvCondition): Option<int> {
    match c
    case MoneyAtLeast(n) => Some(n)
    case RibbonsAtLeast(n) => Some(n)
    case DamageAtLeast(n) => Some(n)
    case HealAtLeast(n) => Some(n)
    case LevelAtLeast(n) => Some(n)
    case _ => None
  }

  /** A threshold condition holds exactly when the value it watches reaches its threshold, and keeps holding as that value grows. */
  lemma ThresholdConditions(c: AchvCondition, o1: Observation, o2: Observation)
    ensures Holds(c, o1) && Dominates(o2, o1) ==> Holds(c, o2)
    ensures c.NoCondition? ==> Holds(c, o1)
    ensures Threshold(c).Some? ==>
      (Holds(c, o1) <==> Threshold(c).value <= (if c.MoneyAtLeast? then o1.money else if c.RibbonsAtLeast? then o1.ribbonsOwned else o1.argValue))
  {
  }

  /** A condition of the same kind with a threshold no higher is implied. */
  predicate Weaker(parent: AchvCondition, child: AchvCondition) {
    match child
    case MoneyAtLeast(n) => parent.MoneyAtLeast? && parent.moneyAmount < n
    case RibbonsAtLeast(n) => parent.RibbonsAtLeast? && parent.ribbonAmount < n
    case DamageAtLeast(n) => parent.DamageAtLeast? && parent.damageAmount < n
    case HealAtLeast(n) => parent.HealAtLeast? && parent.healAmount < n
    case LevelAtLeast(n) => parent.LevelAtLeast? && parent.level < n
    case NoCondition => parent.NoCondition?
    case TransferModifierObtained => parent.TransferModifierObtained?
  }

  /** Meeting a child's condition meets every weaker parent condition. */
  lemma WeakerImplied(parent: AchvCondition, child: AchvCondition, o: Observation)
    requires Weaker(parent, child) && Holds(child, o)
    ensures Holds(parent, o)
  {
  }

  /** The description a threshold achievement builds from its amount. */
  function ThresholdDescription(c: AchvCondition): string {
    match c
    case MoneyAtLeast(n) => "累计获得₽" + LocaleString(n)
    case RibbonsAtLeast(n) => "累计获得" + LocaleString(n) + "个缎带勋章"
    case DamageAtLeast(n) => "一击造成" + LocaleString(n) + "伤害"
    case HealAtLeast(n) => "通过招式、特性或携带道具，一次性回复 " + LocaleString(n) + " 点 HP。"
    case LevelAtLeast(n) => "将一只宝可梦提升至 " + IntToString(n) + " 级"
    case _ => ""
  }

  /** The money description shows the amount, which reads back once its separators are removed. */
  lemma MoneyDescriptionShowsAmount(n: int)
    ensures var d := ThresholdDescription(MoneyAtLeast(n));
      d[..5] == "累计获得₽" && ParseInt(StripCommas(d[5..])) == n
  {
    var d := ThresholdDescription(MoneyAtLeast(n));
    assert d[5..] == LocaleString(n);
    LocaleStringReadsBack(n);
  }

  class Achv {
    var id: Option<string>
    var name: string
    var description: string
    var iconImage: string
    var score: int
    var secret: bool
    var hasParent: bool
    var parentId: Option<string>
    var condition: AchvCondition

    /** A plain achievement; `condition` is NoCondition when no condition function is given. */
    constructor (name: string, description: string, iconImage: string, score: int, condition: AchvCondition)
      ensures this.name == name && this.description == description && this.iconImage == iconImage
      ensures this.score == score && this.condition == condition
      ensures id.None? && !secret && !hasParent && parentId.None?
    {
      this.id := None;
      this.name := name;
      this.description := description;
      this.iconImage := iconImage;
      this.score := score;
      this.secret := false;
      this.hasParent := false;
      this.parentId := None;
      this.condition := condition;
    }

    /** An achievement that needs a threshold reached, with the description built from the threshold. */
    constructor ThresholdAchv(name: string, condition: AchvCondition, iconImage: string, score: int)
      requires Threshold(condition).Some?
      ensures this.name == name && this.description == ThresholdDescription(condition)
      ensures this.iconImage == iconImage && this.score == score && this.condition == condition
      ensures id.None? && !secret && !hasParent && parentId.None?
    {
      this.id := None;
      this.name := name;
      this.description := ThresholdDescription(condition);
      this.iconImage := iconImage;
      this.score := score;
      this.secret := false;
      this.hasParent := false;
      this.parentId := None;
      this.condition := condition;
    }

    /** Marks the achievement secret and records whether it has a parent (a missing flag meaning no); returns the object itself. */
    method SetSecret(hasParent: Option<bool>) returns (self: Achv)
      modifies this
      ensures self == this
      ensures secret && this.hasParent == (hasParent == Some(true))
      ensures id == old(id) && name == old(name) && description == old(description) && iconImage == old(iconImage)
      ensures score == old(score) && parentId == old(parentId) && condition == old(condition)
    {
      secret := true;
      this.hasParent := hasParent == Some(true);
      return this;
    }

    /** Whether the achievement's condition is met: always, when it has none. */
    predicate Validate(o: Observation)
      reads this
    {
      Holds(condition, o)
    }

    function GetTier(): AchvTier
      reads this
    {
      TierFor(score)
    }
  }

  /**
   * The start-up pass over the table in key order: each achievement gets its
   * key as id, and one with a parent gets the previous key as parent id (the
   * first achievement has no previous key, so its parent id stays missing).
   */
  method InitIds(keys: seq<string>, achvs: seq<Achv>)
    requires |keys| == |achvs|
    requires forall i, j :: 0 <= i < j < |achvs| ==> achvs[i] != achvs[j]
    modifies set a | a in achvs
    ensures forall i :: 0 <= i < |achvs| ==> achvs[i].id == Some(keys[i])
    ensures forall i :: 0 <= i < |achvs| ==>
      achvs[i].parentId == (if old(achvs[i].hasParent) then (if i > 0 then Some(keys[i - 1]) else None) else old(achvs[i].parentId))
    ensures forall i :: 0 <= i < |achvs| ==>
      && achvs[i].hasParent == old(achvs[i].hasParent)
      && achvs[i].secret == old(achvs[i].secret) && achvs[i].score == old(achvs[i].score)
      && achvs[i].condition == old(achvs[i].condition) && achvs[i].name == old(achvs[i].name)
  {
    var i := 0;
    while i < |achvs|
      invariant 0 <= i <= |achvs|
      invariant forall j :: 0 <= j < i ==> achvs[j].id == Some(keys[j])
      invariant forall j :: 0 <= j < i ==>
        achvs[j].parentId == (if old(achvs[j].hasParent) then (if j > 0 then Some(keys[j - 1]) else None) else old(achvs[j].parentId))
      invariant forall j :: i <= j < |achvs| ==> achvs[j].id == old(achvs[j].id) && achvs[j].parentId == old(achvs[j].parentId)
      invariant forall j :: 0 <= j < |achvs| ==>
        && achvs[j].hasParent == old(achvs[j].hasParent)
        && achvs[j].secret == old(achvs[j].secret) && achvs[j].score == old(achvs[j].score)
        && achvs[j].condition == old(achvs[j].condition) && achvs[j].name == old(achvs[j].name)
    {
      var a := achvs[i];
      a.id := Some(keys[i]);
      if a.hasParent {
        a.parentId := if i > 0 then Some(keys[i - 1]) else None;
      }
      i := i + 1;
    }
  }

  /**
   * One line of the achievement table as a value: its key, what it is built
   * from, and what `setSecret` did to it (`secret` and `hasParent`).
   */
  datatype AchvEntry = AchvEntry(key: string, name: string, iconImage: string, score: int,
                                 condition: AchvCondition, secret: bool, hasParent: bool)

  /** The achievement table in declaration (key) order. */
  function AchvTable(): seq<AchvEntry> {
    [ AchvEntry("_10K_MONEY", "小富翁", "nugget", 10, MoneyAtLeast(10000), false, false),
      AchvEntry("_100K_MONEY", "富豪", "big_nugget", 25, MoneyAtLeast(100000), true, true),
      AchvEntry("_1M_MONEY", "百万富翁", "relic_gold", 50, MoneyAtLeast(1000000), true, true),
      AchvEntry("_10M_MONEY", "百分之一富豪", "coin_case", 100, MoneyAtLeast(10000000), true, true),
      AchvEntry("_250_DMG", "重拳出击", "lucky_punch", 10, DamageAtLeast(250), false, false),
      AchvEntry("_1000_DMG", "更重拳出击", "lucky_punch_great", 25, DamageAtLeast(1000), true, true),
      AchvEntry("_2500_DMG", "伤害爆表！", "lucky_punch_ultra", 50, DamageAtLeast(2500), true, true),
      AchvEntry("_10000_DMG", "一拳超人", "lucky_punch_master", 100, DamageAtLeast(10000), true, true),
      AchvEntry("_250_HEAL", "新手治疗师", "potion", 10, HealAtLeast(250), false, false),
      AchvEntry("_1000_HEAL", "高级治疗师", "super_potion", 25, HealAtLeast(1000), true, true),
      AchvEntry("_2500_HEAL", "牧师", "hyper_potion", 50, HealAtLeast(2500), true, true),
      AchvEntry("_10000_HEAL", "恢复大师", "max_potion", 100, HealAtLeast(10000), true, true),
      AchvEntry("LV_100", "但这还不是全部！", "rare_candy", 25, LevelAtLeast(100), true, false),
      AchvEntry("LV_250", "精英", "rarer_candy", 50, LevelAtLeast(250), true, true),
      AchvEntry("LV_1000", "超越极限", "candy_jar", 100, LevelAtLeast(1000), true, true),
      AchvEntry("_10_RIBBONS", "宝可梦联盟冠军", "bronze_ribbon", 10, RibbonsAtLeast(10), false, false),
      AchvEntry("_25_RIBBONS", "高级联盟冠军", "great_ribbon", 25, RibbonsAtLeast(25), true, true),
      AchvEntry("_50_RIBBONS", "超级联盟冠军", "ultra_ribbon", 50, RibbonsAtLeast(50), true, true),
      AchvEntry("_75_RIBBONS", "大师联盟冠军", "rogue_ribbon", 75, RibbonsAtLeast(75), true, true),
      AchvEntry("_100_RIBBONS", "大师联盟冠军", "master_ribbon", 100, RibbonsAtLeast(100), true, true),
      AchvEntry("TRANSFER_MAX_BATTLE_STAT", "团队合作", "stick", 20, NoCondition, false, false),
      AchvEntry("MAX_FRIENDSHIP", "亲密无间", "soothe_bell", 25, NoCondition, false, false),
      AchvEntry("MEGA_EVOLVE", "超级进化", "mega_bracelet", 50, NoCondition, false, false),
      AchvEntry("GIGANTAMAX", "庞然大物", "dynamax_band", 50, NoCondition, false, false),
      AchvEntry("TERASTALLIZE", "属性爱好者", "tera_orb", 25, NoCondition, false, false),
      AchvEntry("STELLAR_TERASTALLIZE", "隐藏的属性", "stellar_tera_shard", 25, NoCondition, true, true),
      AchvEntry("SPLICE", "无限融合", "dna_splicers", 10, NoCondition, false, false),
      AchvEntry("MINI_BLACK_HOLE", "道具多多", "mini_black_hole", 25, TransferModifierObtained, true, false),
      AchvEntry("CATCH_MYTHICAL", "幻之宝可梦", "strange_ball", 50, NoCondition, true, false),
      AchvEntry("CATCH_SUB_LEGENDARY", "准神兽", "rb", 75, NoCondition, true, false),
      AchvEntry("CATCH_LEGENDARY", "神兽", "mb", 100, NoCondition, true, false),
      AchvEntry("SEE_SHINY", "闪光宝可梦", "pb_gold", 75, NoCondition, false, false),
      AchvEntry("SHINY_PARTY", "真爱粉", "shiny_charm", 100, NoCondition, true, true),
      AchvEntry("HATCH_MYTHICAL", "幻之宝可梦蛋", "pair_of_tickets", 75, NoCondition, true, false),
      AchvEntry("HATCH_SUB_LEGENDARY", "准神兽蛋", "mystic_ticket", 100, NoCondition, true, false),
      AchvEntry("HATCH_LEGENDARY", "神兽蛋", "mystic_ticket", 125, NoCondition, true, false),
      AchvEntry("HATCH_SHINY", "闪光宝可梦蛋", "golden_mystic_ticket", 100, NoCondition, true, false),
      AchvEntry("HIDDEN_ABILITY", "隐藏潜力", "ability_charm", 75, NoCondition, false, false),
      AchvEntry("PERFECT_IVS", "正品证书", "blunder_policy", 100, NoCondition, false, false),
      AchvEntry("CLASSIC_VICTORY", "不败战绩", "relic_crown", 150, NoCondition, false, false)
    ]
  }

  /** Whether entry `i` has a parent just before it with a weaker condition and a score no higher. */
  predicate ParentPrecedes(t: seq<AchvEntry>, i: nat)
    requires i < |t|
  {
    t[i].hasParent ==> i > 0 && t[i - 1].score <= t[i].score && Weaker(t[i - 1].condition, t[i].condition)
  }

  /**
   * In the table every achievement with a parent comes right after it, its
   * parent's condition is weaker, the parent's score is no higher, and only
   * secret achievements have parents.
   */
  lemma TableParentChains(i: nat)
    requires i < |AchvTable()|
    ensures ParentPrecedes(AchvTable(), i)
    ensures AchvTable()[i].hasParent ==> AchvTable()[i].secret
  {
    var t := AchvTable();
    if i < 8 {
    } else if i < 16 {
    } else if i < 24 {
    } else if i < 32 {
    } else {
    }
  }

  /** Unlocking an achievement that has a parent means its parent's condition holds too. */
  lemma ChildUnlockImpliesParent(i: nat, o: Observation)
    requires i < |AchvTable()| && AchvTable()[i].hasParent && Holds(AchvTable()[i].condition, o)
    ensures i > 0 && Holds(AchvTable()[i - 1].condition, o)
  {
    TableParentChains(i);
    WeakerImplied(AchvTable()[i - 1].condition, AchvTable()[i].condition, o);
  }
}
