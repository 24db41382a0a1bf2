/**
 * Berries (src/data/berry.ts): which stat each stat berry raises, when a
 * held berry triggers, and what eating one does to its holder.  Ability
 * hooks become parameters: `threshold` is the HP-ratio threshold after the
 * threshold-changing abilities have adjusted it from 0.25, and `double` is
 * what the berry-doubling abilities do to an amount.
 */
module Berries {
  import opened Wrappers
  import opened Kinds
  import opened StatusEffects
  import BattleStats

  datatype BerryType = SITRUS | LUM | ENIGMA | LIECHI | GANLON | PETAYA | APICOT | SALAC | LANSAT | STARF | LEPPA

  /** The enum's numeric value. */
  function BerryOrdinal(b: BerryType): nat {
    match b
    case SITRUS => 0 case LUM => 1 case ENIGMA => 2 case LIECHI => 3 case GANLON => 4
    case PETAYA => 5 case APICOT => 6 case SALAC => 7 case LANSAT => 8 case STARF => 9 case LEPPA => 10
  }

  predicate IsStatBerry(b: BerryType) {
    b in {LIECHI, GANLON, PETAYA, APICOT, SALAC}
  }

  /** The battle stat a stat berry raises: the stat numbered like the berry's offset from LIECHI. */
  function BerryStat(b: BerryType): Option<BattleStats.BattleStat> {
    if IsStatBerry(b) then BattleStats.FromOrdinal(BerryOrdinal(b) - BerryOrdinal(LIECHI)) else None
  }

  /**
   * Exactly the five stat berries raise a stat; they raise ATK, DEF, SPATK,
   * SPDEF and SPD in that order, two different berries never raise the same
   * stat, and none raises accuracy, evasion or a random stat.
   */
  lemma BerryStatMapping(b: BerryType, c: BerryType)
    ensures BerryStat(b).Some? <==> IsStatBerry(b)
    ensures BerryStat(LIECHI) == Some(BattleStats.ATK) && BerryStat(GANLON) == Some(BattleStats.DEF)
    ensures BerryStat(PETAYA) == Some(BattleStats.SPATK) && BerryStat(APICOT) == Some(BattleStats.SPDEF)
    ensures BerryStat(SALAC) == Some(BattleStats.SPD)
    ensures BerryStat(b).Some? ==> BattleStats.Ordinal(BerryStat(b).value) < 5
    ensures BerryStat(b).Some? && BerryStat(b) == BerryStat(c) ==> b == c
  {
  }

  function BerryName(b: BerryType): string {
    match b
    case SITRUS => "柑果" case LUM => "亮光果" case ENIGMA => "神秘果" case LIECHI => "荔枝果"
    case GANLON => "龙睛果" case PETAYA => "火龙果" case APICOT => "杏仔果" case SALAC => "沙鳞果"
    case LANSAT => "蓝橘果" case STARF => "星桃果" case LEPPA => "零余果"
  }

  /** Every berry has a name of its own. */
  lemma BerryNamesDistinct(b: BerryType, c: BerryType)
    ensures BerryName(b) != ""
    ensures BerryName(b) == BerryName(c) ==> b == c
  {
    if b != c {
      assert BerryName(b)[0] != BerryName(c)[0];
    }
  }

  function BerryEffectDescription(b: BerryType): string {
    match b
    case SITRUS => "当宝可梦的HP低于50%时，恢复25%的HP。"
    case LUM => "治疗任何非永久性状态异常和混乱状态。"
    case ENIGMA => "如果受到超级有效的招式攻击，则恢复25%的HP。"
    case LANSAT => "如果宝可梦的HP低于25%，则提升其击中要害率。"
    case STARF => "如果生命值低于25%，则大幅提升一项随机属性"
    case LEPPA => "如果招式PP值降为0，则恢复该招式10PP值"
    case _ => "如果宝可梦的HP低于25%，则提升 " + BattleStats.BattleStatName(BerryOrdinal(b) - BerryOrdinal(LIECHI)) + "。"
  }

  /** A stat berry's description names the stat it raises, between a fixed lead-in and a full stop. */
  lemma StatBerryDescriptionNamesStat(b: BerryType)
    requires IsStatBerry(b)
    ensures var d := BerryEffectDescription(b);
      var name := BattleStats.BattleStatName(BattleStats.Ordinal(BerryStat(b).value));
      d == "如果宝可梦的HP低于25%，则提升 " + name + "。" && name != "???"
  {
  }

  /** The outcome of one hit a combatant received this turn; the names of src/field/pokemon.ts. */
  datatype HitResult = EFFECTIVE | SUPER_EFFECTIVE | NOT_VERY_EFFECTIVE | ONE_HIT_KO | NO_EFFECT | STATUS_HIT | HEAL_HIT | FAIL_HIT | MISS_HIT | OTHER_HIT

  /** How many received hits were super effective. */
  function SuperEffectiveCount(hits: seq<HitResult>): (n: nat)
    ensures n <= |hits|
    ensures n > 0 <==> exists i :: 0 <= i < |hits| && hits[i] == SUPER_EFFECTIVE
  {
    if hits == [] then 0
    else
      assert forall i :: 0 < i < |hits| ==> hits[i] == hits[1..][i - 1];
      (if hits[0] == SUPER_EFFECTIVE then 1 else 0) + SuperEffectiveCount(hits[1..])
  }

  /** A move slot: the move, the PP spent on it and its PP maximum. */
  datatype MoveSlot = MoveSlot(moveId: nat, ppUsed: int, maxPp: int)

  /**
   * The share of PP left, `1 - ppUsed / maxPp`; a move without PP (whose
   * ratio is not a number in the game) counts as having none left, as
   * `!ratio` does there.
   */
  function PpRatio(m: MoveSlot): real {
    if m.maxPp == 0 then 0.0 else 1.0 - m.ppUsed as real / m.maxPp as real
  }

  predicate PpEmpty(m: MoveSlot) {
    PpRatio(m) == 0.0
  }

  /** A move with PP runs out exactly when all of it is spent. */
  lemma PpEmptyMeansSpent(m: MoveSlot)
    requires m.maxPp > 0
    ensures PpEmpty(m) <==> m.ppUsed == m.maxPp
  {
    if PpEmpty(m) {
      assert m.ppUsed as real / m.maxPp as real == 1.0;
      assert m.ppUsed as real == m.maxPp as real;
    }
  }

  /** The index of the first move without PP left, as `find` picks it. */
  function FirstEmptyMove(moves: seq<MoveSlot>): (r: Option<nat>)
    ensures r.Some? ==> r.value < |moves| && PpEmpty(moves[r.value])
    ensures r.Some? ==> forall j :: 0 <= j < r.value ==> !PpEmpty(moves[j])
    ensures r.None? <==> forall j :: 0 <= j < |moves| ==> !PpEmpty(moves[j])
  {
    if moves == [] then None
    else if PpEmpty(moves[0]) then Some(0)
    else
      var rest := FirstEmptyMove(moves[1..]);
      assert forall j :: 0 < j < |moves| ==> moves[j] == moves[1..][j - 1];
      if rest.Some? then Some(rest.value + 1) else None
  }

  /**
   * What a berry reads of its holder: its HP ratio and maximum HP, its
   * status, whether it is confused or has the crit boost, the hits it
   * received this turn, its stat stages (by battle-stat number), its moves
   * and, when it has battle data, the berries it has eaten.  `log` holds
   * the phases and messages the effects queue, in the order they are queued.
   */
  datatype HolderState = HolderState(
    hpRatio: real, maxHp: int, status: Option<StatusEffect>, confused: bool, critBoost: bool,
    attacksReceived: seq<HitResult>, battleStats: seq<int>, moveset: seq<MoveSlot>,
    berriesEaten: Option<seq<BerryType>>, log: seq<BerryEvent>)

  /** A queued phase or message. */
  datatype BerryEvent =
    | HealPhase(amount: int, content: string)
    | StatChangePhase(stats: seq<BattleStats.BattleStat>, levels: int)
    | StatusHealMessage(effect: StatusEffect)
    | TagLapsed(tag: BattlerTagType)
    | TagAdded(tag: BattlerTagType)
    | PpRestoredMessage(content: string, moveIndex: nat)

  /** The stage of a battle stat; a missing entry compares like `undefined`, which is never below 6. */
  predicate StageBelowMax(h: HolderState, s: BattleStats.BattleStat) {
    BattleStats.Ordinal(s) < |h.battleStats| && h.battleStats[BattleStats.Ordinal(s)] < 6
  }

  /**
   * When a held berry triggers, as evidently intended: the pinch berries
   * (stat berries, LANSAT and STARF) all compare the HP ratio with the
   * adjusted threshold.  The code as written is BerryPredicateAsWritten.
   */
  predicate BerryPredicate(b: BerryType, h: HolderState, threshold: real) {
    match b
    case SITRUS => h.hpRatio < 0.5
    case LUM => h.status.Some? || h.confused
    case ENIGMA => SuperEffectiveCount(h.attacksReceived) > 0
    case LANSAT => h.hpRatio < threshold && !h.critBoost
    case STARF => h.hpRatio < threshold
    case LEPPA => FirstEmptyMove(h.moveset).Some?
    case _ => h.hpRatio < threshold && StageBelowMax(h, BerryStat(b).value)
  }

  /** The trigger as written: LANSAT and STARF compare with the literal 0.25 and ignore the adjusted threshold. */
  predicate BerryPredicateAsWritten(b: BerryType, h: HolderState, threshold: real) {
    match b
    case LANSAT => h.hpRatio < 0.25 && !h.critBoost
    case STARF => h.hpRatio < 0.25
    case _ => BerryPredicate(b, h, threshold)
  }

  /**
   * The triggers: SITRUS below half HP, LUM with a status or confusion,
   * ENIGMA after a super-effective hit, a stat berry below the threshold
   * while its stat can still rise, LANSAT below it without the crit boost,
   * STARF below it, LEPPA when some move has no PP left.
   */
  lemma BerryPredicateRules(b: BerryType, h: HolderState, threshold: real)
    ensures b == SITRUS ==> (BerryPredicate(b, h, threshold) <==> h.hpRatio < 0.5)
    ensures b == LUM ==> (BerryPredicate(b, h, threshold) <==> h.status.Some? || h.confused)
    ensures b == ENIGMA ==> (BerryPredicate(b, h, threshold) <==>
      exists i :: 0 <= i < |h.attacksReceived| && h.attacksReceived[i] == SUPER_EFFECTIVE)
    ensures IsStatBerry(b) ==> (BerryPredicate(b, h, threshold) <==>
      h.hpRatio < threshold && BattleStats.Ordinal(BerryStat(b).value) < |h.battleStats|
      && h.battleStats[BattleStats.Ordinal(BerryStat(b).value)] < 6)
    ensures b == LANSAT ==> (BerryPredicate(b, h, threshold) <==> h.hpRatio < threshold && !h.critBoost)
    ensures b == STARF ==> (BerryPredicate(b, h, threshold) <==> h.hpRatio < threshold)
    ensures b == LEPPA ==> (BerryPredicate(b, h, threshold) <==> exists j :: 0 <= j < |h.moveset| && PpEmpty(h.moveset[j]))
  {
  }

  /** With the unadjusted threshold the code as written and the pinch rule agree on every berry. */
  lemma AsWrittenAgreesAtDefault(b: BerryType, h: HolderState)
    ensures BerryPredicateAsWritten(b, h, 0.25) == BerryPredicate(b, h, 0.25)
  {
  }

  /**
   * The code as written and the intended rule disagree exactly for LANSAT
   * and STARF, when the HP ratio lies between 0.25 and the adjusted
   * threshold and, for LANSAT, the holder has no crit boost yet.  With the
   * threshold raised to 0.5, a holder at 0.4 of its HP is such a case.
   */
  lemma AsWrittenDiffers(b: BerryType, h: HolderState, threshold: real)
    ensures BerryPredicateAsWritten(b, h, threshold) != BerryPredicate(b, h, threshold) <==>
      (b == LANSAT || b == STARF) && (h.hpRatio < threshold) != (h.hpRatio < 0.25)
      && (b == STARF || !h.critBoost)
  {
  }

  /** The berry goes on the eaten list when the holder has battle data. */
  function RecordEaten(eaten: Option<seq<BerryType>>, b: BerryType): Option<seq<BerryType>> {
    if eaten.Some? then Some(eaten.value + [b]) else None
  }

  /**
   * One berry's effect.  The second component is true when the effect
   * fails: LEPPA with no move out of PP reads a field of `undefined`, after
   * the berry has already been recorded.
   */
  function EffectStep(b: BerryType, h: HolderState, double: int -> int): (HolderState, bool) {
    var h1 := h.(berriesEaten := RecordEaten(h.berriesEaten, b));
    match b
    case SITRUS | ENIGMA =>
      (h1.(log := h.log + [HealPhase(double(h.maxHp / 4), "的" + BerryName(b) + "恢复了体力！")]), false)
    case LUM =>
      var h2 := if h.status.Some? then h1.(status := None, log := h.log + [StatusHealMessage(h.status.value)]) else h1;
      (if h.confused then h2.(log := h2.log + [TagLapsed(CONFUSED)]) else h2, false)
    case LANSAT =>
      (h1.(log := h.log + [TagAdded(CRIT_BOOST)]), false)
    case STARF =>
      (h1.(log := h.log + [StatChangePhase([BattleStats.RAND], double(2))]), false)
    case LEPPA =>
      var k := FirstEmptyMove(h.moveset);
      if k.None? then (h1, true)
      else
        var m := h.moveset[k.value];
        var restored := m.(ppUsed := if m.ppUsed - 10 > 0 then m.ppUsed - 10 else 0);
        (h1.(moveset := h.moveset[k.value := restored],
             log := h.log + [PpRestoredMessage("使用" + BerryName(b) + "恢复了", k.value)]), false)
    case _ =>
      (h1.(log := h.log + [StatChangePhase([BerryStat(b).value], double(1))]), false)
  }

  /**
   * Every effect records the berry exactly when the holder has battle data,
   * queues what it queues after what was queued before, and keeps the HP,
   * the stat stages and the received hits; only LUM touches the status and
   * only LEPPA the moves.
   */
  lemma EffectBookkeeping(b: BerryType, h: HolderState, double: int -> int)
    ensures var (h', _) := EffectStep(b, h, double);
      && (h.berriesEaten.Some? <==> h'.berriesEaten.Some?)
      && (h.berriesEaten.Some? ==> h'.berriesEaten.value == h.berriesEaten.value + [b])
      && h.log <= h'.log
      && h'.hpRatio == h.hpRatio && h'.maxHp == h.maxHp && h'.battleStats == h.battleStats
      && h'.attacksReceived == h.attacksReceived && h'.confused == h.confused && h'.critBoost == h.critBoost
      && (b != LUM ==> h'.status == h.status)
      && (b != LEPPA ==> h'.moveset == h.moveset)
      && |h'.moveset| == |h.moveset|
  {
  }

  /**
   * The amounts before the doubling hook: SITRUS and ENIGMA heal a quarter
   * of the maximum HP rounded down, a stat berry raises its stat by one
   * stage and STARF a random stat by two.
   */
  lemma EffectAmounts(b: BerryType, h: HolderState, double: int -> int)
    ensures var (h', failed) := EffectStep(b, h, double);
      && (b == SITRUS || b == ENIGMA ==> h'.log == h.log + [HealPhase(double(h.maxHp / 4), "的" + BerryName(b) + "恢复了体力！")])
      && (IsStatBerry(b) ==> h'.log == h.log + [StatChangePhase([BerryStat(b).value], double(1))])
      && (b == STARF ==> h'.log == h.log + [StatChangePhase([BattleStats.RAND], double(2))])
      && (failed <==> b == LEPPA && FirstEmptyMove(h.moveset).None?)
  {
  }

  /** LUM clears the status and lapses confusion, each only when present. */
  lemma LumCures(h: HolderState, double: int -> int)
    ensures var (h', failed) := EffectStep(LUM, h, double);
      && !failed && h'.status.None?
      && h'.log == h.log + (if h.status.Some? then [StatusHealMessage(h.status.value)] else [])
                         + (if h.confused then [TagLapsed(CONFUSED)] else [])
  {
  }

  /**
   * LEPPA restores up to 10 PP to the first move out of PP and no other:
   * that move's spent PP drops by 10 but never below zero.
   */
  lemma LeppaRestoresFirstEmptyMove(h: HolderState, double: int -> int)
    requires FirstEmptyMove(h.moveset).Some?
    ensures var (h', failed) := EffectStep(LEPPA, h, double);
      var k := FirstEmptyMove(h.moveset).value;
      && !failed
      && h'.moveset[k].ppUsed >= 0
      && h'.moveset[k].ppUsed == (if h.moveset[k].ppUsed >= 10 then h.moveset[k].ppUsed - 10 else 0)
      && h'.moveset[k].moveId == h.moveset[k].moveId && h'.moveset[k].maxPp == h.moveset[k].maxPp
      && (forall j :: 0 <= j < |h.moveset| && j != k ==> h'.moveset[j] == h.moveset[j])
  {
  }

  /** A combatant as a berry effect sees it, changed in place by eating. */
  class BerryHolder {
    var hpRatio: real
    var maxHp: int
    var status: Option<StatusEffect>
    var confused: bool
    var critBoost: bool
    var attacksReceived: seq<HitResult>
    var battleStats: seq<int>
    var moveset: seq<MoveSlot>
    var berriesEaten: Option<seq<BerryType>>
    var log: seq<BerryEvent>

    constructor (s: HolderState)
      ensures State() == s
    {
      hpRatio, maxHp, status, confused, critBoost := s.hpRatio, s.maxHp, s.status, s.confused, s.critBoost;
      attacksReceived, battleStats, moveset := s.attacksReceived, s.battleStats, s.moveset;
      berriesEaten, log := s.berriesEaten, s.log;
    }

    function State(): HolderState
      reads this
    {
      HolderState(hpRatio, maxHp, status, confused, critBoost, attacksReceived, battleStats, moveset, berriesEaten, log)
    }

    /** Whether a held berry triggers now. */
    predicate CanEat(b: BerryType, threshold: real)
      reads this
    {
      BerryPredicate(b, State(), threshold)
    }

    /** Eats a berry: the new state is EffectStep of the old one, and `failed` is its failure flag. */
    method Eat(b: BerryType, double: int -> int) returns (failed: bool)
      modifies this
      ensures (State(), failed) == EffectStep(b, old(State()), double)
    {
      if berriesEaten.Some? {
        berriesEaten := Some(berriesEaten.value + [b]);
      }
      failed := false;
      match b
      case SITRUS | ENIGMA =>
        log := log + [HealPhase(double(maxHp / 4), "的" + BerryName(b) + "恢复了体力！")];
      case LUM =>
        if status.Some? {
          log := log + [StatusHealMessage(status.value)];
          status := None;
        }
        if confused {
          log := log + [TagLapsed(CONFUSED)];
        }
      case LANSAT =>
        log := log + [TagAdded(CRIT_BOOST)];
      case STARF =>
        log := log + [StatChangePhase([BattleStats.RAND], double(2))];
      case LEPPA =>
        var k := FirstEmptyMove(moveset);
        if k.None? {
          failed := true;
        } else {
          var m := moveset[k.value];
          moveset := moveset[k.value := m.(ppUsed := if m.ppUsed - 10 > 0 then m.ppUsed - 10 else 0)];
          log := log + [PpRestoredMessage("使用" + BerryName(b) + "恢复了", k.value)];
        }
      case _ =>
        log := log + [StatChangePhase([BerryStat(b).value], double(1))];
    }
  }
}
