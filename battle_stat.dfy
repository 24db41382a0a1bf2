/**
 * In-battle stat stages (src/data/battle-stat.ts): the eight battle stats,
 * their display names and the wording of a stage change.
 */
module BattleStats {
  import opened Wrappers

  datatype BattleStat = ATK | DEF | SPATK | SPDEF | SPD | ACC | EVA | RAND

  /** The enum's numeric value (declaration order, from 0). */
  function Ordinal(s: BattleStat): (n: nat)
    ensures n < 8
  {
    match s
    case ATK => 0 case DEF => 1 case SPATK => 2 case SPDEF => 3
    case SPD => 4 case ACC => 5 case EVA => 6 case RAND => 7
  }

  /** The stat with a given numeric value, if there is one. */
  function FromOrdinal(n: int): (r: Option<BattleStat>)
    ensures r.Some? <==> 0 <= n < 8
    ensures r.Some? ==> Ordinal(r.value) == n
  {
    match n
    case 0 => Some(ATK) case 1 => Some(DEF) case 2 => Some(SPATK) case 3 => Some(SPDEF)
    case 4 => Some(SPD) case 5 => Some(ACC) case 6 => Some(EVA) case 7 => Some(RAND)
    case _ => None
  }

  /** Numbering the stats and reading the number back gives the same stat. */
  lemma OrdinalRoundTrip(s: BattleStat)
    ensures FromOrdinal(Ordinal(s)) == Some(s)
  {
    match s
    case ATK => case DEF => case SPATK => case SPDEF =>
    case SPD => case ACC => case EVA => case RAND =>
  }

  /**
   * The display name of a stat given by its numeric value; a TypeScript
   * enum parameter can hold any number, so every value outside the seven
   * named stats (RAND included) falls to the default '???'.
   */
  function BattleStatName(stat: int): string {
    match stat
    case 0 => "攻击"
    case 1 => "防御"
    case 2 => "特攻"
    case 3 => "特防"
    case 4 => "速度"
    case 5 => "命中率"
    case 6 => "闪避"
    case _ => "???"
  }

  /** '???' appears exactly outside ATK..EVA, so RAND and every unlisted value get it. */
  lemma BattleStatNameUnknown(stat: int)
    ensures BattleStatName(stat) == "???" <==> !(0 <= stat <= 6)
    ensures BattleStatName(Ordinal(RAND)) == "???"
  {
    if 0 <= stat <= 6 {
      assert BattleStatName(stat)[0] != '?';
    }
  }

  /** The seven named stats have seven different names. */
  lemma BattleStatNamesDistinct(a: int, b: int)
    requires 0 <= a <= 6 && 0 <= b <= 6 && a != b
    ensures BattleStatName(a) != BattleStatName(b)
  {
    var na, nb := BattleStatName(a), BattleStatName(b);
    assert na[0] != nb[0] || na[1] != nb[1] || |na| != |nb|;
  }

  /** How large a stage change is, as the wording groups it. */
  datatype ChangeBracket = Single | Sharp | Drastic | Capped

  function Bracket(levels: int): (b: ChangeBracket)
    ensures b == Single <==> levels == 1
    ensures b == Sharp <==> levels == 2
    ensures b == Drastic <==> 3 <= levels <= 6
    ensures b == Capped <==> levels < 1 || levels > 6
  {
    if levels == 1 then Single
    else if levels == 2 then Sharp
    else if 3 <= levels <= 6 then Drastic
    else Capped
  }

  /** The wording of a change of `levels` stages, upward when `up` holds. */
  function LevelChangeDescription(levels: int, up: bool): string {
    if up then
      match levels
      case 1 => "提升了"
      case 2 => "大幅提升了"
      case 3 | 4 | 5 | 6 => "剧烈提升了"
      case _ => "不能再提升了"
    else
      match levels
      case 1 => "降低了"
      case 2 => "大幅降低了"
      case 3 | 4 | 5 | 6 => "剧烈降低了"
      case _ => "不能再降低了"
  }

  /** The verb ending of a raise or a drop. */
  function Verb(up: bool): string {
    if up then "提升了" else "降低了"
  }

  /** The word put before the verb for each bracket. */
  function Intensifier(b: ChangeBracket): string {
    match b
    case Single => ""
    case Sharp => "大幅"
    case Drastic => "剧烈"
    case Capped => "不能再"
  }

  /**
   * The description depends on the level only through its bracket, and it
   * is the bracket's word followed by the raise or drop verb: raises and
   * drops use the same brackets and differ only in the verb.
   */
  lemma LevelChangeWording(levels: int, up: bool)
    ensures LevelChangeDescription(levels, up) == Intensifier(Bracket(levels)) + Verb(up)
  {
  }

  /** Two levels give the same description exactly when they fall in the same bracket. */
  lemma LevelChangeByBracket(l1: int, l2: int, up: bool)
    ensures LevelChangeDescription(l1, up) == LevelChangeDescription(l2, up) <==> Bracket(l1) == Bracket(l2)
  {
    LevelChangeWording(l1, up);
    LevelChangeWording(l2, up);
    var d1, d2 := LevelChangeDescription(l1, up), LevelChangeDescription(l2, up);
    if Bracket(l1) != Bracket(l2) {
      assert |d1| != |d2| || d1[0] != d2[0];
    }
  }

  /** A raise is never worded like a drop. */
  lemma LevelChangeUpDiffersFromDown(l1: int, l2: int)
    ensures LevelChangeDescription(l1, true) != LevelChangeDescription(l2, false)
  {
    LevelChangeWording(l1, true);
    LevelChangeWording(l2, false);
    var d1, d2 := LevelChangeDescription(l1, true), LevelChangeDescription(l2, false);
    assert d1[|d1| - 3] == '提' && d2[|d2| - 3] == '降';
  }
}
