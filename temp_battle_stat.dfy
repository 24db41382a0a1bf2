/**
 * Item-driven temporary boosts (src/data/temp-battle-stat.ts): their names,
 * derived from the battle stat of the same number, and the booster items.
 */
module TempBattleStats {
  import BattleStats

  datatype TempBattleStat = ATK | DEF | SPATK | SPDEF | SPD | ACC | CRIT

  function Ordinal(t: TempBattleStat): (n: nat)
    ensures n < 7
  {
    match t
    case ATK => 0 case DEF => 1 case SPATK => 2 case SPDEF => 3
    case SPD => 4 case ACC => 5 case CRIT => 6
  }

  /** The battle stat the source reaches by reusing the temporary stat's number. */
  function AsBattleStat(t: TempBattleStat): BattleStats.BattleStat {
    BattleStats.FromOrdinal(Ordinal(t)).value
  }

  /** ATK..ACC and the battle stats of the same names share their numbers; CRIT lands on EVA. */
  lemma OrdinalsCoincide(t: TempBattleStat)
    ensures BattleStats.Ordinal(AsBattleStat(t)) == Ordinal(t)
    ensures t == ATK ==> AsBattleStat(t) == BattleStats.ATK
    ensures t == DEF ==> AsBattleStat(t) == BattleStats.DEF
    ensures t == SPATK ==> AsBattleStat(t) == BattleStats.SPATK
    ensures t == SPDEF ==> AsBattleStat(t) == BattleStats.SPDEF
    ensures t == SPD ==> AsBattleStat(t) == BattleStats.SPD
    ensures t == ACC ==> AsBattleStat(t) == BattleStats.ACC
  {
  }

  /** The display name: '暴击率' for CRIT, otherwise the battle stat name of the same number. */
  function TempBattleStatName(t: TempBattleStat): string {
    if t == CRIT then "暴击率" else BattleStats.BattleStatName(Ordinal(t))
  }

  /**
   * Every temporary stat has a real name (never '???'), CRIT's is '暴击率',
   * and each of the others is named like the battle stat it shares a
   * number with.
   */
  lemma TempBattleStatNameAgrees(t: TempBattleStat)
    ensures TempBattleStatName(CRIT) == "暴击率"
    ensures t != CRIT ==> TempBattleStatName(t) == BattleStats.BattleStatName(BattleStats.Ordinal(AsBattleStat(t)))
    ensures TempBattleStatName(t) != "???"
  {
    OrdinalsCoincide(t);
    if t != CRIT {
      BattleStats.BattleStatNameUnknown(Ordinal(t));
    }
  }

  /** The seven temporary stats have seven different names. */
  lemma TempBattleStatNamesDistinct(a: TempBattleStat, b: TempBattleStat)
    requires a != b
    ensures TempBattleStatName(a) != TempBattleStatName(b)
  {
    if a != CRIT && b != CRIT {
      BattleStats.BattleStatNamesDistinct(Ordinal(a), Ordinal(b));
    } else {
      var na, nb := TempBattleStatName(a), TempBattleStatName(b);
      assert na[0] != nb[0] || |na| != |nb|;
    }
  }

  /** The name of the booster item for a temporary stat. */
  function BoosterItemName(t: TempBattleStat): string {
    match t
    case ATK => "力量强化"
    case DEF => "防御强化"
    case SPATK => "特攻强化"
    case SPDEF => "特防强化"
    case SPD => "速度强化"
    case ACC => "命中强化"
    case CRIT => "要害攻击"
  }

  /** Every booster has a non-empty name and no two boosters share one. */
  lemma BoosterItemNamesDistinct(a: TempBattleStat, b: TempBattleStat)
    ensures BoosterItemName(a) != ""
    ensures BoosterItemName(a) == BoosterItemName(b) ==> a == b
  {
    var na, nb := BoosterItemName(a), BoosterItemName(b);
    assert na[0] != nb[0] || na[1] != nb[1] || a == b;
  }
}
