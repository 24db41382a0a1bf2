/**
 * Natures (src/data/nature.ts): the 25 natures, their display names, the
 * per-stat multiplier table and the name with its stat effects spelled out.
 */
module Natures {
  import opened Wrappers
  import opened Kinds

  datatype Nature =
    | HARDY | LONELY | BRAVE | ADAMANT | NAUGHTY
    | BOLD | DOCILE | RELAXED | IMPISH | LAX
    | TIMID | HASTY | SERIOUS | JOLLY | NAIVE
    | MODEST | MILD | QUIET | BASHFUL | RASH
    | CALM | GENTLE | SASSY | CAREFUL | QUIRKY

  /** The enum's numeric value (declaration order, from 0). */
  function NatureOrdinal(n: Nature): (k: nat)
    ensures k < 25
  {
    match n
    case HARDY => 0 case LONELY => 1 case BRAVE => 2 case ADAMANT => 3 case NAUGHTY => 4
    case BOLD => 5 case DOCILE => 6 case RELAXED => 7 case IMPISH => 8 case LAX => 9
    case TIMID => 10 case HASTY => 11 case SERIOUS => 12 case JOLLY => 13 case NAIVE => 14
    case MODEST => 15 case MILD => 16 case QUIET => 17 case BASHFUL => 18 case RASH => 19
    case CALM => 20 case GENTLE => 21 case SASSY => 22 case CAREFUL => 23 case QUIRKY => 24
  }

  /** The display name of a nature. */
  function ChineseName(n: Nature): string {
    match n
    case HARDY => "勤奋" case LONELY => "孤独" case BRAVE => "勇敢" case ADAMANT => "固执"
    case NAUGHTY => "顽皮" case BOLD => "大胆" case DOCILE => "温顺" case RELAXED => "悠闲"
    case IMPISH => "淘气" case LAX => "马虎" case TIMID => "胆小" case HASTY => "急躁"
    case SERIOUS => "认真" case JOLLY => "开朗" case NAIVE => "天真" case MODEST => "谦虚"
    case MILD => "温和" case QUIET => "安静" case BASHFUL => "害羞" case RASH => "鲁莽"
    case CALM => "冷静" case GENTLE => "温柔" case SASSY => "自大" case CAREFUL => "谨慎"
    case QUIRKY => "古怪"
  }

  /** The multiplier a nature applies to a stat: 1.1 raised, 0.9 lowered, 1 otherwise (HP included). */
  function StatMultiplier(n: Nature, s: Stat): real {
    match s
    case ATK =>
      if n in {LONELY, BRAVE, ADAMANT, NAUGHTY} then 1.1
      else if n in {BOLD, TIMID, MODEST, CALM} then 0.9 else 1.0
    case DEF =>
      if n in {BOLD, RELAXED, IMPISH, LAX} then 1.1
      else if n in {LONELY, HASTY, MILD, GENTLE} then 0.9 else 1.0
    case SPATK =>
      if n in {MODEST, MILD, QUIET, RASH} then 1.1
      else if n in {ADAMANT, IMPISH, JOLLY, CAREFUL} then 0.9 else 1.0
    case SPDEF =>
      if n in {CALM, GENTLE, SASSY, CAREFUL} then 1.1
      else if n in {NAUGHTY, LAX, NAIVE, RASH} then 0.9 else 1.0
    case SPD =>
      if n in {TIMID, HASTY, JOLLY, NAIVE} then 1.1
      else if n in {BRAVE, RELAXED, QUIET, SASSY} then 0.9 else 1.0
    case HP => 1.0
  }

  /** The five stats a nature can change, in the order of the games' nature grid. */
  function GridStat(k: nat): Stat
    requires k < 5
  {
    [ATK, DEF, SPD, SPATK, SPDEF][k]
  }

  /**
   * The classic formula behind the table: the nature with number k raises
   * grid stat k / 5 and lowers grid stat k % 5, and is neutral when the two
   * coincide.
   */
  function GridMultiplier(k: nat, s: Stat): real
    requires k < 25
  {
    if k / 5 == k % 5 then 1.0
    else if s == GridStat(k / 5) then 1.1
    else if s == GridStat(k % 5) then 0.9
    else 1.0
  }

  /** The written table and the grid formula agree on every nature and stat. */
  lemma StatMultiplierMatchesGrid(n: Nature, s: Stat)
    ensures StatMultiplier(n, s) == GridMultiplier(NatureOrdinal(n), s)
  {
    match n
    case HARDY => case LONELY => case BRAVE => case ADAMANT => case NAUGHTY =>
    case BOLD => case DOCILE => case RELAXED => case IMPISH => case LAX =>
    case TIMID => case HASTY => case SERIOUS => case JOLLY => case NAIVE =>
    case MODEST => case MILD => case QUIET => case BASHFUL => case RASH =>
    case CALM => case GENTLE => case SASSY => case CAREFUL => case QUIRKY =>
  }

  /** The five natures that change nothing. */
  predicate IsNeutral(n: Nature) {
    n in {HARDY, DOCILE, SERIOUS, BASHFUL, QUIRKY}
  }

  /**
   * Every multiplier is 0.9, 1 or 1.1; HP is never changed; a neutral nature
   * changes no stat, and every other nature raises exactly one stat and
   * lowers exactly one other.
   */
  lemma StatMultiplierShape(n: Nature, s: Stat, t: Stat)
    ensures StatMultiplier(n, s) in {0.9, 1.0, 1.1}
    ensures StatMultiplier(n, HP) == 1.0
    ensures IsNeutral(n) ==> StatMultiplier(n, s) == 1.0
    ensures StatMultiplier(n, s) > 1.0 && StatMultiplier(n, t) > 1.0 ==> s == t
    ensures StatMultiplier(n, s) < 1.0 && StatMultiplier(n, t) < 1.0 ==> s == t
    ensures !IsNeutral(n) ==> (exists u :: StatMultiplier(n, u) > 1.0) && (exists u :: StatMultiplier(n, u) < 1.0)
  {
    StatMultiplierMatchesGrid(n, s);
    StatMultiplierMatchesGrid(n, t);
    var k := NatureOrdinal(n);
    StatMultiplierMatchesGrid(n, GridStat(k / 5));
    StatMultiplierMatchesGrid(n, GridStat(k % 5));
    NeutralOnDiagonal(n);
  }

  /** The five neutral natures sit on the diagonal of the 5x5 grid. */
  lemma NeutralOnDiagonal(n: Nature)
    ensures IsNeutral(n) <==> NatureOrdinal(n) / 5 == NatureOrdinal(n) % 5
  {
    match n
    case HARDY => case LONELY => case BRAVE => case ADAMANT => case NAUGHTY =>
    case BOLD => case DOCILE => case RELAXED => case IMPISH => case LAX =>
    case TIMID => case HASTY => case SERIOUS => case JOLLY => case NAIVE =>
    case MODEST => case MILD => case QUIET => case BASHFUL => case RASH =>
    case CALM => case GENTLE => case SASSY => case CAREFUL => case QUIRKY =>
  }

  /** All natures, in declaration order. */
  function AllNatures(): (all: seq<Nature>)
    ensures |all| == 25
    ensures forall k :: 0 <= k < 25 ==> NatureOrdinal(all[k]) == k
  {
    [HARDY, LONELY, BRAVE, ADAMANT, NAUGHTY, BOLD, DOCILE, RELAXED, IMPISH, LAX,
     TIMID, HASTY, SERIOUS, JOLLY, NAIVE, MODEST, MILD, QUIET, BASHFUL, RASH,
     CALM, GENTLE, SASSY, CAREFUL, QUIRKY]
  }

  lemma AllNaturesComplete(n: Nature)
    ensures n in AllNatures()
  {
    assert AllNatures()[NatureOrdinal(n)] == n by { NatureOrdinalInjective(n, AllNatures()[NatureOrdinal(n)]); }
  }

  lemma NatureOrdinalInjective(a: Nature, b: Nature)
    requires NatureOrdinal(a) == NatureOrdinal(b)
    ensures a == b
  {
  }

  /** The natures that raise (resp. lower) a stat. */
  function Raising(s: Stat): set<Nature> {
    set n | n in AllNatures() && StatMultiplier(n, s) > 1.0
  }

  function Lowering(s: Stat): set<Nature> {
    set n | n in AllNatures() && StatMultiplier(n, s) < 1.0
  }

  /** Raising and Lowering are exactly the natures the table raises and lowers the stat for. */
  lemma RaisingLoweringAre(s: Stat, up: set<Nature>, down: set<Nature>)
    requires forall n :: StatMultiplier(n, s) > 1.0 <==> n in up
    requires forall n :: StatMultiplier(n, s) < 1.0 <==> n in down
    ensures Raising(s) == up && Lowering(s) == down
  {
    forall n ensures n in AllNatures() { AllNaturesComplete(n); }
  }

  /** Each of ATK, DEF, SPATK, SPDEF and SPD is raised by exactly four natures and lowered by exactly four. */
  lemma FourEachWay(s: Stat)
    requires s != HP
    ensures |Raising(s)| == 4 && |Lowering(s)| == 4
  {
    TableLists(s);
    RaisingLoweringAre(s, RaisedBy(s), LoweredBy(s));
    ListsHaveFour(s);
  }

  /** The table raises a stat for exactly the natures of RaisedBy and lowers it for exactly those of LoweredBy. */
  lemma TableLists(s: Stat)
    ensures forall n :: StatMultiplier(n, s) > 1.0 <==> n in RaisedBy(s)
    ensures forall n :: StatMultiplier(n, s) < 1.0 <==> n in LoweredBy(s)
  {
    forall n ensures StatMultiplier(n, s) > 1.0 <==> n in RaisedBy(s) {
      match s case ATK => case DEF => case SPATK => case SPDEF => case SPD => case HP =>
    }
    forall n ensures StatMultiplier(n, s) < 1.0 <==> n in LoweredBy(s) {
      match s case ATK => case DEF => case SPATK => case SPDEF => case SPD => case HP =>
    }
  }

  lemma ListsHaveFour(s: Stat)
    requires s != HP
    ensures |RaisedBy(s)| == 4 && |LoweredBy(s)| == 4
  {
    match s case ATK => case DEF => case SPATK => case SPDEF => case SPD =>
  }

  /** The four natures the table raises a stat for, as listed in the table. */
  function RaisedBy(s: Stat): set<Nature> {
    match s
    case ATK => {LONELY, BRAVE, ADAMANT, NAUGHTY}
    case DEF => {BOLD, RELAXED, IMPISH, LAX}
    case SPATK => {MODEST, MILD, QUIET, RASH}
    case SPDEF => {CALM, GENTLE, SASSY, CAREFUL}
    case SPD => {TIMID, HASTY, JOLLY, NAIVE}
    case HP => {}
  }

  /** The four natures the table lowers a stat for. */
  function LoweredBy(s: Stat): set<Nature> {
    match s
    case ATK => {BOLD, TIMID, MODEST, CALM}
    case DEF => {LONELY, HASTY, MILD, GENTLE}
    case SPATK => {ADAMANT, IMPISH, JOLLY, CAREFUL}
    case SPDEF => {NAUGHTY, LAX, NAIVE, RASH}
    case SPD => {BRAVE, RELAXED, QUIET, SASSY}
    case HP => {}
  }

  /** The stats a nature is checked against: every stat but HP, in enum order. */
  function NatureStats(): seq<Stat> {
    [ATK, DEF, SPATK, SPDEF, SPD]
  }

  /**
   * The detection loop of the stat-effect name: scans the stats after HP and
   * remembers a raised and a lowered one.
   */
  method FindStatEffects(nature: Nature) returns (increased: Option<Stat>, decreased: Option<Stat>)
    ensures forall s :: s != HP ==> (increased == Some(s) <==> StatMultiplier(nature, s) > 1.0)
    ensures forall s :: s != HP ==> (decreased == Some(s) <==> StatMultiplier(nature, s) < 1.0)
    ensures increased.None? <==> IsNeutral(nature)
    ensures decreased.None? <==> IsNeutral(nature)
  {
    var stats := NatureStats();
    increased, decreased := None, None;
    var i := 0;
    while i < |stats|
      invariant 0 <= i <= |stats|
      invariant increased.Some? ==> increased.value != HP && StatMultiplier(nature, increased.value) > 1.0
      invariant decreased.Some? ==> decreased.value != HP && StatMultiplier(nature, decreased.value) < 1.0
      invariant increased.None? ==> forall j :: 0 <= j < i ==> StatMultiplier(nature, stats[j]) <= 1.0
      invariant decreased.None? ==> forall j :: 0 <= j < i ==> StatMultiplier(nature, stats[j]) >= 1.0
    {
      var multiplier := StatMultiplier(nature, stats[i]);
      if multiplier > 1.0 {
        increased := Some(stats[i]);
      } else if multiplier < 1.0 {
        decreased := Some(stats[i]);
      }
      i := i + 1;
    }
    forall s | s != HP
      ensures increased.None? ==> StatMultiplier(nature, s) <= 1.0
      ensures decreased.None? ==> StatMultiplier(nature, s) >= 1.0
    {
      assert s in stats;
      var j :| 0 <= j < |stats| && stats[j] == s;
    }
    ScanFindsEffects(nature, increased, decreased);
  }

  /**
   * What the scan leaves behind determines the nature's effects: a stat it
   * kept is the raised (lowered) one, and if it kept none no stat is raised
   * (lowered).
   */
  lemma ScanFindsEffects(nature: Nature, increased: Option<Stat>, decreased: Option<Stat>)
    requires increased.Some? ==> increased.value != HP && StatMultiplier(nature, increased.value) > 1.0
    requires decreased.Some? ==> decreased.value != HP && StatMultiplier(nature, decreased.value) < 1.0
    requires increased.None? ==> forall s :: s != HP ==> StatMultiplier(nature, s) <= 1.0
    requires decreased.None? ==> forall s :: s != HP ==> StatMultiplier(nature, s) >= 1.0
    ensures forall s :: s != HP ==> (increased == Some(s) <==> StatMultiplier(nature, s) > 1.0)
    ensures forall s :: s != HP ==> (decreased == Some(s) <==> StatMultiplier(nature, s) < 1.0)
    ensures increased.None? <==> IsNeutral(nature)
    ensures decreased.None? <==> IsNeutral(nature)
  {
    forall s | s != HP
      ensures increased == Some(s) <==> StatMultiplier(nature, s) > 1.0
      ensures decreased == Some(s) <==> StatMultiplier(nature, s) < 1.0
    {
      if increased.Some? { StatMultiplierShape(nature, s, increased.value); }
      if decreased.Some? { StatMultiplierShape(nature, s, decreased.value); }
    }
    StatMultiplierShape(nature, HP, HP);
    if IsNeutral(nature) {
      if increased.Some? { StatMultiplierShape(nature, increased.value, HP); }
      if decreased.Some? { StatMultiplierShape(nature, decreased.value, HP); }
    } else {
      var u :| StatMultiplier(nature, u) > 1.0;
      var v :| StatMultiplier(nature, v) < 1.0;
      assert u != HP && v != HP;
    }
  }

  /** Text styles the name fragments are tagged with. */
  datatype TextStyle = WINDOW | SUMMARY_ALT | SUMMARY_PINK | SUMMARY_BLUE

  /** The separator between the name and the effects: a line break, or a space on the starter screen. */
  function Separator(forStarterSelect: bool): string {
    if !forStarterSelect then "\n" else " "
  }

  /**
   * The display name of a nature.  `statName` is the short stat name
   * (src/data/pokemon-stat.ts is not part of this model) and `bbcodeFrag`
   * the markup wrapper of src/ui/text.ts, used unless `ignoreBBCode`.
   */
  method NatureName(nature: Nature, includeStatEffects: bool, forStarterSelect: bool, ignoreBBCode: bool,
                    statName: Stat -> string, bbcodeFrag: (string, TextStyle) -> string) returns (r: string)
    ensures !includeStatEffects ==> r == ChineseName(nature)
    ensures includeStatEffects ==>
      var frag := (t: string, st: TextStyle) => if ignoreBBCode then t else bbcodeFrag(t, st);
      var style := if forStarterSelect then SUMMARY_ALT else WINDOW;
      var head := ChineseName(nature) + Separator(forStarterSelect);
      if IsNeutral(nature) then
        r == frag(head + "(-)", style)
      else
        exists up, down :: up != HP && down != HP && up != down &&
          StatMultiplier(nature, up) == 1.1 && StatMultiplier(nature, down) == 0.9 &&
          r == frag(head + "(", style) + frag("+" + statName(up), SUMMARY_PINK) + frag("/", style)
               + frag("-" + statName(down), SUMMARY_BLUE) + frag(")", style)
  {
    r := ChineseName(nature);
    if includeStatEffects {
      var increased, decreased := FindStatEffects(nature);
      var style := if forStarterSelect then SUMMARY_ALT else WINDOW;
      var frag := (t: string, st: TextStyle) => if ignoreBBCode then t else bbcodeFrag(t, st);
      if increased.Some? && decreased.Some? {
        var up, down := increased.value, decreased.value;
        r := frag(r + Separator(forStarterSelect) + "(", style) + frag("+" + statName(up), SUMMARY_PINK)
             + frag("/", style) + frag("-" + statName(down), SUMMARY_BLUE) + frag(")", style);
        StatMultiplierShape(nature, up, down);
      } else {
        r := frag(r + Separator(forStarterSelect) + "(-)", style);
      }
    }
  }

  /** Without markup, the name of a neutral nature with its effects ends in "(-)". */
  lemma NeutralNameEndsWithDash(nature: Nature, forStarterSelect: bool)
    requires IsNeutral(nature)
    ensures var t := ChineseName(nature) + Separator(forStarterSelect) + "(-)";
      t[|t| - 3..] == "(-)" && t[..|ChineseName(nature)|] == ChineseName(nature)
  {
    var t := ChineseName(nature) + Separator(forStarterSelect) + "(-)";
    assert t == ChineseName(nature) + (Separator(forStarterSelect) + "(-)");
  }
}
