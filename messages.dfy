/**
 * Battle message construction (src/messages.ts): a combatant's message is a
 * prefix that depends on the battle's spec and on whose side the combatant
 * fights, then its name, then the content.
 */
module Messages {
  import opened Wrappers

  /** The battle's spec; specs other than the two named ones are kept apart by number. */
  datatype BattleSpec = DEFAULT | FINAL_BOSS | OtherSpec(ordinal: nat)

  /** What the message needs to know about the combatant. */
  datatype Speaker = Speaker(name: string, isPlayer: bool, hasTrainer: bool)

  /** The prefix, or None when the spec leaves it unassigned. */
  function PokemonPrefix(spec: BattleSpec, p: Speaker): Option<string> {
    match spec
    case DEFAULT => Some(if !p.isPlayer then (if p.hasTrainer then "对手 " else "野生 ") else "")
    case FINAL_BOSS => Some(if !p.isPlayer then "对手 " else "")
    case OtherSpec(_) => None
  }

  /** How a template literal renders the prefix: an unassigned one reads "undefined". */
  function PrefixText(prefix: Option<string>): string {
    prefix.GetOr("undefined")
  }

  function PokemonMessage(spec: BattleSpec, p: Speaker, content: string): string {
    PrefixText(PokemonPrefix(spec, p)) + p.name + content
  }

  /** The message splits into the rendered prefix, the name and the content, in that order. */
  lemma PokemonMessageParts(spec: BattleSpec, p: Speaker, content: string)
    ensures var m := PokemonMessage(spec, p, content);
      var k := |PrefixText(PokemonPrefix(spec, p))|;
      |m| == k + |p.name| + |content| &&
      m[..k] == PrefixText(PokemonPrefix(spec, p)) &&
      m[k..k + |p.name|] == p.name &&
      m[k + |p.name|..] == content
  {
    var pre := PrefixText(PokemonPrefix(spec, p));
    var m := PokemonMessage(spec, p, content);
    assert m == pre + p.name + content;
    assert m[..|pre|] == pre;
    assert m[|pre|..] == p.name + content;
    assert m[|pre|..][..|p.name|] == p.name;
  }

  /**
   * In the two named specs a player's combatant has no prefix; a foe gets
   * '对手 ' when it has a trainer or in the final boss battle, and '野生 '
   * when it is wild in a default battle.  Every other spec leaves the prefix
   * unassigned.
   */
  lemma PokemonPrefixCases(spec: BattleSpec, p: Speaker)
    ensures spec.OtherSpec? <==> PokemonPrefix(spec, p).None?
    ensures !spec.OtherSpec? ==> (PokemonPrefix(spec, p) == Some("") <==> p.isPlayer)
    ensures !spec.OtherSpec? && !p.isPlayer ==>
      (PokemonPrefix(spec, p) == Some("对手 ") <==> spec == FINAL_BOSS || p.hasTrainer)
    ensures PokemonPrefix(spec, p) == Some("野生 ") <==> spec == DEFAULT && !p.isPlayer && !p.hasTrainer
  {
    if !spec.OtherSpec? && !p.isPlayer {
      var s := PokemonPrefix(spec, p).value;
      assert s[0] == '对' || s[0] == '野';
    }
  }

  /** An unassigned prefix makes the message start with the text "undefined". */
  lemma UnassignedPrefixRendersUndefined(n: nat, p: Speaker, content: string)
    ensures PokemonMessage(OtherSpec(n), p, content)[..9] == "undefined"
  {
    PokemonMessageParts(OtherSpec(n), p, content);
  }
}
