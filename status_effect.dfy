/**
 * Non-volatile status conditions (src/data/status-effect.ts): the `Status`
 * record a combatant owns, its turn bookkeeping, the catch-rate table, the
 * two "pick one of two statuses" helpers and the text shown when a status
 * is obtained.
 */
module StatusEffects {
  import opened Wrappers

  datatype StatusEffect = NONE | POISON | TOXIC | PARALYSIS | SLEEP | FREEZE | BURN | FAINT

  /** A status that actually afflicts its holder: neither NONE nor FAINT. */
  predicate IsAffliction(e: StatusEffect) {
    e != NONE && e != FAINT
  }

  /** A combatant's status: an effect with a turn counter and an optional cure turn. */
  class Status {
    var effect: StatusEffect
    var turnCount: int
    var cureTurn: Option<int>

    /** `turnCount` defaults to 0 when it is not given. */
    constructor (effect: StatusEffect, turnCount: Option<int>, cureTurn: Option<int>)
      ensures this.effect == effect
      ensures this.turnCount == (if turnCount.Some? then turnCount.value else 0)
      ensures this.cureTurn == cureTurn
    {
      this.effect := effect;
      this.turnCount := if turnCount.Some? then turnCount.value else 0;
      this.cureTurn := cureTurn;
    }

    /** Advances the counter by one and leaves the effect and the cure turn alone. */
    method IncrementTurn()
      modifies this
      ensures turnCount == old(turnCount) + 1
      ensures effect == old(effect) && cureTurn == old(cureTurn)
    {
      turnCount := turnCount + 1;
    }

    /** Whether the status acts after the holder's turn (poison, toxic, burn). */
    predicate IsPostTurn()
      reads this
    {
      DealsPostTurnDamage(effect)
    }
  }

  predicate DealsPostTurnDamage(e: StatusEffect) {
    e == POISON || e == TOXIC || e == BURN
  }

  /** Every status that acts after the turn is an affliction, and sleep, freeze and paralysis do not act then. */
  lemma PostTurnStatuses(e: StatusEffect)
    ensures DealsPostTurnDamage(e) ==> IsAffliction(e)
    ensures DealsPostTurnDamage(e) <==> IsAffliction(e) && e !in {PARALYSIS, SLEEP, FREEZE}
  {
  }

  /** Catch-rate bonus of a status: 1.5 for poison, toxic, paralysis and burn, 2.5 for sleep and freeze, 1 otherwise. */
  function CatchRateMultiplier(e: StatusEffect): (r: real)
    ensures r >= 1.0
    ensures r == 1.0 <==> !IsAffliction(e)
    ensures r == 2.5 <==> e == SLEEP || e == FREEZE
    ensures r == 1.5 <==> e == POISON || e == TOXIC || e == PARALYSIS || e == BURN
  {
    match e
    case POISON | TOXIC | PARALYSIS | BURN => 1.5
    case SLEEP | FREEZE => 2.5
    case _ => 1.0
  }

  /**
   * One of two status effects.  `coin` is whether the draw `randIntRange(0, 2)`
   * came out non-zero; it only matters when both effects are afflictions.
   */
  function RandomStatusEffect(a: StatusEffect, b: StatusEffect, coin: bool): (r: StatusEffect)
    ensures r == a || r == b
    ensures !IsAffliction(a) ==> r == b
    ensures IsAffliction(a) && !IsAffliction(b) ==> r == a
    ensures IsAffliction(a) || IsAffliction(b) ==> IsAffliction(r)
  {
    if !IsAffliction(a) then b
    else if !IsAffliction(b) then a
    else if coin then a else b
  }

  /** When at least one input is an affliction, swapping the inputs and the coin picks the same effect. */
  lemma RandomStatusEffectSymmetric(a: StatusEffect, b: StatusEffect, coin: bool)
    requires IsAffliction(a) || IsAffliction(b)
    ensures RandomStatusEffect(a, b, coin) == RandomStatusEffect(b, a, !coin)
  {
  }

  /** Whether an optional status is absent or carries no affliction. */
  predicate IsVacant(s: Option<Status>)
    reads if s.Some? then {s.value} else {}
  {
    s.None? || !IsAffliction(s.value.effect)
  }

  /**
   * One of two optional statuses, `undefined` (None) counting like NONE and
   * FAINT; `coin` as in RandomStatusEffect.  The result is one of the two
   * objects, not a copy.
   */
  function RandomStatus(a: Option<Status>, b: Option<Status>, coin: bool): (r: Option<Status>)
    reads if a.Some? then {a.value} else {}
    reads if b.Some? then {b.value} else {}
    ensures r == a || r == b
    ensures IsVacant(a) ==> r == b
    ensures !IsVacant(a) && IsVacant(b) ==> r == a
    ensures !IsVacant(a) || !IsVacant(b) ==> r.Some? && IsAffliction(r.value.effect)
  {
    if IsVacant(a) then b
    else if IsVacant(b) then a
    else if coin then a else b
  }

  /** RandomStatus picks the object whose effect RandomStatusEffect picks, when both are present. */
  lemma RandomStatusAgreesWithEffects(a: Status, b: Status, coin: bool)
    ensures RandomStatus(Some(a), Some(b), coin).value.effect == RandomStatusEffect(a.effect, b.effect, coin)
  {
  }

  /** The clause naming what inflicted the status: " by <source>", " from <source>" for sleep, or nothing. */
  function SourceClause(e: StatusEffect, sourceText: Option<string>): string {
    if sourceText.Some? && sourceText.value != "" then
      " " + (if e != SLEEP then "by" else "from") + " " + sourceText.value
    else ""
  }

  /** The text shown when a status is obtained, with the source clause spliced in; '' for NONE and FAINT. */
  function ObtainText(e: StatusEffect, sourceText: Option<string>): string {
    var clause := SourceClause(e, sourceText);
    match e
    case POISON => "\n中毒了" + clause + "！"
    case TOXIC => "\n中了剧毒" + clause + "！"
    case PARALYSIS => "陷入麻痹状态了" + clause + "！\n它可能无法动弹！"
    case SLEEP => "\n睡着了" + clause + "！"
    case FREEZE => "\n被冻住了" + clause + "！"
    case BURN => "\n被烧伤了" + clause + "！"
    case _ => ""
  }

  /** Where the source clause goes in the text of an affliction. */
  function ClauseOffset(e: StatusEffect): nat {
    match e
    case POISON => 4
    case TOXIC => 5
    case PARALYSIS => 7
    case SLEEP => 4
    case FREEZE => 5
    case BURN => 5
    case _ => 0
  }

  /** The connective is "from" exactly for sleep, and "by" for every other status. */
  lemma SourceClauseConnective(e: StatusEffect, source: string)
    requires source != ""
    ensures SourceClause(e, Some(source)) == " from " + source <==> e == SLEEP
    ensures SourceClause(e, Some(source)) == " by " + source <==> e != SLEEP
    ensures SourceClause(e, None) == "" && SourceClause(e, Some("")) == ""
  {
    var c := SourceClause(e, Some(source));
    if e == SLEEP {
      assert c == " from " + source;
      assert c[1] == 'f';
      assert (" by " + source)[1] == 'b';
    } else {
      assert c == " by " + source;
      assert c[1] == 'b';
      assert (" from " + source)[1] == 'f';
    }
  }

  /**
   * The obtain text is empty exactly for NONE and FAINT; otherwise the text
   * with a source is the text without one with the source clause spliced in
   * at ClauseOffset.
   */
  lemma ObtainTextSplice(e: StatusEffect, sourceText: Option<string>)
    ensures ObtainText(e, sourceText) == "" <==> !IsAffliction(e)
    ensures IsAffliction(e) ==>
      var bare := ObtainText(e, None);
      ClauseOffset(e) <= |bare| &&
      ObtainText(e, sourceText) == bare[..ClauseOffset(e)] + SourceClause(e, sourceText) + bare[ClauseOffset(e)..]
  {
    var clause := SourceClause(e, sourceText);
    var bare := ObtainText(e, None);
    match e
    case POISON =>
      assert bare == "\n中毒了" + "！";
      assert bare[..4] == "\n中毒了" && bare[4..] == "！";
    case TOXIC =>
      assert bare == "\n中了剧毒" + "！";
      assert bare[..5] == "\n中了剧毒" && bare[5..] == "！";
    case PARALYSIS =>
      assert bare == "陷入麻痹状态了" + "！\n它可能无法动弹！";
      assert bare[..7] == "陷入麻痹状态了" && bare[7..] == "！\n它可能无法动弹！";
    case SLEEP =>
      assert bare == "\n睡着了" + "！";
      assert bare[..4] == "\n睡着了" && bare[4..] == "！";
    case FREEZE =>
      assert bare == "\n被冻住了" + "！";
      assert bare[..5] == "\n被冻住了" && bare[5..] == "！";
    case BURN =>
      assert bare == "\n被烧伤了" + "！";
      assert bare[..5] == "\n被烧伤了" && bare[5..] == "！";
    case _ =>
  }
}
