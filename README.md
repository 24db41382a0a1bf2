# Battle effects of a Pokémon roguelike, in Dafny

This project models the battle-effect layer of the game: the effects that
sit on a combatant (battler tags), the effects that sit on the field
(arena tags), weather, status effects, berries, natures, eggs, the battle
and temporary stats with their wording, the achievement table, and the
prefix every combatant message starts with.

An entity the game updates in place becomes a class with the same fields:
`BattlerTag`, `ArenaTag`, `Weather`, `Status`, `Achv`, `BerryHolder`, and
the `BooleanHolder`/`NumberHolder` boxes. Each method is specified by a
pure function of the old state, and the game's rules are proved as lemmas
about those functions. Everything else is datatypes and functions.

The model takes some things as parameters:

- Random draws: a coin, a draw value, or a `randSeedInt` function.
- The view of the combatant and of the field that a rule reads (`Bearer`,
  `Entrant`, `HolderState`, `FieldMember`).
- The ability hooks (`double` for `DoubleBerryEffectAbAttr`).
- The featured legendary's name.

Messages, phases and animations become event values in the result, not
calls into the scene. Floats are `real`. Integer rounding
(`Math.floor`, `Math.ceil`, `Math.max(…, 1)`) is written out.

Modules, one per source file:

| Dafny module | source file |
|---|---|
| `BattlerTags` | src/data/battler-tags.ts |
| `ArenaTags` | src/data/arena-tag.ts |
| `Weathers` | src/data/weather.ts |
| `StatusEffects` | src/data/status-effect.ts |
| `Berries` | src/data/berry.ts |
| `Natures` | src/data/nature.ts |
| `Eggs` | src/data/egg.ts |
| `BattleStats` | src/data/battle-stat.ts |
| `TempBattleStats` | src/data/temp-battle-stat.ts |
| `Achievements` | src/system/achv.ts |
| `Messages` | src/messages.ts |

Four support modules back them:

- `Kinds`: the enums the core imports (types, stats, moves, tag types).
- `Wrappers`: `Option`, for `undefined`.
- `HpFractions`: rounded HP shares.
- `Decimal`: decimal text and `toLocaleString('en-US')`.

## Model

| member | source | states |
|---|---|---|
| Messages.PokemonMessageParts | src/messages.ts:4-6 | A message is the rendered prefix, then the combatant's name, then the content. Each part sits at its own position and can be cut back out. |
| Messages.PokemonPrefixCases | src/messages.ts:8-19 | The prefix is unassigned exactly for the other battle specs. A player's combatant gets the empty prefix. A foe gets the opponent prefix exactly when it has a trainer or the battle is the final boss. It gets the wild prefix exactly when it is wild in a default battle. |
| Messages.UnassignedPrefixRendersUndefined | src/messages.ts:4-19 | Under a battle spec the switch does not name, the message starts with the text "undefined". |
| BattleStats.FromOrdinal | src/data/battle-stat.ts:1-10 | A stat exists for exactly the numbers 0..7, and its number is the one asked for. |
| BattleStats.OrdinalRoundTrip | src/data/battle-stat.ts:1-10 | Numbering a stat and looking the number up gives the same stat back. |
| BattleStats.BattleStatNameUnknown | src/data/battle-stat.ts:12-31 | The name is '???' exactly outside ATK..EVA, which includes RAND. |
| BattleStats.BattleStatNamesDistinct | src/data/battle-stat.ts:12-31 | The seven named stats have pairwise different names. |
| BattleStats.Bracket | src/data/battle-stat.ts:33-63 | Splits stage counts into the four wording groups: 1, 2, 3 to 6, and anything else. |
| BattleStats.LevelChangeWording | src/data/battle-stat.ts:33-63 | The description is the group's intensifier followed by the verb for a raise or a drop. |
| BattleStats.LevelChangeByBracket | src/data/battle-stat.ts:33-63 | Two stage counts are described alike exactly when they fall in the same group. |
| BattleStats.LevelChangeUpDiffersFromDown | src/data/battle-stat.ts:33-63 | No raise is ever worded like a drop. |
| TempBattleStats.OrdinalsCoincide | src/data/temp-battle-stat.ts:3-11 | Each temporary stat shares its number with the battle stat of the same name. CRIT shares its number with EVA. |
| TempBattleStats.TempBattleStatNameAgrees | src/data/temp-battle-stat.ts:13-17 | CRIT has its own name. Every other temporary stat is named like the battle stat with its number, and never '???'. |
| TempBattleStats.TempBattleStatNamesDistinct | src/data/temp-battle-stat.ts:13-17 | The seven temporary stats have pairwise different names. |
| TempBattleStats.BoosterItemNamesDistinct | src/data/temp-battle-stat.ts:19-36 | Every booster item has a non-empty name, and no two share one. |
| Eggs.EggSeedIsPowerOfTwo | src/data/egg.ts:8 | The egg seed is 2^30. |
| Eggs.NewEgg | src/data/egg.ts:23-29 | A new egg keeps the given fields. Its tier is the one whose seed interval contains the id. |
| Eggs.ManaphyIds | src/data/egg.ts:31-33 | An egg is a Manaphy egg exactly when its id is a non-negative multiple of 255 below the seed. |
| Eggs.GetKeyReadsBack | src/data/egg.ts:35-39 | The key is 'manaphy' exactly for a Manaphy egg. Any other key parses back to the egg's tier. |
| Eggs.DefaultHatchWavesMonotone | src/data/egg.ts:42-52 | A higher tier never hatches sooner, and the default is one of 10, 25, 50 or 100. |
| Eggs.EggDescriptorOrder | src/data/egg.ts:54-67 | The Manaphy check comes before the tier. Common tiers, and tiers outside the named ones, read as common. |
| Eggs.HatchWavesMessageBrackets | src/data/egg.ts:69-79 | Two wave counts get the same message exactly when they fall in the same bracket (≤5, ≤15, ≤50, more). |
| Eggs.DefaultHatchMessage | src/data/egg.ts:42-79 | A fresh common egg sounds close, a great or ultra egg far, and any other egg very far. |
| Eggs.GachaTypeDescriptorNames | src/data/egg.ts:81-90 | Only the legendary text names a species, and the name stands between the brackets. The other texts do not depend on the name. |
| Decimal.IntToStringRoundTrip | src/data/egg.ts:35-39 | An amount written in decimal reads back as the same integer. |
| Decimal.LocaleStringReadsBack | src/system/achv.ts:66-104 | Write an amount with thousands separators, remove the separators, and it reads back as the same integer. |
| StatusEffects.Status.constructor | src/data/status-effect.ts:19-23 | The status keeps its effect and cure turn. A missing turn count becomes 0. |
| StatusEffects.Status.IncrementTurn | src/data/status-effect.ts:25-27 | The counter goes up by exactly one, and nothing else changes. |
| StatusEffects.PostTurnStatuses | src/data/status-effect.ts:29-31 | Exactly the afflictions other than paralysis, sleep and freeze act after the turn. |
| StatusEffects.CatchRateMultiplier | src/data/status-effect.ts:124-137 | The bonus is at least 1. It is exactly 1 without an affliction, 2.5 for sleep or freeze, and 1.5 for poison, toxic, paralysis or burn. |
| StatusEffects.RandomStatusEffect | src/data/status-effect.ts:151-160 | Picks one of the two effects. A non-affliction is never picked over an affliction. |
| StatusEffects.RandomStatusEffectSymmetric | src/data/status-effect.ts:151-160 | When one input is an affliction, swapping the inputs and flipping the coin picks the same effect. |
| StatusEffects.RandomStatus | src/data/status-effect.ts:167-177 | Picks one of the two statuses. A vacant one never wins over a real one, and if either is real the result is an affliction. |
| StatusEffects.RandomStatusAgreesWithEffects | src/data/status-effect.ts:151-177 | When both statuses are present, the status pick and the effect pick choose the same effect. |
| StatusEffects.SourceClauseConnective | src/data/status-effect.ts:34-52 | The source is introduced by "from" exactly for sleep and by "by" otherwise. A missing or empty source adds nothing. |
| StatusEffects.ObtainTextSplice | src/data/status-effect.ts:34-52 | The text is empty exactly for non-afflictions. For an affliction, it is the fixed text with the source clause inserted at the affliction's offset. |
| Natures.StatMultiplierMatchesGrid | src/data/nature.ts:92-167 | The written table equals the grid formula, which reads the raised and lowered stat from the nature's number, for every nature and stat. |
| Natures.StatMultiplierShape | src/data/nature.ts:92-167 | Every multiplier is 0.9, 1 or 1.1. HP is never changed. A neutral nature changes nothing. Any other nature raises exactly one stat and lowers exactly one. |
| Natures.AllNatures | src/data/nature.ts:92-167 | Lists the 25 natures in number order. |
| Natures.TableLists | src/data/nature.ts:92-167 | For each stat, the table raises it for exactly the natures listed as raising it, and lowers it for exactly those listed as lowering it. |
| Natures.FourEachWay | src/data/nature.ts:92-167 | Each of the five non-HP stats is raised by exactly four natures and lowered by exactly four. |
| Natures.FindStatEffects | src/data/nature.ts:75-81 | The search over ATK..SPD finds the stat the nature raises and the stat it lowers, if any. Neither is found exactly for a neutral nature. |
| Natures.NatureName | src/data/nature.ts:68-90 | Without stat effects, the result is the plain name. With them, it is the name, the separator, and the raised and lowered stat in the chosen markup, or "(-)" for a neutral nature. |
| Natures.NeutralNameEndsWithDash | src/data/nature.ts:68-90 | Without markup, a neutral nature's name with effects ends in "(-)". |
| Weathers.DamageRules | src/data/weather.ts:42-72 | The extreme weathers never damage. A weather spares some type exactly when it damages. |
| Weathers.TypeDamageImmunity | src/data/weather.ts:63-72 | Sandstorm spares exactly Ground, Rock and Steel. Hail spares exactly Ice. |
| Weathers.AttackTypeMultiplierRules | src/data/weather.ts:74-93 | Only Fire and Water moves under sun or rain change, by ×1.5 or ×0.5. The harsh and heavy variants act like plain sun and rain. |
| Weathers.MoveCancellationRules | src/data/weather.ts:95-104 | A move is cancelled exactly when it attacks with the type an extreme weather halves. |
| Weathers.SuppressesMutable | src/data/weather.ts:106-118 | A normal weather is suppressed by any combatant whose ability, or whose passive if it has one, has the attribute. |
| Weathers.AbilityAttrShadowsPassive | src/data/weather.ts:106-118 | An ability attribute that does not reach extreme weather hides a passive that would. |
| Weathers.Weather.constructor | src/data/weather.ts:28-31 | An extreme weather starts with no countdown. Any other weather starts with the given turns, or 0 when none are given. |
| Weathers.Weather.Lapse | src/data/weather.ts:33-40 | One lapse changes the new turn count and result as LapseStep does, and never the type. |
| Weathers.Weather.IsEffectSuppressed | src/data/weather.ts:106-118 | The weather is suppressed exactly when some combatant on the field suppresses weather of its mutability. |
| Weathers.LapseCountdown | src/data/weather.ts:33-40 | A weather with n ≥ 1 turns lasts exactly n − 1 lapses and ends on the n-th. Each lapse lowers the count by one. |
| Weathers.LapsePersistent | src/data/weather.ts:33-40 | A weather with no countdown, or an extreme one, survives every lapse, and its count does not change. |
| Weathers.GetRandomWeatherType | src/data/weather.ts:246-381 | Returns the weather of the intended pool that the weighted draw lands on, or NONE when the pool is empty. The generator is asked for a draw below the pool's total weight, and only when the pool has more than one entry. |
| Weathers.DrawWeather | src/data/weather.ts:365-380 | The two loops sum the pool's weights and return the first entry whose running weight exceeds the draw, as ChooseWeather does. A pool of one entry skips the draw. |
| Weathers.FirstExceedingInRange | src/data/weather.ts:365-380 | A draw below the total weight always finds an entry, and the entry is one of the pool's weathers. |
| Weathers.PoolShape | src/data/weather.ts:246-364 | Every pool has positive weights and holds only weathers that count down. A pool is empty only for unlisted biomes. |
| Weathers.MeadowFallsThrough | src/data/weather.ts:326-336 | As written, MEADOW gets the VOLCANO pool, which draws sun whenever there is sun. |
| Weathers.MeadowIntendedPool | src/data/weather.ts:326-336 | The intended MEADOW pool draws NONE and SUNNY half each in daylight, and always NONE otherwise. At draw 0 it differs from the code as written. |
| Weathers.OnlyMeadowDiffers | src/data/weather.ts:246-364 | Every biome other than MEADOW has the same pool as written and as intended. |
| Berries.BerryStatMapping | src/data/berry.ts:141-153 | Each of the five stat berries raises its own stat, ATK..SPD in order. No other berry raises a stat. |
| Berries.BerryNamesDistinct | src/data/berry.ts:26-47 | Every berry has a non-empty name, and no two share one. |
| Berries.StatBerryDescriptionNamesStat | src/data/berry.ts:49-71 | A stat berry's description names the stat it raises. |
| Berries.SuperEffectiveCount | src/data/berry.ts:81-82 | The count is at most the number of hits, and positive exactly when some hit was super effective. |
| Berries.PpEmptyMeansSpent | src/data/berry.ts:106-111 | A move with PP has none left exactly when all of its PP has been spent. |
| Berries.FirstEmptyMove | src/data/berry.ts:106-111 | Finds the first move that is out of PP. None is found exactly when every move still has PP. |
| Berries.BerryPredicateRules | src/data/berry.ts:75-113 | Each berry's trigger under the intended rule: SITRUS below half HP; LUM on a status or confusion; ENIGMA after some super-effective hit; a stat berry below the threshold while the stage is below +6; LANSAT below the threshold without a crit boost; STARF below the threshold; LEPPA when some move is out of PP. The code as written compares LANSAT and STARF with 0.25 instead (see Findings). |
| Berries.AsWrittenAgreesAtDefault | src/data/berry.ts:94-105 | At the unadjusted threshold of 0.25, the code as written triggers every berry exactly as intended. |
| Berries.AsWrittenDiffers | src/data/berry.ts:94-105 | For every berry, holder and threshold: the trigger as written and the intended one disagree exactly for LANSAT and STARF, when the HP ratio lies between 0.25 and the threshold and, for LANSAT, there is no crit boost yet. |
| Berries.EffectBookkeeping | src/data/berry.ts:117-177 | Eating adds the berry to the eaten list when there is battle data and only appends to the log. Only LUM changes the status and only LEPPA the moves. |
| Berries.EffectAmounts | src/data/berry.ts:117-177 | SITRUS and ENIGMA queue a heal of a quarter of max HP, rounded down. A stat berry queues +1 on its stat and STARF +2 on a random stat, each through the doubling hook. Only LEPPA with no empty move fails. |
| Berries.LumCures | src/data/berry.ts:129-140 | LUM clears the status and logs the cure only when there was a status, and lapses confusion only when confused. |
| Berries.LeppaRestoresFirstEmptyMove | src/data/berry.ts:168-175 | LEPPA gives back up to 10 PP to the first move that is out of PP, never below zero spent, and changes no other move. |
| Berries.BerryHolder.Eat | src/data/berry.ts:117-177 | The holder's new state and the failure flag are those of the effect step on the old state. |
| Achievements.TierForBounds | src/system/achv.ts:53-63 | A score's tier is the highest one whose floor it reaches. A higher score never earns a lower tier. |
| Achievements.ThresholdConditions | src/system/achv.ts:66-114 | A threshold condition holds exactly when the watched value reaches it, and keeps holding as the value grows. No condition always holds. |
| Achievements.WeakerImplied | src/system/achv.ts:66-114 | Meeting a condition meets every condition of the same kind with a lower threshold. |
| Achievements.MoneyDescriptionShowsAmount | src/system/achv.ts:66-74 | The money description contains the amount with separators, which reads back as the amount. |
| Achievements.Achv.constructor | src/system/achv.ts:27-33 | Keeps the given fields, with no id, no parent and not secret. |
| Achievements.Achv.ThresholdAchv | src/system/achv.ts:66-114 | A threshold achievement's description is built from its threshold. |
| Achievements.Achv.SetSecret | src/system/achv.ts:43-47 | Makes the achievement secret, records whether it has a parent (missing means no), returns itself, and changes nothing else. |
| Achievements.InitIds | src/system/achv.ts:165-174 | Each achievement gets its key as its id. One with a parent gets the previous key as its parent id, and nothing else changes. |
| Achievements.TableParentChains | src/system/achv.ts:122-163 | In the table, every achievement with a parent comes right after it. The parent has a weaker condition and a score no higher, and only secret achievements have parents. |
| Achievements.ChildUnlockImpliesParent | src/system/achv.ts:122-174 | Unlocking an achievement that has a parent means its parent's condition holds too. |
| BattlerTags.FactoryWellFormed | src/data/battler-tags.ts:1297-1417 | The factory keeps the tag type and builds the subclass and subclass fields that type calls for, with that type's fixed lapse checkpoint. |
| BattlerTags.FactoryTurnCount | src/data/battler-tags.ts:1297-1417 | The given turn count goes to exactly the types that take one (GROUNDED gets one less). Drowsy starts at 2, Slow Start at 5, Encore at 3 and the protecting tags at 0. |
| BattlerTags.LoadRoundTrip | src/data/battler-tags.ts:1419-1424 | Loading a saved well-formed tag gives it back unchanged. Any loaded tag is well-formed and keeps the saved type, counter and sources. |
| BattlerTags.LoadExtraFits | src/data/battler-tags.ts:1419-1424 | Loading saved subclass fields into a freshly made tag keeps them the right shape for the tag's class. Saved fields of the right shape are taken as they are. |
| BattlerTags.BaseLapseCountdown | src/data/battler-tags.ts:54-56 | The base lapse lowers the counter by one and keeps the tag exactly while the new count is positive. |
| BattlerTags.CustomGatedLapse | src/data/battler-tags.ts:1225-1296 | The CUSTOM-gated tags stay, with the counter unchanged, at every other checkpoint, and count down only at CUSTOM. While kept, unless indirect damage is blocked: a curse takes a quarter of the maximum HP rounded down, a nightmare a quarter rounded up, a salt cure its share. Ingrain and aqua ring heal the bearer by a sixteenth rounded down. Infatuation cancels the move exactly when the roll says so. The boost tags do nothing. |
| BattlerTags.ConfusedAndProtectedAtCustom | src/data/battler-tags.ts:203-255 | At CUSTOM, confusion ends at once and a protecting tag stays. At other checkpoints both count down. |
| BattlerTags.DamagingTrapLapse | src/data/battler-tags.ts:621-660 | While a damaging trap lasts, it hits for an eighth of max HP, rounded up, unless indirect damage is blocked. |
| BattlerTags.SeedLapse | src/data/battler-tags.ts:309-364 | Leech seed drains an eighth of max HP (at least 1) only when its source is an opponent. It heals the source by the HP taken, or hurts it as much under reverse drain. |
| BattlerTags.SaltCureShare | src/data/battler-tags.ts:1211-1254 | Salt cure takes a quarter of max HP from Steel and Water types and an eighth from others, never less than 1. |
| BattlerTags.DrowsySleeps | src/data/battler-tags.ts:592-619 | Drowsy starts at 2 turns and puts the bearer to sleep on exactly the lapse that ends it, the second one. |
| BattlerTags.PerishSongLapse | src/data/battler-tags.ts:931-950 | Perish song announces the remaining count while it lasts and takes all the bearer's HP when it ends. |
| BattlerTags.SlowStartLapse | src/data/battler-tags.ts:993-1016 | Slow start ends on the next lapse once the bearer has lost the ability. With the ability, it counts down normally. |
| BattlerTags.TruantLapse | src/data/battler-tags.ts:971-991 | With its ability, truant never ends and cancels the move after a real last move. Without the ability, it counts down normally. |
| BattlerTags.EncoreCanAdd | src/data/battler-tags.ts:439-469 | Encore can be added exactly when the bearer is not dynamaxed and its last move was a real, directly chosen, encorable move that was not still charging. It locks in that move. |
| BattlerTags.TrapExclusivity | src/data/battler-tags.ts:114-660 | Ghost types get no trap. A bearer already trapped gets neither trapping nor ingrain. A bearer with a damaging trap gets no second one. |
| BattlerTags.BestSoFarIsFirstMax | src/data/battler-tags.ts:1036-1047 | The reduce settles on the first strictly greatest value, provided it is positive, and on no stat otherwise. |
| BattlerTags.HighestStatBoostPick | src/data/battler-tags.ts:1036-1068 | The boost goes to the first stat with the greatest value among ATK..SPD, and its multiplier is 1.5 exactly for speed. |
| BattlerTags.BattlerTag.constructor | src/data/battler-tags.ts:1297-1417 | The new object holds the tag the factory builds for the type. |
| BattlerTags.BattlerTag.LoadTag | src/data/battler-tags.ts:77-81 | Loading overwrites the counter, the sources and the subclass fields from the saved tag, and nothing else. |
| BattlerTags.BattlerTag.CanAdd | src/data/battler-tags.ts:439-469 | The answer is the class's add rule. Only an encore that can be added changes, recording the move it locks in. |
| BattlerTags.BattlerTag.OnAdd | src/data/battler-tags.ts:1036-1068 | Adding records the source's slot or picks the boosted stat, as the class does. |
| BattlerTags.BattlerTag.Lapse | src/data/battler-tags.ts:54-56 | Whether the tag stays, the events and the new counter are those of the tag's lapse rule. |
| BattlerTags.PickHighestStat | src/data/battler-tags.ts:1039-1047 | The left-to-right scan finds the stat the reduce picks. |
| BattlerTags.LoadBattlerTagObject | src/data/battler-tags.ts:1419-1424 | Rebuilding a saved tag gives a fresh object holding the loaded tag. |
| ArenaTags.FactoryShape | src/data/arena-tag.ts:499-533 | The factory builds a tag of the asked type for every listed type, with the side, source and count the type fixes. The sports weaken electric and fire, and delayed attacks run three turns. NONE gets no tag. |
| ArenaTags.LapseCountdown | src/data/arena-tag.ts:48-50 | A tag with a count below 1 stays forever. Otherwise it loses one turn and stays while turns remain. A delayed attack strikes on the lapse that ends it. |
| ArenaTags.Lifetime | src/data/arena-tag.ts:48-50 | A tag with k ≥ 1 turns survives exactly the first k − 1 lapses. A count below 1 never runs out. |
| ArenaTags.DelayedAttackTiming | src/data/arena-tag.ts:336-355 | Future Sight and Doom Desire strike on their third lapse and not before. |
| ArenaTags.OverlapKeepsLayers | src/data/arena-tag.ts:232-238 | Laying a hazard again adds a layer below the cap, changes nothing at the cap, and keeps the layer invariant. |
| ArenaTags.OverlapsLayers | src/data/arena-tag.ts:232-238 | After n more layings, a hazard has min(layers + n, cap) layers and is otherwise unchanged. |
| ArenaTags.FactoryLayerCaps | src/data/arena-tag.ts:256-450 | Spikes stack to three layers, Toxic Spikes to two, and Stealth Rock and Sticky Web to one. |
| ArenaTags.FlagApplyLaws | src/data/arena-tag.ts:71-77 | Mist always sets the flag, so applying it twice is the same as once. Trick Room flips the flag, so applying it twice restores it. Both report success. |
| ArenaTags.ScreenApply | src/data/arena-tag.ts:85-93 | A screen applies exactly to its category. It then writes the multiplier, which lies between 0.5 and 1. On another category the value is left alone. |
| ArenaTags.ScreenCoverage | src/data/arena-tag.ts:100-147 | Exactly one of Reflect and Light Screen covers a damaging move, and neither covers a status move. Aurora Veil's result does not depend on the value it is given. |
| ArenaTags.WeakenTypeApply | src/data/arena-tag.ts:174-191 | A sport applies exactly to moves of its weakened type, whose power it multiplies by 0.33, and leaves other moves alone. |
| ArenaTags.SportsWeaken | src/data/arena-tag.ts:193-219 | Mud Sport weakens exactly electric moves and Water Sport exactly fire moves, to a third of their power or less. |
| ArenaTags.RealCeil | src/data/arena-tag.ts:399-415 | The least integer not below the value. |
| ArenaTags.TrapApplyFrame | src/data/arena-tag.ts:240-246 | A hazard does nothing to the combatant who laid it or to entrants on a side it does not cover. The only change it makes to itself is Toxic Spikes becoming neutralized, and it keeps its layer invariant. |
| ArenaTags.SpikesRule | src/data/arena-tag.ts:256-287 | Spikes hit a grounded, unprotected entrant for 1/8, 1/6 or 1/4 of max HP by layer, rounded up and at least 1, and otherwise do nothing. |
| ArenaTags.SpikesMonotone | src/data/arena-tag.ts:269-286 | More layers of Spikes never hurt less. |
| ArenaTags.StealthRockTable | src/data/arena-tag.ts:369-397 | The share is defined exactly for the six effectiveness values. Damage is the ceiling of max HP over 32, 16, 8, 4 or 2, from ¼× to 4×. |
| ArenaTags.StealthRockRule | src/data/arena-tag.ts:399-415 | Stealth Rock never counts as applied. It hurts an unprotected entrant by the table's share when that share is positive. |
| ArenaTags.ToxicSpikesRule | src/data/arena-tag.ts:308-326 | A grounded Poison type absorbs Toxic Spikes. Otherwise a grounded entrant with no status is poisoned at one layer and badly poisoned at two, when the status takes. |
| ArenaTags.StickyWebRule | src/data/arena-tag.ts:434-448 | Sticky Web never counts as applied, and lowers a grounded, unprotected entrant's speed by one stage. |
| ArenaTags.WishHealHp | src/data/arena-tag.ts:158-163 | Wish heals half of max HP, rounded down, and at least 1. |
| ArenaTags.WishRule | src/data/arena-tag.ts:158-171 | Once added, Wish heals its user's slot by half the user's max HP when it ends, if that slot is active, and otherwise does nothing. |
| ArenaTags.WishWithoutAdd | src/data/arena-tag.ts:165-171 | A Wish whose add hook never ran heals no one. |
| ArenaTags.ArenaTag.constructor | src/data/arena-tag.ts:28-34 | The new object holds the given tag. |
| ArenaTags.ArenaTag.Lapse | src/data/arena-tag.ts:345-352 | Whether the tag stays, the new count and the queued phases are those of the arena lapse rule, and the layer invariant is kept. |
| ArenaTags.ArenaTag.OnOverlap | src/data/arena-tag.ts:232-238 | The new state is one more laying of the old one, and the layer invariant is kept. |
| ArenaTags.ArenaTag.OnAdd | src/data/arena-tag.ts:158-163 | Wish captures its user's slot and heal, and any other tag is unchanged. |
| ArenaTags.ArenaTag.OnRemove | src/data/arena-tag.ts:165-171 | The events of removal are those of the removal rule for the current state. |
| ArenaTags.ArenaTag.ApplyFlag | src/data/arena-tag.ts:452-469 | The success and the new holder value are the flag rule applied to the old value. |
| ArenaTags.ArenaTag.ApplyScreen | src/data/arena-tag.ts:85-147 | The success and the new holder value are the screen rule applied to the old value. |
| ArenaTags.ArenaTag.ApplyWeakenType | src/data/arena-tag.ts:174-191 | The success and the new power are the sport rule applied to the old power. |
| ArenaTags.ArenaTag.ApplyTrap | src/data/arena-tag.ts:240-250 | The success, the events and the new tag are the hazard rule applied to the entrant, and the layer invariant is kept. |
| ArenaTags.NewArenaTag | src/data/arena-tag.ts:499-533 | Gives a fresh object holding the factory's tag for every listed type, and no object for NONE. |

## Left out

- Scene, phases and message queue: messages, phases and animations appear only as event values. Whether the game unshifts a phase or queues it is not modelled.
- Damage to a combatant: `damageAndUpdate` and the turn's damage tally appear as `Damage`/`TrapDamage` events. The model assumes `damageAndUpdate` takes `HpFractions.DamageDealt`, the smaller of the HP left and the damage, and the Leech Seed heal uses that amount. src/field/pokemon.ts is not part of this model.
- Move PP: the PP ratio `getPpRatio` is taken to be the share of PP left, 1 − ppUsed/maxPp, and 0 for a move whose maximum PP is 0, because src/field/pokemon.ts is not part of this model.
- HP ratio: `getHpRatio` is an input.
- Random numbers: random draws are parameters, including the confusion roll and its self-hit damage, the infatuation roll and the weighted draw. `generateRandomStatusEffect` is not modelled, because it is only `randIntRange` over the status range.
- Contact punishment: the contact-punishing behaviour of the protecting tags (the damage, stat change, poison or burn dealt to an attacker that makes contact) is not modelled. It needs the attacker's move data, which is not part of this model. Their lapse and checkpoints are modelled.
- Recharging and Interrupted: the move-queue changes these tags make on add/remove are reduced to `MoveCancelled` events.
- HideSprite: sprite visibility is not modelled.
- Text functions: the message and descriptor texts of tags and weather are not modelled. This covers battler-tag descriptors, the weather and terrain message functions in src/data/weather.ts:121-245, and the status activation, overlap, heal and descriptor texts in src/data/status-effect.ts:54-122. They are fixed strings with no rule to prove.
- `getMatchupScoreMultiplier`: a float AI heuristic.
- `getLegendaryGachaSpeciesForTimestamp`: this uses a seeded RNG and species data. The legendary's name is a parameter of `Eggs.GachaTypeDescriptor`.
- Enum files: the enum files (src/data/enums/*.ts) are not part of this model.
  - `ArenaTagType` lists the types arena-tag.ts names; its `NONE` stands for every type the factory does not name.
  - `BattlerTagType` lists the types battler-tags.ts names; its `NONE_TAG` stands for every type that reaches the factory's `default` branch (src/data/battler-tags.ts:1408-1410), which makes a plain CUSTOM tag.
  - `Kinds.Move` names the moves the core compares against; every other move is `OtherMove(id)`.
- Trivial getters: `getName`/`getIconImage` of achievements, the trap `onAdd` messages and Wish's message are not modelled.
- ArenaTags.WeakenTypeApply: the ×0.33 is exact on reals. It does not model float rounding.
- ArenaTags.SpikesRule: 1/6 is the exact ceiling of maxHp/6. It does not model the float rounding of `Math.ceil(maxHp / 6)`.
- ArenaTags.ToxicSpikesRule: `arena.removeTag` is assumed to succeed, since the tag being applied is on the field.
- ArenaTags.TrapTargets: the code compares `side === PLAYER` with whether the entrant is the player's. So a hazard laid with side BOTH affects only enemy combatants, and the model follows the code.
- ArenaTags.RemoveEvents: `isActive` is a field of type `seq<Option<bool>>`, read by slot number, so a slot's battler index is its position.
- Berries.BerryPredicate: LANSAT and STARF use the ability-adjusted threshold, which is the intended rule (see Findings). The code as written is Berries.BerryPredicateAsWritten, and Berries.AsWrittenDiffers states where the two differ. `BerryHolder.CanEat` uses the intended rule.
- Berries.BerryPredicateRules: states the LANSAT and STARF triggers against the adjusted threshold, as intended, and not against the literal 0.25 of src/data/berry.ts:98 and :104.
- Berries.LumCures: curing confusion is a `TagLapsed(CONFUSED)` event. The holder's `confused` flag is left as it was. The removal itself is covered by BattlerTags.ConfusedAndProtectedAtCustom.
- BattlerTags.LoadExtra: a saved tag whose subclass fields have a different shape keeps the factory's fields. The game would copy `undefined` into them.
- BattlerTags.TagLapse: the confusion self-hit damage formula is an input, because it needs the full damage calculation.
- Weathers.GetRandomWeatherType: models the intended MEADOW pool (see Findings). The code as written is Weathers.WeatherPoolAsWritten.

## Findings

| source | as written | input that shows it | evidently intended | confidence | as-written member | corrected member |
|---|---|---|---|---|---|---|
| src/data/weather.ts:326-336 | The MEADOW case has no `break`, so it falls through into the VOLCANO case and replaces its pool. | MEADOW in daylight with draw 0 gives SUNNY. | MEADOW keeps its own pool of NONE and SUNNY with weight 2 each, giving NONE at draw 0. | not executed | Weathers.MeadowFallsThrough | Weathers.MeadowIntendedPool |
| src/data/berry.ts:94-105 | The LANSAT and STARF triggers compare the HP ratio with the literal 0.25 and ignore the threshold that the abilities raise. | threshold 0.5, HP ratio 0.4: neither berry triggers. | Compare with the adjusted threshold, as the stat berries do. | not executed | Berries.AsWrittenDiffers | Berries.BerryPredicateRules |
