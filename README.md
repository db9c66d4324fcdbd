# Outfit engine, modelled in Dafny

This project models the outfit recommendation engine `outfitEngine.js`. Given
a wardrobe of tagged clothing items, an optional temperature, an optional
activity and a requested number of options, the engine works in four stages:

- It pre-filters the wardrobe by activity, splits it by category and checks
  that an outfit is possible.
- It weather-filters each category and decides on an outerwear policy.
- It enumerates every top + bottom + shoes and full body + shoes combination,
  with or without a layer of outerwear. A cheap formality pre-filter skips
  clashes, and an unfiltered fallback pass runs when the pre-filter leaves
  nothing.
- It scores every combination on colour harmony, formality, fit balance,
  length proportion and outerwear compatibility, sorts by score, and picks
  the options with distinct outfit keys first (for variety).

`getAlternatives` lists the items that can replace one slot of an outfit.

The modules follow the engine's own sections:

| file | module | engine section |
|---|---|---|
| `colour.dfy` | `Colour` | 1. colour harmony: neutrals, the colour wheel, the pair loop |
| `formality.dfy` | `Formality` | 2. formality matching and the clash pre-filter |
| `proportion.dfy` | `Proportion` | 3–4. the fit-balance and length-proportion tables |
| `weather.dfy` | `Weather` | 5. warmth of an item, weather filtering, outerwear mode |
| `outerwear.dfy` | `Outerwear` | 6. outerwear compatibility |
| `composite.dfy` | `Composite` | 7. the weighted composite scores |
| `activity.dfy` | `Activity` | the activity-to-formality map and pre-filter |
| `enumeration.dfy` | `Enumeration` | the combination loops of `generateOutfits` |
| `selection.dfy` | `Selection` | candidates, the sort and the variety-first selection |
| `generate.dfy` | `Generate` | `generateOutfits` and `getAlternatives` |
| `items.dfy`, `seqs.dfy`, `wrappers.dfy` | `Items`, `Seqs`, `Wrappers` | the item record, sequence helpers, `Option` |

The model is written in two forms:

- **Loops as methods.** The colour pair loop, the running outerwear score,
  the combination loops and the two selection loops are methods with loop
  invariants. Each is proved equal to a specification function, or to the
  property its loops promise.
- **Values as functions.** The scores, filters and tables are pure functions.
  Their properties are proved as lemmas.

Modelling conventions:

- **Attributes.** Item attributes are strings, and `""` stands for a missing
  attribute: JavaScript's `null`, `undefined` and `''` are all falsy, and the
  engine only ever tests attributes for truthiness or equality.
- **Temperature** is `Option<real>`.
- **Activity** is a string, and `""` means no activity.
- **Randomness.** The random jitter `Math.random() * 0.5` that each candidate's
  score receives is a parameter `jitter: nat -> real`: the k-th pushed
  candidate gets `jitter(k)`.

## Model

| member | source | states |
|---|---|---|
| Colour.IsNeutral | outfitEngine.js:41-44 | Defines a neutral colour: untagged, or one of Black, White, Grey, Navy, Beige, Cream. Its contract is carried by Colour.UniqueNonNeutrals (exactly the non-neutral colours survive) and Colour.ColourHarmonyAllNeutral. |
| Colour.WheelPosition | outfitEngine.js:46-48 | A colour on the wheel gets its table position, always in 0..11; any other colour gets the stand-in for `null`. |
| Colour.WheelDistance | outfitEngine.js:51-54 | Defines the distance round the 12-step wheel, `min(diff, 12 - diff)`. Its contract is carried by Colour.WheelDistanceProperties. |
| Colour.WheelDistanceProperties | outfitEngine.js:51-54 | The circular distance on the 12-step wheel lies in [0,6], is symmetric, and is 0 on equal positions. |
| Colour.PairHarmony | outfitEngine.js:92-100 | The contribution of one pair lies in [-1, 3]: 3 at distance 0, 2 up to 2, 1 from 5 to 7, otherwise -1. |
| Colour.KnownPositions | outfitEngine.js:81 | The wheel positions of the colours that have one: never more than the colours, each in 0..11. |
| Colour.SumPairHarmony | outfitEngine.js:84-102 | The nested loop visits every pair i < j exactly once. The harmony total equals the per-pair sum (3 same, 2 within two steps, 1 at five to seven, otherwise -1), and the pair count is the number of such pairs. |
| Colour.PairCountClosed | outfitEngine.js:87-90 | After the first i rows of n positions the loop has counted i(2n-i-1)/2 pairs, so n(n-1)/2 pairs in all. |
| Colour.ScoreAccents | outfitEngine.js:70-111 | Given the distinct non-neutral colours, the running score is: 8 for none; otherwise base 6, minus 2 per colour beyond three, plus 2 for a single accent or the mean pair harmony, clamped to [0,10]. |
| Colour.ColourHarmony | outfitEngine.js:60-112 | Defines the colour-harmony score of a set of items: 5 with no colour tagged, otherwise the accent score of the distinct non-neutral colours. Its contract is carried by Colour.ScoreColourHarmony and by the ColourHarmony* lemmas. |
| Colour.AccentHarmony | outfitEngine.js:66-111 | Defines the score once a colour is tagged, from the distinct non-neutral colours. Its contract is carried by Colour.ScoreAccents and Colour.AccentHarmonyBounds. |
| Colour.ScoreColourHarmony | outfitEngine.js:60-112 | The step-by-step score equals the colour-harmony definition and always lies in [0,9]. |
| Colour.ColourHarmonyBounds | outfitEngine.js:60-112 | For any items the colour score lies in [0,9], so the upper clamp never applies. |
| Colour.ColourHarmonyUntagged | outfitEngine.js:61-64 | With no colour tagged on any item the score is the neutral 5. |
| Colour.ColourHarmonyAllNeutral | outfitEngine.js:41-70 | With some colour tagged and every colour neutral (Black, White, Grey, Navy, Beige, Cream) the score is 8. |
| Colour.ColourHarmonySingleAccent | outfitEngine.js:66-109 | One non-neutral colour, possibly repeated, among neutrals scores 6 + 2 = 8. |
| Colour.SingleAccentUnique | outfitEngine.js:66-67 | When every tagged colour is the accent or neutral, the de-duplicated non-neutral list is exactly [accent]. |
| Colour.AccentHarmonyBounds | outfitEngine.js:72-111 | With at least one distinct non-neutral colour the score lies between clamp(5 - penalty) and clamp(9 - penalty), where the penalty is 2 per colour beyond three. |
| Colour.ColourHarmonyThreeColourRule | outfitEngine.js:74-77 | More than three distinct non-neutral colours cap the score at 9 minus 2 per extra colour (or 0). |
| Colour.FourthColourCanRaiseScore | outfitEngine.js:75-104 | Red, Khaki and Lilac score 6, while Red, Maroon, Khaki and Lilac score 7: a fourth distinct colour can raise the score, because off-wheel colours add no pair. |
| Colour.ColourHarmonyFewColours | outfitEngine.js:72-111 | With at most three distinct non-neutral colours the score is at least 5. |
| Colour.ColourHarmonySmallOutfit | outfitEngine.js:72-111 | Any set of at most four items (the most an outfit wears) scores at least 3. |
| Formality.Level | outfitEngine.js:123-128 | Every known label has its level: Casual 1, Everyday 2, Smart 3, and Athletic 99, the only level off the scale. |
| Formality.LevelsComplete | outfitEngine.js:135-137 | The level list holds the level of every tagged item, each on the scale, and is empty exactly when nothing is tagged. |
| Formality.LevelSource | outfitEngine.js:135-137 | Every level in the list comes from a tagged item. |
| Formality.ScoreFormalityMatch | outfitEngine.js:134-150 | Defines the formality score from the spread of the tagged levels. Its contract is carried by Formality.ScoreFormalityRange, the Formality* lemmas and Formality.ClashMeansLowScore. |
| Formality.HasFormalityClash | outfitEngine.js:156-165 | Defines the clash pre-filter: at least two tagged levels with a spread above 1. Its contract is carried by Formality.ClashMeansWideGap, Formality.ClashHasWitnesses and Formality.WitnessesClash. |
| Formality.ScoreFormalityRange | outfitEngine.js:134-150 | The formality score is always one of 0, 2, 5, 7, 10. |
| Formality.FormalityUntagged | outfitEngine.js:140 | No tagged item gives 5. |
| Formality.FormalityUniform | outfitEngine.js:146 | All tagged items at one level give 10. |
| Formality.FormalityAdjacent | outfitEngine.js:147 | Tagged items spanning exactly two adjacent levels give 7. |
| Formality.FormalityAthleticMix | outfitEngine.js:148 | Athletic together with any other tagged level gives the hard clash 0. |
| Formality.FormalityNonAdjacent | outfitEngine.js:149 | Casual with Smart and no Athletic gives 2. |
| Formality.ClashMeansWideGap | outfitEngine.js:156-165 | The pre-filter reports a clash if and only if two tagged items are more than one level apart. |
| Formality.ClashHasWitnesses | outfitEngine.js:161-164 | A reported clash has two witnesses more than one level apart. |
| Formality.WitnessesClash | outfitEngine.js:161-164 | Two tagged items more than one level apart always trigger the clash. |
| Formality.ClashMeansLowScore | outfitEngine.js:134-165 | The pre-filter rejects exactly the combinations the formality scorer rates 2 or lower, in both directions. |
| Proportion.KeyCharAt | outfitEngine.js:193 | The joined key is the first word, a dash, then the second word, character by character. |
| Proportion.KeyInjective | outfitEngine.js:193-224 | Keys built from dash-free words split back into the same two words. |
| Proportion.FitKeysAreFitPairs | outfitEngine.js:174-184 | Every fit-table key pairs two of Tight, Regular, Oversized. |
| Proportion.LengthKeysAreLengthPairs | outfitEngine.js:205-215 | Every length-table key pairs two of Cropped, Regular, Long. |
| Proportion.ScoreFitBalance | outfitEngine.js:190-195 | Defines fit balance as a lookup of the key "topFit-bottomFit" (missing fits read as Regular) in the fit table, 5 when absent. Its contract is carried by Proportion.FitBalanceProperties, Proportion.FitExamples and Proportion.MissingMeansRegular. |
| Proportion.ScoreLengthProportion | outfitEngine.js:221-226 | Defines length proportion the same way over the length table. Its contract is carried by Proportion.LengthProportionProperties, Proportion.LengthExamples and Proportion.MissingMeansRegular. |
| Proportion.FitBalanceProperties | outfitEngine.js:174-195 | Fit balance lies in [3,9]. A fit outside the three known ones (after defaulting to Regular) gives the fallback 5. |
| Proportion.LengthProportionProperties | outfitEngine.js:205-226 | Length proportion lies in [3,9]. A length outside the three known ones gives 5. |
| Proportion.MissingMeansRegular | outfitEngine.js:191-222 | Each of the four attributes on its own, the top fit, the bottom fit, the top length and the bottom length, scores exactly as "Regular" when missing. |
| Proportion.FitExamples | outfitEngine.js:175-195 | Oversized over Oversized scores 3; Oversized over Tight scores 9; two untagged fits score 8 (Regular-Regular). |
| Proportion.LengthExamples | outfitEngine.js:205-226 | Cropped over Long scores 9; Long over Long scores 3; Cropped over Cropped scores 4. |
| Weather.ItemWarmth | outfitEngine.js:249-260 | An item's warmth is always Cold, Transitional or Warm, and a valid label of its own takes precedence over the name. |
| Weather.ColdKeywordsWin | outfitEngine.js:256-258 | Cold keywords are checked before warm ones: an unlabelled "wool vest" is Cold. |
| Weather.WarmKeywordIgnoresCase | outfitEngine.js:256-258 | Keyword matching uses the lower-cased name: "VEST" is Warm. |
| Weather.InvalidLabelFallsBack | outfitEngine.js:251-259 | An unknown warmth label is ignored, and an unnamed item is then Transitional. |
| Weather.FilterByWeather | outfitEngine.js:266-284 | The result is a subsequence of the input and never empties a non-empty list. Unknown or mild temperatures keep everything. Otherwise the result holds exactly the items without the banned warmth (Warm below 10, Cold above 20), with their multiplicities, or all items when that would leave none. |
| Weather.FilterByWeatherMembership | outfitEngine.js:266-284 | At a mild or unknown temperature every item is kept. Otherwise an item is kept if and only if it lacks the banned warmth, or every item is kept when none lacks it. |
| Weather.GetOuterwearMode | outfitEngine.js:290-295 | Outerwear is required exactly below 10 and excluded exactly above 18. It is optional from 10 to 18 inclusive and when the temperature is unknown. |
| Weather.ThresholdGap | outfitEngine.js:274-294 | Between 18 (exclusive) and 20 (inclusive) outerwear is excluded, yet weather filtering keeps every item. |
| Weather.ColdWeatherKeepsNoWarmItems | outfitEngine.js:271-283 | Below 10 degrees, when some item is not Warm, the kept items are exactly the items that are not Warm. |
| Weather.HotWeatherKeepsNoColdItems | outfitEngine.js:274-283 | Above 20 degrees, when some item is not Cold, the kept items are exactly the items that are not Cold. |
| Outerwear.FitAdjustment | outfitEngine.js:313-321 | The fit adjustment lies in [-3, 2]: -3 for oversized over oversized, +2 for oversized over a tight or regular top, +1 for regular outerwear, 0 otherwise. |
| Outerwear.FormalityAdjustment | outfitEngine.js:323-331 | The formality adjustment lies in [-2, 2]: 0 unless both pieces are tagged, then +2 at the same level, +1 one apart, -2 further apart. |
| Outerwear.OuterwearCompatibility | outfitEngine.js:308-335 | Defines the compatibility score: 5 without outerwear, else 5 plus the fit and formality adjustments, clamped. Its contract is carried by Outerwear.ScoreOuterwearCompatibility and Outerwear.ClampNeverFires. |
| Outerwear.ScoreOuterwearCompatibility | outfitEngine.js:308-335 | The running score equals the compatibility definition. It is 5 without outerwear and always lies in [0,9]. |
| Outerwear.ClampNeverFires | outfitEngine.js:311-334 | Before the clamp the score is already in [0,9], so the clamp to [0,10] never changes it. |
| Outerwear.WorstLayering | outfitEngine.js:316-331 | Oversized over Oversized with formality two levels apart scores the minimum 0. |
| Outerwear.BestLayering | outfitEngine.js:318-329 | Oversized over a Tight top at the same formality scores the maximum 9. |
| Composite.OuterwearAdjustment | outfitEngine.js:370-402 | The outerwear term `(score - 5) * 0.3` shared by both scorers is 0 without outerwear and always lies in [-1.5, 1.2]. |
| Composite.ImageCount | outfitEngine.js:376-377 | The number of imaged items never exceeds the number of items. |
| Composite.StandardWeighted | outfitEngine.js:354-373 | Defines the weighted top + bottom sum. Its contract is carried by Composite.StandardWeightedBounds and Composite.ScoreOutfitExact. |
| Composite.FullBodyWeighted | outfitEngine.js:386-403 | Defines the weighted full-body sum. Its contract is carried by Composite.FullBodyWeightedBounds and Composite.ScoreFullBodyOutfitExact. |
| Composite.StandardWeightedBounds | outfitEngine.js:354-373 | The weighted top + bottom sum (30/25/25/20 plus the outerwear adjustment) lies in [0.75, 10.45]. |
| Composite.FullBodyWeightedBounds | outfitEngine.js:386-403 | The weighted full-body sum (50/50 plus the outerwear adjustment) lies in [1, 10.7]. |
| Composite.ScoreOutfit | outfitEngine.js:354-381 | A top + bottom score is never negative. |
| Composite.ScoreFullBodyOutfit | outfitEngine.js:386-410 | A full-body score is never negative. |
| Composite.ScoreOutfitExact | outfitEngine.js:374-381 | With a jitter in [0, 0.5) the floor at 0 never applies. The score is the weighted sum plus the jitter plus 0.2 per imaged item, and stays below 11.75. |
| Composite.ScoreFullBodyOutfitExact | outfitEngine.js:404-410 | The same holds for a full-body score, which stays below 11.8. |
| Activity.SuitsActivity | outfitEngine.js:432-438 | Defines whether an item suits a known activity: untagged, or its formality is one the activity allows. Its contract is carried by Activity.ActivityFilter, Activity.ActivityFilterMembership and Activity.GymKeepsAthletic. |
| Activity.ActivityFilter | outfitEngine.js:431-438 | The result is a subsequence of the items. A missing or unknown activity keeps everything. A known one keeps exactly the untagged items and those whose formality it allows, with their multiplicities. |
| Activity.ActivityFilterMembership | outfitEngine.js:413-438 | Untagged items survive every activity, kept items come from the input, and every kept item suits a known activity. |
| Activity.GymKeepsAthletic | outfitEngine.js:418-438 | "Gym / Sport" keeps exactly the Athletic and the untagged items. |
| Enumeration.EmitLayers | outfitEngine.js:485-488 | The outerwear loop appends one scored candidate per piece that passes the clash pre-filter, in piece order. |
| Enumeration.EmitBase | outfitEngine.js:479-495 | For one top/bottom/shoe base: nothing on a clash; the bare base when outerwear is excluded or absent; the layered looks when it is required; otherwise the bare base followed by the layered looks. |
| Enumeration.EmitPair | outfitEngine.js:478-496 | The shoe loop appends the looks of each base in shoe order. |
| Enumeration.EmitTop | outfitEngine.js:477-497 | The bottom loop appends the looks of each top + bottom pair in bottom order. |
| Enumeration.EmitStandard | outfitEngine.js:475-545 | The three nested loops append, in push order and each with its own jitter draw, exactly the standard looks (with or without the pre-filter). |
| Enumeration.EmitDress | outfitEngine.js:503-521 | The shoe loop for one full-body item appends its looks in shoe order. |
| Enumeration.EmitFullBody | outfitEngine.js:501-523 | The full body / shoe loops append exactly the full-body looks in push order. |
| Enumeration.LayeredLooksMembership | outfitEngine.js:485-494 | A look is in the layered list if and only if it wears one of the offered pieces and, under the pre-filter, the base with that piece does not clash. |
| Enumeration.BaseLooksMembership | outfitEngine.js:479-495 | A look is pushed for a base if and only if the base passes the pre-filter and the outerwear choice is one the mode allows. |
| Enumeration.PairLooksMembership | outfitEngine.js:478-496 | A look is pushed by the shoe loop for one top and bottom if and only if it is admissible for one of the shoes. |
| Enumeration.TopLooksMembership | outfitEngine.js:477-497 | A look is pushed by the bottom loop for one top if and only if it is admissible for one of the bottoms and shoes. |
| Enumeration.StandardLooks | outfitEngine.js:475-499 | Defines the list the top/bottom/shoe loops push, in push order. Its contract is carried by Enumeration.StandardLooksMembership and Enumeration.EmitStandard. |
| Enumeration.StandardLooksMembership | outfitEngine.js:475-499 | The top/bottom/shoe loops push exactly the admissible looks over the three lists, and nothing else. |
| Enumeration.DressLooksMembership | outfitEngine.js:503-521 | A look is pushed by the shoe loop for one full-body item if and only if it is admissible for one of the shoes. |
| Enumeration.FullBodyLooks | outfitEngine.js:501-523 | Defines the list the full body/shoe loops push, in push order. Its contract is carried by Enumeration.FullBodyLooksMembership and Enumeration.EmitFullBody. |
| Enumeration.FullBodyLooksMembership | outfitEngine.js:501-523 | The full body/shoe loops push exactly the admissible looks over the two lists, and nothing else. |
| Selection.ComboKey | outfitEngine.js:556-558 | Defines the variety key: full-body id and shoes id, or top id and bottom id, joined by "-". Its contract is carried by Selection.ComboKeyOfPair and Proportion.KeyInjective. |
| Selection.ComboKeyOfPair | outfitEngine.js:556-558 | For dash-free ids two top + bottom candidates share a variety key if and only if they pair the same top with the same bottom. |
| Selection.SortByScore | outfitEngine.js:549 | The ranked list is sorted by descending score and is a permutation of the candidates. |
| Selection.Insert | outfitEngine.js:549 | Inserting into a sorted list keeps it sorted and adds exactly one element. |
| Selection.PickDistinctKeys | outfitEngine.js:552-564 | The first loop picks, in ranked order, the first candidate of each variety key it reaches, skipping none. It stops once `count` picks are made (after at least one) or the list ends. |
| Selection.Backfill | outfitEngine.js:566-574 | The second loop keeps the first picks and fills up, in ranked order, with the earliest candidates not yet picked until `count` are selected or none remain. |
| Selection.IsSelection | outfitEngine.js:551-574 | Defines what the two selection loops produce: distinct ranked positions, first-of-key picks in ranked order with none skipped, then backfill in ranked order once every key is represented, and the exact result length. Its contract is carried by Selection.SelectOutfits. |
| Selection.SelectOutfits | outfitEngine.js:551-574 | Every returned outfit comes from the ranked list, and the selection lists distinct ranked positions. First-of-key candidates are picked in ranked order until `count` is reached. Backfill follows only once every key is represented. The result has exactly min(count, n) outfits when count >= 1, and min(1, n) otherwise. |
| Generate.ByCategory | outfitEngine.js:440-445 | Defines the five category buckets, each the wardrobe items with exactly that category label, in order. It feeds the validation contract of Generate.GenerateOutfits. |
| Generate.Weathered | outfitEngine.js:463-467 | Defines the weather filtering of each bucket. Its contract is carried by Weather.FilterByWeather and Generate.StandardPathNeverEmpty. |
| Generate.BuildCandidates | outfitEngine.js:462-545 | The candidate array equals the looks of the two pre-filtered passes, or of the unfiltered fallback pass when those are empty and tops and bottoms exist, each scored with its own jitter draw. |
| Generate.RankAndSelect | outfitEngine.js:549-574 | The sort plus selection return a selection of the ranked list whose outfits all come from the candidates, and none exactly when there are no candidates. |
| Generate.Outfits | outfitEngine.js:461-576 | After validation the error is null. The outfits are a selection of the sorted pool. They are empty exactly when no combination was generated, and never empty when shoes, tops and bottoms exist. |
| Generate.GenerateFrom | outfitEngine.js:447-576 | No shoes gives the shoes error; no top + bottom and no full-body path gives the garments error; otherwise it behaves as Outfits. |
| Generate.GenerateOutfits | outfitEngine.js:430-577 | The whole engine: the activity filter and category split, then the two validation errors with their exact messages. On success the returned outfits are a variety-first selection of the score-sorted candidates, drawn from those candidates, and empty exactly when no combination exists. They are never empty when shoes, tops and bottoms survive the activity filter. |
| Generate.UsesFallback | outfitEngine.js:525-526 | Defines when the fallback pass runs: the pre-filtered passes pushed nothing and tops and bottoms exist. Its contract is carried by Generate.LooksForMembership, Generate.LooksForFacts and Generate.StandardPathNeverEmpty. |
| Generate.LooksFor | outfitEngine.js:473-545 | Defines the unscored candidate list in push order: the fallback pass when it runs, otherwise the two pre-filtered passes. Its contract is carried by Generate.LooksForMembership and Generate.BuildCandidates. |
| Generate.LooksForMembership | outfitEngine.js:475-545 | A candidate is generated if and only if it is an admissible look of the pre-filtered passes, or of the unfiltered standard pass when the fallback runs. |
| Generate.LooksForFacts | outfitEngine.js:462-545 | Every generated candidate is well formed and built from the weather-filtered lists. Its outerwear obeys the mode: none when excluded or unavailable, always some when required and available. Outside the fallback, no worn set clashes. |
| Generate.CandidateLooksFacts | outfitEngine.js:440-545 | The same facts hold for the candidates generated from an activity-filtered wardrobe. |
| Generate.PoolWellFormed | outfitEngine.js:473-545 | Every candidate has shoes and either a top and a bottom or a full-body item, never both. |
| Generate.StandardPathNeverEmpty | outfitEngine.js:463-545 | With shoes, a top and a bottom, at least one candidate is generated, because weather filtering never empties a list and the fallback drops the pre-filter. |
| Generate.FullBodyClashesLeaveNoCandidates | outfitEngine.js:501-526 | Without a top + bottom path, if every weather-kept full-body item clashes with every weather-kept shoe then no candidate is generated. The fallback is for standard combinations only. |
| Generate.RatedScores | outfitEngine.js:483-539 | The k-th pushed candidate carries its scorer's value for the k-th jitter draw, and no score is negative. |
| Generate.Eligible | outfitEngine.js:595-602 | Defines an eligible alternative: a wardrobe item of the category, not the current one, suited to a known activity. Its contract is carried by Generate.AlternativesBeforeWeather and Generate.GetAlternatives. |
| Generate.GetAlternatives | outfitEngine.js:594-605 | The alternatives are a subsequence of the wardrobe and every one is eligible: another item of the same category, suited to a known activity. At a mild or unknown temperature they are exactly the eligible items. Otherwise they are exactly the eligible items without the banned warmth (Warm below 10, Cold above 20), or all eligible items when none lacks it. The list is non-empty whenever an eligible item exists. |
| Generate.AlternativesBeforeWeather | outfitEngine.js:595-602 | Before weather filtering, an item is kept if and only if it is eligible. |

## Left out

- `Math.random()` is not modelled: the jitter is a parameter, one draw per pushed candidate in push order. The bound [0, 0.5) appears only as a precondition of the score lemmas.
- The `generatedAt: new Date()` timestamp of each candidate is not kept.
- Scores are exact reals, not IEEE doubles, so the rounding of `totalHarmony / pairCount` and of the weighted sums is not modelled.
- Lower-casing of names covers ASCII letters only; JavaScript's full Unicode `toLowerCase` is not modelled.
- Selection.SortByScore: the specific algorithm and the stability of JavaScript's `Array.prototype.sort` are not modelled. Only "sorted by descending score and a permutation" is stated, and the ranked list is this model's insertion sort.
- Selection.SelectOutfits: `selected.includes(candidate)` tests object identity; the model identifies a candidate by its position in the ranked list.
- Colour.ColourHarmonyThreeColourRule: the score does not strictly fall when a fourth distinct non-neutral colour joins a set of at most three. Colours off the wheel add no pair, so the extra colour can raise the mean: Colour.FourthColourCanRaiseScore exhibits 6 for Red, Khaki and Lilac against 7 with Maroon added. The cap "9 minus 2 per colour beyond three" is the strongest form that holds.
- A temperature of NaN cannot be represented: `Option<real>` has no NaN. In the engine such a temperature keeps every item in `filterByWeather` (both comparisons fail) and gives the outerwear mode 'excluded'.
- Attribute values that are not strings, and object keys inherited from the prototype (a formality label such as "constructor"), are not modelled.
- Default parameters are not modelled: `temperature = null`, `count = 3` and `activity = null` are passed explicitly as `None`, `3` and `""`.
- The enumeration takes the clash test as the `clashes` field of its `Layering` argument and the scorer as its `rate` argument. `Generate` passes `HasFormalityClash` and the composite scorers.
- The category label for dresses and jumpsuits follows the code, "Full Body" with a space.
- The image bonus is counted on each worn item's own `imageUri`. Items missing from the outfit (`item?.imageUri`) cannot occur in a well-formed candidate.
- The React Native screens, the wardrobe context, storage, the weather API client and the data files are not part of this model.
