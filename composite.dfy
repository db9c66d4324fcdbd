/** Composite scoring: the dimension scores combined with fixed weights, an
    outerwear adjustment, a random jitter and an image bonus (outfitEngine.js,
    section 7). The jitter, `Math.random() * 0.5` in the source, is a parameter. */
module Composite {
  import opened Wrappers
  import opened Items
  import opened Colour
  import opened Formality
  import opened Proportion
  import opened Outerwear

  /** The worn items: the given garments, then the outerwear if any. */
  function WithOuterwear(garments: seq<Item>, outerwear: Option<Item>): (r: seq<Item>)
    ensures |r| == |garments| + (if outerwear.Some? then 1 else 0)
  {
    match outerwear
    case None => garments
    case Some(o) => garments + [o]
  }

  /** Number of items that carry an image (`filter(item => item?.imageUri)`). */
  function ImageCount(items: seq<Item>): (n: nat)
    ensures n <= |items|
  {
    if items == [] then 0
    else (if items[0].imageUri != "" then 1 else 0) + ImageCount(items[1..])
  }

  /** Outerwear contributes `(score - 5) * 0.3` on top of the weighted sum,
      where the score judges the outerwear against `top` (the full-body scorer
      passes the full-body piece as both garments); without outerwear, nothing. */
  function OuterwearAdjustment(outerwear: Option<Item>, top: Item, bottom: Item): (a: real)
    ensures outerwear.None? ==> a == 0.0
    ensures -1.5 <= a <= 1.2
  {
    if outerwear.Some? then
      ClampNeverFires(outerwear.value, top, bottom);
      (OuterwearCompatibility(outerwear, top, bottom) as real - 5.0) * 0.3
    else 0.0
  }

  /** Weighted sum for a top + bottom outfit: colour 30%, formality 25%, fit
      25%, length 20%, plus the outerwear adjustment (outfitEngine.js:354-373). */
  function StandardWeighted(top: Item, bottom: Item, shoes: Item, outerwear: Option<Item>): real
  {
    var all := WithOuterwear([top, bottom, shoes], outerwear);
    ColourHarmony(all) * 0.30
      + ScoreFormalityMatch(all) as real * 0.25
      + ScoreFitBalance(top, bottom) as real * 0.25
      + ScoreLengthProportion(top, bottom) as real * 0.20
      + OuterwearAdjustment(outerwear, top, bottom)
  }

  /** Weighted sum for a full-body outfit: colour 50%, formality 50%, plus the
      outerwear adjustment judged against the full-body piece
      (outfitEngine.js:386-403). */
  function FullBodyWeighted(fullBody: Item, shoes: Item, outerwear: Option<Item>): real
  {
    var all := WithOuterwear([fullBody, shoes], outerwear);
    ColourHarmony(all) * 0.50 + ScoreFormalityMatch(all) as real * 0.50
      + OuterwearAdjustment(outerwear, fullBody, fullBody)
  }

  function Max0(x: real): (r: real)
    ensures r >= 0.0 && r >= x
    ensures x >= 0.0 ==> r == x
  {
    if x < 0.0 then 0.0 else x
  }

  /** `scoreOutfit`: weighted sum, jitter and 0.2 per imaged item, floored at 0. */
  function ScoreOutfit(top: Item, bottom: Item, shoes: Item, outerwear: Option<Item>, jitter: real): (r: real)
    ensures r >= 0.0
  {
    var all := WithOuterwear([top, bottom, shoes], outerwear);
    Max0(StandardWeighted(top, bottom, shoes, outerwear) + jitter + ImageCount(all) as real * 0.2)
  }

  /** `scoreFullBodyOutfit`: the same for the full-body path. */
  function ScoreFullBodyOutfit(fullBody: Item, shoes: Item, outerwear: Option<Item>, jitter: real): (r: real)
    ensures r >= 0.0
  {
    var all := WithOuterwear([fullBody, shoes], outerwear);
    Max0(FullBodyWeighted(fullBody, shoes, outerwear) + jitter + ImageCount(all) as real * 0.2)
  }

  // ----- Properties -----

  /** The weighted sum of a top + bottom outfit lies in [0.75, 10.45]: low
      colour scores need more colours than four items can carry. */
  lemma StandardWeightedBounds(top: Item, bottom: Item, shoes: Item, outerwear: Option<Item>)
    ensures 0.75 <= StandardWeighted(top, bottom, shoes, outerwear) <= 10.45
  {
    var all := WithOuterwear([top, bottom, shoes], outerwear);
    ColourHarmonySmallOutfit(all);
    ColourHarmonyBounds(all);
    ScoreFormalityRange(all);
    FitBalanceProperties(top, bottom);
    LengthProportionProperties(top, bottom);
  }

  /** The weighted sum of a full-body outfit lies in [1, 10.7]. */
  lemma FullBodyWeightedBounds(fullBody: Item, shoes: Item, outerwear: Option<Item>)
    ensures 1.0 <= FullBodyWeighted(fullBody, shoes, outerwear) <= 10.7
  {
    var all := WithOuterwear([fullBody, shoes], outerwear);
    assert |all| <= 3;
    assert |UniqueNonNeutrals(TaggedColours(all))| <= 3;
    ColourHarmonyFewColours(all);
    ColourHarmonyBounds(all);
    ScoreFormalityRange(all);
  }

  /** With a jitter from `Math.random() * 0.5` the floor at 0 never fires, and a
      top + bottom score stays below 11.75. */
  lemma ScoreOutfitExact(top: Item, bottom: Item, shoes: Item, outerwear: Option<Item>, jitter: real)
    requires 0.0 <= jitter < 0.5
    ensures var all := WithOuterwear([top, bottom, shoes], outerwear);
            ScoreOutfit(top, bottom, shoes, outerwear, jitter)
              == StandardWeighted(top, bottom, shoes, outerwear) + jitter + ImageCount(all) as real * 0.2
    ensures ScoreOutfit(top, bottom, shoes, outerwear, jitter) < 11.75
  {
    StandardWeightedBounds(top, bottom, shoes, outerwear);
  }

  /** The same for a full-body score, which stays below 11.8. */
  lemma ScoreFullBodyOutfitExact(fullBody: Item, shoes: Item, outerwear: Option<Item>, jitter: real)
    requires 0.0 <= jitter < 0.5
    ensures var all := WithOuterwear([fullBody, shoes], outerwear);
            ScoreFullBodyOutfit(fullBody, shoes, outerwear, jitter)
              == FullBodyWeighted(fullBody, shoes, outerwear) + jitter + ImageCount(all) as real * 0.2
    ensures ScoreFullBodyOutfit(fullBody, shoes, outerwear, jitter) < 11.8
  {
    FullBodyWeightedBounds(fullBody, shoes, outerwear);
  }
}
