/** Outerwear compatibility: how well a coat or jacket layers over the garment
    beneath it, by fit and by formality (outfitEngine.js, section 6). */
module Outerwear {
  import opened Wrappers
  import opened Items
  import Formality

  /** The fit adjustment: bulky over bulky is penalised, oversized over a
      slimmer top rewarded, regular outerwear slightly rewarded. */
  function FitAdjustment(outerFit: string, topFit: string): (a: int)
    ensures -3 <= a <= 2
  {
    if outerFit == "Oversized" && topFit == "Oversized" then -3
    else if outerFit == "Oversized" && (topFit == "Tight" || topFit == "Regular") then 2
    else if outerFit == "Regular" then 1
    else 0
  }

  /** The formality adjustment, when both pieces are tagged: same level +2,
      one apart +1, further apart -2. */
  function FormalityAdjustment(outer: Item, top: Item): (a: int)
    ensures -2 <= a <= 2
  {
    if Formality.Tagged(outer) && Formality.Tagged(top) then
      var gap := Formality.Level(outer) - Formality.Level(top);
      var absGap := if gap < 0 then -gap else gap;
      if absGap == 0 then 2 else if absGap == 1 then 1 else -2
    else 0
  }

  function Clamp(x: int): (r: int)
    ensures 0 <= r <= 10
    ensures 0 <= x <= 10 ==> r == x
  {
    if x < 0 then 0 else if x > 10 then 10 else x
  }

  /** The compatibility score (outfitEngine.js:308-335). The bottom garment is a
      parameter of the source function but takes no part in the score. */
  function OuterwearCompatibility(outerwear: Option<Item>, top: Item, bottom: Item): int
  {
    match outerwear
    case None => 5
    case Some(outer) =>
      Clamp(5 + FitAdjustment(OrRegular(outer.fit), OrRegular(top.fit)) + FormalityAdjustment(outer, top))
  }

  /** The source's running-score form, proved equal to OuterwearCompatibility. */
  method ScoreOuterwearCompatibility(outerwear: Option<Item>, top: Item, bottom: Item) returns (score: int)
    ensures score == OuterwearCompatibility(outerwear, top, bottom)
    ensures outerwear.None? ==> score == 5
    ensures 0 <= score <= 9
  {
    if outerwear.None? {
      return 5;
    }
    var outer := outerwear.value;
    score := 5;
    var outerFit := OrRegular(outer.fit);
    var topFit := OrRegular(top.fit);
    if outerFit == "Oversized" && topFit == "Oversized" {
      score := score - 3;
    } else if outerFit == "Oversized" && (topFit == "Tight" || topFit == "Regular") {
      score := score + 2;
    } else if outerFit == "Regular" {
      score := score + 1;
    }
    if Formality.Tagged(outer) && Formality.Tagged(top) {
      var gap := Formality.Level(outer) - Formality.Level(top);
      var absGap := if gap < 0 then -gap else gap;
      if absGap == 0 {
        score := score + 2;
      } else if absGap == 1 {
        score := score + 1;
      } else {
        score := score - 2;
      }
    }
    score := Clamp(score);
  }

  // ----- Properties -----

  /** The two adjustments never push the running score outside [0,9], so the
      clamp to [0,10] never changes it. */
  lemma ClampNeverFires(outer: Item, top: Item, bottom: Item)
    ensures var raw := 5 + FitAdjustment(OrRegular(outer.fit), OrRegular(top.fit)) + FormalityAdjustment(outer, top);
            0 <= raw <= 9 && OuterwearCompatibility(Some(outer), top, bottom) == raw
  {
  }

  /** Oversized over oversized with formality two levels apart: the worst case 0. */
  lemma WorstLayering(outer: Item, top: Item, bottom: Item)
    requires outer.fit == "Oversized" && top.fit == "Oversized"
    requires outer.formality == "Smart" && top.formality == "Casual"
    ensures OuterwearCompatibility(Some(outer), top, bottom) == 0
  {
  }

  /** Oversized over a fitted top at the same formality: the best case 9. */
  lemma BestLayering(outer: Item, top: Item, bottom: Item)
    requires outer.fit == "Oversized" && top.fit == "Tight"
    requires outer.formality == "Everyday" && top.formality == "Everyday"
    ensures OuterwearCompatibility(Some(outer), top, bottom) == 9
  {
  }
}
