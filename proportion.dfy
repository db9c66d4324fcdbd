/** Fit balance and length proportion: fixed tables keyed by the string
    `"<top>-<bottom>"`, with missing attributes read as "Regular" and unknown
    keys scoring 5 (outfitEngine.js, sections 3 and 4). */
module Proportion {
  import opened Items

  const FitScores: map<string, int> := map[
    Key("Tight", "Tight") := 5,
    Key("Tight", "Regular") := 7,
    Key("Tight", "Oversized") := 6,
    Key("Regular", "Tight") := 7,
    Key("Regular", "Regular") := 8,
    Key("Regular", "Oversized") := 9,
    Key("Oversized", "Tight") := 9,
    Key("Oversized", "Regular") := 8,
    Key("Oversized", "Oversized") := 3]

  const LengthScores: map<string, int> := map[
    Key("Cropped", "Regular") := 8,
    Key("Cropped", "Long") := 9,
    Key("Regular", "Regular") := 7,
    Key("Regular", "Long") := 6,
    Key("Regular", "Cropped") := 5,
    Key("Long", "Cropped") := 7,
    Key("Long", "Regular") := 5,
    Key("Long", "Long") := 3,
    Key("Cropped", "Cropped") := 4]

  const Fits: set<string> := {"Tight", "Regular", "Oversized"}
  const Lengths: set<string> := {"Cropped", "Regular", "Long"}

  /** The template-literal key `${a}-${b}`. */
  function Key(a: string, b: string): string
  {
    a + "-" + b
  }

  /** `table[key] ?? 5`. */
  function Lookup(table: map<string, int>, key: string): int
  {
    if key in table then table[key] else 5
  }

  function ScoreFitBalance(top: Item, bottom: Item): int
  {
    Lookup(FitScores, Key(OrRegular(top.fit), OrRegular(bottom.fit)))
  }

  function ScoreLengthProportion(top: Item, bottom: Item): int
  {
    Lookup(LengthScores, Key(OrRegular(top.length), OrRegular(bottom.length)))
  }

  // ----- Properties -----

  lemma KeyCharAt(a: string, b: string, i: int)
    ensures |Key(a, b)| == |a| + 1 + |b|
    ensures 0 <= i < |a| ==> Key(a, b)[i] == a[i]
    ensures i == |a| ==> Key(a, b)[i] == '-'
    ensures |a| < i < |Key(a, b)| ==> Key(a, b)[i] == b[i - |a| - 1]
  {
  }

  /** A key made of two dash-free words splits back into those two words. */
  lemma KeyInjective(a: string, b: string, x: string, y: string)
    requires '-' !in x && '-' !in y
    requires Key(a, b) == Key(x, y)
    ensures a == x && b == y
  {
    var k := Key(x, y);
    if |a| != |x| {
      KeyCharAt(a, b, |a|);
      KeyCharAt(x, y, |a|);
      KeyCharAt(a, b, |x|);
      KeyCharAt(x, y, |x|);
      assert false;
    }
    assert a == k[..|a|] == x;
    assert b == k[|a| + 1..] == y;
  }

  /** Every key of the fit table is a pair of known fits. */
  lemma FitKeysAreFitPairs(a: string, b: string)
    requires Key(a, b) in FitScores
    ensures a in Fits && b in Fits
  {
    var k := Key(a, b);
    if k == Key("Tight", "Tight") { KeyInjective(a, b, "Tight", "Tight"); }
    else if k == Key("Tight", "Regular") { KeyInjective(a, b, "Tight", "Regular"); }
    else if k == Key("Tight", "Oversized") { KeyInjective(a, b, "Tight", "Oversized"); }
    else if k == Key("Regular", "Tight") { KeyInjective(a, b, "Regular", "Tight"); }
    else if k == Key("Regular", "Regular") { KeyInjective(a, b, "Regular", "Regular"); }
    else if k == Key("Regular", "Oversized") { KeyInjective(a, b, "Regular", "Oversized"); }
    else if k == Key("Oversized", "Tight") { KeyInjective(a, b, "Oversized", "Tight"); }
    else if k == Key("Oversized", "Regular") { KeyInjective(a, b, "Oversized", "Regular"); }
    else { KeyInjective(a, b, "Oversized", "Oversized"); }
  }

  /** Every key of the length table is a pair of known lengths. */
  lemma LengthKeysAreLengthPairs(a: string, b: string)
    requires Key(a, b) in LengthScores
    ensures a in Lengths && b in Lengths
  {
    var k := Key(a, b);
    if k == Key("Cropped", "Regular") { KeyInjective(a, b, "Cropped", "Regular"); }
    else if k == Key("Cropped", "Long") { KeyInjective(a, b, "Cropped", "Long"); }
    else if k == Key("Regular", "Regular") { KeyInjective(a, b, "Regular", "Regular"); }
    else if k == Key("Regular", "Long") { KeyInjective(a, b, "Regular", "Long"); }
    else if k == Key("Regular", "Cropped") { KeyInjective(a, b, "Regular", "Cropped"); }
    else if k == Key("Long", "Cropped") { KeyInjective(a, b, "Long", "Cropped"); }
    else if k == Key("Long", "Regular") { KeyInjective(a, b, "Long", "Regular"); }
    else if k == Key("Long", "Long") { KeyInjective(a, b, "Long", "Long"); }
    else { KeyInjective(a, b, "Cropped", "Cropped"); }
  }

  /** Fit balance lies in [3,9]; a fit outside Tight/Regular/Oversized (after
      defaulting a missing one to Regular) on either side gives the default 5. */
  lemma FitBalanceProperties(top: Item, bottom: Item)
    ensures 3 <= ScoreFitBalance(top, bottom) <= 9
    ensures OrRegular(top.fit) !in Fits || OrRegular(bottom.fit) !in Fits ==> ScoreFitBalance(top, bottom) == 5
  {
    var a, b := OrRegular(top.fit), OrRegular(bottom.fit);
    if Key(a, b) in FitScores {
      FitKeysAreFitPairs(a, b);
    }
  }

  /** Length proportion lies in [3,9]; a length outside Cropped/Regular/Long on
      either side gives the default 5. */
  lemma LengthProportionProperties(top: Item, bottom: Item)
    ensures 3 <= ScoreLengthProportion(top, bottom) <= 9
    ensures OrRegular(top.length) !in Lengths || OrRegular(bottom.length) !in Lengths ==>
              ScoreLengthProportion(top, bottom) == 5
  {
    var a, b := OrRegular(top.length), OrRegular(bottom.length);
    if Key(a, b) in LengthScores {
      LengthKeysAreLengthPairs(a, b);
    }
  }

  /** A missing fit or length, on either side, scores as "Regular". */
  lemma MissingMeansRegular(top: Item, bottom: Item)
    ensures top.fit == "" ==> ScoreFitBalance(top, bottom) == ScoreFitBalance(top.(fit := "Regular"), bottom)
    ensures bottom.fit == "" ==> ScoreFitBalance(top, bottom) == ScoreFitBalance(top, bottom.(fit := "Regular"))
    ensures top.length == "" ==>
              ScoreLengthProportion(top, bottom) == ScoreLengthProportion(top.(length := "Regular"), bottom)
    ensures bottom.length == "" ==>
              ScoreLengthProportion(top, bottom) == ScoreLengthProportion(top, bottom.(length := "Regular"))
  {
  }

  /** Fit-table entries: Oversized over Oversized, Oversized over Tight, and an
      untagged pair, which reads as Regular over Regular. */
  lemma FitExamples(top: Item, bottom: Item)
    ensures top.fit == "Oversized" && bottom.fit == "Oversized" ==> ScoreFitBalance(top, bottom) == 3
    ensures top.fit == "Oversized" && bottom.fit == "Tight" ==> ScoreFitBalance(top, bottom) == 9
    ensures top.fit == "" && bottom.fit == "" ==> ScoreFitBalance(top, bottom) == 8
  {
    assert Key("Regular", "Regular") == "Regular-Regular";
    assert Key("Regular", "Oversized") == "Regular-Oversized";
    assert Key("Oversized", "Tight") == "Oversized-Tight";
    assert Key("Oversized", "Regular") == "Oversized-Regular";
    assert Key("Oversized", "Oversized") == "Oversized-Oversized";
  }

  /** Length-table entries: Cropped over Long, Long over Long, and Cropped over
      Cropped. */
  lemma LengthExamples(top: Item, bottom: Item)
    ensures top.length == "Cropped" && bottom.length == "Long" ==> ScoreLengthProportion(top, bottom) == 9
    ensures top.length == "Long" && bottom.length == "Long" ==> ScoreLengthProportion(top, bottom) == 3
    ensures top.length == "Cropped" && bottom.length == "Cropped" ==> ScoreLengthProportion(top, bottom) == 4
  {
    assert Key("Cropped", "Long") == "Cropped-Long";
    assert Key("Regular", "Regular") == "Regular-Regular";
    assert Key("Regular", "Long") == "Regular-Long";
    assert Key("Regular", "Cropped") == "Regular-Cropped";
    assert Key("Long", "Cropped") == "Long-Cropped";
    assert Key("Long", "Regular") == "Long-Regular";
    assert Key("Long", "Long") == "Long-Long";
    assert Key("Cropped", "Cropped") == "Cropped-Cropped";
  }
}
