/** Colour harmony: neutral colours pair with everything, colours close on a
    12-segment wheel pair well, and more than three distinct non-neutral colours
    are penalised (outfitEngine.js, section 1). */
module Colour {
  import opened Items
  import opened Seqs

  const NeutralColours: seq<string> := ["Black", "White", "Grey", "Navy", "Beige", "Cream"]

  /** Positions on the simplified 12-segment colour wheel. */
  const ColourWheel: map<string, int> := map[
    "Red" := 0, "Orange" := 1, "Yellow" := 2, "Green" := 4, "Blue" := 7,
    "Purple" := 10, "Pink" := 11, "Brown" := 1, "Burgundy" := 0, "Olive" := 3,
    "Teal" := 6, "Maroon" := 0]

  /** An untagged colour counts as neutral. */
  predicate IsNeutral(colour: string)
  {
    colour == "" || colour in NeutralColours
  }

  /** `COLOUR_WHEEL[colour] ?? null`, with -1 standing for `null`. */
  function WheelPosition(colour: string): (p: int)
    ensures colour in ColourWheel ==> p == ColourWheel[colour] && 0 <= p < 12
    ensures colour !in ColourWheel ==> p == -1
  {
    if colour in ColourWheel then ColourWheel[colour] else -1
  }

  /** Shortest distance, in segments, between two wheel positions. */
  function WheelDistance(pos1: int, pos2: int): int
  {
    var diff := if pos1 >= pos2 then pos1 - pos2 else pos2 - pos1;
    if diff <= 12 - diff then diff else 12 - diff
  }

  lemma WheelDistanceProperties(pos1: int, pos2: int)
    requires 0 <= pos1 < 12 && 0 <= pos2 < 12
    ensures WheelDistance(pos1, pos2) == WheelDistance(pos2, pos1)
    ensures 0 <= WheelDistance(pos1, pos2) <= 6
    ensures WheelDistance(pos1, pos2) == 0 <==> pos1 == pos2
  {
  }

  /** The contribution of one colour pair at the given wheel distance:
      monochromatic, analogous, complementary or dissonant. */
  function PairHarmony(dist: int): (h: int)
    ensures -1 <= h <= 3
  {
    if dist == 0 then 3
    else if dist <= 2 then 2
    else if 5 <= dist <= 7 then 1
    else -1
  }

  /** The colour attributes of the items, untagged ones included. */
  function ColoursOf(items: seq<Item>): (r: seq<string>)
    ensures |r| == |items|
    ensures forall i :: 0 <= i < |items| ==> r[i] == items[i].colour
  {
    seq(|items|, i requires 0 <= i < |items| => items[i].colour)
  }

  /** The tagged colours of the items, in order (`map(...).filter(Boolean)`). */
  function TaggedColours(items: seq<Item>): (r: seq<string>)
    ensures |r| <= |items|
    ensures forall c :: c in r <==> c in ColoursOf(items) && c != ""
    ensures r == [] <==> forall i :: 0 <= i < |items| ==> items[i].colour == ""
  {
    var colours := ColoursOf(items);
    forall c ensures c in Filter(colours, c => c != "") <==> c in colours && c != "" {
      FilterMembership(colours, c => c != "", c);
    }
    Filter(colours, c => c != "")
  }

  /** Distinct non-neutral colours, in order of first occurrence. */
  function UniqueNonNeutrals(colours: seq<string>): (r: seq<string>)
    ensures |r| <= |colours|
    ensures forall c :: c in r <==> c in colours && !IsNeutral(c)
    ensures forall i, j :: 0 <= i < j < |r| ==> r[i] != r[j]
    ensures r == [] <==> forall i :: 0 <= i < |colours| ==> IsNeutral(colours[i])
  {
    FilterMembershipAll(colours);
    Dedup(Filter(colours, c => !IsNeutral(c)))
  }

  lemma FilterMembershipAll(colours: seq<string>)
    ensures forall c :: c in Filter(colours, c => !IsNeutral(c)) <==> c in colours && !IsNeutral(c)
  {
    forall c ensures c in Filter(colours, c => !IsNeutral(c)) <==> c in colours && !IsNeutral(c) {
      FilterMembership(colours, c => !IsNeutral(c), c);
    }
  }

  /** Wheel positions of the colours that have one, in order. */
  function KnownPositions(colours: seq<string>): (r: seq<int>)
    ensures |r| <= |colours|
    ensures forall i :: 0 <= i < |r| ==> 0 <= r[i] < 12
  {
    if colours == [] then []
    else
      var rest := KnownPositions(colours[1..]);
      if colours[0] in ColourWheel then [WheelPosition(colours[0])] + rest else rest
  }

  /** Sum of the pair contributions of position `i` with positions `i+1 .. j-1`. */
  function RowHarmony(p: seq<int>, i: nat, j: nat): int
    requires i < j <= |p|
    decreases j
  {
    if j == i + 1 then 0
    else RowHarmony(p, i, j - 1) + PairHarmony(WheelDistance(p[i], p[j - 1]))
  }

  /** Sum of the pair contributions of all pairs whose first position is below `i`. */
  function TotalHarmony(p: seq<int>, i: nat): int
    requires i <= |p|
  {
    if i == 0 then 0 else TotalHarmony(p, i - 1) + RowHarmony(p, i - 1, |p|)
  }

  /** Number of pairs whose first position is below `i`, out of `n` positions. */
  function PairCount(n: nat, i: nat): nat
    requires i <= n
  {
    if i == 0 then 0 else PairCount(n, i - 1) + (n - i)
  }

  /** Mean pair contribution (`pairCount > 0 ? totalHarmony / pairCount : 0`). */
  function MeanHarmony(p: seq<int>): real
  {
    var pairs := PairCount(|p|, |p|);
    if pairs > 0 then TotalHarmony(p, |p|) as real / pairs as real else 0.0
  }

  function Clamp(x: real): (r: real)
    ensures 0.0 <= r <= 10.0
    ensures 0.0 <= x <= 10.0 ==> r == x
  {
    if x < 0.0 then 0.0 else if x > 10.0 then 10.0 else x
  }

  /** The colour-harmony score of a set of items (outfitEngine.js:60-112). */
  function ColourHarmony(items: seq<Item>): real
  {
    var colours := TaggedColours(items);
    if |colours| == 0 then 5.0 else AccentHarmony(UniqueNonNeutrals(colours))
  }

  /** The score once some colour is tagged, given the distinct non-neutral ones. */
  function AccentHarmony(unique: seq<string>): real
  {
    if |unique| == 0 then 8.0
    else
      var base := if |unique| > 3 then 6.0 - ((|unique| - 3) * 2) as real else 6.0;
      if |unique| >= 2 then
        var positions := KnownPositions(unique);
        Clamp(if |positions| >= 2 then base + MeanHarmony(positions) else base)
      else Clamp(base + 2.0)
  }

  /** The nested pair loop of outfitEngine.js:84-102: every pair `i < j` of
      positions is compared once, accumulating a harmony total and a pair count. */
  method SumPairHarmony(positions: seq<int>) returns (totalHarmony: int, pairCount: nat)
    ensures totalHarmony == TotalHarmony(positions, |positions|)
    ensures pairCount == PairCount(|positions|, |positions|)
  {
    var n := |positions|;
    totalHarmony, pairCount := 0, 0;
    for i := 0 to n
      invariant totalHarmony == TotalHarmony(positions, i)
      invariant pairCount == PairCount(n, i)
    {
      for j := i + 1 to n
        invariant totalHarmony == TotalHarmony(positions, i) + RowHarmony(positions, i, j)
        invariant pairCount == PairCount(n, i) + (j - i - 1)
      {
        var dist := WheelDistance(positions[i], positions[j]);
        pairCount := pairCount + 1;
        if dist == 0 {
          totalHarmony := totalHarmony + 3;
        } else if dist <= 2 {
          totalHarmony := totalHarmony + 2;
        } else if 5 <= dist <= 7 {
          totalHarmony := totalHarmony + 1;
        } else {
          totalHarmony := totalHarmony - 1;
        }
      }
    }
  }

  /** The source's step-by-step form of the colour-harmony score, proved equal
      to ColourHarmony. */
  method ScoreColourHarmony(items: seq<Item>) returns (score: real)
    ensures score == ColourHarmony(items)
    ensures 0.0 <= score <= 9.0
  {
    ColourHarmonyBounds(items);
    var colours := TaggedColours(items);
    if |colours| == 0 {
      return 5.0;
    }
    var unique := UniqueNonNeutrals(colours);
    score := ScoreAccents(unique);
  }

  /** The part of the score that depends on the distinct non-neutral colours. */
  method ScoreAccents(unique: seq<string>) returns (score: real)
    ensures score == AccentHarmony(unique)
  {
    if |unique| == 0 {
      return 8.0;
    }
    score := 6.0;
    if |unique| > 3 {
      score := score - ((|unique| - 3) * 2) as real;
    }
    if |unique| >= 2 {
      var positions := KnownPositions(unique);
      if |positions| >= 2 {
        var totalHarmony, pairCount := SumPairHarmony(positions);
        score := score + if pairCount > 0 then totalHarmony as real / pairCount as real else 0.0;
      }
    } else {
      score := score + 2.0;
    }
    score := Clamp(score);
  }

  // ----- Properties of the colour-harmony score -----

  lemma {:induction false} RowHarmonyBounds(p: seq<int>, i: nat, j: nat)
    requires i < j <= |p|
    ensures -(j - i - 1) <= RowHarmony(p, i, j) <= 3 * (j - i - 1)
    decreases j
  {
    if j > i + 1 {
      RowHarmonyBounds(p, i, j - 1);
    }
  }

  lemma {:induction false} TotalHarmonyBounds(p: seq<int>, i: nat)
    requires i <= |p|
    ensures -(PairCount(|p|, i) as int) <= TotalHarmony(p, i) <= 3 * PairCount(|p|, i)
  {
    if i > 0 {
      TotalHarmonyBounds(p, i - 1);
      RowHarmonyBounds(p, i - 1, |p|);
    }
  }

  lemma MeanBounds(total: int, pairs: int)
    requires pairs > 0 && -pairs <= total <= 3 * pairs
    ensures -1.0 <= total as real / pairs as real <= 3.0
  {
    var q := total as real / pairs as real;
    assert q * pairs as real == total as real;
  }

  /** Every pair contributes between -1 and +3, so the mean does too. */
  lemma MeanHarmonyBounds(p: seq<int>)
    ensures -1.0 <= MeanHarmony(p) <= 3.0
  {
    TotalHarmonyBounds(p, |p|);
    if PairCount(|p|, |p|) > 0 {
      MeanBounds(TotalHarmony(p, |p|), PairCount(|p|, |p|));
    }
  }

  /** The pair loop counts every pair i < j once: n(n-1)/2 pairs in all. */
  lemma {:induction false} PairCountClosed(n: nat, i: nat)
    requires i <= n
    ensures 2 * PairCount(n, i) == i * (2 * n - i - 1)
  {
    if i > 0 {
      PairCountClosed(n, i - 1);
    }
  }

  /** The score lies in [0,10]; in fact the upper clamp never fires, since the
      best case is the base 6 plus a mean contribution of 3. */
  lemma ColourHarmonyBounds(items: seq<Item>)
    ensures 0.0 <= ColourHarmony(items) <= 9.0
  {
    var colours := TaggedColours(items);
    if |colours| > 0 && |UniqueNonNeutrals(colours)| > 0 {
      AccentHarmonyBounds(UniqueNonNeutrals(colours));
    }
  }

  /** No tagged colour at all: the neutral default 5. */
  lemma ColourHarmonyUntagged(items: seq<Item>)
    requires forall i :: 0 <= i < |items| ==> items[i].colour == ""
    ensures ColourHarmony(items) == 5.0
  {
  }

  /** Some colour tagged and every tagged colour neutral: the safe baseline 8. */
  lemma ColourHarmonyAllNeutral(items: seq<Item>)
    requires exists i :: 0 <= i < |items| && items[i].colour != ""
    requires forall i :: 0 <= i < |items| ==> IsNeutral(items[i].colour)
    ensures ColourHarmony(items) == 8.0
  {
    var colours := TaggedColours(items);
    var k :| 0 <= k < |items| && items[k].colour != "";
    assert items[k].colour in ColoursOf(items);
    forall i | 0 <= i < |colours| ensures IsNeutral(colours[i]) {
      assert colours[i] in colours;
    }
  }

  /** Exactly one distinct non-neutral colour, the rest neutral: 6 + 2. */
  lemma ColourHarmonySingleAccent(items: seq<Item>, accent: string)
    requires !IsNeutral(accent)
    requires exists i :: 0 <= i < |items| && items[i].colour == accent
    requires forall i :: 0 <= i < |items| ==> items[i].colour == accent || IsNeutral(items[i].colour)
    ensures ColourHarmony(items) == 8.0
  {
    var colours := TaggedColours(items);
    var k :| 0 <= k < |items| && items[k].colour == accent;
    assert accent in ColoursOf(items);
    forall c | c in colours ensures c == accent || IsNeutral(c) {
      var i :| 0 <= i < |items| && ColoursOf(items)[i] == c;
    }
    SingleAccentUnique(colours, accent);
    AccentHarmonySingle(accent);
  }

  lemma SingleAccentUnique(colours: seq<string>, accent: string)
    requires !IsNeutral(accent) && accent in colours
    requires forall c :: c in colours ==> c == accent || IsNeutral(c)
    ensures UniqueNonNeutrals(colours) == [accent]
  {
    var accents := Filter(colours, c => !IsNeutral(c));
    FilterMembership(colours, c => !IsNeutral(c), accent);
    forall i | 0 <= i < |accents| ensures accents[i] == accent {
      FilterMembership(colours, c => !IsNeutral(c), accents[i]);
    }
    DedupConstant(accents, accent);
  }

  /** One distinct non-neutral colour: the base 6 plus 2. */
  lemma AccentHarmonySingle(accent: string)
    ensures AccentHarmony([accent]) == 8.0
  {
  }

  /** With at least one distinct non-neutral colour the score lies between
      5 and 9 less the three-colour penalty (or is clamped at 0). */
  lemma AccentHarmonyBounds(unique: seq<string>)
    requires |unique| > 0
    ensures var penalty := if |unique| > 3 then ((|unique| - 3) * 2) as real else 0.0;
            Clamp(5.0 - penalty) <= AccentHarmony(unique) <= Clamp(9.0 - penalty)
  {
    MeanHarmonyBounds(KnownPositions(unique));
  }

  /** The three-colour rule: with more than three distinct non-neutral colours the
      score is at most 9 minus 2 per colour beyond the third (and never below 0). */
  lemma ColourHarmonyThreeColourRule(items: seq<Item>)
    requires |UniqueNonNeutrals(TaggedColours(items))| > 3
    ensures ColourHarmony(items) <= 9.0 - ((|UniqueNonNeutrals(TaggedColours(items))| - 3) * 2) as real
         || ColourHarmony(items) == 0.0
  {
    var colours := TaggedColours(items);
    assert |colours| > 0;
    AccentHarmonyBounds(UniqueNonNeutrals(colours));
  }

  /** The penalty for a fourth colour does not make the score fall: colours off
      the wheel add no pair, so adding Maroon to Red, Khaki and Lilac adds the
      monochrome pair Red/Maroon, whose mean 3 outweighs the penalty 2. */
  lemma FourthColourCanRaiseScore()
    ensures AccentHarmony(["Red", "Khaki", "Lilac"]) == 6.0
    ensures AccentHarmony(["Red", "Maroon", "Khaki", "Lilac"]) == 7.0
  {
    assert "Khaki" !in ColourWheel && "Lilac" !in ColourWheel;
    assert KnownPositions(["Lilac"]) == [];
    assert KnownPositions(["Khaki", "Lilac"]) == [];
    assert KnownPositions(["Red", "Khaki", "Lilac"]) == [0];
    var p := KnownPositions(["Red", "Maroon", "Khaki", "Lilac"]);
    assert p == [0, 0];
    assert RowHarmony(p, 0, 2) == 3;
    assert TotalHarmony(p, 2) == 3;
    assert PairCount(2, 2) == 1;
    assert MeanHarmony(p) == 3.0;
  }

  /** With at most three distinct non-neutral colours the score is at least 5. */
  lemma ColourHarmonyFewColours(items: seq<Item>)
    requires |UniqueNonNeutrals(TaggedColours(items))| <= 3
    ensures ColourHarmony(items) >= 5.0
  {
    var colours := TaggedColours(items);
    if |colours| > 0 && |UniqueNonNeutrals(colours)| > 0 {
      AccentHarmonyBounds(UniqueNonNeutrals(colours));
    }
  }

  /** An outfit has at most four items, and then the score is at least 3. */
  lemma ColourHarmonySmallOutfit(items: seq<Item>)
    requires |items| <= 4
    ensures ColourHarmony(items) >= 3.0
  {
    var colours := TaggedColours(items);
    assert |UniqueNonNeutrals(colours)| <= 4;
    if |colours| > 0 && |UniqueNonNeutrals(colours)| > 0 {
      AccentHarmonyBounds(UniqueNonNeutrals(colours));
    }
  }
}
