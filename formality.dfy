/** Formality matching on the scale Casual (1), Everyday (2), Smart (3), with
    Athletic (99) isolated off the scale (outfitEngine.js, section 2). */
module Formality {
  import opened Items
  import opened Seqs

  const AthleticLevel := 99

  const FormalityValues: map<string, int> := map[
    "Casual" := 1, "Everyday" := 2, "Smart" := 3, "Athletic" := AthleticLevel]

  /** The item carries a formality label the scale knows. */
  predicate Tagged(item: Item)
  {
    item.formality in FormalityValues
  }

  function Level(item: Item): (v: int)
    requires Tagged(item)
    ensures v == 1 || v == 2 || v == 3 || v == AthleticLevel
    ensures v == AthleticLevel <==> item.formality == "Athletic"
    ensures item.formality == "Casual" ==> v == 1
    ensures item.formality == "Everyday" ==> v == 2
    ensures item.formality == "Smart" ==> v == 3
  {
    FormalityValues[item.formality]
  }

  /** The levels of the tagged items, in order (`map(...).filter(v => v !== undefined)`). */
  function Levels(items: seq<Item>): (r: seq<int>)
    ensures |r| <= |items|
  {
    if items == [] then []
    else
      var rest := Levels(items[1..]);
      if Tagged(items[0]) then [Level(items[0])] + rest else rest
  }

  /** Every level comes from a tagged item. */
  lemma {:induction false} LevelSource(items: seq<Item>, k: int)
    requires 0 <= k < |Levels(items)|
    ensures exists i :: 0 <= i < |items| && Tagged(items[i]) && Level(items[i]) == Levels(items)[k]
  {
    var rest := Levels(items[1..]);
    var r := Levels(items);
    assert r == if Tagged(items[0]) then [Level(items[0])] + rest else rest;
    if Tagged(items[0]) && k == 0 {
      assert Level(items[0]) == r[k];
    } else {
      var k' := if Tagged(items[0]) then k - 1 else k;
      assert 0 <= k' < |rest| && r[k] == rest[k'];
      LevelSource(items[1..], k');
      var i :| 0 <= i < |items[1..]| && Tagged(items[1..][i]) && Level(items[1..][i]) == rest[k'];
      assert items[i + 1] == items[1..][i];
    }
  }

  /** Each level is on the scale, every tagged item contributes its level, and
      there are none exactly when nothing is tagged. */
  lemma {:induction false} LevelsComplete(items: seq<Item>)
    ensures var r := Levels(items);
            && (forall k :: 0 <= k < |r| ==> r[k] == 1 || r[k] == 2 || r[k] == 3 || r[k] == AthleticLevel)
            && (forall i :: 0 <= i < |items| && Tagged(items[i]) ==> Level(items[i]) in r)
            && (r == [] <==> forall i :: 0 <= i < |items| ==> !Tagged(items[i]))
  {
    if items != [] {
      LevelsComplete(items[1..]);
      assert forall i :: 1 <= i < |items| ==> items[1..][i - 1] == items[i];
    }
  }

  lemma LevelsFacts(items: seq<Item>)
    ensures var r := Levels(items);
            && (forall k :: 0 <= k < |r| ==> r[k] == 1 || r[k] == 2 || r[k] == 3 || r[k] == AthleticLevel)
            && (forall i :: 0 <= i < |items| && Tagged(items[i]) ==> Level(items[i]) in r)
            && (forall k :: 0 <= k < |r| ==>
                  exists i :: 0 <= i < |items| && Tagged(items[i]) && Level(items[i]) == r[k])
            && (r == [] <==> forall i :: 0 <= i < |items| ==> !Tagged(items[i]))
  {
    forall k | 0 <= k < |Levels(items)|
      ensures exists i :: 0 <= i < |items| && Tagged(items[i]) && Level(items[i]) == Levels(items)[k]
    {
      LevelSource(items, k);
    }
    LevelsComplete(items);
  }

  /** Formality consistency of the items: 5 when nothing is tagged, else by the
      spread of the tagged levels (outfitEngine.js:134-150). */
  function ScoreFormalityMatch(items: seq<Item>): int
  {
    var levels := Levels(items);
    if |levels| == 0 then 5
    else
      var maxLevel := MaxOf(levels);
      var minLevel := MinOf(levels);
      var range := maxLevel - minLevel;
      if range == 0 then 10
      else if range == 1 then 7
      else if maxLevel == AthleticLevel then 0
      else 2
  }

  /** The cheap pre-filter: two or more tagged levels more than one step apart
      (outfitEngine.js:156-165). */
  function HasFormalityClash(items: seq<Item>): bool
  {
    var levels := Levels(items);
    if |levels| < 2 then false else MaxOf(levels) - MinOf(levels) > 1
  }

  // ----- Properties -----

  lemma ScoreFormalityRange(items: seq<Item>)
    ensures var r := ScoreFormalityMatch(items); r == 0 || r == 2 || r == 5 || r == 7 || r == 10
  {
  }

  /** Nothing tagged: the neutral 5. */
  lemma FormalityUntagged(items: seq<Item>)
    requires forall i :: 0 <= i < |items| ==> !Tagged(items[i])
    ensures ScoreFormalityMatch(items) == 5
  {
    LevelsFacts(items);
  }

  /** All tagged items at one level: 10. */
  lemma {:induction false} FormalityUniform(items: seq<Item>, level: int)
    requires exists i :: 0 <= i < |items| && Tagged(items[i])
    requires forall i :: 0 <= i < |items| && Tagged(items[i]) ==> Level(items[i]) == level
    ensures ScoreFormalityMatch(items) == 10
  {
    LevelsFacts(items);
    var levels := Levels(items);
    var k :| 0 <= k < |items| && Tagged(items[k]);
    assert Level(items[k]) in levels;
    forall j | 0 <= j < |levels| ensures levels[j] == level {
      var i :| 0 <= i < |items| && Tagged(items[i]) && Level(items[i]) == levels[j];
    }
    Pinned(levels, level, level);
  }

  /** Tagged items spanning exactly two adjacent levels: 7. */
  lemma {:induction false} FormalityAdjacent(items: seq<Item>, low: int)
    requires exists i :: 0 <= i < |items| && Tagged(items[i]) && Level(items[i]) == low
    requires exists i :: 0 <= i < |items| && Tagged(items[i]) && Level(items[i]) == low + 1
    requires forall i :: 0 <= i < |items| && Tagged(items[i]) ==>
               Level(items[i]) == low || Level(items[i]) == low + 1
    ensures ScoreFormalityMatch(items) == 7
  {
    LevelsFacts(items);
    var levels := Levels(items);
    var a :| 0 <= a < |items| && Tagged(items[a]) && Level(items[a]) == low;
    var b :| 0 <= b < |items| && Tagged(items[b]) && Level(items[b]) == low + 1;
    assert low in levels && low + 1 in levels;
    forall j | 0 <= j < |levels| ensures low <= levels[j] <= low + 1 {
      var i :| 0 <= i < |items| && Tagged(items[i]) && Level(items[i]) == levels[j];
    }
    Pinned(levels, low, low + 1);
  }

  /** Athletic together with any level of the main scale: the hard clash 0. */
  lemma {:induction false} FormalityAthleticMix(items: seq<Item>, a: nat, b: nat)
    requires a < |items| && b < |items|
    requires items[a].formality == "Athletic"
    requires Tagged(items[b]) && items[b].formality != "Athletic"
    ensures ScoreFormalityMatch(items) == 0
  {
    LevelsFacts(items);
    var levels := Levels(items);
    assert Level(items[a]) in levels && Level(items[b]) in levels;
    assert MaxOf(levels) == AthleticLevel;
    assert MinOf(levels) <= 3;
  }

  /** Casual and Smart together without Athletic: the strong penalty 2. */
  lemma {:induction false} FormalityNonAdjacent(items: seq<Item>, a: nat, b: nat)
    requires a < |items| && b < |items|
    requires items[a].formality == "Casual" && items[b].formality == "Smart"
    requires forall i :: 0 <= i < |items| ==> items[i].formality != "Athletic"
    ensures ScoreFormalityMatch(items) == 2
  {
    LevelsFacts(items);
    var levels := Levels(items);
    assert Level(items[a]) in levels && Level(items[b]) in levels;
    forall j | 0 <= j < |levels| ensures 1 <= levels[j] <= 3 {
      var i :| 0 <= i < |items| && Tagged(items[i]) && Level(items[i]) == levels[j];
    }
    Pinned(levels, 1, 3);
  }

  /** Two tagged items more than one level apart. */
  ghost predicate WideGap(items: seq<Item>)
  {
    exists i, j :: 0 <= i < |items| && 0 <= j < |items| && Tagged(items[i]) && Tagged(items[j])
                   && Level(items[i]) - Level(items[j]) > 1
  }

  /** The pre-filter flags a clash exactly when two tagged items are more than
      one level apart. */
  lemma ClashMeansWideGap(items: seq<Item>)
    ensures HasFormalityClash(items) <==> WideGap(items)
  {
    if HasFormalityClash(items) {
      ClashHasWitnesses(items);
    }
    if WideGap(items) {
      var i, j :| 0 <= i < |items| && 0 <= j < |items| && Tagged(items[i]) && Tagged(items[j])
                  && Level(items[i]) - Level(items[j]) > 1;
      WitnessesClash(items, i, j);
    }
  }

  lemma ClashHasWitnesses(items: seq<Item>)
    requires HasFormalityClash(items)
    ensures WideGap(items)
  {
    LevelsFacts(items);
    var levels := Levels(items);
    var hi := MaxOf(levels);
    var lo := MinOf(levels);
    assert hi in levels && lo in levels;
    var hk :| 0 <= hk < |levels| && levels[hk] == hi;
    var lk :| 0 <= lk < |levels| && levels[lk] == lo;
    var i :| 0 <= i < |items| && Tagged(items[i]) && Level(items[i]) == levels[hk];
    var j :| 0 <= j < |items| && Tagged(items[j]) && Level(items[j]) == levels[lk];
    assert Level(items[i]) - Level(items[j]) > 1;
  }

  lemma WitnessesClash(items: seq<Item>, i: nat, j: nat)
    requires i < |items| && j < |items| && Tagged(items[i]) && Tagged(items[j])
    requires Level(items[i]) - Level(items[j]) > 1
    ensures HasFormalityClash(items)
  {
    LevelsFacts(items);
    var levels := Levels(items);
    assert Level(items[i]) in levels && Level(items[j]) in levels;
    var a :| 0 <= a < |levels| && levels[a] == Level(items[i]);
    var b :| 0 <= b < |levels| && levels[b] == Level(items[j]);
    assert a != b;
    assert |levels| >= 2;
    assert MaxOf(levels) >= levels[a] && MinOf(levels) <= levels[b];
  }

  /** The pre-filter rejects exactly the combinations the scorer gives 2 or less. */
  lemma ClashMeansLowScore(items: seq<Item>)
    ensures HasFormalityClash(items) <==> ScoreFormalityMatch(items) <= 2
  {
  }
}
