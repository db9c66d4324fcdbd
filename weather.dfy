/** Weather filtering: each item resolves to a warmth ("Cold", "Transitional" or
    "Warm"), cold weather drops warm-only items, hot weather drops cold-only
    items, and the temperature sets the outerwear policy (outfitEngine.js,
    section 5). */
module Weather {
  import opened Wrappers
  import opened Items
  import opened Seqs

  const WarmthLabels: set<string> := {"Cold", "Transitional", "Warm"}

  const ColdKeywords: seq<string> := ["jumper", "hoodie", "sweater", "coat", "jacket", "fleece",
                                      "cardigan", "puffer", "parka", "thermal", "wool"]
  const WarmKeywords: seq<string> := ["shorts", "vest", "tank", "sandals", "flip", "linen", "crop"]

  /** `keywords.some(kw => name.includes(kw))`. */
  predicate MentionsAny(name: string, keywords: seq<string>)
  {
    exists k :: 0 <= k < |keywords| && Contains(name, keywords[k])
  }

  /** The warmth of an item: its own valid `warmth` label if it has one, otherwise
      cold keywords in the lower-cased name, then warm keywords, then
      "Transitional" (outfitEngine.js:249-260). */
  function ItemWarmth(item: Item): (w: string)
    ensures w in WarmthLabels
    ensures item.warmth in WarmthLabels ==> w == item.warmth
  {
    if item.warmth in WarmthLabels then item.warmth
    else
      var nameLower := ToLower(item.name);
      if MentionsAny(nameLower, ColdKeywords) then "Cold"
      else if MentionsAny(nameLower, WarmKeywords) then "Warm"
      else "Transitional"
  }

  /** The temperature is known and below 10 degrees. */
  predicate IsCold(temperature: Option<real>)
  {
    temperature.Some? && temperature.value < 10.0
  }

  /** The temperature is known and above 20 degrees. */
  predicate IsHot(temperature: Option<real>)
  {
    temperature.Some? && temperature.value > 20.0
  }

  /** The warmth an item must not have at this temperature, if any. */
  function ExcludedWarmth(temperature: Option<real>): string
  {
    if IsCold(temperature) then "Warm" else if IsHot(temperature) then "Cold" else ""
  }

  /** Weather filtering of one category's items; never empties a non-empty list
      (outfitEngine.js:266-284). */
  function FilterByWeather(items: seq<Item>, temperature: Option<real>): (r: seq<Item>)
    ensures IsSubsequence(r, items)
    ensures |items| > 0 ==> |r| > 0
    ensures !IsCold(temperature) && !IsHot(temperature) ==> r == items
    ensures var banned := ExcludedWarmth(temperature);
            banned != "" ==>
              if exists i :: 0 <= i < |items| && ItemWarmth(items[i]) != banned then
                forall x :: multiset(r)[x] == if ItemWarmth(x) != banned then multiset(items)[x] else 0
              else r == items
  {
    SubsequenceReflexive(items);
    if temperature.None? then items
    else
      var banned := ExcludedWarmth(temperature);
      if banned == "" then items
      else
        var filtered := Filter(items, x => ItemWarmth(x) != banned);
        if |filtered| > 0 then filtered else items
  }

  datatype OuterwearMode = Required | Optional | Excluded

  /** Whether outerwear must, may or must not be worn (outfitEngine.js:290-295). */
  function GetOuterwearMode(temperature: Option<real>): (m: OuterwearMode)
    ensures temperature.None? ==> m == Optional
    ensures m == Required <==> IsCold(temperature)
    ensures temperature.Some? && 10.0 <= temperature.value <= 18.0 ==> m == Optional
    ensures m == Excluded <==> temperature.Some? && temperature.value > 18.0
  {
    match temperature
    case None => Optional
    case Some(t) => if t < 10.0 then Required else if t <= 18.0 then Optional else Excluded
  }

  // ----- Properties -----

  /** The outerwear threshold (18) and the hot-weather threshold (20) are
      independent: between them outerwear is excluded but no item is. */
  lemma ThresholdGap(items: seq<Item>, t: real)
    requires 18.0 < t <= 20.0
    ensures GetOuterwearMode(Some(t)) == Excluded
    ensures FilterByWeather(items, Some(t)) == items
  {
  }

  /** Membership after weather filtering: at a mild or unknown temperature
      every item is kept; otherwise exactly the items without the banned
      warmth are kept, or all of them when no item lacks it. */
  lemma FilterByWeatherMembership(items: seq<Item>, temperature: Option<real>)
    ensures ExcludedWarmth(temperature) == "" ==> FilterByWeather(items, temperature) == items
    ensures var banned := ExcludedWarmth(temperature);
            banned != "" && (exists x :: x in items && ItemWarmth(x) != banned) ==>
              forall x :: x in FilterByWeather(items, temperature) <==> x in items && ItemWarmth(x) != banned
    ensures var banned := ExcludedWarmth(temperature);
            banned != "" && !(exists x :: x in items && ItemWarmth(x) != banned) ==>
              FilterByWeather(items, temperature) == items
  {
    var banned := ExcludedWarmth(temperature);
    var r := FilterByWeather(items, temperature);
    if banned != "" {
      if exists x :: x in items && ItemWarmth(x) != banned {
        var w :| w in items && ItemWarmth(w) != banned;
        var i :| 0 <= i < |items| && items[i] == w;
        forall x ensures x in r <==> x in items && ItemWarmth(x) != banned {
          assert x in r <==> multiset(r)[x] > 0;
          assert x in items <==> multiset(items)[x] > 0;
        }
      } else {
        forall i | 0 <= i < |items| ensures ItemWarmth(items[i]) == banned {
          assert items[i] in items;
        }
      }
    }
  }

  /** In cold weather every kept item is not warm-only, unless all were. */
  lemma ColdWeatherKeepsNoWarmItems(items: seq<Item>, t: real)
    requires t < 10.0
    requires exists i :: 0 <= i < |items| && ItemWarmth(items[i]) != "Warm"
    ensures forall x :: x in FilterByWeather(items, Some(t)) ==> ItemWarmth(x) != "Warm"
    ensures forall x :: x in items && ItemWarmth(x) != "Warm" ==> x in FilterByWeather(items, Some(t))
  {
    var r := FilterByWeather(items, Some(t));
    forall x ensures x in r <==> (x in items && ItemWarmth(x) != "Warm") {
      assert x in r <==> multiset(r)[x] > 0;
      assert x in items <==> multiset(items)[x] > 0;
    }
  }

  /** In hot weather every kept item is not cold-only, unless all were. */
  lemma HotWeatherKeepsNoColdItems(items: seq<Item>, t: real)
    requires t > 20.0
    requires exists i :: 0 <= i < |items| && ItemWarmth(items[i]) != "Cold"
    ensures forall x :: x in FilterByWeather(items, Some(t)) ==> ItemWarmth(x) != "Cold"
    ensures forall x :: x in items && ItemWarmth(x) != "Cold" ==> x in FilterByWeather(items, Some(t))
  {
    var r := FilterByWeather(items, Some(t));
    forall x ensures x in r <==> (x in items && ItemWarmth(x) != "Cold") {
      assert x in r <==> multiset(r)[x] > 0;
      assert x in items <==> multiset(items)[x] > 0;
    }
  }

  /** A name with a cold keyword resolves to Cold even when it also has a warm
      keyword: "wool vest" with no warmth label. */
  lemma ColdKeywordsWin(item: Item)
    requires item.warmth == "" && item.name == "wool vest"
    ensures ItemWarmth(item) == "Cold"
  {
    ToLowerNoCapitals(item.name);
    ContainsAt(item.name, "wool", 0);
    assert ColdKeywords[10] == "wool";
  }

  /** Keyword matching ignores case: "VEST" resolves to Warm. */
  lemma WarmKeywordIgnoresCase(item: Item)
    requires item.warmth == "" && item.name == "VEST"
    ensures ItemWarmth(item) == "Warm"
  {
    var lower := ToLower(item.name);
    assert lower == "vest";
    assert Contains(lower, "vest");
    assert WarmKeywords[1] == "vest";
    forall k | 0 <= k < |ColdKeywords| ensures !Contains(lower, ColdKeywords[k]) {
      if |ColdKeywords[k]| == 4 {
        NotContainedSameLength(lower, ColdKeywords[k]);
      } else {
        NotContainedLonger(lower, ColdKeywords[k]);
      }
    }
  }

  /** An unknown warmth label falls back to the name; an unnamed item is Transitional. */
  lemma InvalidLabelFallsBack(item: Item)
    requires item.warmth == "Hot" && item.name == ""
    ensures ItemWarmth(item) == "Transitional"
  {
    assert ToLower(item.name) == "";
    forall k | 0 <= k < |ColdKeywords| ensures !Contains("", ColdKeywords[k]) { }
    forall k | 0 <= k < |WarmKeywords| ensures !Contains("", WarmKeywords[k]) { }
  }
}
