/** `generateOutfits` and `getAlternatives` (outfitEngine.js:430-577 and 594-605):
    activity pre-filter, category split and validation, weather filtering,
    candidate generation with a fallback pass, ranking and selection. */
module Generate {
  import opened Wrappers
  import opened Items
  import opened Seqs
  import opened Formality
  import opened Weather
  import opened Activity
  import opened Composite
  import opened Selection
  import opened Enumeration

  const NoShoesError := "You need at least 1 pair of Shoes to generate an outfit."
  const NoGarmentsError := "You need either a Top and Bottom, or a Full Body item, and Shoes to generate an outfit."

  /** `{ outfits, error }`, with `error: null` as None. */
  datatype Generated = Generated(outfits: seq<Candidate>, error: Option<string>)

  /** A wardrobe split by category. */
  datatype Buckets = Buckets(tops: seq<Item>, bottoms: seq<Item>, shoes: seq<Item>,
                             outerwear: seq<Item>, fullBody: seq<Item>)

  function InCategory(items: seq<Item>, category: string): seq<Item>
  {
    Filter(items, (x: Item) => x.category == category)
  }

  function ByCategory(items: seq<Item>): Buckets
  {
    Buckets(InCategory(items, Top), InCategory(items, Bottom), InCategory(items, Shoes),
            InCategory(items, Items.Outerwear), InCategory(items, FullBody))
  }

  function Weathered(bk: Buckets, temperature: Option<real>): Buckets
  {
    Buckets(FilterByWeather(bk.tops, temperature), FilterByWeather(bk.bottoms, temperature),
            FilterByWeather(bk.shoes, temperature), FilterByWeather(bk.outerwear, temperature),
            FilterByWeather(bk.fullBody, temperature))
  }

  predicate HasStandardPath(bk: Buckets)
  {
    bk.tops != [] && bk.bottoms != []
  }

  predicate HasFullBodyPath(bk: Buckets)
  {
    bk.fullBody != []
  }

  /** The scorer a candidate is pushed with, `scoreOutfit` or `scoreFullBodyOutfit`. */
  function ScoreOf(c: Candidate, jitter: real): (r: real)
    ensures r >= 0.0
  {
    if c.fullBody.Some? && c.shoes.Some? then
      ScoreFullBodyOutfit(c.fullBody.value, c.shoes.value, c.outerwear, jitter)
    else if c.top.Some? && c.bottom.Some? && c.shoes.Some? then
      ScoreOutfit(c.top.value, c.bottom.value, c.shoes.value, c.outerwear, jitter)
    else 0.0
  }

  /** The k-th pushed candidate is scored with the k-th jitter draw. */
  function Rate(jitter: nat -> real): (Candidate, nat) -> real
  {
    (c: Candidate, k: nat) => ScoreOf(c, jitter(k))
  }

  /** The outerwear on offer, the mode for the temperature and the clash test. */
  function Lay(bk: Buckets, temperature: Option<real>, prefilter: bool): Layering
  {
    Layering(bk.outerwear, GetOuterwearMode(temperature), prefilter, HasFormalityClash)
  }

  /** The items a candidate wears, in the order the scorers receive them. */
  function Worn(c: Candidate): seq<Item>
    requires WellFormed(c)
  {
    if c.fullBody.Some? then WithOuterwear([c.fullBody.value, c.shoes.value], c.outerwear)
    else WithOuterwear([c.top.value, c.bottom.value, c.shoes.value], c.outerwear)
  }

  /** The candidates of the two pre-filtered passes, in push order. */
  function FilteredLooks(all: Buckets, bk: Buckets, temperature: Option<real>): seq<Candidate>
  {
    (if HasStandardPath(all) then StandardLooks(bk.tops, bk.bottoms, bk.shoes, Lay(bk, temperature, true)) else [])
      + (if HasFullBodyPath(all) then FullBodyLooks(bk.fullBody, bk.shoes, Lay(bk, temperature, true)) else [])
  }

  /** The pre-filter removed everything and the unfiltered standard pass runs. */
  predicate UsesFallback(all: Buckets, bk: Buckets, temperature: Option<real>)
  {
    FilteredLooks(all, bk, temperature) == [] && HasStandardPath(all)
  }

  /** The candidates pushed for the activity-filtered buckets `all` and their
      weather-filtered counterparts `bk`, unscored, in push order. */
  function LooksFor(all: Buckets, bk: Buckets, temperature: Option<real>): seq<Candidate>
  {
    if UsesFallback(all, bk, temperature) then StandardLooks(bk.tops, bk.bottoms, bk.shoes, Lay(bk, temperature, false))
    else FilteredLooks(all, bk, temperature)
  }

  /** The wardrobe after the activity filter, split by category. */
  function Split(wardrobe: seq<Item>, activity: string): Buckets
  {
    ByCategory(ActivityFilter(wardrobe, activity))
  }

  /** Every candidate generated for the split wardrobe `all`, unscored, in push order. */
  function CandidateLooks(all: Buckets, temperature: Option<real>): seq<Candidate>
  {
    LooksFor(all, Weathered(all, temperature), temperature)
  }

  /** The `candidates` array before the sort. */
  function Pool(all: Buckets, temperature: Option<real>, jitter: nat -> real): seq<Candidate>
  {
    Scored(CandidateLooks(all, temperature), Rate(jitter))
  }

  // ----- generateOutfits -----

  /** `generateOutfits(wardrobe, temperature, count, activity)` with the
      `Math.random()` draws supplied as `jitter` (one per pushed candidate,
      each in [0, 0.5) in the engine). The ghost results name the selected
      positions in the ranked candidate list. */
  method GenerateOutfits(wardrobe: seq<Item>, temperature: Option<real>, count: int, activity: string,
                         jitter: nat -> real)
    returns (result: Generated, ghost picks: seq<int>, ghost firstPhase: int)
    ensures var all := Split(wardrobe, activity);
            if all.shoes == [] then result == Generated([], Some(NoShoesError))
            else if !HasStandardPath(all) && !HasFullBodyPath(all) then result == Generated([], Some(NoGarmentsError))
            else result.error == None
    ensures result.error == None ==>
              var ranked := SortByScore(Pool(Split(wardrobe, activity), temperature, jitter));
              AllWellFormed(ranked) && IsSelection(ranked, count, result.outfits, picks, firstPhase)
    ensures result.error == None ==>
              forall c :: c in result.outfits ==> c in Pool(Split(wardrobe, activity), temperature, jitter)
    ensures result.error == None ==>
              (result.outfits == [] <==> CandidateLooks(Split(wardrobe, activity), temperature) == [])
    ensures var all := Split(wardrobe, activity);
            all.shoes != [] && HasStandardPath(all) ==> result.outfits != []
  {
    var all := Split(wardrobe, activity);
    result, picks, firstPhase := GenerateFrom(all, temperature, count, jitter);
  }

  /** `generateOutfits` after the activity filter and the category split. */
  method GenerateFrom(all: Buckets, temperature: Option<real>, count: int, jitter: nat -> real)
    returns (result: Generated, ghost picks: seq<int>, ghost firstPhase: int)
    ensures if all.shoes == [] then result == Generated([], Some(NoShoesError))
            else if !HasStandardPath(all) && !HasFullBodyPath(all) then result == Generated([], Some(NoGarmentsError))
            else result.error == None
    ensures result.error == None ==>
              var ranked := SortByScore(Pool(all, temperature, jitter));
              AllWellFormed(ranked) && IsSelection(ranked, count, result.outfits, picks, firstPhase)
    ensures result.error == None ==>
              forall c :: c in result.outfits ==> c in Pool(all, temperature, jitter)
    ensures result.error == None ==>
              (result.outfits == [] <==> CandidateLooks(all, temperature) == [])
    ensures all.shoes != [] && HasStandardPath(all) ==> result.outfits != []
  {
    if all.shoes == [] {
      return Generated([], Some(NoShoesError)), [], 0;
    }
    var hasStandardPath := all.tops != [] && all.bottoms != [];
    var hasFullBodyPath := all.fullBody != [];
    if !hasStandardPath && !hasFullBodyPath {
      return Generated([], Some(NoGarmentsError)), [], 0;
    }
    result, picks, firstPhase := Outfits(all, temperature, count, jitter);
  }

  /** The generation, ranking and selection once validation has passed. */
  method Outfits(all: Buckets, temperature: Option<real>, count: int, jitter: nat -> real)
    returns (result: Generated, ghost picks: seq<int>, ghost firstPhase: int)
    ensures result.error == None
    ensures var ranked := SortByScore(Pool(all, temperature, jitter));
            AllWellFormed(ranked) && IsSelection(ranked, count, result.outfits, picks, firstPhase)
    ensures forall c :: c in result.outfits ==> c in Pool(all, temperature, jitter)
    ensures result.outfits == [] <==> CandidateLooks(all, temperature) == []
    ensures all.shoes != [] && HasStandardPath(all) ==> result.outfits != []
  {
    var candidates := BuildCandidates(all, temperature, Rate(jitter));
    PoolWellFormed(all, temperature, jitter);
    var selected;
    selected, picks, firstPhase := RankAndSelect(candidates, count);
    result := Generated(selected, None);
    if all.shoes != [] && HasStandardPath(all) {
      StandardPathNeverEmpty(all, temperature);
    }
  }

  /** `candidates.sort((a, b) => b.score - a.score)` followed by the selection. */
  method RankAndSelect(candidates: seq<Candidate>, count: int)
    returns (selected: seq<Candidate>, ghost picks: seq<int>, ghost firstPhase: int)
    requires AllWellFormed(candidates)
    ensures AllWellFormed(SortByScore(candidates))
    ensures IsSelection(SortByScore(candidates), count, selected, picks, firstPhase)
    ensures forall c :: c in selected ==> c in candidates
    ensures selected == [] <==> candidates == []
  {
    var ranked := SortByScore(candidates);
    RankedWellFormed(candidates);
    selected, picks, firstPhase := SelectOutfits(ranked, count);
    forall c | c in selected ensures c in candidates {
      var k :| 0 <= k < |selected| && selected[k] == c;
      assert ranked[picks[k]] in multiset(ranked);
    }
  }

  /** The two pre-filtered passes, then the unfiltered standard pass when
      they pushed nothing and tops and bottoms exist. */
  method BuildCandidates(all: Buckets, temperature: Option<real>, rate: (Candidate, nat) -> real)
    returns (candidates: seq<Candidate>)
    ensures candidates == Scored(CandidateLooks(all, temperature), rate)
  {
    var bk := Weathered(all, temperature);
    var hasStandardPath := all.tops != [] && all.bottoms != [];
    var hasFullBodyPath := all.fullBody != [];
    var lay := Lay(bk, temperature, true);
    ghost var standard := if hasStandardPath then StandardLooks(bk.tops, bk.bottoms, bk.shoes, lay) else [];
    ghost var fullBody := if hasFullBodyPath then FullBodyLooks(bk.fullBody, bk.shoes, lay) else [];
    candidates := [];
    if hasStandardPath {
      candidates := EmitStandard(bk.tops, bk.bottoms, bk.shoes, lay, rate, candidates, []);
    }
    assert candidates == Scored([] + standard, rate);
    if hasFullBodyPath {
      candidates := EmitFullBody(bk.fullBody, bk.shoes, lay, rate, candidates, standard);
    }
    assert candidates == Scored(standard + fullBody, rate);
    ghost var filtered := standard + fullBody;
    assert filtered == FilteredLooks(all, bk, temperature);
    if |candidates| == 0 && hasStandardPath {
      assert filtered == [];
      ghost var fallback := StandardLooks(bk.tops, bk.bottoms, bk.shoes, Lay(bk, temperature, false));
      candidates := EmitStandard(bk.tops, bk.bottoms, bk.shoes, Lay(bk, temperature, false), rate, [], []);
      assert [] + fallback == fallback == LooksFor(all, bk, temperature);
    } else {
      assert filtered == LooksFor(all, bk, temperature);
    }
  }

  // ----- Properties of the candidates -----

  /** The ranked list holds the same, well-formed, candidates. */
  lemma RankedWellFormed(s: seq<Candidate>)
    requires AllWellFormed(s)
    ensures AllWellFormed(SortByScore(s))
  {
    var r := SortByScore(s);
    forall i | 0 <= i < |r| ensures WellFormed(r[i]) {
      assert r[i] in multiset(s);
    }
  }

  /** Which looks are pushed: in the fallback pass every top x bottom x shoe
      combination over the weather-filtered buckets with each outerwear choice
      the mode allows; otherwise those of the two pre-filtered passes. */
  lemma LooksForMembership(all: Buckets, bk: Buckets, temperature: Option<real>, x: Candidate)
    ensures x in LooksFor(all, bk, temperature) <==>
              if UsesFallback(all, bk, temperature) then
                IsStandardLook(x, bk.tops, bk.bottoms, bk.shoes, Lay(bk, temperature, false))
              else
                (HasStandardPath(all) && IsStandardLook(x, bk.tops, bk.bottoms, bk.shoes, Lay(bk, temperature, true))) ||
                (HasFullBodyPath(all) && IsFullBodyLook(x, bk.fullBody, bk.shoes, Lay(bk, temperature, true)))
  {
    StandardLooksMembership(bk.tops, bk.bottoms, bk.shoes, Lay(bk, temperature, false), x);
    StandardLooksMembership(bk.tops, bk.bottoms, bk.shoes, Lay(bk, temperature, true), x);
    FullBodyLooksMembership(bk.fullBody, bk.shoes, Lay(bk, temperature, true), x);
  }

  /** A pushed candidate is a look over the weather-filtered buckets whose
      outerwear follows the mode, and when the pre-filter was kept (no
      fallback) none of the worn items clash. */
  lemma LooksForFacts(all: Buckets, bk: Buckets, temperature: Option<real>, x: Candidate)
    requires x in LooksFor(all, bk, temperature)
    ensures WellFormed(x)
    ensures (x.fullBody.None? ==> x.top.value in bk.tops && x.bottom.value in bk.bottoms) &&
            (x.fullBody.Some? ==> x.fullBody.value in bk.fullBody) &&
            x.shoes.value in bk.shoes &&
            (x.outerwear.Some? ==> x.outerwear.value in bk.outerwear)
    ensures var mode := GetOuterwearMode(temperature);
            ((mode == Excluded || bk.outerwear == []) ==> x.outerwear.None?) &&
            ((mode == Required && bk.outerwear != []) ==> x.outerwear.Some?)
    ensures !UsesFallback(all, bk, temperature) ==> !HasFormalityClash(Worn(x))
  {
    LooksForMembership(all, bk, temperature, x);
  }

  /** The facts above for the candidates generated from a split wardrobe. */
  lemma CandidateLooksFacts(all: Buckets, temperature: Option<real>, x: Candidate)
    requires x in CandidateLooks(all, temperature)
    ensures WellFormed(x)
    ensures var bk := Weathered(all, temperature);
            (x.fullBody.None? ==> x.top.value in bk.tops && x.bottom.value in bk.bottoms) &&
            (x.fullBody.Some? ==> x.fullBody.value in bk.fullBody) &&
            x.shoes.value in bk.shoes &&
            (x.outerwear.Some? ==> x.outerwear.value in bk.outerwear)
    ensures var bk := Weathered(all, temperature);
            var mode := GetOuterwearMode(temperature);
            ((mode == Excluded || bk.outerwear == []) ==> x.outerwear.None?) &&
            ((mode == Required && bk.outerwear != []) ==> x.outerwear.Some?)
    ensures !UsesFallback(all, Weathered(all, temperature), temperature) ==> !HasFormalityClash(Worn(x))
  {
    LooksForFacts(all, Weathered(all, temperature), temperature, x);
  }

  lemma PoolWellFormed(all: Buckets, temperature: Option<real>, jitter: nat -> real)
    ensures AllWellFormed(Pool(all, temperature, jitter))
  {
    var looks := CandidateLooks(all, temperature);
    forall x | x in looks ensures WellFormed(x) {
      LooksForWellFormed(all, Weathered(all, temperature), temperature, x);
    }
    ScoredWellFormed(looks, Rate(jitter));
  }

  lemma LooksForWellFormed(all: Buckets, bk: Buckets, temperature: Option<real>, x: Candidate)
    requires x in LooksFor(all, bk, temperature)
    ensures WellFormed(x)
  {
    LooksForMembership(all, bk, temperature, x);
  }

  /** Scoring keeps the shape of every look. */
  lemma ScoredWellFormed(looks: seq<Candidate>, rate: (Candidate, nat) -> real)
    requires forall x :: x in looks ==> WellFormed(x)
    ensures AllWellFormed(Scored(looks, rate))
  {
    ScoredElements(looks, rate);
    forall k | 0 <= k < |looks| ensures WellFormed(Scored(looks, rate)[k]) {
      assert looks[k] in looks;
    }
  }

  /** With shoes, a top and a bottom in the split wardrobe there is at least
      one candidate: weather filtering never empties a bucket, and the fallback
      pass drops the clash pre-filter. */
  lemma StandardPathNeverEmpty(all: Buckets, temperature: Option<real>)
    requires all.shoes != [] && HasStandardPath(all)
    ensures CandidateLooks(all, temperature) != []
  {
    var bk := Weathered(all, temperature);
    if UsesFallback(all, bk, temperature) {
      var lay := Lay(bk, temperature, false);
      var o := if lay.mode == Required && bk.outerwear != [] then Some(bk.outerwear[0]) else None;
      var x := Look(StandardBase(bk.tops[0], bk.bottoms[0], bk.shoes[0]), o);
      StandardLooksMembership(bk.tops, bk.bottoms, bk.shoes, lay, x);
      assert IsStandardLook(x, bk.tops, bk.bottoms, bk.shoes, lay);
    }
  }

  /** The fallback pass is for tops and bottoms only: a wardrobe without that
      path whose every weather-kept full-body item clashes with every
      weather-kept shoe generates no candidate, and so no outfit and no error. */
  lemma FullBodyClashesLeaveNoCandidates(all: Buckets, temperature: Option<real>)
    requires !HasStandardPath(all)
    requires var bk := Weathered(all, temperature);
             forall f, s :: f in bk.fullBody && s in bk.shoes ==> HasFormalityClash([f, s])
    ensures CandidateLooks(all, temperature) == []
  {
    var bk := Weathered(all, temperature);
    var lay := Lay(bk, temperature, true);
    var looks := if HasFullBodyPath(all) then FullBodyLooks(bk.fullBody, bk.shoes, lay) else [];
    assert FilteredLooks(all, bk, temperature) == [] + looks;
    assert CandidateLooks(all, temperature) == looks;
    if looks != [] {
      FullBodyLooksMembership(bk.fullBody, bk.shoes, lay, looks[0]);
      assert false;
    }
  }

  /** Every candidate's score is its scorer's value for the jitter of its push,
      and never negative. */
  lemma RatedScores(looks: seq<Candidate>, jitter: nat -> real)
    ensures var pool := Scored(looks, Rate(jitter));
            |pool| == |looks| &&
            forall k :: 0 <= k < |pool| ==>
              pool[k] == looks[k].(score := ScoreOf(looks[k], jitter(k))) && pool[k].score >= 0.0
  {
    ScoredElements(looks, Rate(jitter));
  }

  // ----- getAlternatives -----

  /** An alternative for the slot before weather filtering: another item of
      the category, suited to the activity when the activity is known. */
  predicate Eligible(wardrobe: seq<Item>, category: string, currentId: string, activity: string, x: Item)
  {
    x in wardrobe && x.category == category && x.id != currentId &&
    (Recognised(activity) ==> SuitsActivity(x, activity))
  }

  /** Items of `category` other than the current one, kept by the activity and
      weather filters, in wardrobe order (outfitEngine.js:594-605). */
  function GetAlternatives(wardrobe: seq<Item>, category: string, currentId: string,
                           temperature: Option<real>, activity: string): (r: seq<Item>)
    ensures IsSubsequence(r, wardrobe)
    ensures forall x :: x in r ==> Eligible(wardrobe, category, currentId, activity, x)
    ensures ExcludedWarmth(temperature) == "" ==>
              forall x :: x in r <==> Eligible(wardrobe, category, currentId, activity, x)
    ensures var banned := ExcludedWarmth(temperature);
            banned != "" && (exists x :: Eligible(wardrobe, category, currentId, activity, x) && ItemWarmth(x) != banned) ==>
              forall x :: x in r <==> Eligible(wardrobe, category, currentId, activity, x) && ItemWarmth(x) != banned
    ensures var banned := ExcludedWarmth(temperature);
            banned != "" && !(exists x :: Eligible(wardrobe, category, currentId, activity, x) && ItemWarmth(x) != banned) ==>
              forall x :: x in r <==> Eligible(wardrobe, category, currentId, activity, x)
    ensures (exists x :: Eligible(wardrobe, category, currentId, activity, x)) ==> r != []
  {
    var same := Filter(wardrobe, (x: Item) => x.category == category && x.id != currentId);
    var suited := ActivityFilter(same, activity);
    var r := FilterByWeather(suited, temperature);
    SubsequenceTransitive(suited, same, wardrobe);
    SubsequenceTransitive(r, suited, wardrobe);
    AlternativesBeforeWeather(wardrobe, category, currentId, activity);
    FilterByWeatherMembership(suited, temperature);
    forall x | x in r ensures x in suited {
      SubsequenceMembers(r, suited, x);
    }
    r
  }

  /** The activity-filtered items of the category are exactly the eligible ones. */
  lemma AlternativesBeforeWeather(wardrobe: seq<Item>, category: string, currentId: string, activity: string)
    ensures var same := Filter(wardrobe, (x: Item) => x.category == category && x.id != currentId);
            forall x :: x in ActivityFilter(same, activity) <==> Eligible(wardrobe, category, currentId, activity, x)
  {
    var same := Filter(wardrobe, (x: Item) => x.category == category && x.id != currentId);
    var suited := ActivityFilter(same, activity);
    forall x ensures x in suited <==> Eligible(wardrobe, category, currentId, activity, x) {
      ActivityFilterMembership(same, activity, x);
      FilterMembership(wardrobe, (x: Item) => x.category == category && x.id != currentId, x);
      assert x in same ==> multiset(same)[x] > 0;
      assert x in suited ==> multiset(suited)[x] > 0;
    }
  }
}
