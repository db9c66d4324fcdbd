/** Candidate outfits, their ranking and the selection of the returned options
    (outfitEngine.js:547-574). */
module Selection {
  import opened Wrappers
  import opened Items
  import opened Seqs
  import Proportion

  /** A generated combination. Either `top` and `bottom` or `fullBody` is set;
      `shoes` always is. The source's `generatedAt` timestamp is not kept. */
  datatype Candidate = Candidate(top: Option<Item>, bottom: Option<Item>, fullBody: Option<Item>,
                                 shoes: Option<Item>, outerwear: Option<Item>, score: real)

  predicate WellFormed(c: Candidate)
  {
    c.shoes.Some? &&
    ((c.fullBody.Some? && c.top.None? && c.bottom.None?) ||
     (c.fullBody.None? && c.top.Some? && c.bottom.Some?))
  }

  predicate AllWellFormed(s: seq<Candidate>)
  {
    forall i :: 0 <= i < |s| ==> WellFormed(s[i])
  }

  /** The variety key: full body and shoes ids, or top and bottom ids, joined
      by "-" (a template string in the source). */
  function ComboKey(c: Candidate): string
    requires WellFormed(c)
  {
    if c.fullBody.Some? then Proportion.Key(c.fullBody.value.id, c.shoes.value.id)
    else Proportion.Key(c.top.value.id, c.bottom.value.id)
  }

  /** Two top + bottom candidates whose ids contain no "-" share a key exactly
      when they pair the same top id with the same bottom id. */
  lemma ComboKeyOfPair(c: Candidate, d: Candidate)
    requires WellFormed(c) && WellFormed(d) && c.fullBody.None? && d.fullBody.None?
    requires '-' !in c.top.value.id + c.bottom.value.id + d.top.value.id + d.bottom.value.id
    ensures ComboKey(c) == ComboKey(d) <==>
            c.top.value.id == d.top.value.id && c.bottom.value.id == d.bottom.value.id
  {
    var a, b := c.top.value.id, c.bottom.value.id;
    var x, y := d.top.value.id, d.bottom.value.id;
    if ComboKey(c) == ComboKey(d) {
      assert forall ch :: ch in x ==> ch in a + b + x + y;
      assert forall ch :: ch in y ==> ch in a + b + x + y;
      Proportion.KeyInjective(a, b, x, y);
    }
  }

  // ----- Ranking -----

  predicate SortedByScore(s: seq<Candidate>)
  {
    forall i, j :: 0 <= i < j < |s| ==> s[i].score >= s[j].score
  }

  /** No candidate after the head of a sorted list scores above it. */
  lemma SortedHead(s: seq<Candidate>)
    requires SortedByScore(s) && s != []
    ensures forall x :: x in multiset(s[1..]) ==> x.score <= s[0].score
  {
    forall x | x in multiset(s[1..]) ensures x.score <= s[0].score {
      var m :| 0 <= m < |s[1..]| && s[1..][m] == x;
      assert s[m + 1] == x;
    }
  }

  /** A head scoring at least everything in a sorted list keeps it sorted. */
  lemma SortedCons(h: Candidate, rest: seq<Candidate>)
    requires SortedByScore(rest)
    requires forall x :: x in multiset(rest) ==> x.score <= h.score
    ensures SortedByScore([h] + rest)
  {
    forall k | 0 <= k < |rest| ensures rest[k].score <= h.score {
      assert rest[k] in multiset(rest);
    }
  }

  function Insert(c: Candidate, s: seq<Candidate>): (r: seq<Candidate>)
    requires SortedByScore(s)
    ensures SortedByScore(r)
    ensures multiset(r) == multiset(s) + multiset{c}
  {
    if s == [] || c.score >= s[0].score then [c] + s
    else
      var rest := Insert(c, s[1..]);
      assert s == [s[0]] + s[1..];
      SortedHead(s);
      SortedCons(s[0], rest);
      [s[0]] + rest
  }

  /** `candidates.sort((a, b) => b.score - a.score)`: highest score first, the
      same candidates as before. */
  function SortByScore(s: seq<Candidate>): (r: seq<Candidate>)
    ensures SortedByScore(r)
    ensures multiset(r) == multiset(s)
    ensures |r| == |s|
  {
    if s == [] then []
    else
      assert s == [s[0]] + s[1..];
      Insert(s[0], SortByScore(s[1..]))
  }

  // ----- Selection -----

  /** Candidate `i` is the first of its combo key in `s`. */
  predicate FirstOfKey(s: seq<Candidate>, i: int)
    requires AllWellFormed(s) && 0 <= i < |s|
  {
    forall j :: 0 <= j < i ==> ComboKey(s[j]) != ComboKey(s[i])
  }

  /** The combo keys of the first `i` candidates. */
  ghost function KeysBefore(s: seq<Candidate>, i: int): set<string>
    requires AllWellFormed(s) && 0 <= i <= |s|
  {
    set j | 0 <= j < i :: ComboKey(s[j])
  }

  lemma FirstOfKeyUnseen(s: seq<Candidate>, i: int)
    requires AllWellFormed(s) && 0 <= i < |s|
    ensures FirstOfKey(s, i) <==> ComboKey(s[i]) !in KeysBefore(s, i)
  {
  }

  function Min(a: int, b: int): int
  {
    if a <= b then a else b
  }

  /** What the selection loops promise: `selected` lists the candidates at the
      distinct positions `picks`. The first `firstPhase` picks are the first
      candidates of their combo keys, in list order, with no such candidate
      skipped before the last of them, until `count` is reached; later picks
      fill up, in list order, with the earliest positions not yet taken, and
      only once every combo key is represented. Exactly min(count, n) options
      are returned when `count` is at least 1, and min(1, n) otherwise. */
  ghost predicate IsSelection(candidates: seq<Candidate>, count: int, selected: seq<Candidate>,
                              picks: seq<int>, firstPhase: int)
    requires AllWellFormed(candidates)
  {
    && |picks| == |selected|
    && 0 <= firstPhase <= |picks|
    && (forall k :: 0 <= k < |picks| ==> 0 <= picks[k] < |candidates| && selected[k] == candidates[picks[k]])
    && Distinct(picks)
    && |selected| == (if count >= 1 then Min(count, |candidates|) else Min(1, |candidates|))
    && (forall k :: 0 <= k < firstPhase ==> FirstOfKey(candidates, picks[k]))
    && (forall k, l :: 0 <= k < l < firstPhase ==> picks[k] < picks[l])
    && (forall k, i :: 0 <= k < firstPhase && 0 <= i < picks[k] && FirstOfKey(candidates, i) ==>
          i in picks[..firstPhase])
    && (firstPhase < |picks| ==>
          forall i :: 0 <= i < |candidates| && FirstOfKey(candidates, i) ==> i in picks[..firstPhase])
    && (forall k, l :: firstPhase <= k < l < |picks| ==> picks[k] < picks[l])
    && (forall k, i :: firstPhase <= k < |picks| && 0 <= i < picks[k] ==> i in picks)
  }

  /** The state of the first selection loop after scanning `i` candidates. */
  ghost predicate Scanned(candidates: seq<Candidate>, i: int, selected: seq<Candidate>, picks: seq<int>,
                          taken: set<int>, usedCombos: set<string>)
    requires AllWellFormed(candidates)
  {
    && 0 <= i <= |candidates|
    && |picks| == |selected| <= i
    && (forall k :: 0 <= k < |picks| ==> 0 <= picks[k] < i && selected[k] == candidates[picks[k]])
    && (forall k, l :: 0 <= k < l < |picks| ==> picks[k] < picks[l])
    && (forall k :: 0 <= k < |picks| ==> FirstOfKey(candidates, picks[k]))
    && (forall j :: 0 <= j < i && FirstOfKey(candidates, j) ==> j in picks)
    && usedCombos == KeysBefore(candidates, i)
    && (forall j :: j in taken <==> j in picks)
  }

  lemma ScanStep(candidates: seq<Candidate>, i: int, selected: seq<Candidate>, picks: seq<int>,
                 taken: set<int>, usedCombos: set<string>)
    requires AllWellFormed(candidates) && i < |candidates|
    requires Scanned(candidates, i, selected, picks, taken, usedCombos)
    ensures var key := ComboKey(candidates[i]);
            if key !in usedCombos then
              Scanned(candidates, i + 1, selected + [candidates[i]], picks + [i], taken + {i}, usedCombos + {key})
            else
              Scanned(candidates, i + 1, selected, picks, taken, usedCombos)
  {
    KeysBeforeStep(candidates, i);
    FirstOfKeyUnseen(candidates, i);
    if ComboKey(candidates[i]) !in usedCombos {
      ScanTake(candidates, i, selected, picks, taken, usedCombos);
    } else {
      ScanSkip(candidates, i, selected, picks, taken, usedCombos);
    }
  }

  lemma KeysBeforeStep(s: seq<Candidate>, i: int)
    requires AllWellFormed(s) && 0 <= i < |s|
    ensures KeysBefore(s, i + 1) == KeysBefore(s, i) + {ComboKey(s[i])}
  {
  }

  lemma ScanTake(candidates: seq<Candidate>, i: int, selected: seq<Candidate>, picks: seq<int>,
                 taken: set<int>, usedCombos: set<string>)
    requires AllWellFormed(candidates) && 0 <= i < |candidates|
    requires Scanned(candidates, i, selected, picks, taken, usedCombos)
    requires FirstOfKey(candidates, i)
    requires KeysBefore(candidates, i + 1) == usedCombos + {ComboKey(candidates[i])}
    ensures Scanned(candidates, i + 1, selected + [candidates[i]], picks + [i], taken + {i},
                    usedCombos + {ComboKey(candidates[i])})
  {
  }

  lemma ScanSkip(candidates: seq<Candidate>, i: int, selected: seq<Candidate>, picks: seq<int>,
                 taken: set<int>, usedCombos: set<string>)
    requires AllWellFormed(candidates) && 0 <= i < |candidates|
    requires Scanned(candidates, i, selected, picks, taken, usedCombos)
    requires !FirstOfKey(candidates, i)
    requires KeysBefore(candidates, i + 1) == usedCombos
    ensures Scanned(candidates, i + 1, selected, picks, taken, usedCombos)
  {
  }

  /** What a scan of the first `i` candidates has established. */
  lemma ScannedFacts(candidates: seq<Candidate>, i: int, selected: seq<Candidate>, picks: seq<int>,
                     taken: set<int>, usedCombos: set<string>)
    requires AllWellFormed(candidates)
    requires Scanned(candidates, i, selected, picks, taken, usedCombos)
    ensures |picks| == |selected|
    ensures forall k :: 0 <= k < |picks| ==> 0 <= picks[k] < |candidates| && selected[k] == candidates[picks[k]]
    ensures forall k, l :: 0 <= k < l < |picks| ==> picks[k] < picks[l]
    ensures forall k :: 0 <= k < |picks| ==> FirstOfKey(candidates, picks[k])
    ensures 0 <= i <= |candidates|
    ensures forall k :: 0 <= k < |picks| ==> picks[k] < i
    ensures forall j :: 0 <= j < i && FirstOfKey(candidates, j) ==> j in picks
    ensures forall j :: j in taken <==> j in picks
  {
  }

  /** The first selection loop: one candidate per combo key, in list order,
      breaking once `count` are selected. Also yields the set of taken positions
      and how far it scanned. */
  method PickDistinctKeys(candidates: seq<Candidate>, count: int)
    returns (selected: seq<Candidate>, taken: set<int>, ghost picks: seq<int>, ghost stopped: int)
    requires AllWellFormed(candidates)
    ensures |picks| == |selected|
    ensures forall k :: 0 <= k < |picks| ==> 0 <= picks[k] < |candidates| && selected[k] == candidates[picks[k]]
    ensures forall k, l :: 0 <= k < l < |picks| ==> picks[k] < picks[l]
    ensures forall k :: 0 <= k < |picks| ==> FirstOfKey(candidates, picks[k])
    ensures 0 <= stopped <= |candidates|
    ensures forall k :: 0 <= k < |picks| ==> picks[k] < stopped
    ensures forall j :: 0 <= j < stopped && FirstOfKey(candidates, j) ==> j in picks
    ensures stopped == |candidates| || |selected| >= count
    ensures |selected| < count || |candidates| == 0 || |selected| == (if count >= 1 then count else 1)
    ensures forall j :: j in taken <==> j in picks
  {
    var n := |candidates|;
    selected, picks := [], [];
    taken := {};
    var usedCombos: set<string> := {};
    var i := 0;
    while i < n
      invariant Scanned(candidates, i, selected, picks, taken, usedCombos)
      invariant i > 0 ==> |selected| < count
    {
      var key := ComboKey(candidates[i]);
      ScanStep(candidates, i, selected, picks, taken, usedCombos);
      if key !in usedCombos {
        usedCombos := usedCombos + {key};
        selected := selected + [candidates[i]];
        picks := picks + [i];
        taken := taken + {i};
      }
      i := i + 1;
      if |selected| >= count {
        break;
      }
    }
    stopped := i;
    ScannedFacts(candidates, i, selected, picks, taken, usedCombos);
  }

  /** The state of the second selection loop after scanning `j` candidates,
      starting from the picks `picks0` of the first. */
  ghost predicate Filled(candidates: seq<Candidate>, j: int, picks0: seq<int>, selected: seq<Candidate>,
                         picks: seq<int>, taken: set<int>)
  {
    && 0 <= j <= |candidates|
    && |picks| == |selected|
    && |picks0| <= |picks| && picks[..|picks0|] == picks0
    && (forall k :: 0 <= k < |picks| ==> 0 <= picks[k] < |candidates| && selected[k] == candidates[picks[k]])
    && Distinct(picks)
    && (forall k :: |picks0| <= k < |picks| ==> picks[k] < j)
    && (forall k, l :: |picks0| <= k < l < |picks| ==> picks[k] < picks[l])
    && (forall m :: 0 <= m < j ==> m in picks)
    && (forall m :: m in taken <==> m in picks)
  }

  lemma FillStep(candidates: seq<Candidate>, j: int, picks0: seq<int>, selected: seq<Candidate>,
                 picks: seq<int>, taken: set<int>)
    requires j < |candidates| && Filled(candidates, j, picks0, selected, picks, taken)
    ensures if j !in taken then Filled(candidates, j + 1, picks0, selected + [candidates[j]], picks + [j], taken + {j})
            else Filled(candidates, j + 1, picks0, selected, picks, taken)
  {
    if j !in taken {
      assert (picks + [j])[..|picks0|] == picks[..|picks0|];
    }
  }

  method Backfill(candidates: seq<Candidate>, count: int, selected0: seq<Candidate>, taken0: set<int>,
                  ghost picks0: seq<int>)
    returns (selected: seq<Candidate>, ghost picks: seq<int>)
    requires |picks0| == |selected0| < count
    requires forall k :: 0 <= k < |picks0| ==> 0 <= picks0[k] < |candidates| && selected0[k] == candidates[picks0[k]]
    requires Distinct(picks0)
    requires forall j :: j in taken0 <==> j in picks0
    ensures |picks| == |selected| && |picks0| <= |picks| && picks[..|picks0|] == picks0
    ensures forall k :: 0 <= k < |picks| ==> 0 <= picks[k] < |candidates| && selected[k] == candidates[picks[k]]
    ensures Distinct(picks)
    ensures forall k, l :: |picks0| <= k < l < |picks| ==> picks[k] < picks[l]
    ensures forall k, i :: |picks0| <= k < |picks| && 0 <= i < picks[k] ==> i in picks
    ensures |selected| == Min(count, |candidates|)
  {
    var n := |candidates|;
    selected, picks := selected0, picks0;
    var taken := taken0;
    DistinctIndices(picks, n);
    var j := 0;
    assert picks[..|picks0|] == picks0;
    while j < n
      invariant Filled(candidates, j, picks0, selected, picks, taken)
      invariant |selected| < count
    {
      FillStep(candidates, j, picks0, selected, picks, taken);
      if j !in taken {
        selected := selected + [candidates[j]];
        picks := picks + [j];
        taken := taken + {j};
      }
      j := j + 1;
      if |selected| >= count {
        DistinctIndices(picks, n);
        return;
      }
    }
    DistinctIndices(picks, n);
  }

  /** The two selection loops: first one candidate per combo key, stopping at
      `count`; then, if short, any candidate not yet selected. A candidate is
      identified by its position, as `selected.includes` compares references. */
  method SelectOutfits(candidates: seq<Candidate>, count: int)
    returns (selected: seq<Candidate>, ghost picks: seq<int>, ghost firstPhase: int)
    requires AllWellFormed(candidates)
    ensures IsSelection(candidates, count, selected, picks, firstPhase)
    ensures |selected| == (if count >= 1 then Min(count, |candidates|) else Min(1, |candidates|))
    ensures forall c :: c in selected ==> c in candidates
  {
    var taken;
    ghost var stopped;
    selected, taken, picks, stopped := PickDistinctKeys(candidates, count);
    firstPhase := |picks|;
    assert Distinct(picks);
    DistinctIndices(picks, |candidates|);
    assert picks[..firstPhase] == picks;
    if |selected| < count {
      ghost var phaseOne := picks;
      selected, picks := Backfill(candidates, count, selected, taken, picks);
      assert forall k :: 0 <= k < firstPhase ==> picks[k] == phaseOne[k];
      assert picks[..firstPhase] == phaseOne;
    } else {
      assert |selected| == (if count >= 1 then Min(count, |candidates|) else Min(1, |candidates|));
    }
    forall c | c in selected ensures c in candidates {
      var k :| 0 <= k < |selected| && selected[k] == c;
      assert candidates[picks[k]] == c;
    }
  }
}
