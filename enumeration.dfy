/** The combination loops of `generateOutfits` (outfitEngine.js:475-545): every
    top x bottom x shoe (or full body x shoe) base, optionally layered with each
    outerwear piece, skipped when the formality pre-filter finds a clash. The
    loops are methods proved equal to recursive definitions of the list of
    combinations they push, in push order. */
module Enumeration {
  import opened Wrappers
  import opened Items
  import opened Weather
  import opened Selection

  /** The garments a candidate is built on, before outerwear. */
  datatype Base = StandardBase(top: Item, bottom: Item, shoe: Item) | FullBodyBase(fullBody: Item, shoe: Item)

  /** The outerwear pieces on offer, the outerwear mode, whether the formality
      pre-filter is applied (it is not in the fallback pass) and the clash test
      it applies (`hasFormalityClash` in the engine). */
  datatype Layering = Layering(outer: seq<Item>, mode: OuterwearMode, prefilter: bool, clashes: seq<Item> -> bool)

  function Garments(b: Base): seq<Item>
  {
    match b
    case StandardBase(top, bottom, shoe) => [top, bottom, shoe]
    case FullBodyBase(fullBody, shoe) => [fullBody, shoe]
  }

  /** The unscored candidate for a base and an optional outerwear piece. */
  function Look(b: Base, outerwear: Option<Item>): Candidate
  {
    match b
    case StandardBase(top, bottom, shoe) => Candidate(Some(top), Some(bottom), None, Some(shoe), outerwear, 0.0)
    case FullBodyBase(fullBody, shoe) => Candidate(None, None, Some(fullBody), Some(shoe), outerwear, 0.0)
  }

  /** Looks scored in push order: `rate(c, k)` is the score the k-th pushed
      candidate `c` receives (it depends on k through the random jitter). */
  function Scored(looks: seq<Candidate>, rate: (Candidate, nat) -> real): (r: seq<Candidate>)
    ensures |r| == |looks|
  {
    seq(|looks|, k requires 0 <= k < |looks| => looks[k].(score := rate(looks[k], k)))
  }

  lemma ScoredElements(looks: seq<Candidate>, rate: (Candidate, nat) -> real)
    ensures forall k :: 0 <= k < |looks| ==> Scored(looks, rate)[k] == looks[k].(score := rate(looks[k], k))
  {
  }

  lemma ScoredSnoc(looks: seq<Candidate>, x: Candidate, rate: (Candidate, nat) -> real)
    ensures Scored(looks + [x], rate) == Scored(looks, rate) + [x.(score := rate(x, |looks|))]
  {
  }

  /** `candidates.push({..., score: scoreOutfit(...)})`. */
  function Push(candidates: seq<Candidate>, look: Candidate, rate: (Candidate, nat) -> real): seq<Candidate>
  {
    candidates + [look.(score := rate(look, |candidates|))]
  }

  // ----- What the loops push -----

  /** One look per outerwear piece that passes the pre-filter, in list order. */
  function LayeredLooks(b: Base, outer: seq<Item>, lay: Layering): seq<Candidate>
  {
    if outer == [] then []
    else
      var piece := outer[|outer| - 1];
      LayeredLooks(b, outer[..|outer| - 1], lay)
        + (if lay.prefilter && lay.clashes(Garments(b) + [piece]) then [] else [Look(b, Some(piece))])
  }

  /** The looks pushed for one base: none on a clash, the bare base when
      outerwear is excluded or there is none, the layered looks when it is
      required, and the bare base followed by the layered looks otherwise. */
  function BaseLooks(b: Base, lay: Layering): seq<Candidate>
  {
    if lay.prefilter && lay.clashes(Garments(b)) then []
    else if lay.mode == Excluded || lay.outer == [] then [Look(b, None)]
    else if lay.mode == Required then LayeredLooks(b, lay.outer, lay)
    else [Look(b, None)] + LayeredLooks(b, lay.outer, lay)
  }

  function PairLooks(top: Item, bottom: Item, shoes: seq<Item>, lay: Layering): seq<Candidate>
  {
    if shoes == [] then []
    else PairLooks(top, bottom, shoes[..|shoes| - 1], lay) + BaseLooks(StandardBase(top, bottom, shoes[|shoes| - 1]), lay)
  }

  function TopLooks(top: Item, bottoms: seq<Item>, shoes: seq<Item>, lay: Layering): seq<Candidate>
  {
    if bottoms == [] then []
    else TopLooks(top, bottoms[..|bottoms| - 1], shoes, lay) + PairLooks(top, bottoms[|bottoms| - 1], shoes, lay)
  }

  /** Everything the top / bottom / shoe loops push, in push order. */
  function StandardLooks(tops: seq<Item>, bottoms: seq<Item>, shoes: seq<Item>, lay: Layering): seq<Candidate>
  {
    if tops == [] then []
    else StandardLooks(tops[..|tops| - 1], bottoms, shoes, lay) + TopLooks(tops[|tops| - 1], bottoms, shoes, lay)
  }

  function DressLooks(fullBody: Item, shoes: seq<Item>, lay: Layering): seq<Candidate>
  {
    if shoes == [] then []
    else DressLooks(fullBody, shoes[..|shoes| - 1], lay) + BaseLooks(FullBodyBase(fullBody, shoes[|shoes| - 1]), lay)
  }

  /** Everything the full body / shoe loops push, in push order. */
  function FullBodyLooks(fullBodies: seq<Item>, shoes: seq<Item>, lay: Layering): seq<Candidate>
  {
    if fullBodies == [] then []
    else FullBodyLooks(fullBodies[..|fullBodies| - 1], shoes, lay) + DressLooks(fullBodies[|fullBodies| - 1], shoes, lay)
  }

  // ----- Which looks are pushed -----

  /** The outerwear choice `o` is one the loops make for base `b`. */
  predicate OuterwearAllowed(b: Base, o: Option<Item>, lay: Layering)
  {
    match o
    case None => lay.mode != Required || lay.outer == []
    case Some(piece) =>
      lay.mode != Excluded && piece in lay.outer &&
      !(lay.prefilter && lay.clashes(Garments(b) + [piece]))
  }

  predicate Admissible(b: Base, o: Option<Item>, lay: Layering)
  {
    !(lay.prefilter && lay.clashes(Garments(b))) && OuterwearAllowed(b, o, lay)
  }

  /** `x` is an unscored top + bottom look over the given lists that the loops push. */
  predicate IsStandardLook(x: Candidate, tops: seq<Item>, bottoms: seq<Item>, shoes: seq<Item>, lay: Layering)
  {
    x.top.Some? && x.bottom.Some? && x.shoes.Some? && x.fullBody.None? && x.score == 0.0 &&
    x.top.value in tops && x.bottom.value in bottoms && x.shoes.value in shoes &&
    Admissible(StandardBase(x.top.value, x.bottom.value, x.shoes.value), x.outerwear, lay)
  }

  /** `x` is an unscored full-body look over the given lists that the loops push. */
  predicate IsFullBodyLook(x: Candidate, fullBodies: seq<Item>, shoes: seq<Item>, lay: Layering)
  {
    x.top.None? && x.bottom.None? && x.fullBody.Some? && x.shoes.Some? && x.score == 0.0 &&
    x.fullBody.value in fullBodies && x.shoes.value in shoes &&
    Admissible(FullBodyBase(x.fullBody.value, x.shoes.value), x.outerwear, lay)
  }

  lemma {:induction false} LayeredLooksMembership(b: Base, outer: seq<Item>, lay: Layering, x: Candidate)
    ensures x in LayeredLooks(b, outer, lay) <==>
              x.outerwear.Some? && x == Look(b, x.outerwear) && x.outerwear.value in outer &&
              !(lay.prefilter && lay.clashes(Garments(b) + [x.outerwear.value]))
  {
    if outer != [] {
      var init, piece := outer[..|outer| - 1], outer[|outer| - 1];
      LayeredLooksMembership(b, init, lay, x);
      assert outer == init + [piece];
    }
  }

  lemma BaseLooksMembership(b: Base, lay: Layering, x: Candidate)
    ensures x in BaseLooks(b, lay) <==> x == Look(b, x.outerwear) && Admissible(b, x.outerwear, lay)
  {
    LayeredLooksMembership(b, lay.outer, lay, x);
  }

  /** The looks pushed for one top + bottom + shoe base. */
  lemma BaseStandardLooks(top: Item, bottom: Item, shoe: Item, lay: Layering, x: Candidate)
    ensures x in BaseLooks(StandardBase(top, bottom, shoe), lay) <==> IsStandardLook(x, [top], [bottom], [shoe], lay)
  {
    BaseLooksMembership(StandardBase(top, bottom, shoe), lay, x);
  }

  lemma IsStandardLookShoes(x: Candidate, tops: seq<Item>, bottoms: seq<Item>, shoes: seq<Item>, lay: Layering)
    requires shoes != []
    ensures IsStandardLook(x, tops, bottoms, shoes, lay)
        <==> IsStandardLook(x, tops, bottoms, shoes[..|shoes| - 1], lay) || IsStandardLook(x, tops, bottoms, [shoes[|shoes| - 1]], lay)
  {
    assert shoes == shoes[..|shoes| - 1] + [shoes[|shoes| - 1]];
  }

  lemma IsStandardLookBottoms(x: Candidate, tops: seq<Item>, bottoms: seq<Item>, shoes: seq<Item>, lay: Layering)
    requires bottoms != []
    ensures IsStandardLook(x, tops, bottoms, shoes, lay)
        <==> IsStandardLook(x, tops, bottoms[..|bottoms| - 1], shoes, lay) || IsStandardLook(x, tops, [bottoms[|bottoms| - 1]], shoes, lay)
  {
    assert bottoms == bottoms[..|bottoms| - 1] + [bottoms[|bottoms| - 1]];
  }

  lemma IsStandardLookTops(x: Candidate, tops: seq<Item>, bottoms: seq<Item>, shoes: seq<Item>, lay: Layering)
    requires tops != []
    ensures IsStandardLook(x, tops, bottoms, shoes, lay)
        <==> IsStandardLook(x, tops[..|tops| - 1], bottoms, shoes, lay) || IsStandardLook(x, [tops[|tops| - 1]], bottoms, shoes, lay)
  {
    assert tops == tops[..|tops| - 1] + [tops[|tops| - 1]];
  }

  lemma {:induction false} PairLooksMembership(top: Item, bottom: Item, shoes: seq<Item>, lay: Layering, x: Candidate)
    ensures x in PairLooks(top, bottom, shoes, lay) <==> IsStandardLook(x, [top], [bottom], shoes, lay)
  {
    if shoes != [] {
      var init, shoe := shoes[..|shoes| - 1], shoes[|shoes| - 1];
      PairLooksMembership(top, bottom, init, lay, x);
      BaseStandardLooks(top, bottom, shoe, lay, x);
      IsStandardLookShoes(x, [top], [bottom], shoes, lay);
    }
  }

  lemma {:induction false} TopLooksMembership(top: Item, bottoms: seq<Item>, shoes: seq<Item>, lay: Layering, x: Candidate)
    ensures x in TopLooks(top, bottoms, shoes, lay) <==> IsStandardLook(x, [top], bottoms, shoes, lay)
  {
    if bottoms != [] {
      var init, bottom := bottoms[..|bottoms| - 1], bottoms[|bottoms| - 1];
      TopLooksMembership(top, init, shoes, lay, x);
      PairLooksMembership(top, bottom, shoes, lay, x);
      IsStandardLookBottoms(x, [top], bottoms, shoes, lay);
    }
  }

  /** The top / bottom / shoe loops push exactly the admissible looks over the
      three lists. */
  lemma {:induction false} StandardLooksMembership(tops: seq<Item>, bottoms: seq<Item>, shoes: seq<Item>, lay: Layering, x: Candidate)
    ensures x in StandardLooks(tops, bottoms, shoes, lay) <==> IsStandardLook(x, tops, bottoms, shoes, lay)
  {
    if tops != [] {
      var init, top := tops[..|tops| - 1], tops[|tops| - 1];
      StandardLooksMembership(init, bottoms, shoes, lay, x);
      TopLooksMembership(top, bottoms, shoes, lay, x);
      IsStandardLookTops(x, tops, bottoms, shoes, lay);
    }
  }

  /** The looks pushed for one full body + shoe base. */
  lemma BaseFullBodyLooks(fullBody: Item, shoe: Item, lay: Layering, x: Candidate)
    ensures x in BaseLooks(FullBodyBase(fullBody, shoe), lay) <==> IsFullBodyLook(x, [fullBody], [shoe], lay)
  {
    BaseLooksMembership(FullBodyBase(fullBody, shoe), lay, x);
  }

  lemma IsFullBodyLookShoes(x: Candidate, fullBodies: seq<Item>, shoes: seq<Item>, lay: Layering)
    requires shoes != []
    ensures IsFullBodyLook(x, fullBodies, shoes, lay)
        <==> IsFullBodyLook(x, fullBodies, shoes[..|shoes| - 1], lay) || IsFullBodyLook(x, fullBodies, [shoes[|shoes| - 1]], lay)
  {
    assert shoes == shoes[..|shoes| - 1] + [shoes[|shoes| - 1]];
  }

  lemma IsFullBodyLookPieces(x: Candidate, fullBodies: seq<Item>, shoes: seq<Item>, lay: Layering)
    requires fullBodies != []
    ensures IsFullBodyLook(x, fullBodies, shoes, lay)
        <==> IsFullBodyLook(x, fullBodies[..|fullBodies| - 1], shoes, lay) || IsFullBodyLook(x, [fullBodies[|fullBodies| - 1]], shoes, lay)
  {
    assert fullBodies == fullBodies[..|fullBodies| - 1] + [fullBodies[|fullBodies| - 1]];
  }

  lemma {:induction false} DressLooksMembership(fullBody: Item, shoes: seq<Item>, lay: Layering, x: Candidate)
    ensures x in DressLooks(fullBody, shoes, lay) <==> IsFullBodyLook(x, [fullBody], shoes, lay)
  {
    if shoes != [] {
      var init, shoe := shoes[..|shoes| - 1], shoes[|shoes| - 1];
      DressLooksMembership(fullBody, init, lay, x);
      BaseFullBodyLooks(fullBody, shoe, lay, x);
      IsFullBodyLookShoes(x, [fullBody], shoes, lay);
    }
  }

  /** The full body / shoe loops push exactly the admissible looks over the two
      lists. */
  lemma {:induction false} FullBodyLooksMembership(fullBodies: seq<Item>, shoes: seq<Item>, lay: Layering, x: Candidate)
    ensures x in FullBodyLooks(fullBodies, shoes, lay) <==> IsFullBodyLook(x, fullBodies, shoes, lay)
  {
    if fullBodies != [] {
      var init, fullBody := fullBodies[..|fullBodies| - 1], fullBodies[|fullBodies| - 1];
      FullBodyLooksMembership(init, shoes, lay, x);
      DressLooksMembership(fullBody, shoes, lay, x);
      IsFullBodyLookPieces(x, fullBodies, shoes, lay);
    }
  }

  // ----- The loops -----

  lemma LayeredLooksStep(b: Base, outer: seq<Item>, l: int, lay: Layering)
    requires 0 <= l < |outer|
    ensures LayeredLooks(b, outer[..l + 1], lay)
         == LayeredLooks(b, outer[..l], lay)
              + (if lay.prefilter && lay.clashes(Garments(b) + [outer[l]]) then [] else [Look(b, Some(outer[l]))])
  {
    assert outer[..l + 1][..l] == outer[..l];
  }

  lemma BaseLooksLayered(b: Base, lay: Layering)
    requires !(lay.prefilter && lay.clashes(Garments(b)))
    requires lay.mode != Excluded && lay.outer != []
    ensures BaseLooks(b, lay)
         == (if lay.mode == Optional then [Look(b, None)] else []) + LayeredLooks(b, lay.outer, lay)
  {
  }

  /** The inner outerwear loop: one push per piece that passes the pre-filter. */
  method EmitLayers(b: Base, outer: seq<Item>, lay: Layering, rate: (Candidate, nat) -> real,
                    candidates0: seq<Candidate>, ghost looks0: seq<Candidate>)
    returns (candidates: seq<Candidate>)
    requires candidates0 == Scored(looks0, rate)
    ensures candidates == Scored(looks0 + LayeredLooks(b, outer, lay), rate)
  {
    candidates := candidates0;
    for l := 0 to |outer|
      invariant candidates == Scored(looks0 + LayeredLooks(b, outer[..l], lay), rate)
    {
      var piece := outer[l];
      ghost var done := looks0 + LayeredLooks(b, outer[..l], lay);
      LayeredLooksStep(b, outer, l, lay);
      if !(lay.prefilter && lay.clashes(Garments(b) + [piece])) {
        assert looks0 + LayeredLooks(b, outer[..l + 1], lay) == done + [Look(b, Some(piece))];
        ScoredSnoc(done, Look(b, Some(piece)), rate);
        candidates := Push(candidates, Look(b, Some(piece)), rate);
      } else {
        assert looks0 + LayeredLooks(b, outer[..l + 1], lay) == done;
      }
    }
    assert outer[..|outer|] == outer;
  }

  /** The pushes for one base: the pre-filter, then the outerwear branch. */
  method EmitBase(b: Base, lay: Layering, rate: (Candidate, nat) -> real, candidates0: seq<Candidate>, ghost looks0: seq<Candidate>)
    returns (candidates: seq<Candidate>)
    requires candidates0 == Scored(looks0, rate)
    ensures candidates == Scored(looks0 + BaseLooks(b, lay), rate)
  {
    candidates := candidates0;
    if lay.prefilter && lay.clashes(Garments(b)) {
      assert looks0 + BaseLooks(b, lay) == looks0;
      return;
    }
    if lay.mode == Excluded || lay.outer == [] {
      ScoredSnoc(looks0, Look(b, None), rate);
      candidates := Push(candidates, Look(b, None), rate);
      assert looks0 + BaseLooks(b, lay) == looks0 + [Look(b, None)];
      return;
    }
    BaseLooksLayered(b, lay);
    ghost var looks := looks0;
    if lay.mode == Optional {
      ScoredSnoc(looks, Look(b, None), rate);
      candidates := Push(candidates, Look(b, None), rate);
      looks := looks + [Look(b, None)];
    }
    candidates := EmitLayers(b, lay.outer, lay, rate, candidates, looks);
    assert looks + LayeredLooks(b, lay.outer, lay) == looks0 + BaseLooks(b, lay);
  }

  lemma PairLooksStep(top: Item, bottom: Item, shoes: seq<Item>, k: int, lay: Layering, pre: seq<Candidate>)
    requires 0 <= k < |shoes|
    ensures pre + PairLooks(top, bottom, shoes[..k + 1], lay)
         == (pre + PairLooks(top, bottom, shoes[..k], lay)) + BaseLooks(StandardBase(top, bottom, shoes[k]), lay)
  {
    assert shoes[..k + 1][..k] == shoes[..k];
  }

  lemma TopLooksStep(top: Item, bottoms: seq<Item>, shoes: seq<Item>, j: int, lay: Layering, pre: seq<Candidate>)
    requires 0 <= j < |bottoms|
    ensures pre + TopLooks(top, bottoms[..j + 1], shoes, lay)
         == (pre + TopLooks(top, bottoms[..j], shoes, lay)) + PairLooks(top, bottoms[j], shoes, lay)
  {
    assert bottoms[..j + 1][..j] == bottoms[..j];
  }

  lemma StandardLooksStep(tops: seq<Item>, bottoms: seq<Item>, shoes: seq<Item>, i: int, lay: Layering, pre: seq<Candidate>)
    requires 0 <= i < |tops|
    ensures pre + StandardLooks(tops[..i + 1], bottoms, shoes, lay)
         == (pre + StandardLooks(tops[..i], bottoms, shoes, lay)) + TopLooks(tops[i], bottoms, shoes, lay)
  {
    assert tops[..i + 1][..i] == tops[..i];
  }

  lemma DressLooksStep(fullBody: Item, shoes: seq<Item>, k: int, lay: Layering, pre: seq<Candidate>)
    requires 0 <= k < |shoes|
    ensures pre + DressLooks(fullBody, shoes[..k + 1], lay)
         == (pre + DressLooks(fullBody, shoes[..k], lay)) + BaseLooks(FullBodyBase(fullBody, shoes[k]), lay)
  {
    assert shoes[..k + 1][..k] == shoes[..k];
  }

  lemma FullBodyLooksStep(fullBodies: seq<Item>, shoes: seq<Item>, i: int, lay: Layering, pre: seq<Candidate>)
    requires 0 <= i < |fullBodies|
    ensures pre + FullBodyLooks(fullBodies[..i + 1], shoes, lay)
         == (pre + FullBodyLooks(fullBodies[..i], shoes, lay)) + DressLooks(fullBodies[i], shoes, lay)
  {
    assert fullBodies[..i + 1][..i] == fullBodies[..i];
  }

  /** The shoe loop for one top and bottom. */
  method EmitPair(top: Item, bottom: Item, shoes: seq<Item>, lay: Layering, rate: (Candidate, nat) -> real,
                  candidates0: seq<Candidate>, ghost looks0: seq<Candidate>)
    returns (candidates: seq<Candidate>)
    requires candidates0 == Scored(looks0, rate)
    ensures candidates == Scored(looks0 + PairLooks(top, bottom, shoes, lay), rate)
  {
    candidates := candidates0;
    for k := 0 to |shoes|
      invariant candidates == Scored(looks0 + PairLooks(top, bottom, shoes[..k], lay), rate)
    {
      PairLooksStep(top, bottom, shoes, k, lay, looks0);
      ghost var done := looks0 + PairLooks(top, bottom, shoes[..k], lay);
      candidates := EmitBase(StandardBase(top, bottom, shoes[k]), lay, rate, candidates, done);
    }
    assert shoes[..|shoes|] == shoes;
  }

  /** The bottom loop for one top. */
  method EmitTop(top: Item, bottoms: seq<Item>, shoes: seq<Item>, lay: Layering, rate: (Candidate, nat) -> real,
                 candidates0: seq<Candidate>, ghost looks0: seq<Candidate>)
    returns (candidates: seq<Candidate>)
    requires candidates0 == Scored(looks0, rate)
    ensures candidates == Scored(looks0 + TopLooks(top, bottoms, shoes, lay), rate)
  {
    candidates := candidates0;
    for j := 0 to |bottoms|
      invariant candidates == Scored(looks0 + TopLooks(top, bottoms[..j], shoes, lay), rate)
    {
      TopLooksStep(top, bottoms, shoes, j, lay, looks0);
      ghost var done := looks0 + TopLooks(top, bottoms[..j], shoes, lay);
      candidates := EmitPair(top, bottoms[j], shoes, lay, rate, candidates, done);
    }
    assert bottoms[..|bottoms|] == bottoms;
  }

  /** The top / bottom / shoe loops. */
  method EmitStandard(tops: seq<Item>, bottoms: seq<Item>, shoes: seq<Item>, lay: Layering, rate: (Candidate, nat) -> real,
                      candidates0: seq<Candidate>, ghost looks0: seq<Candidate>)
    returns (candidates: seq<Candidate>)
    requires candidates0 == Scored(looks0, rate)
    ensures candidates == Scored(looks0 + StandardLooks(tops, bottoms, shoes, lay), rate)
  {
    candidates := candidates0;
    for i := 0 to |tops|
      invariant candidates == Scored(looks0 + StandardLooks(tops[..i], bottoms, shoes, lay), rate)
    {
      StandardLooksStep(tops, bottoms, shoes, i, lay, looks0);
      ghost var done := looks0 + StandardLooks(tops[..i], bottoms, shoes, lay);
      candidates := EmitTop(tops[i], bottoms, shoes, lay, rate, candidates, done);
    }
    assert tops[..|tops|] == tops;
  }

  /** The shoe loop for one full-body piece. */
  method EmitDress(fullBody: Item, shoes: seq<Item>, lay: Layering, rate: (Candidate, nat) -> real,
                   candidates0: seq<Candidate>, ghost looks0: seq<Candidate>)
    returns (candidates: seq<Candidate>)
    requires candidates0 == Scored(looks0, rate)
    ensures candidates == Scored(looks0 + DressLooks(fullBody, shoes, lay), rate)
  {
    candidates := candidates0;
    for k := 0 to |shoes|
      invariant candidates == Scored(looks0 + DressLooks(fullBody, shoes[..k], lay), rate)
    {
      DressLooksStep(fullBody, shoes, k, lay, looks0);
      ghost var done := looks0 + DressLooks(fullBody, shoes[..k], lay);
      candidates := EmitBase(FullBodyBase(fullBody, shoes[k]), lay, rate, candidates, done);
    }
    assert shoes[..|shoes|] == shoes;
  }

  /** The full body / shoe loops. */
  method EmitFullBody(fullBodies: seq<Item>, shoes: seq<Item>, lay: Layering, rate: (Candidate, nat) -> real,
                      candidates0: seq<Candidate>, ghost looks0: seq<Candidate>)
    returns (candidates: seq<Candidate>)
    requires candidates0 == Scored(looks0, rate)
    ensures candidates == Scored(looks0 + FullBodyLooks(fullBodies, shoes, lay), rate)
  {
    candidates := candidates0;
    for i := 0 to |fullBodies|
      invariant candidates == Scored(looks0 + FullBodyLooks(fullBodies[..i], shoes, lay), rate)
    {
      FullBodyLooksStep(fullBodies, shoes, i, lay, looks0);
      ghost var done := looks0 + FullBodyLooks(fullBodies[..i], shoes, lay);
      candidates := EmitDress(fullBodies[i], shoes, lay, rate, candidates, done);
    }
    assert fullBodies[..|fullBodies|] == fullBodies;
  }
}
