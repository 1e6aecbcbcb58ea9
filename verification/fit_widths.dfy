/** What fitting a result loses beyond need: when the width found is the widest, and when list elements
    are dropped although a width would have kept them. */
module FitWidths {
  import opened Prelude
  import opened JsonSize
  import opened Clipping
  import opened BoundedResults
  import opened WidthLaws

  /** How many rungs of the ladder are passed over because their form without text overflows. */
  function RungsSkipped(j: Json, cap: nat, i: nat := 0): (k: nat)
    requires i <= |LADDER|
    ensures i <= k <= |LADDER|
    ensures forall m :: i <= m < k ==> Size(Marked(Clip(j, 0, LADDER[m]))) > cap
    ensures k < |LADDER| ==> Size(Marked(Clip(j, 0, LADDER[k]))) <= cap
    decreases |LADDER| - i
  {
    if i == |LADDER| || Size(Marked(Clip(j, 0, LADDER[i]))) <= cap then i else RungsSkipped(j, cap, i + 1)
  }

  /** What is measured at a rung. */
  function AtRung(j: Json, k: nat): Narrowing
    requires k < |LADDER|
  {
    Uniform(Marked(j), LADDER[k])
  }

  lemma {:induction false} SameSearch(n: Narrowing, m: Narrowing, cap: nat, lo: nat, hi: int, best: Option<nat>)
    requires forall w: nat :: lo <= w <= hi ==> n.Fits(cap, w) == m.Fits(cap, w)
    ensures Search(n, cap, lo, hi, best) == Search(m, cap, lo, hi, best)
    decreases hi - lo + 1
  {
    hide Narrowing.Fits, Narrowing.At;
    if lo <= hi {
      var mid := (lo + hi) / 2;
      assert n.Fits(cap, mid) == m.Fits(cap, mid);
      if n.Fits(cap, mid) {
        SameSearch(n, m, cap, mid + 1, hi, Some(mid));
      } else {
        SameSearch(n, m, cap, lo, mid - 1, best);
      }
    }
  }

  /** The first pass, at the ceiling, changes nothing that the search measures. */
  lemma FirstPassUnseen(j: Json, cap: nat, k: nat)
    requires k < |LADDER|
    ensures Search(Uniform(Marked(Clip(j, cap, None)), LADDER[k]), cap, 0, cap, None)
         == Search(AtRung(j, k), cap, 0, cap, None)
  {
    hide Clip, Size, Marked, Search;
    var n, m := Uniform(Marked(Clip(j, cap, None)), LADDER[k]), AtRung(j, k);
    forall w: nat | 0 <= w <= cap ensures n.Fits(cap, w) == m.Fits(cap, w) {
      ClippedAndMarked(j, cap, w, LADDER[k]);
      ClipMarked(j, w, LADDER[k]);
    }
    SameSearch(n, m, cap, 0, cap, None);
  }

  lemma {:induction false} ClimbSkips(j: Json, cap: nat, i: nat)
    requires i <= |LADDER|
    ensures Climb(Marked(Clip(j, cap, None)), cap, i) == Climb(Marked(Clip(j, cap, None)), cap, RungsSkipped(j, cap, i))
    decreases |LADDER| - i
  {
    hide Clip, Size, Marked, Search;
    if i < |LADDER| {
      ClippedAndMarked(j, cap, 0, LADDER[i]);
      if Size(Marked(Clip(j, 0, LADDER[i]))) > cap { ClimbSkips(j, cap, i + 1); }
    }
  }

  /** What is returned, in full: the payload at the first rung whose form without text fits, as wide
      as the search goes there. */
  lemma FitByRung(j: Json, cap: nat)
    requires Size(j) > cap
    ensures var k := RungsSkipped(j, cap);
            if k == |LADDER| then Fit(j, cap) == (FALLBACK, true)
            else
              var r := Search(AtRung(j, k), cap, 0, cap, None);
              r.Some? && r.value <= cap && Fit(j, cap) == (Marked(Clip(j, r.value, LADDER[k])), true)
  {
    hide Clip, Size, Marked, Search, RungsSkipped, FALLBACK;
    var k := RungsSkipped(j, cap);
    ClimbSkips(j, cap, 0);
    if k < |LADDER| {
      FirstPassUnseen(j, cap, k);
      SearchFinds(AtRung(j, k), cap, 0, cap, None, cap);
      ClipMarked(j, 0, LADDER[k]);
      ClippedAndMarked(j, cap, 0, LADDER[k]);
      ClippedAndMarked(j, cap, Search(AtRung(j, k), cap, 0, cap, None).value, LADDER[k]);
    }
  }

  // ------------------------------------------------------------------
  // The widest at its rung
  // ------------------------------------------------------------------

  /** No greater width up to the ceiling fits; one beyond the ceiling that fits is the ceiling's form
      (WidthLaws.WiderThanCeiling). */
  ghost predicate NothingWider(j: Json, cap: nat, k: nat, w: nat)
    requires k < |LADDER|
  {
    forall v: nat :: w < v <= cap ==> Size(Marked(Clip(j, v, LADDER[k]))) > cap
  }

  /** The width settled on is the widest that fits exactly if, as far as what the texts show at each width
      tells, the search passes over no width below one that fits. */
  lemma FitIsWidestIff(j: Json, cap: nat)
    requires Size(j) > cap && RungsSkipped(j, cap) < |LADDER|
    ensures var k := RungsSkipped(j, cap);
            var w := Search(AtRung(j, k), cap, 0, cap, None);
            var texts, bare := Texts(Marked(j), LADDER[k]), Size(Marked(Clip(j, 0, LADDER[k])));
            && w.Some? && Fit(j, cap).0 == Marked(Clip(j, w.value, LADDER[k]))
            && (NothingWider(j, cap, k, w.value) <==> TextsDoNotMislead(texts, bare, cap, 0, cap))
  {
    hide Clip, Size, Marked, Search, RungsSkipped, Fit, Unmisled, Texts, TextsDoNotMislead;
    FitByRung(j, cap);
    var k := RungsSkipped(j, cap);
    var n, r := AtRung(j, k), Search(AtRung(j, k), cap, 0, cap, None);
    SearchIsWidestIff(n, cap, 0, cap);
    UnmisledByTexts(Marked(j), LADDER[k], cap, 0, cap);
    ClipMarked(j, 0, LADDER[k]);
    forall v: nat ensures n.Fits(cap, v) <==> Size(Marked(Clip(j, v, LADDER[k]))) <= cap {
      ClipMarked(j, v, LADDER[k]);
    }
    assert IsWidest(n, cap, r, 0, cap) <==> NothingWider(j, cap, k, r.value);
  }

  /** Where nothing is saved by widening, the width settled on is the widest that fits. */
  lemma FitIsWidest(j: Json, cap: nat)
    requires Size(j) > cap && RungsSkipped(j, cap) < |LADDER|
    requires NothingSaved(Texts(Marked(j), LADDER[RungsSkipped(j, cap)]), 0, cap)
    ensures var k := RungsSkipped(j, cap);
            exists w: nat :: w <= cap && Fit(j, cap).0 == Marked(Clip(j, w, LADDER[k])) && NothingWider(j, cap, k, w)
  {
    hide Clip, Size, Marked, Search, RungsSkipped, Fit, Unmisled, NothingWider, Texts, NothingSaved,
         TextsDoNotMislead;
    var k := RungsSkipped(j, cap);
    GrowsIff(Marked(j), LADDER[k], 0, cap);
    GrowthIsNotMisleading(Marked(j), LADDER[k], cap, 0, cap);
    UnmisledByTexts(Marked(j), LADDER[k], cap, 0, cap);
    ClipMarked(j, 0, LADDER[k]);
    FitIsWidestIff(j, cap);
    FitByRung(j, cap);
  }

  // ------------------------------------------------------------------
  // Dropping elements that some width would have kept
  // ------------------------------------------------------------------

  ghost predicate SomeWidthFits(j: Json, cap: nat, k: nat)
    requires k < |LADDER|
  {
    exists w: nat :: w <= cap && Size(Marked(Clip(j, w, LADDER[k]))) <= cap
  }

  /** The payload is shortened at a later rung, or given up, although it fits at an earlier one. */
  ghost predicate DropsNeedlessly(j: Json, cap: nat) {
    Size(j) > cap && exists k: nat :: k < RungsSkipped(j, cap) && SomeWidthFits(j, cap, k)
  }

  /** At w the texts of the rung show so little, or so much less than nothing, that it fits. */
  ghost predicate SavesEnough(j: Json, cap: nat, k: nat, w: nat)
    requires k < |LADDER|
  {
    Size(Marked(Clip(j, 0, LADDER[k]))) + Showings(Texts(Marked(j), LADDER[k]), w) <= cap
  }

  lemma ShownAtRung(j: Json, k: nat, w: nat)
    requires k < |LADDER|
    ensures Size(Marked(Clip(j, w, LADDER[k]))) == Size(Marked(Clip(j, 0, LADDER[k])))
        + Showings(Texts(Marked(j), LADDER[k]), w)
  {
    hide Clip, Size, Marked, Texts, Showings;
    ClipMarked(j, w, LADDER[k]);
    ClipMarked(j, 0, LADDER[k]);
    ShownSize(Marked(j), LADDER[k], w);
  }

  /** At one ceiling: elements are dropped needlessly exactly if at a rung that was passed over the strings
      that become whole save what is missing. */
  lemma DropsNeedlesslyAtIff(j: Json, cap: nat)
    ensures DropsNeedlessly(j, cap)
       <==> Size(j) > cap && exists k: nat, w: nat :: k < RungsSkipped(j, cap) && w <= cap && SavesEnough(j, cap, k, w)
  {
    hide Clip, Size, Marked, Texts, Showings, RungsSkipped;
    if DropsNeedlessly(j, cap) {
      var k: nat :| k < RungsSkipped(j, cap) && SomeWidthFits(j, cap, k);
      var w: nat :| w <= cap && Size(Marked(Clip(j, w, LADDER[k]))) <= cap;
      ShownAtRung(j, k, w);
      assert SavesEnough(j, cap, k, w);
    }
    if k: nat, w: nat :| Size(j) > cap && k < RungsSkipped(j, cap) && w <= cap && SavesEnough(j, cap, k, w) {
      ShownAtRung(j, k, w);
      assert SomeWidthFits(j, cap, k);
    }
  }

  /** The forms without text do not grow along the ladder. */
  lemma LadderShrinks(j: Json, m: nat, k: nat)
    requires m <= k < |LADDER|
    ensures Size(Marked(Clip(j, 0, LADDER[k]))) <= Size(Marked(Clip(j, 0, LADDER[m])))
  {
    hide Clip, Size, Marked;
    if m < k {
      ClipMarked(j, 0, LADDER[k]);
      ClipMarked(j, 0, LADDER[m]);
      FewerItemsFit(Marked(j), 0, LADDER[k].value, LADDER[m]);
    }
  }

  lemma SkippedIff(j: Json, cap: nat, k: nat)
    requires k < |LADDER|
    ensures k < RungsSkipped(j, cap) <==> Size(Marked(Clip(j, 0, LADDER[k]))) > cap
  {
    hide Clip, Size, Marked, LADDER;
    if RungsSkipped(j, cap) <= k { LadderShrinks(j, RungsSkipped(j, cap), k); }
  }

  /** Read off the payload alone: at w the texts show less than nothing, and the result is below both
      the payload and its form without text. */
  ghost predicate Cheaper(j: Json, k: nat, w: nat)
    requires k < |LADDER|
  {
    var shown := Showings(Texts(Marked(j), LADDER[k]), w);
    shown < 0 && Size(Marked(Clip(j, 0, LADDER[k]))) + shown < Size(j)
  }

  /** Over all ceilings: some ceiling drops elements needlessly exactly if some width is cheaper than none. */
  lemma DropsNeedlesslyIff(j: Json)
    ensures (exists cap: nat :: DropsNeedlessly(j, cap)) <==> exists k: nat, w: nat :: k < |LADDER| && Cheaper(j, k, w)
  {
    hide Clip, Size, Marked, Texts, Showings, RungsSkipped, Cheaper, DropsNeedlessly;
    if cap: nat :| DropsNeedlessly(j, cap) { DroppedIsCheaper(j, cap); }
    if k: nat, w: nat :| k < |LADDER| && Cheaper(j, k, w) { CheaperIsDropped(j, k, w); }
  }

  lemma DroppedIsCheaper(j: Json, cap: nat)
    requires DropsNeedlessly(j, cap)
    ensures exists k: nat, w: nat :: k < |LADDER| && Cheaper(j, k, w)
  {
    hide Clip, Size, Marked, Texts, Showings, RungsSkipped;
    var k: nat :| k < RungsSkipped(j, cap) && SomeWidthFits(j, cap, k);
    var w: nat :| w <= cap && Size(Marked(Clip(j, w, LADDER[k]))) <= cap;
    ShownAtRung(j, k, w);
    assert Cheaper(j, k, w);
  }

  lemma CheaperIsDropped(j: Json, k: nat, w: nat)
    requires k < |LADDER| && Cheaper(j, k, w)
    ensures exists cap: nat :: DropsNeedlessly(j, cap)
  {
    hide Clip, Size, Marked, Texts, Showings, RungsSkipped;
    ShownAtRung(j, k, w);
    var cap := Size(Marked(Clip(j, w, LADDER[k])));
    SkippedIff(j, cap, k);
    ClipMarked(j, w, LADDER[k]);
    if w > cap {
      WiderThanCeiling(Marked(j), LADDER[k], cap, w);
      ClipMarked(j, cap, LADDER[k]);
      assert Size(Marked(Clip(j, cap, LADDER[k]))) <= cap;
    }
    assert SomeWidthFits(j, cap, k);
    assert DropsNeedlessly(j, cap);
  }

  lemma {:induction false} TextsRemain(j: Json, limit: Option<nat>, t: string)
    requires t in Texts(j, limit)
    ensures t in Texts(j, None)
    decreases j, 1
  {
    match j
    case Str(_) =>
    case Arr(items) =>
      var n := if limit.Some? && limit.value < |items| then limit.value else |items|;
      ItemTextsRemain(items, n, limit, t);
    case Obj(fields) => FieldTextsRemain(fields, limit, t);
  }

  lemma {:induction false} ItemTextsRemain(items: seq<Json>, n: nat, limit: Option<nat>, t: string)
    requires n <= |items| && t in ItemTexts(items, n, limit)
    ensures t in ItemTexts(items, |items|, None)
    decreases items, 0
  {
    if t in Texts(items[0], limit) {
      TextsRemain(items[0], limit, t);
    } else {
      ItemTextsRemain(items[1..], n - 1, limit, t);
    }
  }

  lemma {:induction false} FieldTextsRemain(fields: seq<Field>, limit: Option<nat>, t: string)
    requires t in FieldTexts(fields, limit)
    ensures t in FieldTexts(fields, None)
    decreases fields, 0
  {
    if fields[0].key != "chapter_id" && t in Texts(fields[0].value, limit) {
      TextsRemain(fields[0].value, limit, t);
    } else {
      FieldTextsRemain(fields[1..], limit, t);
    }
  }

  /** If every string that may be clipped is empty or costs at least the marker, elements are dropped only
      when they fit at no width. */
  lemma LongTextsAreKept(j: Json, cap: nat)
    requires NoneCheaperThanMarker(Texts(Marked(j), None))
    ensures !DropsNeedlessly(j, cap)
  {
    hide Clip, Size, Marked, Texts, Showings, RungsSkipped, Chars;
    if DropsNeedlessly(j, cap) {
      DroppedIsCheaper(j, cap);
      var k: nat, w: nat :| k < |LADDER| && Cheaper(j, k, w);
      var texts := Texts(Marked(j), LADDER[k]);
      forall i | 0 <= i < |texts| ensures texts[i] == [] || Chars(texts[i]) >= 6 {
        TextsRemain(Marked(j), LADDER[k], texts[i]);
      }
      LongTextsShowSomething(texts, w);
      assert false;
    }
  }
}
