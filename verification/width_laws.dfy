/** How the encoded size of a tree depends on the width it is clipped to, string by string. */
module WidthLaws {
  import opened Prelude
  import opened JsonSize
  import opened Clipping

  /** The strings that clipping shortens: all but chapter ids and what the list bound drops. */
  function Texts(j: Json, limit: Option<nat>): seq<string>
    decreases j, 1
  {
    match j
    case Str(s) => [s]
    case Num(_) => []
    case Atom(_) => []
    case Arr(items) => ItemTexts(items, if limit.Some? && limit.value < |items| then limit.value else |items|, limit)
    case Obj(fields) => FieldTexts(fields, limit)
  }

  /** The strings of the first n elements. */
  function ItemTexts(items: seq<Json>, n: nat, limit: Option<nat>): seq<string>
    requires n <= |items|
    decreases items, 0
  {
    if n == 0 then [] else Texts(items[0], limit) + ItemTexts(items[1..], n - 1, limit)
  }

  function FieldTexts(fields: seq<Field>, limit: Option<nat>): seq<string>
    decreases fields, 0
  {
    if fields == [] then []
    else (if fields[0].key == "chapter_id" then [] else Texts(fields[0].value, limit)) + FieldTexts(fields[1..], limit)
  }

  /** What the texts cost when each is clipped to w. */
  function TextCost(texts: seq<string>, w: nat): nat {
    if texts == [] then 0 else Chars(ClipText(texts[0], w)) + TextCost(texts[1..], w)
  }

  /** What one more character of a string costs: the character, less the marker if it is the last one. */
  function Widening(s: string, w: nat): int {
    if |s| <= w then 0 else if |s| == w + 1 then Cost(s[w]) - 6 else Cost(s[w])
  }

  function Widenings(texts: seq<string>, w: nat): int {
    if texts == [] then 0 else Widening(texts[0], w) + Widenings(texts[1..], w)
  }

  /** What w characters of a string cost over none: a whole string saves the marker. */
  function Showing(s: string, w: nat): int {
    if s == [] then 0 else if |s| <= w then Chars(s) - 6 else Chars(s[..w])
  }

  function Showings(texts: seq<string>, w: nat): int {
    if texts == [] then 0 else Showing(texts[0], w) + Showings(texts[1..], w)
  }

  // ------------------------------------------------------------------
  // Size is a constant plus the cost of the texts
  // ------------------------------------------------------------------

  lemma {:induction false} CostOfBoth(a: seq<string>, b: seq<string>, w: nat)
    ensures TextCost(a + b, w) == TextCost(a, w) + TextCost(b, w)
  {
    if a == [] {
      assert a + b == b;
    } else {
      assert (a + b)[1..] == a[1..] + b;
      CostOfBoth(a[1..], b, w);
    }
  }

  /** Between two widths a tree gains exactly what its texts gain. */
  lemma {:induction false} SizeFollowsTexts(j: Json, limit: Option<nat>, v: nat, w: nat)
    ensures Size(Clip(j, w, limit)) - Size(Clip(j, v, limit))
        == TextCost(Texts(j, limit), w) - TextCost(Texts(j, limit), v)
    decreases j, 1
  {
    match j
    case Str(s) =>
      assert [s][1..] == [];
    case Num(_) =>
    case Atom(_) =>
    case Arr(items) =>
      var n := if limit.Some? && limit.value < |items| then limit.value else |items|;
      assert Kept(ClipItems(items, w, limit), limit) == ClipItems(items, w, limit)[..n];
      assert Kept(ClipItems(items, v, limit), limit) == ClipItems(items, v, limit)[..n];
      ItemsFollowTexts(items, n, limit, v, w);
    case Obj(fields) =>
      FieldsFollowTexts(fields, limit, v, w);
  }

  lemma {:induction false} ItemsFollowTexts(items: seq<Json>, n: nat, limit: Option<nat>, v: nat, w: nat)
    requires n <= |items|
    ensures ItemSum(ClipItems(items, w, limit)[..n]) - ItemSum(ClipItems(items, v, limit)[..n])
         == TextCost(ItemTexts(items, n, limit), w) - TextCost(ItemTexts(items, n, limit), v)
    decreases items, 0
  {
    hide Clip, Size, Texts, TextCost;
    if n > 0 {
      SizeFollowsTexts(items[0], limit, v, w);
      ItemsFollowTexts(items[1..], n - 1, limit, v, w);
      FirstOf(ClipItems(items, w, limit), n);
      FirstOf(ClipItems(items, v, limit), n);
      CostOfBoth(Texts(items[0], limit), ItemTexts(items[1..], n - 1, limit), v);
      CostOfBoth(Texts(items[0], limit), ItemTexts(items[1..], n - 1, limit), w);
    } else {
      NoTexts(v);
      NoTexts(w);
    }
  }

  lemma FirstOf(items: seq<Json>, n: nat)
    requires 0 < n <= |items|
    ensures ItemSum(items[..n]) == Size(items[0]) + ItemSum(items[1..][..n - 1])
  {
    assert items[..n][1..] == items[1..][..n - 1];
  }

  lemma {:induction false} FieldsFollowTexts(fields: seq<Field>, limit: Option<nat>, v: nat, w: nat)
    ensures FieldSum(ClipFields(fields, w, limit)) - FieldSum(ClipFields(fields, v, limit))
         == TextCost(FieldTexts(fields, limit), w) - TextCost(FieldTexts(fields, limit), v)
    decreases fields, 0
  {
    hide Clip, Size, Texts, TextCost;
    if fields != [] {
      var f, own := fields[0], if fields[0].key == "chapter_id" then [] else Texts(fields[0].value, limit);
      if f.key == "chapter_id" { NoTexts(v); NoTexts(w); } else { SizeFollowsTexts(f.value, limit, v, w); }
      FieldsFollowTexts(fields[1..], limit, v, w);
      assert ClipFields(fields, w, limit)[1..] == ClipFields(fields[1..], w, limit);
      assert ClipFields(fields, v, limit)[1..] == ClipFields(fields[1..], v, limit);
      CostOfBoth(own, FieldTexts(fields[1..], limit), v);
      CostOfBoth(own, FieldTexts(fields[1..], limit), w);
    } else {
      NoTexts(v);
      NoTexts(w);
    }
  }

  lemma NoTexts(w: nat)
    ensures TextCost([], w) == 0
  {
  }

  // ------------------------------------------------------------------
  // One width wider, and any width against none
  // ------------------------------------------------------------------

  lemma ClippedCost(s: string, w: nat)
    requires |s| > w
    ensures Chars(ClipText(s, w)) == Chars(s[..w]) + 6
  {
    EllipsisCost();
    CharsConcat(s[..w], ELLIPSIS);
  }

  lemma WideningOne(s: string, w: nat)
    ensures Chars(ClipText(s, w + 1)) - Chars(ClipText(s, w)) == Widening(s, w)
  {
    if |s| > w {
      ClippedCost(s, w);
      assert s[..w + 1] == s[..w] + [s[w]];
      CharsConcat(s[..w], [s[w]]);
      assert [s[w]][1..] == [];
      if |s| == w + 1 { assert s == s[..w + 1]; } else { ClippedCost(s, w + 1); }
    }
  }

  lemma {:induction false} WideningAll(texts: seq<string>, w: nat)
    ensures TextCost(texts, w + 1) - TextCost(texts, w) == Widenings(texts, w)
  {
    hide Chars, ClipText, Widening;
    if texts != [] {
      WideningOne(texts[0], w);
      WideningAll(texts[1..], w);
    }
  }

  lemma ShowingOne(s: string, w: nat)
    ensures Chars(ClipText(s, w)) - Chars(ClipText(s, 0)) == Showing(s, w)
  {
    if s != [] {
      ClippedCost(s, 0);
      assert s[..0] == [];
      if |s| > w { ClippedCost(s, w); }
    }
  }

  lemma {:induction false} ShowingAll(texts: seq<string>, w: nat)
    ensures TextCost(texts, w) - TextCost(texts, 0) == Showings(texts, w)
  {
    hide Chars, ClipText, Showing;
    if texts != [] {
      ShowingOne(texts[0], w);
      ShowingAll(texts[1..], w);
    }
  }

  /** Clipping one character wider changes the size of any tree by the sum of what each of its texts
      adds: a character, less the marker where a string becomes whole. */
  lemma WidenedSize(j: Json, limit: Option<nat>, w: nat)
    ensures Size(Clip(j, w + 1, limit)) - Size(Clip(j, w, limit)) == Widenings(Texts(j, limit), w)
  {
    hide Clip, Size, Texts, TextCost, Widenings;
    SizeFollowsTexts(j, limit, w, w + 1);
    WideningAll(Texts(j, limit), w);
  }

  /** Against the form without any text, a width costs the sum of what each text shows at it. */
  lemma ShownSize(j: Json, limit: Option<nat>, w: nat)
    ensures Size(Clip(j, w, limit)) == Size(Clip(j, 0, limit)) + Showings(Texts(j, limit), w)
  {
    hide Clip, Size, Texts, TextCost, Showings;
    SizeFollowsTexts(j, limit, 0, w);
    ShowingAll(Texts(j, limit), w);
  }

  // ------------------------------------------------------------------
  // When size grows with the width
  // ------------------------------------------------------------------

  ghost predicate GrowsBetween(j: Json, limit: Option<nat>, lo: nat, hi: nat) {
    forall v: nat, w: nat :: lo <= v <= w <= hi ==> Size(Clip(j, v, limit)) <= Size(Clip(j, w, limit))
  }

  /** At no width of the range do the strings that become whole save more than the others add. */
  ghost predicate NothingSaved(texts: seq<string>, lo: nat, hi: nat) {
    forall w: nat :: lo <= w < hi ==> Widenings(texts, w) >= 0
  }

  ghost predicate NothingEverSaved(texts: seq<string>) {
    forall w: nat :: Widenings(texts, w) >= 0
  }

  /** Over any range of widths, size is monotone exactly if nothing is saved by widening. */
  lemma GrowsIff(j: Json, limit: Option<nat>, lo: nat, hi: nat)
    ensures GrowsBetween(j, limit, lo, hi) <==> NothingSaved(Texts(j, limit), lo, hi)
  {
    hide Clip, Size, Texts, Widenings;
    if GrowsBetween(j, limit, lo, hi) {
      forall w: nat | lo <= w < hi ensures Widenings(Texts(j, limit), w) >= 0 { WidenedSize(j, limit, w); }
    }
    if NothingSaved(Texts(j, limit), lo, hi) {
      forall v: nat, w: nat | lo <= v <= w <= hi ensures Size(Clip(j, v, limit)) <= Size(Clip(j, w, limit)) {
        GrowsFrom(j, limit, lo, hi, v, w);
      }
    }
  }

  lemma {:induction false} GrowsFrom(j: Json, limit: Option<nat>, lo: nat, hi: nat, v: nat, w: nat)
    requires lo <= v <= w <= hi
    requires NothingSaved(Texts(j, limit), lo, hi)
    ensures Size(Clip(j, v, limit)) <= Size(Clip(j, w, limit))
    decreases w - v
  {
    hide Clip, Size, Texts, Widenings;
    if v < w {
      GrowsFrom(j, limit, lo, hi, v, w - 1);
      WidenedSize(j, limit, w - 1);
    }
  }

  ghost predicate EmptyIsSmallest(j: Json, limit: Option<nat>, hi: nat) {
    forall w: nat :: w <= hi ==> Size(Clip(j, 0, limit)) <= Size(Clip(j, w, limit))
  }

  ghost predicate AllShowSomething(texts: seq<string>, hi: nat) {
    forall w: nat :: w <= hi ==> Showings(texts, w) >= 0
  }

  /** The form without text is the smallest exactly if no width shows less than nothing. */
  lemma EmptyIsSmallestIff(j: Json, limit: Option<nat>, hi: nat)
    ensures EmptyIsSmallest(j, limit, hi) <==> AllShowSomething(Texts(j, limit), hi)
  {
    hide Clip, Size, Texts, Showings;
    if EmptyIsSmallest(j, limit, hi) {
      forall w: nat | w <= hi ensures Showings(Texts(j, limit), w) >= 0 { ShownSize(j, limit, w); }
    }
    if AllShowSomething(Texts(j, limit), hi) {
      forall w: nat | w <= hi ensures Size(Clip(j, 0, limit)) <= Size(Clip(j, w, limit)) { ShownSize(j, limit, w); }
    }
  }

  /** Every string to be clipped is empty or costs at least the marker. */
  predicate NoneCheaperThanMarker(texts: seq<string>) {
    forall i :: 0 <= i < |texts| ==> texts[i] == [] || Chars(texts[i]) >= 6
  }

  /** A sufficient condition that is easy to see: strings short enough to beat the marker are the only trouble. */
  lemma {:induction false} LongTextsShowSomething(texts: seq<string>, w: nat)
    requires NoneCheaperThanMarker(texts)
    ensures Showings(texts, w) >= 0
  {
    if texts != [] {
      assert texts[0] == [] || Chars(texts[0]) >= 6;
      assert forall i :: 0 <= i < |texts[1..]| ==> texts[1..][i] == texts[i + 1];
      LongTextsShowSomething(texts[1..], w);
    }
  }

  // ------------------------------------------------------------------
  // When the search finds the widest
  // ------------------------------------------------------------------

  /** No width that the search rejects lies below one, still in its range, that fits. */
  ghost predicate Unmisled(n: Narrowing, cap: nat, lo: nat, hi: int)
    decreases hi - lo + 1
  {
    lo > hi || (
      var mid := (lo + hi) / 2;
      if n.Fits(cap, mid) then Unmisled(n, cap, mid + 1, hi)
      else (forall w: nat :: mid < w <= hi ==> !n.Fits(cap, w)) && Unmisled(n, cap, lo, mid - 1))
  }

  /** What the search has found when it comes to a range from lo up. */
  function Below(lo: nat): Option<nat> { if lo == 0 then None else Some(lo - 1) }

  ghost predicate IsWidest(n: Narrowing, cap: nat, r: Option<nat>, lo: nat, hi: int) {
    forall w: nat :: lo <= w <= hi && n.Fits(cap, w) ==> r.Some? && w <= r.value
  }

  /** On any range the search finds the widest that fits exactly if it was never misled. */
  lemma {:induction false} SearchIsWidestIff(n: Narrowing, cap: nat, lo: nat, hi: int)
    requires lo <= hi + 1
    ensures IsWidest(n, cap, Search(n, cap, lo, hi, Below(lo)), lo, hi) <==> Unmisled(n, cap, lo, hi)
    decreases hi - lo + 1
  {
    hide Narrowing.Fits, Narrowing.At, IsWidest;
    if lo <= hi {
      var mid := (lo + hi) / 2;
      if n.Fits(cap, mid) {
        SearchIsWidestIff(n, cap, mid + 1, hi);
        SearchStays(n, cap, mid + 1, hi);
        FromTheFit(n, cap, Search(n, cap, mid + 1, hi, Some(mid)), lo, mid, hi);
      } else {
        SearchIsWidestIff(n, cap, lo, mid - 1);
        SearchStays(n, cap, lo, mid - 1);
        ToTheMisfit(n, cap, Search(n, cap, lo, mid - 1, Below(lo)), lo, mid, hi);
      }
    } else {
      NothingToFind(n, cap, lo, hi);
    }
  }

  lemma NothingToFind(n: Narrowing, cap: nat, lo: nat, hi: int)
    requires lo > hi
    ensures IsWidest(n, cap, Below(lo), lo, hi)
  {
  }

  lemma FromTheFit(n: Narrowing, cap: nat, r: Option<nat>, lo: nat, mid: nat, hi: int)
    requires lo <= mid <= hi && r.Some? && mid <= r.value
    ensures IsWidest(n, cap, r, lo, hi) <==> IsWidest(n, cap, r, mid + 1, hi)
  {
    hide Narrowing.Fits, Narrowing.At;
  }

  lemma ToTheMisfit(n: Narrowing, cap: nat, r: Option<nat>, lo: nat, mid: nat, hi: int)
    requires lo <= mid <= hi && !n.Fits(cap, mid) && (r.Some? ==> r.value < mid)
    ensures IsWidest(n, cap, r, lo, hi)
       <==> IsWidest(n, cap, r, lo, mid - 1) && forall w: nat :: mid < w <= hi ==> !n.Fits(cap, w)
  {
    hide Narrowing.Fits, Narrowing.At;
  }

  lemma {:induction false} SearchStays(n: Narrowing, cap: nat, lo: nat, hi: int)
    requires lo <= hi + 1
    ensures var r := Search(n, cap, lo, hi, Below(lo)); r.Some? ==> lo <= r.value + 1 && r.value <= hi
    ensures lo > 0 ==> Search(n, cap, lo, hi, Below(lo)).Some?
    decreases hi - lo + 1
  {
    hide Narrowing.Fits, Narrowing.At;
    if lo <= hi {
      var mid := (lo + hi) / 2;
      if n.Fits(cap, mid) { SearchStays(n, cap, mid + 1, hi); } else { SearchStays(n, cap, lo, mid - 1); }
    }
  }

  /** The search on every range and for every ceiling. */
  ghost predicate AlwaysWidest(n: Narrowing) {
    forall cap: nat, lo: nat, hi: nat :: lo <= hi ==>
      IsWidest(n, cap, Search(n, cap, lo, hi, Below(lo)), lo, hi)
  }

  lemma {:induction false} GrowthIsNotMisleading(j: Json, limit: Option<nat>, cap: nat, lo: nat, hi: int)
    requires hi >= 0 ==> GrowsBetween(j, limit, lo, hi)
    ensures Unmisled(Uniform(j, limit), cap, lo, hi)
    decreases hi - lo + 1
  {
    hide Clip, Size;
    var n := Uniform(j, limit);
    if lo <= hi {
      var mid := (lo + hi) / 2;
      if n.Fits(cap, mid) { GrowthIsNotMisleading(j, limit, cap, mid + 1, hi); }
      else { GrowthIsNotMisleading(j, limit, cap, lo, mid - 1); }
    }
  }

  /** For a tree, the search is sound on every range and for every ceiling exactly if nothing is ever
      saved by widening. */
  lemma AlwaysWidestIff(j: Json, limit: Option<nat>)
    ensures AlwaysWidest(Uniform(j, limit)) <==> NothingEverSaved(Texts(j, limit))
  {
    hide *;
    if NothingEverSaved(Texts(j, limit)) { GrowthMakesSound(j, limit); }
    if AlwaysWidest(Uniform(j, limit)) { SoundnessNeedsGrowth(j, limit); }
  }

  lemma GrowthMakesSound(j: Json, limit: Option<nat>)
    requires NothingEverSaved(Texts(j, limit))
    ensures AlwaysWidest(Uniform(j, limit))
  {
    hide Clip, Size, Texts, Widenings, Search, IsWidest;
    var n := Uniform(j, limit);
    forall cap: nat, lo: nat, hi: nat | lo <= hi ensures IsWidest(n, cap, Search(n, cap, lo, hi, Below(lo)), lo, hi) {
      GrowsIff(j, limit, 0, hi);
      assert GrowsBetween(j, limit, lo, hi);
      GrowthIsNotMisleading(j, limit, cap, lo, hi);
      SearchIsWidestIff(n, cap, lo, hi);
    }
  }

  lemma SoundnessNeedsGrowth(j: Json, limit: Option<nat>)
    requires AlwaysWidest(Uniform(j, limit))
    ensures NothingEverSaved(Texts(j, limit))
  {
    hide Clip, Size, Texts, Widenings, Search, AlwaysWidest;
    forall w: nat ensures Widenings(Texts(j, limit), w) >= 0 { DropMisleads(j, limit, w); }
  }

  /** Two widths around a drop, at a ceiling that only the wider one keeps, mislead the search. */
  lemma DropMisleads(j: Json, limit: Option<nat>, w: nat)
    ensures AlwaysWidest(Uniform(j, limit)) ==> Widenings(Texts(j, limit), w) >= 0
  {
    hide Clip, Size, Texts, Widenings;
    var n, cap := Uniform(j, limit), Size(Clip(j, w + 1, limit));
    WidenedSize(j, limit, w);
    if Size(Clip(j, w, limit)) > cap {
      assert n.Fits(cap, w + 1) && !n.Fits(cap, w);
      assert (w + w + 1) / 2 == w;
      var r := Search(n, cap, w, w + 1, Below(w));
      assert r == Search(n, cap, w, w - 1, Below(w)) == Below(w);
      assert !IsWidest(n, cap, r, w, w + 1);
    }
  }

  /** The same read off the texts: bare is the size of the form without text.  No width that is rejected lies
      below one, still in the range, at which what the texts show keeps to the ceiling. */
  ghost predicate TextsDoNotMislead(texts: seq<string>, bare: nat, cap: nat, lo: nat, hi: int)
    decreases hi - lo + 1
  {
    lo > hi || (
      var mid := (lo + hi) / 2;
      if bare + Showings(texts, mid) <= cap then TextsDoNotMislead(texts, bare, cap, mid + 1, hi)
      else (forall w: nat :: mid < w <= hi ==> bare + Showings(texts, w) > cap)
           && TextsDoNotMislead(texts, bare, cap, lo, mid - 1))
  }

  lemma {:induction false} UnmisledByTexts(j: Json, limit: Option<nat>, cap: nat, lo: nat, hi: int)
    ensures Unmisled(Uniform(j, limit), cap, lo, hi)
       <==> TextsDoNotMislead(Texts(j, limit), Size(Clip(j, 0, limit)), cap, lo, hi)
    decreases hi - lo + 1
  {
    hide Clip, Size, Texts, Showings, Narrowing.Fits;
    if lo <= hi {
      var mid := (lo + hi) / 2;
      forall w: nat
        ensures Uniform(j, limit).Fits(cap, w) <==> Size(Clip(j, 0, limit)) + Showings(Texts(j, limit), w) <= cap
      {
        FitsByTexts(j, limit, cap, w);
      }
      if Uniform(j, limit).Fits(cap, mid) {
        UnmisledByTexts(j, limit, cap, mid + 1, hi);
      } else {
        UnmisledByTexts(j, limit, cap, lo, mid - 1);
      }
    }
  }

  lemma FitsByTexts(j: Json, limit: Option<nat>, cap: nat, w: nat)
    ensures Uniform(j, limit).Fits(cap, w) <==> Size(Clip(j, 0, limit)) + Showings(Texts(j, limit), w) <= cap
  {
    hide Clip, Size, Texts, Showings;
    ShownSize(j, limit, w);
  }

  // ------------------------------------------------------------------
  // Nothing is to be had beyond the ceiling
  // ------------------------------------------------------------------

  /** A tree that fits at a width beyond the ceiling is the same at the ceiling. */
  lemma {:induction false} WiderThanCeiling(j: Json, limit: Option<nat>, cap: nat, w: nat)
    requires cap <= w && Size(Clip(j, w, limit)) <= cap
    ensures Clip(j, w, limit) == Clip(j, cap, limit)
  {
    match j
    case Str(s) => CharsAtLeastLength(ClipText(s, w));
    case Num(_) =>
    case Atom(_) =>
    case Arr(items) =>
      var a, b := Kept(ClipItems(items, w, limit), limit), Kept(ClipItems(items, cap, limit), limit);
      forall i | 0 <= i < |a| ensures a[i] == b[i] {
        ItemWithinSum(a, i);
        ClipItemAt(items, w, limit, i);
        ClipItemAt(items, cap, limit, i);
        WiderThanCeiling(items[i], limit, cap, w);
      }
      assert a == b;
    case Obj(fields) =>
      var a, b := ClipFields(fields, w, limit), ClipFields(fields, cap, limit);
      forall i | 0 <= i < |a| ensures a[i] == b[i] {
        FieldWithinSum(a, i);
        ClipFieldAt(fields, w, limit, i);
        ClipFieldAt(fields, cap, limit, i);
        if fields[i].key != "chapter_id" { WiderThanCeiling(fields[i].value, limit, cap, w); }
      }
      assert a == b;
  }

  lemma {:induction false} ItemWithinSum(items: seq<Json>, i: nat)
    requires i < |items|
    ensures Size(items[i]) <= ItemSum(items)
  {
    if i > 0 { ItemWithinSum(items[1..], i - 1); }
  }

  lemma {:induction false} FieldWithinSum(fields: seq<Field>, i: nat)
    requires i < |fields|
    ensures Size(fields[i].value) <= FieldSum(fields)
  {
    if i > 0 { FieldWithinSum(fields[1..], i - 1); }
  }
}
