/** Tool results that never encode to more than a ceiling, and the chapter window that pages. */
module BoundedResults {
  import opened Prelude
  import opened JsonSize
  import opened Clipping

  const FALLBACK := Obj([Field("truncated", TRUE), Field("reason", Str("result exceeded the tool result ceiling"))])

  /** How many elements a list may keep, tried in this order. */
  const LADDER: seq<Option<nat>> := [None, Some(50), Some(20), Some(10), Some(5), Some(2), Some(1), Some(0)]

  // ------------------------------------------------------------------
  // Fitting a whole result
  // ------------------------------------------------------------------

  function Fit(j: Json, cap: nat): (Json, bool) {
    if Size(j) <= cap then (j, false) else Climb(Marked(Clip(j, cap, None)), cap, 0)
  }

  function Climb(marked: Json, cap: nat, i: nat): (Json, bool)
    decreases |LADDER| - i
  {
    if i >= |LADDER| then (FALLBACK, true)
    else if Size(Clip(marked, 0, LADDER[i])) > cap then Climb(marked, cap, i + 1)
    else match Search(Uniform(marked, LADDER[i]), cap, 0, cap, None)
      case Some(w) => (Clip(marked, w, LADDER[i]), true)
      case None => Climb(marked, cap, i + 1)
  }

  /** The search as the program runs it, over clipped trees rather than widths. */
  method WidestFitting(payload: Json, cap: nat, limit: Option<nat>) returns (best: Option<Json>)
    ensures match Search(Uniform(payload, limit), cap, 0, cap, None)
            case Some(w) => best == Some(Clip(payload, w, limit))
            case None => best == None
  {
    hide Clip, Size;
    var lo, hi: int := 0, cap;
    best := None;
    ghost var n, width: Option<nat> := Uniform(payload, limit), None;
    while lo <= hi
      invariant 0 <= lo <= hi + 1 <= cap + 1
      invariant best == if width.Some? then Some(Clip(payload, width.value, limit)) else None
      invariant Search(n, cap, lo, hi, width) == Search(n, cap, 0, cap, None)
      decreases hi - lo + 1
    {
      var mid := (lo + hi) / 2;
      var candidate := Clip(payload, mid, limit);
      assert Size(candidate) <= cap <==> n.Fits(cap, mid);
      if Size(candidate) <= cap {
        best, lo := Some(candidate), mid + 1;
        width := Some(mid);
      } else {
        hi := mid - 1;
      }
    }
  }

  method FitResult(payload: Json, cap: nat) returns (fitted: Json, truncated: bool)
    ensures (fitted, truncated) == Fit(payload, cap)
  {
    if Size(payload) <= cap { return payload, false; }
    var marked := Clip(payload, cap, None);
    if marked.Obj? { marked := Obj(Put(marked.fields, "truncated", TRUE)); }
    for i := 0 to |LADDER|
      invariant Climb(marked, cap, i) == Fit(payload, cap)
    {
      if Size(Clip(marked, 0, LADDER[i])) <= cap {
        var best := WidestFitting(marked, cap, LADDER[i]);
        if best.Some? { return best.value, true; }
      }
    }
    return FALLBACK, true;
  }

  /** The least a payload can be clipped to: no text, no list elements, and the marker. */
  function Barest(j: Json): Json { Marked(Clip(j, 0, Some(0))) }

  /** r is the payload clipped to w at the first rung whose empty form fits, and one wider does not fit. */
  ghost predicate FittedAt(j: Json, cap: nat, i: nat, w: nat, r: Json) {
    && i < |LADDER| && w <= cap
    && r == Marked(Clip(j, w, LADDER[i])) && Size(r) <= cap
    && Size(Marked(Clip(j, 0, LADDER[i]))) <= cap
    && (forall k :: 0 <= k < i ==> Size(Marked(Clip(j, 0, LADDER[k]))) > cap)
    && (w < cap ==> Size(Marked(Clip(j, w + 1, LADDER[i]))) > cap)
  }

  lemma ClippedAndMarked(j: Json, cap: nat, w: nat, limit: Option<nat>)
    requires w <= cap
    ensures Clip(Marked(Clip(j, cap, None)), w, limit) == Marked(Clip(j, w, limit))
  {
    ClipMarked(Clip(j, cap, None), w, limit);
    ClipTwice(j, cap, w, limit);
  }

  /** No rung of the ladder has a smaller empty form than the last. */
  lemma BarestIsSmallest(j: Json, limit: Option<nat>)
    ensures Size(Barest(j)) <= Size(Marked(Clip(j, 0, limit)))
  {
    ClipMarked(j, 0, Some(0));
    ClipMarked(j, 0, limit);
    FewerItemsFit(Marked(j), 0, 0, limit);
  }

  lemma {:induction false} Climbing(j: Json, cap: nat, i: nat)
    requires i <= |LADDER|
    requires forall k :: 0 <= k < i ==> Size(Marked(Clip(j, 0, LADDER[k]))) > cap
    ensures var r := Climb(Marked(Clip(j, cap, None)), cap, i);
            && r.1
            && if Size(Barest(j)) <= cap then exists k, w :: FittedAt(j, cap, k, w, r.0) else r.0 == FALLBACK
    decreases |LADDER| - i
  {
    hide Clip, Size, Marked, FALLBACK;
    if i < |LADDER| {
      var marked, limit := Marked(Clip(j, cap, None)), LADDER[i];
      ClippedAndMarked(j, cap, 0, limit);
      BarestIsSmallest(j, limit);
      if Size(Clip(marked, 0, limit)) > cap {
        Climbing(j, cap, i + 1);
      } else {
        SearchFinds(Uniform(marked, limit), cap, 0, cap, None, cap);
        var w := Search(Uniform(marked, limit), cap, 0, cap, None).value;
        ClippedAndMarked(j, cap, w, limit);
        if w < cap { ClippedAndMarked(j, cap, w + 1, limit); }
        assert FittedAt(j, cap, i, w, Climb(marked, cap, i).0);
      }
    } else {
      assert LADDER[7] == Some(0);
    }
  }

  /** What fitting returns, for every tree and every ceiling.  Nothing is said of a width beyond the next. */
  lemma FitOutcome(j: Json, cap: nat)
    ensures var (r, truncated) := Fit(j, cap);
            && (Size(j) <= cap ==> r == j && !truncated)
            && (Size(j) > cap ==> truncated)
            && (Size(j) > cap && Size(Barest(j)) <= cap ==> exists i, w :: FittedAt(j, cap, i, w, r))
            && (Size(j) > cap && Size(Barest(j)) > cap ==> r == FALLBACK)
  {
    hide Clip, Size, Marked, FALLBACK, Climb;
    if Size(j) > cap { Climbing(j, cap, 0); }
  }

  lemma {:induction false} PlainText(s: string)
    requires forall i :: 0 <= i < |s| ==> Cost(s[i]) == 1
    ensures Chars(s) == |s|
  {
    if s != [] {
      assert forall i :: 0 <= i < |s[1..]| ==> s[1..][i] == s[i + 1];
      PlainText(s[1..]);
    }
  }

  lemma TwoFields(a: Field, b: Field)
    ensures Size(Obj([a, b])) == 4 + EntrySize(a) + EntrySize(b)
  {
    assert [a, b][1..] == [b] && [b][1..] == [];
    assert FieldSum([a, b]) == EntrySize(a) + FieldSum([b]);
  }

  lemma FallbackText()
    ensures Chars("truncated") == 9 && Chars("reason") == 6
    ensures Chars("result exceeded the tool result ceiling") == 39
  {
    hide Chars;
    PlainText("truncated");
    PlainText("reason");
    PlainText("result exceeded the tool result ceiling");
  }

  lemma FallbackSize()
    ensures Size(FALLBACK) == 72
  {
    hide Chars, FieldSum;
    TwoFields(FALLBACK.fields[0], FALLBACK.fields[1]);
    FallbackText();
  }

  /** One payload is kept within the ceiling exactly if it, its barest form or the fallback is. */
  lemma FitBoundedIff(j: Json, cap: nat)
    ensures Size(Fit(j, cap).0) <= cap <==> Size(j) <= cap || Size(Barest(j)) <= cap || cap >= 72
  {
    hide Fit, Barest, Size;
    FitOutcome(j, cap);
    FallbackSize();
  }

  /** The ceiling is a guarantee for every payload exactly from 72 up. */
  lemma FitBoundsEveryPayload(cap: nat)
    ensures (forall j: Json :: Size(Fit(j, cap).0) <= cap) <==> cap >= 72
  {
    forall j: Json ensures Size(Fit(j, cap).0) <= cap <==> Size(j) <= cap || Size(Barest(j)) <= cap || cap >= 72 {
      FitBoundedIff(j, cap);
    }
    if cap < 72 {
      assert Size(Barest(Atom(cap + 1))) == cap + 1;
      assert Size(Fit(Atom(cap + 1), cap).0) > cap;
    }
  }

  /** Outside the fallback, and apart from the marker, a fitted payload has every key of the original,
      every chapter id whole, every list a prefix and every string whole or cut once. */
  lemma FitKeepsShape(j: Json, cap: nat)
    ensures var r := Fit(j, cap).0;
            || r == j
            || (r == FALLBACK && Size(Barest(j)) > cap)
            || (exists b :: Shortened(j, b) && r == Marked(b))
  {
    hide Fit, Barest, Size, Shortened;
    FitOutcome(j, cap);
    var r := Fit(j, cap).0;
    if Size(j) > cap && Size(Barest(j)) <= cap {
      var i: nat, w: nat :| FittedAt(j, cap, i, w, r);
      ClipShortens(j, w, LADDER[i]);
    }
  }
}
