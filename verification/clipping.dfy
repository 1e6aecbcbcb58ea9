/** Shortening a JSON tree, and the binary search for the most of it that fits an encoded size. */
module Clipping {
  import opened Prelude
  import opened JsonSize

  /** The marker left where a string was cut.  It is not ASCII, so it encodes to six characters. */
  const ELLIPSIS: string := "\U{2026}"

  function ClipText(s: string, w: nat): string { if |s| <= w then s else s[..w] + ELLIPSIS }

  /** Every string bounded by w and every list by limit; chapter ids are left whole. */
  function Clip(j: Json, w: nat, limit: Option<nat>): Json
    decreases j, 1
  {
    match j
    case Str(s) => Str(ClipText(s, w))
    case Num(_) => j
    case Atom(_) => j
    case Arr(items) => Arr(Kept(ClipItems(items, w, limit), limit))
    case Obj(fields) => Obj(ClipFields(fields, w, limit))
  }

  function Kept(items: seq<Json>, limit: Option<nat>): seq<Json> {
    if limit.Some? && limit.value < |items| then items[..limit.value] else items
  }

  function ClipItems(items: seq<Json>, w: nat, limit: Option<nat>): (r: seq<Json>)
    ensures |r| == |items|
    decreases items, 0
  {
    if items == [] then [] else [Clip(items[0], w, limit)] + ClipItems(items[1..], w, limit)
  }

  function ClipField(f: Field, w: nat, limit: Option<nat>): Field
    decreases f, 2
  {
    Field(f.key, if f.key == "chapter_id" then f.value else Clip(f.value, w, limit))
  }

  function ClipFields(fields: seq<Field>, w: nat, limit: Option<nat>): (r: seq<Field>)
    ensures |r| == |fields|
    decreases fields, 0
  {
    if fields == [] then [] else [ClipField(fields[0], w, limit)] + ClipFields(fields[1..], w, limit)
  }

  /** Keys whose values name a record: a specialist needs them uncut to refer to it. */
  predicate Protected(key: string) {
    || key in {"id", "name", "title", "specialist", "plotLine", "operation", "target"}
    || EndsWith(key, "Id") || EndsWith(key, "Ids")
  }

  predicate EndsWith(s: string, suffix: string) { |suffix| <= |s| && s[|s| - |suffix|..] == suffix }

  /** Prose shortened, identities and rows kept; a list passes its own key on to its elements. */
  function ClipProse(j: Json, w: nat, key: string): Json
    decreases j, 1
  {
    match j
    case Str(s) => if Protected(key) then j else Str(ClipText(s, w))
    case Num(_) => j
    case Atom(_) => j
    case Arr(items) => Arr(ClipProseItems(items, w, key))
    case Obj(fields) => Obj(ClipProseFields(fields, w))
  }

  function ClipProseItems(items: seq<Json>, w: nat, key: string): (r: seq<Json>)
    ensures |r| == |items|
    decreases items, 0
  {
    if items == [] then [] else [ClipProse(items[0], w, key)] + ClipProseItems(items[1..], w, key)
  }

  function ClipProseField(f: Field, w: nat): Field
    decreases f, 2
  {
    Field(f.key, ClipProse(f.value, w, f.key))
  }

  function ClipProseFields(fields: seq<Field>, w: nat): (r: seq<Field>)
    ensures |r| == |fields|
    decreases fields, 0
  {
    if fields == [] then [] else [ClipProseField(fields[0], w)] + ClipProseFields(fields[1..], w)
  }

  // ------------------------------------------------------------------
  // What clipping may and may not lose
  // ------------------------------------------------------------------

  /** t is s, or a proper prefix of it followed by the marker. */
  predicate CutText(s: string, t: string) {
    || t == s
    || (0 < |t| <= |s| && t == s[..|t| - 1] + ELLIPSIS)
  }

  /** b is a with strings cut and lists shortened at the end, and nothing else changed. */
  ghost predicate Shortened(a: Json, b: Json) {
    match a
    case Str(s) => b.Str? && CutText(s, b.s)
    case Num(_) => b == a
    case Atom(_) => b == a
    case Arr(items) =>
      && b.Arr?
      && |b.items| <= |items|
      && (forall i :: 0 <= i < |b.items| ==> Shortened(items[i], b.items[i]))
    case Obj(fields) =>
      && b.Obj?
      && |b.fields| == |fields|
      && (forall i :: 0 <= i < |fields| ==> ShortenedField(fields[i], b.fields[i]))
  }

  ghost predicate ShortenedField(a: Field, b: Field) {
    b.key == a.key && if a.key == "chapter_id" then b == a else Shortened(a.value, b.value)
  }

  /** b is a with prose cut: every record, every row and every identity is still there. */
  ghost predicate Focused(a: Json, b: Json, key: string) {
    match a
    case Str(s) => b.Str? && CutText(s, b.s) && (Protected(key) ==> b == a)
    case Num(_) => b == a
    case Atom(_) => b == a
    case Arr(items) =>
      && b.Arr?
      && |b.items| == |items|
      && (forall i :: 0 <= i < |items| ==> Focused(items[i], b.items[i], key))
    case Obj(fields) =>
      && b.Obj?
      && |b.fields| == |fields|
      && (forall i :: 0 <= i < |fields| ==> FocusedField(fields[i], b.fields[i]))
  }

  ghost predicate FocusedField(a: Field, b: Field) {
    b.key == a.key && Focused(a.value, b.value, a.key)
  }

  lemma ClipItemAt(items: seq<Json>, w: nat, limit: Option<nat>, i: nat)
    requires i < |items|
    ensures ClipItems(items, w, limit)[i] == Clip(items[i], w, limit)
  {
    if i > 0 { ClipItemAt(items[1..], w, limit, i - 1); }
  }

  lemma ClipFieldAt(fields: seq<Field>, w: nat, limit: Option<nat>, i: nat)
    requires i < |fields|
    ensures ClipFields(fields, w, limit)[i] == ClipField(fields[i], w, limit)
  {
    if i > 0 { ClipFieldAt(fields[1..], w, limit, i - 1); }
  }

  lemma {:induction false} ClipShortens(j: Json, w: nat, limit: Option<nat>)
    ensures Shortened(j, Clip(j, w, limit))
  {
    match j
    case Str(s) =>
    case Num(_) =>
    case Atom(_) =>
    case Arr(items) =>
      var b := Clip(j, w, limit);
      forall i | 0 <= i < |b.items| ensures Shortened(items[i], b.items[i]) {
        ClipItemAt(items, w, limit, i);
        ClipShortens(items[i], w, limit);
      }
    case Obj(fields) =>
      var b := Clip(j, w, limit);
      forall i | 0 <= i < |fields| ensures ShortenedField(fields[i], b.fields[i]) {
        ClipFieldAt(fields, w, limit, i);
        ClipShortens(fields[i].value, w, limit);
      }
  }

  lemma ClipProseItemAt(items: seq<Json>, w: nat, key: string, i: nat)
    requires i < |items|
    ensures ClipProseItems(items, w, key)[i] == ClipProse(items[i], w, key)
  {
    if i > 0 { ClipProseItemAt(items[1..], w, key, i - 1); }
  }

  lemma ClipProseFieldAt(fields: seq<Field>, w: nat, i: nat)
    requires i < |fields|
    ensures ClipProseFields(fields, w)[i] == ClipProseField(fields[i], w)
  {
    if i > 0 { ClipProseFieldAt(fields[1..], w, i - 1); }
  }

  lemma {:induction false} ClipProseKeepsFocus(j: Json, w: nat, key: string)
    ensures Focused(j, ClipProse(j, w, key), key)
  {
    match j
    case Str(s) =>
    case Num(_) =>
    case Atom(_) =>
    case Arr(items) =>
      var b := ClipProse(j, w, key);
      forall i | 0 <= i < |items| ensures Focused(items[i], b.items[i], key) {
        ClipProseItemAt(items, w, key, i);
        ClipProseKeepsFocus(items[i], w, key);
      }
    case Obj(fields) =>
      var b := ClipProse(j, w, key);
      forall i | 0 <= i < |fields| ensures FocusedField(fields[i], b.fields[i]) {
        ClipProseFieldAt(fields, w, i);
        ClipProseKeepsFocus(fields[i].value, w, fields[i].key);
      }
  }

  lemma {:induction false} FocusedItself(j: Json, key: string)
    ensures Focused(j, j, key)
  {
    match j
    case Str(s) =>
    case Num(_) =>
    case Atom(_) =>
    case Arr(items) =>
      forall i | 0 <= i < |items| ensures Focused(items[i], items[i], key) { FocusedItself(items[i], key); }
    case Obj(fields) =>
      forall i | 0 <= i < |fields| ensures FocusedField(fields[i], fields[i]) {
        FocusedItself(fields[i].value, fields[i].key);
      }
  }

  // ------------------------------------------------------------------
  // Clipping twice, and clipping a marked tree
  // ------------------------------------------------------------------

  /** A cheap first pass at a greater width changes nothing that a later, narrower pass keeps. */
  lemma {:induction false} ClipTwice(j: Json, wide: nat, w: nat, limit: Option<nat>)
    requires w <= wide
    ensures Clip(Clip(j, wide, None), w, limit) == Clip(j, w, limit)
  {
    match j
    case Str(s) =>
      if |s| > wide { assert (s[..wide] + ELLIPSIS)[..w] == s[..w]; }
    case Num(_) =>
    case Atom(_) =>
    case Arr(items) =>
      var a, b := ClipItems(ClipItems(items, wide, None), w, limit), ClipItems(items, w, limit);
      forall i | 0 <= i < |items| ensures a[i] == b[i] {
        ClipItemAt(ClipItems(items, wide, None), w, limit, i);
        ClipItemAt(items, wide, None, i);
        ClipItemAt(items, w, limit, i);
        ClipTwice(items[i], wide, w, limit);
      }
      assert a == b;
    case Obj(fields) =>
      var a, b := ClipFields(ClipFields(fields, wide, None), w, limit), ClipFields(fields, w, limit);
      forall i | 0 <= i < |fields| ensures a[i] == b[i] {
        ClipFieldAt(ClipFields(fields, wide, None), w, limit, i);
        ClipFieldAt(fields, wide, None, i);
        ClipFieldAt(fields, w, limit, i);
        ClipTwice(fields[i].value, wide, w, limit);
      }
      assert a == b;
  }

  /** payload["truncated"] = True, on a dictionary only. */
  function Marked(j: Json): Json { if j.Obj? then Obj(Put(j.fields, "truncated", TRUE)) else j }

  lemma {:induction false} ClipPut(fields: seq<Field>, k: string, size: nat, w: nat, limit: Option<nat>)
    requires k != "chapter_id"
    ensures ClipFields(Put(fields, k, Atom(size)), w, limit) == Put(ClipFields(fields, w, limit), k, Atom(size))
  {
    if fields == [] {
      var put := Put(fields, k, Atom(size));
      assert put[0] == Field(k, Atom(size)) && put[1..] == [];
      assert ClipField(put[0], w, limit) == put[0];
    } else if fields[0].key == k {
      var put := Put(fields, k, Atom(size));
      assert put[0] == Field(k, Atom(size)) && put[1..] == fields[1..];
      assert ClipField(put[0], w, limit) == put[0];
      assert ClipFields(fields, w, limit)[0].key == k;
      assert ClipFields(fields, w, limit)[1..] == ClipFields(fields[1..], w, limit);
    } else {
      ClipPut(fields[1..], k, size, w, limit);
      assert Put(fields, k, Atom(size))[1..] == Put(fields[1..], k, Atom(size));
      assert ClipFields(fields, w, limit)[1..] == ClipFields(fields[1..], w, limit);
    }
  }

  /** Measuring the marked tree at any width is measuring what will be returned at that width. */
  lemma ClipMarked(j: Json, w: nat, limit: Option<nat>)
    ensures Clip(Marked(j), w, limit) == Marked(Clip(j, w, limit))
  {
    if j.Obj? { ClipPut(j.fields, "truncated", 4, w, limit); }
  }

  // ------------------------------------------------------------------
  // Size against width and list length
  // ------------------------------------------------------------------

  /** Dropping list elements never makes a tree longer. */
  lemma {:induction false} FewerItemsFit(j: Json, w: nat, few: nat, limit: Option<nat>)
    requires limit.Some? ==> few <= limit.value
    ensures Size(Clip(j, w, Some(few))) <= Size(Clip(j, w, limit))
    decreases j, 1
  {
    match j
    case Str(_) =>
    case Num(_) =>
    case Atom(_) =>
    case Arr(items) =>
      FewerItems(items, w, few, limit);
      var a, b := ClipItems(items, w, Some(few)), ClipItems(items, w, limit);
      var n := |Kept(a, Some(few))|;
      assert Kept(a, Some(few)) == a[..n];
      assert n <= |Kept(b, limit)| && Kept(b, limit)[..n] == b[..n];
      PrefixSum(Kept(b, limit), n);
      PrefixSumsOrdered(a, b, n);
    case Obj(fields) => FewerFields(fields, w, few, limit);
  }

  lemma {:induction false} FewerItems(items: seq<Json>, w: nat, few: nat, limit: Option<nat>)
    requires limit.Some? ==> few <= limit.value
    ensures forall i :: 0 <= i < |items| ==>
        Size(ClipItems(items, w, Some(few))[i]) <= Size(ClipItems(items, w, limit)[i])
    decreases items, 0
  {
    if items != [] {
      FewerItemsFit(items[0], w, few, limit);
      FewerItems(items[1..], w, few, limit);
    }
  }

  lemma {:induction false} FewerFields(fields: seq<Field>, w: nat, few: nat, limit: Option<nat>)
    requires limit.Some? ==> few <= limit.value
    ensures FieldSum(ClipFields(fields, w, Some(few))) <= FieldSum(ClipFields(fields, w, limit))
    decreases fields, 0
  {
    if fields != [] {
      FewerItemsFit(fields[0].value, w, few, limit);
      FewerFields(fields[1..], w, few, limit);
      assert ClipFields(fields, w, Some(few))[1..] == ClipFields(fields[1..], w, Some(few));
      assert ClipFields(fields, w, limit)[1..] == ClipFields(fields[1..], w, limit);
    }
  }

  lemma {:induction false} PrefixSum(items: seq<Json>, n: nat)
    requires n <= |items|
    ensures ItemSum(items[..n]) <= ItemSum(items)
  {
    if n > 0 {
      PrefixSum(items[1..], n - 1);
      assert items[..n][1..] == items[1..][..n - 1];
    }
  }

  lemma {:induction false} PrefixSumsOrdered(a: seq<Json>, b: seq<Json>, n: nat)
    requires n <= |a| == |b|
    requires forall i :: 0 <= i < |a| ==> Size(a[i]) <= Size(b[i])
    ensures ItemSum(a[..n]) <= ItemSum(b[..n])
  {
    if n > 0 {
      assert Size(a[0]) <= Size(b[0]);
      PrefixSumsOrdered(a[1..], b[1..], n - 1);
      assert a[..n][1..] == a[1..][..n - 1] && b[..n][1..] == b[1..][..n - 1];
    }
  }

  lemma EllipsisCost()
    ensures Chars(ELLIPSIS) == 6
  {
    assert ELLIPSIS[1..] == [];
  }

  // ------------------------------------------------------------------
  // The search
  // ------------------------------------------------------------------

  /** The three shapes that are searched by width. */
  datatype Narrowing =
    | Uniform(tree: Json, limit: Option<nat>)
    | Prose(tree: Json)
    | Window(chapter: seq<Field>, content: string, total: nat, offset: nat)
  {
    function At(w: nat): Json {
      match this
      case Uniform(tree, limit) => Clip(tree, w, limit)
      case Prose(tree) => ClipProse(tree, w, "")
      case Window(chapter, content, total, offset) =>
        var shown := if w <= |content| then content[..w] else content;
        var end := offset + |shown|;
        Obj(Put(Put(chapter, "content", Str(shown)), "next_offset", if end < total then Num(end) else NULL))
    }

    predicate Fits(cap: nat, w: nat) { Size(At(w)) <= cap }

    /** Nothing that fits lies beyond something that does not. */
    ghost predicate Monotone(cap: nat, lo: nat, hi: nat) {
      forall v, w :: lo <= v <= w <= hi && Fits(cap, w) ==> Fits(cap, v)
    }
  }

  /** Binary search for a width between lo and hi, falling back on best. */
  function Search(n: Narrowing, cap: nat, lo: nat, hi: int, best: Option<nat>): Option<nat>
    decreases hi - lo + 1
  {
    if lo > hi then best
    else
      var mid := (lo + hi) / 2;
      if n.Fits(cap, mid) then Search(n, cap, mid + 1, hi, Some(mid)) else Search(n, cap, lo, mid - 1, best)
  }

  /** Without assuming that size grows with width: what is found fits, nothing is found only if the
      narrowest does not fit, and the width just above what is found does not. */
  lemma {:induction false} SearchFinds(n: Narrowing, cap: nat, lo: nat, hi: int, best: Option<nat>, top: int)
    requires lo <= hi + 1 <= top + 1
    requires best == (if lo == 0 then None else Some(lo - 1))
    requires best.Some? ==> n.Fits(cap, best.value)
    requires hi < top ==> !n.Fits(cap, hi + 1)
    ensures var r := Search(n, cap, lo, hi, best);
            && (r.Some? ==> r.value <= top && lo <= r.value + 1 && n.Fits(cap, r.value))
            && (r.Some? && r.value < top ==> !n.Fits(cap, r.value + 1))
            && (r.None? ==> top < 0 || !n.Fits(cap, 0))
    decreases hi - lo + 1
  {
    hide Narrowing.Fits, Narrowing.At;
    if lo <= hi {
      var mid := (lo + hi) / 2;
      if n.Fits(cap, mid) {
        SearchFinds(n, cap, mid + 1, hi, Some(mid), top);
      } else {
        SearchFinds(n, cap, lo, mid - 1, best, top);
      }
    }
  }

  /** Where size does grow with width, the search finds the widest that fits. */
  lemma {:induction false} SearchFindsWidest(n: Narrowing, cap: nat, lo: nat, hi: int, best: nat, top: nat)
    requires 0 < lo <= hi + 1 <= top + 1 && best == lo - 1 && n.Fits(cap, best)
    requires n.Monotone(cap, best, top)
    requires forall w :: hi < w <= top ==> !n.Fits(cap, w)
    ensures var r := Search(n, cap, lo, hi, Some(best));
            && r.Some?
            && best <= r.value <= top
            && n.Fits(cap, r.value)
            && (forall w :: best <= w <= top && n.Fits(cap, w) ==> w <= r.value)
    decreases hi - lo + 1
  {
    hide Narrowing.Fits, Narrowing.At;
    if lo <= hi {
      var mid := (lo + hi) / 2;
      if n.Fits(cap, mid) {
        SearchFindsWidest(n, cap, mid + 1, hi, mid, top);
        forall w | best <= w <= top && n.Fits(cap, w) ensures w <= Search(n, cap, lo, hi, Some(best)).value {
          if w >= mid {} else {}
        }
      } else {
        SearchFindsWidest(n, cap, lo, mid - 1, best, top);
      }
    }
  }
}
