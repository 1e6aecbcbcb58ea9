/** Reading a chapter a window at a time, each window the longest that fits the result ceiling. */
module ChapterWindow {
  import opened Prelude
  import opened JsonSize
  import opened Clipping
  import opened BoundedResults

  const MAX_WINDOW: nat := 50_000

  /** A stored chapter; what is not its text is carried into every window unread. */
  datatype Chapter = Chapter(
    id: Json, title: Json, order: Json, number: Json, words: Json, released: Json, text: string, revision: Json)

  function Min(a: nat, b: nat): nat { if a <= b then a else b }
  function AtLeastOne(a: nat): nat { if a == 0 then 1 else a }

  /** text[from : from + length], which like a Python slice stops at the end of the text. */
  function Slice(text: string, from: nat, length: nat): string {
    if from >= |text| then "" else text[from..Min(from + length, |text|)]
  }

  function GetChapter(c: Chapter, offset: nat, maxChars: nat): seq<Field> {
    var size := AtLeastOne(Min(maxChars, MAX_WINDOW));
    [Field("chapter_id", c.id), Field("title", c.title), Field("order", c.order),
     Field("chapter_number", c.number), Field("word_count", c.words), Field("released", c.released),
     Field("total_chars", Num(|c.text|)), Field("offset", Num(offset)),
     Field("content", Str(Slice(c.text, offset, size))),
     Field("next_offset", if offset + size < |c.text| then Num(offset + size) else NULL),
     Field("revision", c.revision)]
  }

  // ------------------------------------------------------------------
  // One window
  // ------------------------------------------------------------------

  function FitWindow(chapter: seq<Field>, content: string, total: nat, offset: nat, cap: nat): (Json, bool) {
    var n := Window(chapter, content, total, offset);
    if n.Fits(cap, |content|) then (n.At(|content|), false)
    else if !n.Fits(cap, 0) then (Fit(n.At(0), cap).0, true)
    else match Search(n, cap, 1, |content| - 1, Some(0))
      case Some(w) => (n.At(w), true)
      case None => (n.At(0), true)
  }

  method FitChapterWindow(chapter: seq<Field>, content: string, total: nat, offset: nat, cap: nat)
    returns (fitted: Json, truncated: bool)
    ensures (fitted, truncated) == FitWindow(chapter, content, total, offset, cap)
  {
    hide Narrowing.At, Fit, Size;
    var n := Window(chapter, content, total, offset);
    var full := n.At(|content|);
    assert n.Fits(cap, |content|) <==> Size(full) <= cap;
    if Size(full) <= cap { return full, false; }
    var empty := n.At(0);
    assert n.Fits(cap, 0) <==> Size(empty) <= cap;
    if Size(empty) > cap {
      fitted, truncated := FitResult(empty, cap);
      return fitted, true;
    }
    var lo, hi: int := 1, |content| - 1;
    fitted, truncated := empty, true;
    ghost var width: Option<nat> := Some(0);
    while lo <= hi
      invariant 1 <= lo <= hi + 1 && hi < |content|
      invariant width.Some? && fitted == n.At(width.value)
      invariant Search(n, cap, lo, hi, width) == Search(n, cap, 1, |content| - 1, Some(0))
      decreases hi - lo + 1
    {
      var mid := (lo + hi) / 2;
      var payload := n.At(mid);
      assert n.Fits(cap, mid) <==> Size(payload) <= cap;
      if Size(payload) <= cap {
        fitted, lo := payload, mid + 1;
        width := Some(mid);
      } else {
        hi := mid - 1;
      }
    }
  }

  /** The caller's part: the content is a stretch of a text of that many characters, or there is none. */
  predicate Consistent(content: string, total: nat, offset: nat) { content == "" || offset + |content| <= total }

  /** Rewriting the two keys moves the size by what their values' sizes move, wherever the keys stand. */
  lemma WindowSize(chapter: seq<Field>, a: Json, x: Json, b: Json, y: Json)
    ensures Size(Obj(Put(Put(chapter, "content", a), "next_offset", x))) + Size(b) + Size(y)
         == Size(Obj(Put(Put(chapter, "content", b), "next_offset", y))) + Size(a) + Size(x)
  {
    hide Put, Get, FieldSum;
    PutGet(chapter, "content", a, "next_offset");
    PutGet(chapter, "content", b, "next_offset");
    PutSizes(chapter, chapter, "content", a, b);
    PutSizes(Put(chapter, "content", a), Put(chapter, "content", b), "next_offset", x, y);
  }

  lemma PutSizes(f: seq<Field>, g: seq<Field>, k: string, x: Json, y: Json)
    requires Get(f, k) == Get(g, k) && |f| == |g|
    ensures FieldSum(Put(f, k, x)) + FieldSum(g) + Size(y) == FieldSum(Put(g, k, y)) + FieldSum(f) + Size(x)
    ensures |Put(f, k, x)| == |Put(g, k, y)|
  {
    hide Put, Get, FieldSum, Size, Chars;
    PutSize(f, k, x);
    PutSize(g, k, y);
  }

  lemma LongerPrefixCostsMore(chapter: seq<Field>, content: string, total: nat, offset: nat, v: nat, w: nat)
    requires v <= w < |content| && Consistent(content, total, offset)
    ensures var n := Window(chapter, content, total, offset); Size(n.At(v)) <= Size(n.At(w))
  {
    WindowSize(chapter, Str(content[..v]), Num(offset + v), Str(content[..w]), Num(offset + w));
    PrefixCosts(content, v, w);
    DigitsMonotone(offset + v, offset + w);
  }

  /** If the empty window fits, the longest prefix of the content that fits is what is returned. */
  lemma WindowIsLongest(chapter: seq<Field>, content: string, total: nat, offset: nat, cap: nat)
    requires Consistent(content, total, offset)
    requires var n := Window(chapter, content, total, offset); n.Fits(cap, 0) || n.Fits(cap, |content|)
    ensures var n := Window(chapter, content, total, offset);
            var (r, truncated) := FitWindow(chapter, content, total, offset, cap);
            exists w :: && 0 <= w <= |content| && r == n.At(w) && n.Fits(cap, w) && (truncated <==> w < |content|)
                        && (forall v :: w < v <= |content| ==> !n.Fits(cap, v))
  {
    hide Narrowing.At, Fit, Size;
    var n := Window(chapter, content, total, offset);
    if n.Fits(cap, |content|) {
      assert FitWindow(chapter, content, total, offset, cap) == (n.At(|content|), false);
    } else {
      forall v: nat, w: nat | v <= w <= |content| - 1 && n.Fits(cap, w) ensures n.Fits(cap, v) {
        LongerPrefixCostsMore(chapter, content, total, offset, v, w);
      }
      SearchFindsWidest(n, cap, 1, |content| - 1, 0, |content| - 1);
      var w := Search(n, cap, 1, |content| - 1, Some(0)).value;
      assert FitWindow(chapter, content, total, offset, cap) == (n.At(w), true);
      forall v | w < v <= |content| ensures !n.Fits(cap, v) {
        if v < |content| {} else {}
      }
    }
  }

  /** Whether or not the empty window fits, a ceiling of 72 or more is kept. */
  lemma WindowIsBounded(chapter: seq<Field>, content: string, total: nat, offset: nat, cap: nat)
    requires Consistent(content, total, offset) && cap >= 72
    ensures Size(FitWindow(chapter, content, total, offset, cap).0) <= cap
  {
    hide Narrowing.At, Fit, Size;
    var n := Window(chapter, content, total, offset);
    if n.Fits(cap, 0) || n.Fits(cap, |content|) {
      WindowIsLongest(chapter, content, total, offset, cap);
    } else {
      FitBoundedIff(n.At(0), cap);
    }
  }

  // ------------------------------------------------------------------
  // Paging: following next_offset
  // ------------------------------------------------------------------

  function AskedWindow(c: Chapter, offset: nat, limit: nat, cap: nat): Narrowing {
    var asked := AtLeastOne(Min(limit, cap));
    var size := AtLeastOne(Min(asked, MAX_WINDOW));
    Window(GetChapter(c, offset, asked), Slice(c.text, offset, size), |c.text|, offset)
  }

  function ReadChapter(c: Chapter, offset: nat, limit: nat, cap: nat): (Json, bool) {
    var n := AskedWindow(c, offset, limit, cap);
    FitWindow(n.chapter, n.content, n.total, n.offset, cap)
  }

  function ContentOf(j: Json): Option<string> {
    if !j.Obj? then None else match Get(j.fields, "content") case Some(Str(s)) => Some(s) case _ => None
  }

  function NextOf(j: Json): Option<nat> {
    if !j.Obj? then None else match Get(j.fields, "next_offset") case Some(Num(o)) => Some(o) case _ => None
  }

  /** A reader who keeps asking for the offset the last result named.  Lost: a result without content. */
  datatype Progress = Reading(text: string, at: nat) | Done(text: string) | Lost

  function Turn(c: Chapter, limit: nat, cap: nat, p: Progress): Progress {
    if !p.Reading? then p
    else
      var j := ReadChapter(c, p.at, limit, cap).0;
      match ContentOf(j)
      case None => Lost
      case Some(s) => match NextOf(j) case Some(o) => Reading(p.text + s, o) case None => Done(p.text + s)
  }

  function Follow(c: Chapter, limit: nat, cap: nat, start: nat, turns: nat): Progress {
    if turns == 0 then Reading("", start) else Turn(c, limit, cap, Follow(c, limit, cap, start, turns - 1))
  }

  /** Whether the window at an offset inside the text can show at least one character. */
  predicate Advances(c: Chapter, offset: nat, limit: nat, cap: nat) {
    var n := AskedWindow(c, offset, limit, cap);
    n.Fits(cap, 1) || n.Fits(cap, |n.content|)
  }

  lemma AtContent(n: Narrowing, w: nat)
    requires n.Window? && w <= |n.content|
    ensures ContentOf(n.At(w)) == Some(n.content[..w])
    ensures NextOf(n.At(w)) == if n.offset + w < n.total then Some(n.offset + w) else None
  {
    var shown := Str(n.content[..w]);
    var next := if n.offset + w < n.total then Num(n.offset + w) else NULL;
    PutGet(Put(n.chapter, "content", shown), "next_offset", next, "content");
    PutGet(Put(n.chapter, "content", shown), "next_offset", next, "next_offset");
    PutGet(n.chapter, "content", shown, "content");
  }

  lemma {:induction false} ClipGet(fields: seq<Field>, w: nat, limit: Option<nat>, k: string)
    requires k != "chapter_id"
    ensures Get(ClipFields(fields, w, limit), k)
         == match Get(fields, k) case Some(v) => Some(Clip(v, w, limit)) case None => None
  {
    if fields != [] {
      ClipGet(fields[1..], w, limit, k);
      assert ClipFields(fields, w, limit)[1..] == ClipFields(fields[1..], w, limit);
    }
  }

  /** Clipping a result whose content is already empty keeps the content empty and the offset exact. */
  lemma ClipKeepsOffset(j: Json, w: nat, limit: Option<nat>)
    requires ContentOf(j) == Some("")
    ensures ContentOf(Marked(Clip(j, w, limit))) == Some("") && NextOf(Marked(Clip(j, w, limit))) == NextOf(j)
  {
    var clipped := ClipFields(j.fields, w, limit);
    PutGet(clipped, "truncated", TRUE, "content");
    PutGet(clipped, "truncated", TRUE, "next_offset");
    ClipGet(j.fields, w, limit, "content");
    ClipGet(j.fields, w, limit, "next_offset");
  }

  lemma FallbackIsLost()
    ensures ContentOf(FALLBACK) == None
  {
    assert |"truncated"| == 9 && |"reason"| == 6 && |"content"| == 7;
    assert FALLBACK.fields[1..][1..] == [];
    assert Get(FALLBACK.fields[1..], "content") == None;
  }

  /** What is asked for is a stretch of the text from the offset on, and not empty inside the text. */
  lemma Asked(c: Chapter, offset: nat, limit: nat, cap: nat)
    requires offset <= |c.text|
    ensures var n := AskedWindow(c, offset, limit, cap);
            && n.Window? && n.total == |c.text| && n.offset == offset && Consistent(n.content, n.total, offset)
            && offset + |n.content| <= |c.text| && n.content == c.text[offset..offset + |n.content|]
            && (offset < |c.text| ==> n.content != "")
  {
    hide GetChapter;
  }

  /** Nothing, or exactly the stretch of text between an offset and the offset named next; and inside the
      text at least one character exactly when the window advances. */
  ghost predicate GoodRead(text: string, offset: nat, j: Json, advances: bool) {
    match ContentOf(j)
    case None => !(offset < |text| && advances)
    case Some(s) =>
      && offset + |s| <= |text| && s == text[offset..offset + |s|]
      && NextOf(j) == (if offset + |s| < |text| then Some(offset + |s|) else None)
      && (offset < |text| ==> (s != "" <==> advances))
  }

  lemma ReadWithRoom(text: string, n: Narrowing, cap: nat, advances: bool)
    requires n.Window? && n.total == |text| && Consistent(n.content, n.total, n.offset)
    requires n.offset + |n.content| <= |text| && n.content == text[n.offset..n.offset + |n.content|]
    requires n.offset < |text| ==> n.content != ""
    requires n.Fits(cap, 0) || n.Fits(cap, |n.content|)
    requires advances <==> n.Fits(cap, 1) || n.Fits(cap, |n.content|)
    ensures GoodRead(text, n.offset, FitWindow(n.chapter, n.content, n.total, n.offset, cap).0, advances)
  {
    hide Narrowing.At, Narrowing.Fits, Fit, Size, Get, FitWindow, ContentOf, NextOf;
    var j := FitWindow(n.chapter, n.content, n.total, n.offset, cap).0;
    WindowIsLongest(n.chapter, n.content, n.total, n.offset, cap);
    var w: nat :| w <= |n.content| && j == n.At(w) && n.Fits(cap, w) && forall v :: w < v <= |n.content| ==>
      !n.Fits(cap, v);
    AtContent(n, w);
    ShorterFits(n, cap, w);
    SliceOfSlice(text, n.offset, n.offset + |n.content|, w);
  }

  lemma SliceOfSlice(text: string, from: nat, to: nat, w: nat)
    requires from <= to <= |text| && w <= to - from
    ensures text[from..to][..w] == text[from..from + w]
  {
  }

  lemma ReadCramped(text: string, n: Narrowing, cap: nat, advances: bool)
    requires n.Window? && n.total == |text| && Consistent(n.content, n.total, n.offset)
    requires n.offset + |n.content| <= |text|
    requires n.offset < |text| ==> n.content != ""
    requires !n.Fits(cap, 0) && !n.Fits(cap, |n.content|)
    requires advances <==> n.Fits(cap, 1) || n.Fits(cap, |n.content|)
    ensures GoodRead(text, n.offset, FitWindow(n.chapter, n.content, n.total, n.offset, cap).0, advances)
  {
    hide Narrowing.At, Narrowing.Fits, Fit, Size, Get, FitWindow, ContentOf, NextOf;
    AtContent(n, 0);
    ReadWithoutRoom(n, cap);
    if n.offset < |text| { NoRoomForOne(n, cap); }
  }

  /** One read, from any offset: nothing is skipped and nothing is repeated. */
  lemma OneRead(c: Chapter, offset: nat, limit: nat, cap: nat)
    requires offset <= |c.text|
    ensures GoodRead(c.text, offset, ReadChapter(c, offset, limit, cap).0, Advances(c, offset, limit, cap))
  {
    hide Narrowing.At, Narrowing.Fits, FitWindow, AskedWindow, GoodRead;
    var n := AskedWindow(c, offset, limit, cap);
    Asked(c, offset, limit, cap);
    if n.Fits(cap, 0) || n.Fits(cap, |n.content|) {
      ReadWithRoom(c.text, n, cap, Advances(c, offset, limit, cap));
    } else {
      ReadCramped(c.text, n, cap, Advances(c, offset, limit, cap));
    }
  }

  /** From the end of the text on there is nothing to show, and no offset to follow. */
  lemma PastTheEnd(c: Chapter, offset: nat, limit: nat, cap: nat)
    requires offset >= |c.text|
    ensures var j := ReadChapter(c, offset, limit, cap).0;
            ContentOf(j).Some? ==> ContentOf(j) == Some("") && NextOf(j) == None
  {
    hide Narrowing.At, Fit, Size, Get, GetChapter, ContentOf, NextOf;
    var n := AskedWindow(c, offset, limit, cap);
    assert n.content == "" && n.content[..0] == "";
    AtContent(n, 0);
    if !n.Fits(cap, 0) { ReadWithoutRoom(n, cap); }
  }

  lemma ShorterFits(n: Narrowing, cap: nat, w: nat)
    requires n.Window? && Consistent(n.content, n.total, n.offset)
    requires w <= |n.content| && n.Fits(cap, w)
    requires forall v :: w < v <= |n.content| ==> !n.Fits(cap, v)
    ensures 0 < |n.content| ==> (0 < w <==> n.Fits(cap, 1) || n.Fits(cap, |n.content|))
  {
    hide Narrowing.At, Size;
    if 0 < w < |n.content| {
      LongerPrefixCostsMore(n.chapter, n.content, n.total, n.offset, 1, w);
    }
  }

  lemma NoRoomForOne(n: Narrowing, cap: nat)
    requires n.Window? && Consistent(n.content, n.total, n.offset) && n.content != ""
    requires !n.Fits(cap, 0) && !n.Fits(cap, |n.content|)
    ensures !n.Fits(cap, 1)
  {
    hide Narrowing.At, Size;
    if |n.content| > 1 {
      LongerPrefixCostsMore(n.chapter, n.content, n.total, n.offset, 0, 1);
    }
  }

  lemma ReadWithoutRoom(n: Narrowing, cap: nat)
    requires n.Window? && !n.Fits(cap, 0) && !n.Fits(cap, |n.content|)
    ensures var j := FitWindow(n.chapter, n.content, n.total, n.offset, cap).0;
            ContentOf(j) == None || (ContentOf(j) == Some("") && NextOf(j) == NextOf(n.At(0)))
  {
    hide Narrowing.At, Fit, Size, Get, Clip, ContentOf, NextOf, Barest, Marked;
    var empty := n.At(0);
    FitOutcome(empty, cap);
    AtContent(n, 0);
    var j := Fit(empty, cap).0;
    if j == FALLBACK {
      FallbackIsLost();
    } else {
      var i: nat, w: nat :| FittedAt(empty, cap, i, w, j);
      ClipKeepsOffset(empty, w, LADDER[i]);
    }
  }

  /** What the reader has is the text from its start, with no gap and no overlap. */
  ghost predicate InText(text: string, start: nat, p: Progress, moved: bool)
    requires start <= |text|
  {
    match p
    case Reading(got, at) => start <= at <= |text| && got == text[start..at] && (moved ==> at < |text|)
    case Done(got) => got == text[start..]
    case Lost => true
  }

  lemma TurnKeeps(c: Chapter, limit: nat, cap: nat, start: nat, p: Progress, moved: bool)
    requires start <= |c.text| && InText(c.text, start, p, moved)
    ensures InText(c.text, start, Turn(c, limit, cap, p), true)
  {
    hide ReadChapter, ContentOf, NextOf, Advances;
    if p.Reading? {
      OneRead(c, p.at, limit, cap);
      var j := ReadChapter(c, p.at, limit, cap).0;
      if ContentOf(j).Some? {
        var s := ContentOf(j).value;
        assert c.text[start..p.at] + c.text[p.at..p.at + |s|] == c.text[start..p.at + |s|];
      }
    }
  }

  /** However far a reader gets, the pieces concatenate to the text. */
  lemma {:induction false} PiecesConcatenate(c: Chapter, limit: nat, cap: nat, start: nat, turns: nat)
    requires start <= |c.text|
    ensures InText(c.text, start, Follow(c, limit, cap, start, turns), turns > 0)
  {
    hide Turn;
    if turns > 0 {
      PiecesConcatenate(c, limit, cap, start, turns - 1);
      TurnKeeps(c, limit, cap, start, Follow(c, limit, cap, start, turns - 1), turns > 1);
    }
  }

  /** The offsets a reader comes to all admit a character. */
  ghost predicate NeverStuck(c: Chapter, limit: nat, cap: nat, start: nat) {
    forall turns: nat :: var p := Follow(c, limit, cap, start, turns); p.Reading? ==> Advances(c, p.at, limit, cap)
  }

  lemma {:induction false} ReadsOn(c: Chapter, limit: nat, cap: nat, start: nat, turns: nat)
    requires start < |c.text| && NeverStuck(c, limit, cap, start)
    ensures var p := Follow(c, limit, cap, start, turns); p.Done? || (p.Reading? && p.at >= start + turns)
  {
    hide ReadChapter, ContentOf, NextOf, Advances;
    if turns > 0 {
      ReadsOn(c, limit, cap, start, turns - 1);
      PiecesConcatenate(c, limit, cap, start, turns - 1);
      var p := Follow(c, limit, cap, start, turns - 1);
      if p.Reading? { OneRead(c, p.at, limit, cap); }
    }
  }

  lemma {:induction false} StuckForGood(c: Chapter, limit: nat, cap: nat, start: nat, turns: nat, more: nat)
    requires start < |c.text|
    requires var p := Follow(c, limit, cap, start, turns); p.Lost? || (p.Reading? && !Advances(c, p.at, limit, cap))
    ensures var p, q := Follow(c, limit, cap, start, turns), Follow(c, limit, cap, start, turns + more);
            q.Lost? || q == p
  {
    hide ReadChapter, ContentOf, NextOf, Advances;
    if more > 0 {
      StuckForGood(c, limit, cap, start, turns, more - 1);
      var q := Follow(c, limit, cap, start, turns + more - 1);
      PiecesConcatenate(c, limit, cap, start, turns + more - 1);
      if q.Reading? { OneRead(c, q.at, limit, cap); }
    }
  }

  lemma {:induction false} DoneStays(c: Chapter, limit: nat, cap: nat, start: nat, turns: nat, more: nat)
    requires Follow(c, limit, cap, start, turns).Done?
    ensures Follow(c, limit, cap, start, turns + more).Done?
  {
    if more > 0 { DoneStays(c, limit, cap, start, turns, more - 1); }
  }

  /** Following next_offset reads the chapter to its end exactly if every window on the way admits a character. */
  lemma ReadingEndsIff(c: Chapter, limit: nat, cap: nat, start: nat)
    requires start < |c.text|
    ensures (exists turns: nat :: Follow(c, limit, cap, start, turns) == Done(c.text[start..]))
       <==> NeverStuck(c, limit, cap, start)
  {
    hide Turn, Advances;
    if NeverStuck(c, limit, cap, start) {
      var turns := |c.text| - start;
      ReadsOn(c, limit, cap, start, turns);
      PiecesConcatenate(c, limit, cap, start, turns);
      assert Follow(c, limit, cap, start, turns) == Done(c.text[start..]);
    }
    if exists turns: nat :: Follow(c, limit, cap, start, turns) == Done(c.text[start..]) {
      var turns: nat :| Follow(c, limit, cap, start, turns) == Done(c.text[start..]);
      forall k: nat | Follow(c, limit, cap, start, k).Reading?
        ensures Advances(c, Follow(c, limit, cap, start, k).at, limit, cap)
      {
        if !Advances(c, Follow(c, limit, cap, start, k).at, limit, cap) {
          if k <= turns {
            StuckForGood(c, limit, cap, start, k, turns - k);
          } else {
            DoneStays(c, limit, cap, start, turns, k - turns);
          }
        }
      }
    }
  }
}
