/** Two rosters, as list_story_entities builds them, at ceilings a deployment may set: one whose text is cut to
    nothing where three characters of every string would fit, and one that loses six of sixteen rows where
    all of them would fit. */
module FitWitnesses {
  import opened Prelude
  import opened JsonSize
  import opened Clipping
  import opened BoundedResults
  import opened WidthLaws
  import opened FitWidths

  const FALSE := Atom(5)

  function Copies<T>(n: nat, x: T): (r: seq<T>)
    ensures |r| == n && forall i :: 0 <= i < n ==> r[i] == x
  {
    if n == 0 then [] else [x] + Copies(n - 1, x)
  }

  function Letter(i: nat): char { ('a' as int + i % 26) as char }

  /** An identifier of 36 characters, and a name that ends in a letter of its own. */
  function IdOf(i: nat): string { Copies(35, '0') + [Letter(i)] }

  function NameOf(start: string, i: nat): string { start + [Letter(i)] }

  function Row(id: string, name: string): Json {
    Obj([Field("entity_id", Str(id)), Field("name", Str(name)), Field("descriptor", NULL)])
  }

  /** The first n entities, without descriptors. */
  function Rows(n: nat, start: string): (r: seq<Json>)
    ensures |r| == n && forall i :: 0 <= i < n ==> r[i] == Row(IdOf(i), NameOf(start, i))
  {
    seq(n, i requires 0 <= i < n => Row(IdOf(i), NameOf(start, i)))
  }

  function Roster(rows: seq<Json>): Json {
    Obj([Field("kind", Str("character")), Field("entities", Arr(rows)), Field("truncated", FALSE)])
  }

  predicate Plain(s: string) { forall i :: 0 <= i < |s| ==> Cost(s[i]) == 1 }

  function ClippedLength(n: nat, w: nat): nat { if w < n then w + 6 else n }

  lemma ClippedRun(s: string, w: nat)
    requires Plain(s)
    ensures Chars(ClipText(s, w)) == ClippedLength(|s|, w)
  {
    PlainText(s);
    if w < |s| {
      PlainText(s[..w]);
      ClippedCost(s, w);
    }
  }

  lemma ThreeFields(a: Field, b: Field, c: Field)
    ensures Size(Obj([a, b, c])) == 6 + EntrySize(a) + EntrySize(b) + EntrySize(c)
  {
    assert [a, b, c][1..] == [b, c] && [b, c][1..] == [c] && [c][1..] == [];
    assert FieldSum([a, b, c]) == EntrySize(a) + FieldSum([b, c]);
    assert FieldSum([b, c]) == EntrySize(b) + FieldSum([c]);
  }

  lemma ClippedThree(a: Field, b: Field, c: Field, w: nat, limit: Option<nat>)
    ensures ClipFields([a, b, c], w, limit) == [ClipField(a, w, limit), ClipField(b, w, limit), ClipField(c, w, limit)]
  {
    ClipFieldAt([a, b, c], w, limit, 0);
    ClipFieldAt([a, b, c], w, limit, 1);
    ClipFieldAt([a, b, c], w, limit, 2);
  }

  lemma RowKeys()
    ensures Chars("entity_id") == 9 && Chars("name") == 4 && Chars("descriptor") == 10
  {
    hide Chars;
    PlainText("entity_id");
    PlainText("name");
    PlainText("descriptor");
  }

  lemma RosterKeys()
    ensures Chars("kind") == 4 && Chars("entities") == 8 && Chars("truncated") == 9
  {
    hide Chars;
    PlainText("kind");
    PlainText("entities");
    PlainText("truncated");
  }

  lemma ClippedRow(id: string, name: string, w: nat, limit: Option<nat>)
    requires Plain(id) && Plain(name)
    ensures Size(Clip(Row(id, name), w, limit)) == 49 + ClippedLength(|id|, w) + ClippedLength(|name|, w)
  {
    hide Chars, ClipText, ClippedLength, FieldSum, ClipFields;
    var a, b, c := Field("entity_id", Str(id)), Field("name", Str(name)), Field("descriptor", NULL);
    assert a.key[0] == 'e' && b.key[0] == 'n' && c.key[0] == 'd';
    ClippedThree(a, b, c, w, limit);
    ThreeFields(ClipField(a, w, limit), ClipField(b, w, limit), ClipField(c, w, limit));
    RowKeys();
    ClippedRun(id, w);
    ClippedRun(name, w);
  }

  lemma {:induction false} UniformSum(items: seq<Json>, c: nat)
    requires forall i :: 0 <= i < |items| ==> Size(items[i]) == c
    ensures ItemSum(items) == |items| * c
  {
    hide Size;
    if items != [] {
      assert forall i :: 0 <= i < |items[1..]| ==> items[1..][i] == items[i + 1];
      UniformSum(items[1..], c);
      assert |items| * c == c + (|items| - 1) * c;
    }
  }

  lemma PlainNames(start: string, i: nat)
    requires Plain(start)
    ensures Plain(IdOf(i)) && |IdOf(i)| == 36 && Plain(NameOf(start, i)) && |NameOf(start, i)| == |start| + 1
  {
    assert 97 <= Letter(i) as int < 123;
  }

  /** What n rows cost when clipped, with what stands between them. */
  lemma ClippedRows(n: nat, start: string, w: nat, limit: Option<nat>, m: nat)
    requires Plain(start) && 0 < m <= n
    ensures Size(Arr(ClipItems(Rows(n, start), w, limit)[..m]))
         == m * (51 + ClippedLength(36, w) + ClippedLength(|start| + 1, w))
  {
    hide Clip, Size, Plain, Row, IdOf, NameOf, ClippedLength;
    var rows, c := ClipItems(Rows(n, start), w, limit)[..m], 49 + ClippedLength(36, w) + ClippedLength(|start| + 1, w);
    forall i | 0 <= i < m ensures Size(rows[i]) == c {
      ClipItemAt(Rows(n, start), w, limit, i);
      PlainNames(start, i);
      ClippedRow(IdOf(i), NameOf(start, i), w, limit);
    }
    UniformSum(rows, c);
    SizeOfSome(rows);
    assert m * (2 + c) == m * c + 2 * m;
  }

  lemma SizeOfSome(items: seq<Json>)
    requires items != []
    ensures Size(Arr(items)) == ItemSum(items) + 2 * |items|
  {
  }

  lemma ClippedRoster(rows: seq<Json>, w: nat, limit: Option<nat>)
    ensures Marked(Clip(Roster(rows), w, limit))
         == Obj([Field("kind", Str(ClipText("character", w))),
           Field("entities", Arr(Kept(ClipItems(rows, w, limit), limit))),
                 Field("truncated", TRUE)])
  {
    hide ClipText, ClipItems, Kept;
    var a, b, c := Field("kind", Str("character")), Field("entities", Arr(rows)), Field("truncated", FALSE);
    assert a.key[0] == 'k' && b.key[0] == 'e' && c.key[0] == 't';
    ClippedThree(a, b, c, w, limit);
    var d, e := ClipField(a, w, limit), ClipField(b, w, limit);
    assert [d, e, c][1..] == [e, c] && [e, c][1..] == [c] && [c][1..] == [];
    assert Put([c], "truncated", TRUE) == [Field("truncated", TRUE)];
    assert Put([e, c], "truncated", TRUE) == [e] + Put([c], "truncated", TRUE);
    assert Put([d, e, c], "truncated", TRUE) == [d] + Put([e, c], "truncated", TRUE);
  }

  /** The size of a clipped roster that keeps its first m rows. */
  lemma RosterSize(n: nat, start: string, w: nat, limit: Option<nat>, m: nat)
    requires Plain(start) && 0 < m <= n && m == |Kept(Rows(n, start), limit)|
    ensures Size(Marked(Clip(Roster(Rows(n, start)), w, limit)))
         == 45 + ClippedLength(9, w) + m * (51 + ClippedLength(36, w) + ClippedLength(|start| + 1, w))
  {
    hide Chars, ClipText, ClippedLength, Clip, Size, Rows, ClipItems, Marked, Plain;
    var rows := Rows(n, start);
    var kept := Kept(ClipItems(rows, w, limit), limit);
    assert kept == ClipItems(rows, w, limit)[..m];
    ClippedRoster(rows, w, limit);
    var a, b, c := Field("kind", Str(ClipText("character", w))), Field("entities", Arr(kept)), Field("truncated", TRUE);
    ThreeFields(a, b, c);
    EntryCosts(a, b, c, "character", w);
    ClippedRows(n, start, w, limit, m);
  }

  lemma EntryCosts(a: Field, b: Field, c: Field, kind: string, w: nat)
    requires a == Field("kind", Str(ClipText(kind, w))) && b.key == "entities" && c == Field("truncated", TRUE)
    requires kind == "character"
    ensures EntrySize(a) + EntrySize(b) + EntrySize(c) == 39 + ClippedLength(9, w) + Size(b.value)
  {
    hide Chars, ClipText, ClippedLength, ItemSum, FieldSum;
    RosterKeys();
    assert Plain(kind) && |kind| == 9;
    ClippedRun(kind, w);
  }

  lemma RosterTooLarge(n: nat, start: string, cap: nat)
    requires Plain(start) && 0 < n && cap < n * (87 + |start| + 1)
    ensures Size(Roster(Rows(n, start))) > cap
  {
    hide Size, Clip, Plain, Rows;
    var rows, w := Rows(n, start), 36 + |start| + 1;
    ClippedRows(n, start, w, None, n);
    assert ClipItems(rows, w, None)[..n] == ClipItems(rows, w, None);
    Unclipped(n, start, w);
    FieldWithinSum(Roster(rows).fields, 1);
    WithinRoster(rows);
  }

  lemma WithinRoster(rows: seq<Json>)
    ensures FieldSum(Roster(rows).fields) <= Size(Roster(rows))
  {
  }

  lemma Unclipped(n: nat, start: string, w: nat)
    requires Plain(start) && w >= 36 + |start| + 1
    ensures ClipItems(Rows(n, start), w, None) == Rows(n, start)
  {
    var rows := Rows(n, start);
    forall i | 0 <= i < n ensures ClipItems(rows, w, None)[i] == rows[i] {
      ClipItemAt(rows, w, None, i);
      PlainNames(start, i);
      var fields := rows[i].fields;
      ClippedThree(fields[0], fields[1], fields[2], w, None);
    }
  }

  // ------------------------------------------------------------------
  // Text lost although it fits
  // ------------------------------------------------------------------

  /** Seven characters with names of three letters. */
  const CAST: Json := Roster(Rows(7, "An"))

  lemma CastSize(w: nat)
    ensures Size(Marked(Clip(CAST, w, None)))
         == 45 + ClippedLength(9, w) + 7 * (51 + ClippedLength(36, w) + ClippedLength(3, w))
    ensures AtRung(CAST, 0).Fits(500, w) <==> Size(Marked(Clip(CAST, w, None))) <= 500
  {
    hide Size, Clip, Marked, ClippedLength, Rows;
    RosterSize(7, "An", w, None, 7);
    ClipMarked(CAST, w, None);
  }

  lemma CastSearch()
    ensures Search(AtRung(CAST, 0), 500, 0, 500, None) == Some(0)
  {
    hide Size, Clip, Marked, CAST, Narrowing.Fits, Narrowing.At, AtRung;
    var n := AtRung(CAST, 0);
    CastSize(250); CastSize(124); CastSize(61); CastSize(30); CastSize(14); CastSize(6); CastSize(2); CastSize(0);
    assert Search(n, 500, 0, 500, None) == Search(n, 500, 0, 249, None) == Search(n, 500, 0, 123, None);
    assert Search(n, 500, 0, 123, None) == Search(n, 500, 0, 60, None) == Search(n, 500, 0, 29, None);
    assert Search(n, 500, 0, 29, None) == Search(n, 500, 0, 13, None) == Search(n, 500, 0, 5, None);
    assert Search(n, 500, 0, 5, None) == Search(n, 500, 0, 1, None) == Search(n, 500, 1, 1, Some(0));
    CastSize(1);
    assert Search(n, 500, 1, 1, Some(0)) == Search(n, 500, 1, 0, Some(0));
  }

  /** Every name and identifier is cut to nothing, at the first rung, where three characters of each would fit. */
  lemma FitCanMissAWiderFit()
    ensures Fit(CAST, 500) == (Marked(Clip(CAST, 0, None)), true)
    ensures Size(Marked(Clip(CAST, 3, None))) <= 500
  {
    hide Size, Clip, Marked, CAST, Fit, Search, AtRung;
    assert Size(CAST) > 500 by { CastTooLarge(); }
    CastSize(0);
    CastSize(3);
    CastSearch();
    FitByRung(CAST, 500);
  }

  lemma CastTooLarge()
    ensures Size(CAST) > 500
  {
    hide Size, Rows;
    RosterTooLarge(7, "An", 500);
  }

  // ------------------------------------------------------------------
  // Rows lost although they fit
  // ------------------------------------------------------------------

  /** Sixteen characters with names of one letter. */
  const INITIALS: Json := Roster(Rows(16, ""))

  lemma InitialsSize(w: nat, limit: Option<nat>, m: nat)
    requires 0 < m == if limit.Some? && limit.value < 16 then limit.value else 16
    ensures Size(Marked(Clip(INITIALS, w, limit)))
         == 45 + ClippedLength(9, w) + m * (51 + ClippedLength(36, w) + ClippedLength(1, w))
  {
    hide Size, Clip, Marked, ClippedLength, Rows;
    RosterSize(16, "", w, limit, m);
  }

  lemma InitialsSkipped()
    ensures Size(INITIALS) > 1000 && RungsSkipped(INITIALS, 1000) == 3
  {
    hide Size, Clip, Marked, INITIALS;
    assert Size(INITIALS) > 1000 by { InitialsTooLarge(); }
    InitialsSize(0, None, 16);
    InitialsSize(0, Some(50), 16);
    InitialsSize(0, Some(20), 16);
    InitialsSize(0, Some(10), 10);
    SkippedIff(INITIALS, 1000, 2);
    SkippedIff(INITIALS, 1000, 3);
  }

  lemma InitialsTooLarge()
    ensures Size(INITIALS) > 1000
  {
    hide Size, Rows;
    RosterTooLarge(16, "", 1000);
  }

  lemma TenRows(w: nat)
    ensures exists kind, rows :: |rows| == 10 && Marked(Clip(INITIALS, w, Some(10)))
              == Obj([Field("kind", Str(kind)), Field("entities", Arr(rows)), Field("truncated", TRUE)])
  {
    hide Clip, Marked, Rows;
    ClippedRoster(Rows(16, ""), w, Some(10));
    assert |Kept(ClipItems(Rows(16, ""), w, Some(10)), Some(10))| == 10;
  }

  /** Six of sixteen rows are dropped, where all sixteen fit with one character of each string. */
  lemma FitCanDropNeedlessly()
    ensures DropsNeedlessly(INITIALS, 1000)
    ensures Size(Marked(Clip(INITIALS, 1, None))) <= 1000
    ensures exists kind, rows :: |rows| == 10 && Fit(INITIALS, 1000)
              == (Obj([Field("kind", Str(kind)), Field("entities", Arr(rows)), Field("truncated", TRUE)]), true)
  {
    hide Size, Clip, Marked, INITIALS, Fit, Search, RungsSkipped;
    InitialsSkipped();
    InitialsSize(1, None, 16);
    var one: nat := 1;
    assert LADDER[0] == None && Size(Marked(Clip(INITIALS, one, LADDER[0]))) <= 1000;
    assert SomeWidthFits(INITIALS, 1000, 0);
    FitByRung(INITIALS, 1000);
    TenRows(Search(AtRung(INITIALS, 3), 1000, 0, 1000, None).value);
  }
}
