/** How many blocks a chapter has after an append: the sum of both parts, unless the old content is not closed. */
module BlockAppend {
  import opened Blocks
  import opened BlockLaws
  import opened BlockElements

  const BREAK: seq<Atom> := [Char('\n')]

  /** From h elements deep, the atoms never close an element they did not open. */
  predicate ClosesOnlyItsOwn(h: nat, atoms: seq<Atom>)
    decreases atoms
  {
    atoms == [] ||
    match atoms[0]
    case Mark(StartTag, tag, _) => ClosesOnlyItsOwn(if tag in VOID_TAGS then h else h + 1, atoms[1..])
    case Mark(EndTag, tag, _) =>
      if tag in VOID_TAGS then ClosesOnlyItsOwn(h, atoms[1..]) else h > 0 && ClosesOnlyItsOwn(h - 1, atoms[1..])
    case _ => ClosesOnlyItsOwn(h, atoms[1..])
  }

  /** An addition: it begins with an element and closes only what it opens. */
  predicate Addition(atoms: seq<Atom>) {
    && atoms != [] && atoms[0].Mark? && atoms[0].kind == StartTag && atoms[0].tag !in VOID_TAGS
    && ClosesOnlyItsOwn(0, atoms)
  }

  // ------------------------------------------------------------------
  // Inside an element that was left open
  // ------------------------------------------------------------------

  lemma {:induction false} NothingOpensInside(s: Scan, h: nat, atoms: seq<Atom>, at: nat)
    requires s.depth > h && ClosesOnlyItsOwn(h, atoms)
    ensures Cuts(s, atoms, at) == []
    decreases atoms
  {
    if atoms != [] {
      var h' := match atoms[0]
                case Mark(StartTag, tag, _) => if tag in VOID_TAGS then h else h + 1
                case Mark(EndTag, tag, _) => if tag in VOID_TAGS then h else h - 1
                case _ => h;
      NothingOpensInside(Next(s, atoms[0]), h', atoms[1..], at + |Raw(atoms[0])|);
    }
  }

  lemma BreakIsSilent(s: Scan, at: nat)
    ensures After(s, BREAK) == s && Cuts(s, BREAK, at) == []
  {
    BlanksAreSilent(s, BREAK, at);
  }

  lemma AllSolidConcat(a: seq<Atom>, b: seq<Atom>)
    requires AllSolid(a) && AllSolid(b)
    ensures AllSolid(a + BREAK + b)
  {
    assert Solid(Char('\n'));
  }

  lemma InsideCount(a: seq<Atom>, b: seq<Atom>)
    requires AllSolid(a) && AllSolid(b) && Addition(b) && After(START, a).depth > 0
    ensures |Split(a + BREAK + b)| == |Split(a)|
  {
    hide Split, Cuts, After, Text, Slices, InOrder, AllSolid, ClosesOnlyItsOwn;
    var s := After(START, a);
    AllSolidConcat(a, b);
    SlicesAreSplit(a + BREAK + b);
    SlicesAreSplit(a);
    assert a + BREAK + b == a + (BREAK + b);
    CutsConcat(START, a, BREAK + b, 0);
    CutsConcat(s, BREAK, b, |Text(a)|);
    BreakIsSilent(s, |Text(a)|);
    NothingOpensInside(s, 0, b, |Text(a)| + |Text(BREAK)|);
  }

  lemma AdditionHasBlocks(b: seq<Atom>)
    requires Addition(b)
    ensures Split(b) == Pieces(START, b) && Split(b) != []
  {
    assert Lead(START, b) == 0 && b[..0] == [] && b[0..] == b;
  }

  // ------------------------------------------------------------------
  // After content that is closed
  // ------------------------------------------------------------------

  /** An element begun at the top level leaves the same behind, whether text was open or not. */
  lemma PiecesFromOutside(s: Scan, b: seq<Atom>)
    requires Addition(b) && s.depth == 0
    ensures b != [] && Opens(s, b[0]).Some? && Pieces(s, b) == Pieces(START, b)
  {
    hide Trim, Lead, After;
    assert Next(s, b[0]) == Next(START, b[0]) && Opens(s, b[0]) == Opens(START, b[0]);
    var n := Extent(s, b);
    assert b[..n][0] == b[0];
    AfterFirst(s, b[..n]);
    AfterFirst(START, b[..n]);
  }

  lemma {:induction false} LeadStays(s: Scan, a: seq<Atom>, c: seq<Atom>)
    requires Lead(s, a) < |a|
    ensures Lead(s, a + c) == Lead(s, a)
    decreases a
  {
    assert (a + c)[0] == a[0] && (a + c)[1..] == a[1..] + c;
    if Opens(s, a[0]).None? { LeadStays(Next(s, a[0]), a[1..], c); }
  }

  lemma {:induction false} PiecesThenAddition(s: Scan, x: seq<Atom>, b: seq<Atom>)
    requires AllSolid(x) && x != [] && Opens(s, x[0]).Some? && After(s, x).depth == 0 && Addition(b)
    ensures Pieces(s, x + BREAK + b) == Pieces(s, x) + Pieces(START, b)
    decreases |x|
  {
    hide Opens, Next, Trim, Lead, After, Pieces, Addition, AllSolid;
    var n := Extent(s, x);
    var p, rest := x[..n], x[n..];
    assert x == p + rest;
    PiecesUnfold(s, x);
    if n < |x| {
      FirstPiece(s, x, 0);
      AfterConcat(s, p, rest);
      SolidRest(x, n);
      PiecesThenAddition(After(s, p), rest, b);
      EarlierPiece(s, x, b, n);
    } else {
      assert rest == [] && p == x;
      NoPieces(After(s, p));
      PiecesFromOutside(After(s, x), b);
      LastThenAddition(s, x, b);
    }
  }

  lemma SolidRest(x: seq<Atom>, n: nat)
    requires AllSolid(x) && n <= |x|
    ensures AllSolid(x[n..])
  {
  }

  lemma EarlierPiece(s: Scan, x: seq<Atom>, b: seq<Atom>, n: nat)
    requires x != [] && Opens(s, x[0]).Some? && n == Extent(s, x) < |x|
    ensures Pieces(s, x + BREAK + b)
         == [Piece(Opens(s, x[0]).value, Trim(x[..n]))] + Pieces(After(s, x[..n]), x[n..] + BREAK + b)
  {
    hide Opens, Next, Trim, Lead, After, Pieces;
    var all := x + BREAK + b;
    assert all[0] == x[0] && all[1..] == x[1..] + (BREAK + b);
    LeadStays(Next(s, x[0]), x[1..], BREAK + b);
    PiecesUnfold(s, all);
    assert all[..n] == x[..n] && all[n..] == x[n..] + BREAK + b;
  }

  lemma LastThenAddition(s: Scan, x: seq<Atom>, b: seq<Atom>)
    requires x != [] && Opens(s, x[0]).Some? && Extent(s, x) == |x| && b != [] && Opens(After(s, x), b[0]).Some?
    ensures Pieces(s, x + BREAK + b) == [Piece(Opens(s, x[0]).value, Trim(x))] + Pieces(After(s, x), b)
  {
    hide Opens, Next, Trim, Lead, After, Pieces;
    var s1, body := Next(s, x[0]), x + BREAK;
    assert body[1..] == x[1..] + [Char('\n')];
    LeadExtends(s1, x[1..], Char('\n'));
    AfterFirst(s, x);
    AfterFirst(s, body);
    LeadOf(s1, body[1..], b);
    assert (body + b)[1..] == body[1..] + b;
    PiecesAt(s, body, b);
    TrimBreak(x);
  }

  lemma TrimBreak(x: seq<Atom>)
    ensures Trim(x + BREAK) == Trim(x)
  {
    assert (x + BREAK)[..|x|] == x;
  }

  lemma OpenerThenAddition(a: seq<Atom>, b: seq<Atom>, n: nat)
    requires AllSolid(a) && Addition(b) && After(START, a).depth == 0 && n == Lead(START, a) < |a|
    ensures Split(a + BREAK + b) == Split(a) + Pieces(START, b)
  {
    hide Opens, Next, Trim, Lead, After, Pieces, Addition, AllSolid;
    var all := a + BREAK + b;
    LeadKeepsStart(a);
    LeadIsSilent(START, a, 0);
    assert a == a[..n] + a[n..] && all == a + (BREAK + b);
    AfterConcat(START, a[..n], a[n..]);
    LeadStays(START, a, BREAK + b);
    assert all[..n] == a[..n] && all[n..] == a[n..] + BREAK + b;
    SolidRest(a, n);
    PiecesThenAddition(START, a[n..], b);
  }

  lemma NothingThenAddition(a: seq<Atom>, b: seq<Atom>)
    requires Addition(b) && Lead(START, a) == |a|
    ensures Split(a) == [] && Split(a + BREAK + b) == Pieces(START, b)
  {
    hide Opens, Next, Trim, Lead, After, Pieces, Addition;
    LeadKeepsStart(a);
    assert a[..|a|] == a && a[|a|..] == [];
    NoPieces(START);
    LeadExtends(START, a, Char('\n'));
    PiecesFromOutside(START, b);
    LeadOf(START, a + BREAK, b);
    var all, n := a + BREAK + b, |a| + 1;
    assert all[..n] == a + BREAK && all[n..] == b;
  }

  lemma OutsideSplit(a: seq<Atom>, b: seq<Atom>)
    requires AllSolid(a) && Addition(b) && After(START, a).depth == 0
    ensures Split(a + BREAK + b) == Split(a) + Split(b)
  {
    hide Split, Opens, Next, Trim, After, Pieces, Addition, AllSolid;
    AdditionHasBlocks(b);
    if Lead(START, a) < |a| { OpenerThenAddition(a, b, Lead(START, a)); } else { NothingThenAddition(a, b); }
  }

  /** The blocks after an append are those of both parts exactly if the old content closes what it opens;
      otherwise the addition disappears into the last block. */
  lemma AppendAddsBlocksIff(a: seq<Atom>, b: seq<Atom>)
    requires AllSolid(a) && AllSolid(b) && Addition(b)
    ensures Split(a + BREAK + b) == Split(a) + Split(b) <==> Open(0, a) == 0
    ensures Open(0, a) > 0 ==> |Split(a + BREAK + b)| == |Split(a)|
  {
    hide Split, After, AllSolid, Addition, Open;
    AdditionHasBlocks(b);
    DepthIsOpen(START, a);
    if After(START, a).depth == 0 { OutsideSplit(a, b); } else { InsideCount(a, b); }
  }

  // ------------------------------------------------------------------
  // What an append adds
  // ------------------------------------------------------------------

  /** Escaped prose: characters, and character references. */
  predicate Prose(atoms: seq<Atom>) { forall i :: 0 <= i < |atoms| ==> atoms[i].Char? || atoms[i].kind == Opaque }

  function Paragraph(prose: seq<Atom>): seq<Atom> {
    [Mark(StartTag, "p", "<p>")] + prose + [Mark(EndTag, "p", "</p>")]
  }

  /** One element a paragraph, with a line break between. */
  function Paragraphs(proses: seq<seq<Atom>>): seq<Atom> {
    if proses == [] then []
    else if |proses| == 1 then Paragraph(proses[0])
    else Paragraph(proses[0]) + BREAK + Paragraphs(proses[1..])
  }

  lemma {:induction false} ProseCloses(h: nat, prose: seq<Atom>, rest: seq<Atom>)
    requires Prose(prose) && ClosesOnlyItsOwn(h, rest)
    ensures ClosesOnlyItsOwn(h, prose + rest)
    decreases |prose|
  {
    if prose == [] {
      assert prose + rest == rest;
    } else {
      assert (prose + rest)[0] == prose[0] && (prose + rest)[1..] == prose[1..] + rest;
      ProseCloses(h, prose[1..], rest);
    }
  }

  lemma ParagraphCloses(prose: seq<Atom>, rest: seq<Atom>)
    requires Prose(prose) && ClosesOnlyItsOwn(0, rest)
    ensures ClosesOnlyItsOwn(0, Paragraph(prose) + rest)
  {
    var end, all := Mark(EndTag, "p", "</p>"), Paragraph(prose) + rest;
    assert "p" !in VOID_TAGS;
    assert ([end] + rest)[1..] == rest;
    assert ClosesOnlyItsOwn(1, [end] + rest);
    ProseCloses(1, prose, [end] + rest);
    assert all[1..] == prose + ([end] + rest);
  }

  /** Wrapped paragraphs meet the premise of the law above. */
  lemma {:induction false} ParagraphsAreAddition(proses: seq<seq<Atom>>)
    requires proses != [] && forall i :: 0 <= i < |proses| ==> Prose(proses[i])
    ensures Addition(Paragraphs(proses))
  {
    hide Prose;
    assert "p" !in VOID_TAGS;
    if |proses| == 1 {
      ParagraphCloses(proses[0], []);
      assert Paragraph(proses[0]) + [] == Paragraph(proses[0]);
    } else {
      assert forall i :: 0 <= i < |proses[1..]| ==> proses[1..][i] == proses[i + 1];
      ParagraphsAreAddition(proses[1..]);
      var rest := BREAK + Paragraphs(proses[1..]);
      assert rest[1..] == Paragraphs(proses[1..]);
      ParagraphCloses(proses[0], rest);
      assert Paragraph(proses[0]) + rest == Paragraphs(proses);
    }
  }

  // ------------------------------------------------------------------
  // One block a paragraph
  // ------------------------------------------------------------------

  lemma {:induction false} ProseThenClose(prose: seq<Atom>)
    requires Prose(prose)
    ensures Closes(1, prose + [Mark(EndTag, "p", "</p>")])
    decreases |prose|
  {
    var end := Mark(EndTag, "p", "</p>");
    assert "p" !in VOID_TAGS;
    if prose == [] {
      assert prose + [end] == [end];
    } else {
      assert (prose + [end])[0] == prose[0] && (prose + [end])[1..] == prose[1..] + [end];
      ProseThenClose(prose[1..]);
    }
  }

  lemma ParagraphIsElement(prose: seq<Atom>)
    requires Prose(prose)
    ensures Element(Paragraph(prose)) && TagOf(Paragraph(prose)) == "p"
  {
    hide Closes;
    var all := Paragraph(prose);
    ProseThenClose(prose);
    assert "p" !in VOID_TAGS && all[0].kind == StartTag && all[1..] == prose + [Mark(EndTag, "p", "</p>")];
  }

  function Elements(proses: seq<seq<Atom>>): (r: seq<seq<Atom>>)
    ensures |r| == |proses| && forall i :: 0 <= i < |r| ==> r[i] == Paragraph(proses[i])
  {
    if proses == [] then [] else [Paragraph(proses[0])] + Elements(proses[1..])
  }

  /** The gaps of n paragraphs: a line break after each but the last. */
  function Breaks(n: nat): (r: seq<seq<Atom>>)
    ensures |r| == n && forall i :: 0 <= i < n ==> r[i] == BREAK || r[i] == []
  {
    if n == 0 then [] else if n == 1 then [[]] else [BREAK] + Breaks(n - 1)
  }

  lemma {:induction false} ParagraphsAreLaid(proses: seq<seq<Atom>>)
    ensures Paragraphs(proses) == Laid(Elements(proses), Breaks(|proses|))
  {
    hide Paragraph;
    if |proses| > 1 {
      ParagraphsAreLaid(proses[1..]);
      assert Elements(proses)[1..] == Elements(proses[1..]) && Breaks(|proses|)[1..] == Breaks(|proses| - 1);
    } else if |proses| == 1 {
      assert Elements(proses) == [Paragraph(proses[0])] && Breaks(1) == [[]];
      assert Laid([Paragraph(proses[0])], [[]]) == Paragraph(proses[0]) + [] + Laid([], []);
    }
  }

  lemma ElementsAreLayout(parts: seq<seq<Atom>>, gaps: seq<seq<Atom>>)
    requires |gaps| == |parts| + 1 && forall i :: 0 <= i < |parts| ==> Element(parts[i])
    requires forall i :: 0 <= i < |gaps| ==> BlankAtoms(gaps[i])
    ensures Layout(parts, gaps)
  {
    hide Element, Words, BlankAtoms;
  }

  lemma BreaksAreBlank(n: nat)
    ensures forall i :: 0 <= i <= n ==> BlankAtoms(([[]] + Breaks(n))[i])
  {
    var gaps := [[]] + Breaks(n);
    forall i | 0 <= i <= n ensures BlankAtoms(gaps[i]) {
      if i > 0 { assert gaps[i] == Breaks(n)[i - 1]; }
    }
  }

  lemma ParagraphsLayout(proses: seq<seq<Atom>>)
    requires forall i :: 0 <= i < |proses| ==> Prose(proses[i])
    ensures Layout(Elements(proses), [[]] + Breaks(|proses|))
    ensures forall i :: 0 <= i < |proses| ==> Part(Elements(proses)[i]) && TagOf(Elements(proses)[i]) == "p"
  {
    hide Element, Words, Prose, TagOf, Paragraph, Layout, BlankAtoms, Breaks;
    forall i | 0 <= i < |proses|
      ensures Element(Elements(proses)[i]) && TagOf(Elements(proses)[i]) == "p"
    {
      ParagraphIsElement(proses[i]);
    }
    BreaksAreBlank(|proses|);
    ElementsAreLayout(Elements(proses), [[]] + Breaks(|proses|));
  }

  /** Wrapped paragraphs are one block each, in order, each tagged "p". */
  lemma ParagraphsAreBlocks(proses: seq<seq<Atom>>)
    requires forall i :: 0 <= i < |proses| ==> Prose(proses[i])
    ensures |Split(Paragraphs(proses))| == |proses|
    ensures forall i :: 0 <= i < |proses| ==> Split(Paragraphs(proses))[i] == Piece("p", Paragraph(proses[i]))
  {
    hide Split, Laid, Prose, Paragraph, Paragraphs, Part, TagOf;
    ParagraphsLayout(proses);
    ParagraphsAreLaid(proses);
    var parts, gaps := Elements(proses), [[]] + Breaks(|proses|);
    SplitIsLayout(parts, gaps);
    assert gaps[1..] == Breaks(|proses|) && [] + Laid(parts, gaps[1..]) == Laid(parts, gaps[1..]);
    NoneExpected();
    forall i | 0 <= i < |proses|
      ensures |Expected(parts)| == |proses| && Expected(parts)[i] == Piece("p", Paragraph(proses[i]))
    {
      ExpectedAt(parts, i);
    }
    if proses != [] { ExpectedAt(parts, 0); }
  }

  lemma NoneExpected()
    ensures Expected([]) == []
  {
  }
}
