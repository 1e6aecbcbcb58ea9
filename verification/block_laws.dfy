/** What splitting keeps of a chapter, and that joining the blocks and splitting again changes nothing. */
module BlockLaws {
  import opened Prelude
  import opened Blocks

  const SEPARATOR: string := "\n"

  function JoinBlocks(parts: seq<string>): string {
    if parts == [] then ""
    else
      var rest := JoinBlocks(parts[1..]);
      if parts[0] == "" then rest else if rest == "" then parts[0] else parts[0] + SEPARATOR + rest
  }

  // ------------------------------------------------------------------
  // Chunking
  // ------------------------------------------------------------------

  /** However the parser cuts a run of text into data tokens, the blocks are made of the same atoms. */
  lemma RechunkedText(before: seq<Token>, a: string, b: string, after: seq<Token>)
    ensures AtomsOf(before + [Data(a + b)] + after) == AtomsOf(before + [Data(a), Data(b)] + after)
  {
    var one, two := [Data(a + b)], [Data(a), Data(b)];
    assert one[1..] == [] && two[1..] == [Data(b)] && [Data(b)][1..] == [];
    assert AtomsOf(two) == Characters(a) + AtomsOf([Data(b)]);
    CharactersConcat(a, b);
    AtomsConcat(before, one); AtomsConcat(before + one, after);
    AtomsConcat(before, two); AtomsConcat(before + two, after);
  }

  lemma {:induction false} CharactersConcat(a: string, b: string)
    ensures Characters(a + b) == Characters(a) + Characters(b)
  {
    if a == "" {
      assert a + b == b;
    } else {
      assert (a + b)[1..] == a[1..] + b;
      CharactersConcat(a[1..], b);
    }
  }

  // ------------------------------------------------------------------
  // Nothing but blanks is lost
  // ------------------------------------------------------------------

  /** The text is blanks, the first block, blanks, the second block, and so on, ending in blanks. */
  ghost predicate Covers(text: string, blocks: seq<Block>)
    decreases blocks
  {
    if blocks == [] then AllBlank(text) else exists k :: CoversFrom(text, blocks, k)
  }

  ghost predicate CoversFrom(text: string, blocks: seq<Block>, k: int)
    requires blocks != []
    decreases blocks, 0
  {
    var html := blocks[0].html;
    && 0 <= k && k + |html| <= |text|
    && AllBlank(text[..k])
    && text[k..k + |html|] == html
    && Covers(text[k + |html|..], blocks[1..])
  }

  /** The first thing that is not a blank begins a block: it is not the end tag of a void element, nor
      a declaration the splitter does not hear. */
  predicate FirstOpens(atoms: seq<Atom>) {
    atoms == [] || if BlankAtom(atoms[0]) then FirstOpens(atoms[1..]) else Opens(START, atoms[0]).Some?
  }

  lemma {:induction false} BlankText(atoms: seq<Atom>)
    requires BlankAtoms(atoms)
    ensures AllBlank(Text(atoms))
  {
    if atoms != [] {
      assert BlankAtom(atoms[0]);
      BlankText(atoms[1..]);
    }
  }

  lemma AfterPiece(s: Scan, atoms: seq<Atom>)
    ensures After(s, Trim(atoms)) == After(s, atoms)
    ensures Text(atoms) == Text(Trim(atoms)) + Text(atoms[|Trim(atoms)|..])
    ensures BlankAtoms(atoms[|Trim(atoms)|..])
  {
    var t := Trim(atoms);
    assert atoms == t + atoms[|t|..];
    AfterConcat(s, t, atoms[|t|..]);
    TextConcat(t, atoms[|t|..]);
    BlanksAreSilent(After(s, t), atoms[|t|..], 0);
  }

  /** The first piece of atoms that open a block, what follows it, and the blanks between. */
  lemma FirstOfPieces(s: Scan, atoms: seq<Atom>)
    requires atoms != [] && Opens(s, atoms[0]).Some?
    ensures var n := Extent(s, atoms);
            Htmls(Pieces(s, atoms))
              == [Block(Opens(s, atoms[0]).value, Text(Trim(atoms[..n])))]
                + Htmls(Pieces(After(s, atoms[..n]), atoms[n..]))
  {
    hide Opens, Next, Trim, Lead, Cuts, Text, After, Htmls;
    var n := Extent(s, atoms);
    FirstHtml(Piece(Opens(s, atoms[0]).value, Trim(atoms[..n])), Pieces(After(s, atoms[..n]), atoms[n..]));
  }

  lemma FirstText(s: Scan, atoms: seq<Atom>)
    requires atoms != [] && Opens(s, atoms[0]).Some?
    ensures var n := Extent(s, atoms);
            var p, rest := atoms[..n], atoms[n..];
            && Text(atoms) == Text(Trim(p)) + (Text(p[|Trim(p)|..]) + Text(rest))
            && (rest != [] ==> Opens(After(s, p), rest[0]).Some?)
            && BlankAtoms(p[|Trim(p)|..])
  {
    hide Opens, Next, Trim, Lead, Cuts, Text, After, BlankAtoms;
    FirstPiece(s, atoms, 0);
    var n := Extent(s, atoms);
    AfterPiece(s, atoms[..n]);
  }

  lemma {:induction false} PiecesCover(gap: seq<Atom>, s: Scan, atoms: seq<Atom>)
    requires BlankAtoms(gap) && AllSolid(atoms)
    requires atoms != [] ==> Opens(s, atoms[0]).Some?
    ensures Covers(Text(gap) + Text(atoms), Htmls(Pieces(s, atoms)))
    decreases |atoms|
  {
    hide Opens, Next, Trim, Lead, Cuts, Text, After, Htmls, AllBlank, Covers, Pieces;
    BlankText(gap);
    if atoms == [] {
      NoHtmls();
      EmptyText();
      assert Text(gap) + Text(atoms) == Text(gap);
      NoneCover(s, Text(gap));
    } else {
      FirstOfPieces(s, atoms);
      FirstText(s, atoms);
      var n := Extent(s, atoms);
      var p, rest := atoms[..n], atoms[n..];
      var gap' := p[|Trim(p)|..];
      PiecesCover(gap', After(s, p), rest);
      OneMoreCovers(Text(gap), Block(Opens(s, atoms[0]).value, Text(Trim(p))), Text(gap') + Text(rest),
        Htmls(Pieces(After(s, p), rest)));
    }
  }

  lemma NoneCover(s: Scan, text: string)
    requires AllBlank(text)
    ensures Covers(text, Htmls(Pieces(s, [])))
  {
  }

  lemma OneMoreCovers(blanks: string, first: Block, text: string, rest: seq<Block>)
    requires AllBlank(blanks) && Covers(text, rest)
    ensures Covers(blanks + (first.html + text), [first] + rest)
  {
    hide AllBlank;
    var all, k := blanks + (first.html + text), |blanks|;
    assert all[..k] == blanks && all[k..k + |first.html|] == first.html && all[k + |first.html|..] == text;
    assert ([first] + rest)[1..] == rest;
    assert CoversFrom(all, [first] + rest, k);
  }

  lemma EmptyText()
    ensures Text([]) == ""
  {
  }

  lemma {:induction false} FirstOpensLead(atoms: seq<Atom>)
    ensures FirstOpens(atoms) <==> BlankAtoms(atoms[..Lead(START, atoms)])
  {
    var n := Lead(START, atoms);
    if atoms != [] {
      if BlankAtom(atoms[0]) {
        FirstOpensLead(atoms[1..]);
        assert atoms[..n] == [atoms[0]] + atoms[1..][..n - 1];
        assert BlankAtoms(atoms[..n]) ==> forall i :: 0 <= i < n - 1 ==> atoms[1..][i] == atoms[..n][i + 1];
      } else {
        assert n > 0 ==> atoms[..n][0] == atoms[0];
      }
    }
  }

  /** What begins nothing at the very start also changes nothing. */
  lemma {:induction false} LeadKeepsStart(atoms: seq<Atom>)
    ensures After(START, atoms[..Lead(START, atoms)]) == START
  {
    var n := Lead(START, atoms);
    if n > 0 {
      LeadKeepsStart(atoms[1..]);
      assert atoms[..n][1..] == atoms[1..][..n - 1];
    }
  }

  /** Characters that are not blank. */
  function Ink(s: string): nat { if s == "" then 0 else (if IsBlank(s[0]) then 0 else 1) + Ink(s[1..]) }

  function BlockInk(blocks: seq<Block>): nat { if blocks == [] then 0 else Ink(blocks[0].html) + BlockInk(blocks[1..]) }

  lemma {:induction false} InkConcat(a: string, b: string)
    ensures Ink(a + b) == Ink(a) + Ink(b)
  {
    if a == "" {
      assert a + b == b;
    } else {
      assert (a + b)[1..] == a[1..] + b;
      InkConcat(a[1..], b);
    }
  }

  lemma {:induction false} BlankInk(s: string)
    ensures Ink(s) == 0 <==> AllBlank(s)
  {
    if s != "" {
      BlankInk(s[1..]);
      assert AllBlank(s[1..]) <==> forall i :: 1 <= i < |s| ==> IsBlank(s[i]) by {
        assert forall i :: 0 <= i < |s| - 1 ==> s[1..][i] == s[i + 1];
        assert forall i :: 1 <= i < |s| ==> s[i] == s[1..][i - 1];
      }
    }
  }

  lemma {:induction false} CoveredInk(text: string, blocks: seq<Block>)
    requires Covers(text, blocks)
    ensures Ink(text) == BlockInk(blocks)
    decreases blocks
  {
    if blocks == [] {
      BlankInk(text);
    } else {
      var k :| CoversFrom(text, blocks, k);
      var html := blocks[0].html;
      CoveredInk(text[k + |html|..], blocks[1..]);
      BlankInk(text[..k]);
      assert text == text[..k] + (text[k..k + |html|] + text[k + |html|..]);
      InkConcat(text[..k], text[k..k + |html|] + text[k + |html|..]);
      InkConcat(text[k..k + |html|], text[k + |html|..]);
    }
  }

  /** The blocks, with blanks between them, are the whole chapter exactly if the chapter's first
      non-blank thing begins a block. */
  lemma SplitLosesOnlyBlanksIff(atoms: seq<Atom>)
    requires AllSolid(atoms)
    ensures Covers(Text(atoms), Htmls(Split(atoms))) <==> FirstOpens(atoms)
  {
    hide Opens, Lead, Text, After, Htmls, AllBlank, Pieces, Covers, FirstOpens, Ink, BlockInk;
    var n := Lead(START, atoms);
    var a, b := atoms[..n], atoms[n..];
    assert atoms == a + b;
    TextConcat(a, b);
    FirstOpensLead(atoms);
    LeadIsSilent(START, atoms, 0);
    EmptyText();
    assert Text([]) + Text(b) == Text(b);
    PiecesCover([], After(START, a), b);
    if FirstOpens(atoms) {
      PiecesCover(a, After(START, a), b);
    }
    if Covers(Text(atoms), Htmls(Split(atoms))) {
      CoveredInk(Text(atoms), Htmls(Split(atoms)));
      CoveredInk(Text(b), Htmls(Split(atoms)));
      InkConcat(Text(a), Text(b));
      BlankInk(Text(a));
      BlankTextBlankAtoms(a);
    }
  }

  /** A chapter that starts with a stray void close tag loses it. */
  lemma StrayCloseIsLost()
    ensures var atoms := [Mark(EndTag, "br", "</br>"), Mark(StartTag, "p", "<p>"), Char('x'),
        Mark(EndTag, "p", "</p>")];
            AllSolid(atoms) && !Covers(Text(atoms), Htmls(Split(atoms)))
  {
    var atoms := [Mark(EndTag, "br", "</br>"), Mark(StartTag, "p", "<p>"), Char('x'), Mark(EndTag, "p", "</p>")];
    assert "br" in VOID_TAGS;
    assert !FirstOpens(atoms);
    SplitLosesOnlyBlanksIff(atoms);
  }

  /** The blanks dropped between two blocks are outside every element. */
  ghost predicate SeamsOutside(s: Scan, atoms: seq<Atom>)
    requires atoms != [] ==> Opens(s, atoms[0]).Some?
    decreases |atoms|
  {
    atoms == [] ||
    var n := Extent(s, atoms);
    FirstPiece(s, atoms, 0);
    (n < |atoms| ==> After(s, Trim(atoms[..n])).depth == 0) && SeamsOutside(After(s, atoms[..n]), atoms[n..])
  }

  lemma {:induction false} BlanksAreDroppedOutside(s: Scan, atoms: seq<Atom>)
    requires atoms != [] ==> Opens(s, atoms[0]).Some?
    ensures SeamsOutside(s, atoms)
    decreases |atoms|
  {
    if atoms != [] {
      var n := Extent(s, atoms);
      FirstPiece(s, atoms, 0);
      AfterPiece(s, atoms[..n]);
      BlanksAreDroppedOutside(After(s, atoms[..n]), atoms[n..]);
    }
  }

  // ------------------------------------------------------------------
  // Split, join, split
  // ------------------------------------------------------------------

  /** The atoms of the joined blocks: each block's own, with a line break between. */
  function Joined(pieces: seq<Piece>): seq<Atom> {
    if pieces == [] then []
    else if |pieces| == 1 then pieces[0].atoms
    else pieces[0].atoms + [Char('\n')] + Joined(pieces[1..])
  }

  function Strings(blocks: seq<Block>): seq<string> {
    if blocks == [] then [] else [blocks[0].html] + Strings(blocks[1..])
  }

  lemma {:induction false} LeadOf(s: Scan, a: seq<Atom>, b: seq<Atom>)
    requires Lead(s, a) == |a|
    requires b != [] ==> Opens(After(s, a), b[0]).Some?
    ensures Lead(s, a + b) == |a|
    decreases a
  {
    if a == [] {
      assert a + b == b;
    } else {
      assert (a + b)[1..] == a[1..] + b;
      LeadOf(Next(s, a[0]), a[1..], b);
    }
  }

  lemma {:induction false} LeadPrefix(s: Scan, atoms: seq<Atom>, k: nat)
    requires k <= Lead(s, atoms)
    ensures Lead(s, atoms[..k]) == k
    decreases k
  {
    if k > 0 {
      LeadPrefix(Next(s, atoms[0]), atoms[1..], k - 1);
      assert atoms[..k][1..] == atoms[1..][..k - 1];
    }
  }

  lemma {:induction false} LeadExtends(s: Scan, a: seq<Atom>, blank: Atom)
    requires Lead(s, a) == |a| && BlankAtom(blank)
    ensures Lead(s, a + [blank]) == |a| + 1 && After(s, a + [blank]) == After(s, a)
    decreases a
  {
    if a == [] {
      assert (a + [blank])[1..] == [];
    } else {
      assert (a + [blank])[1..] == a[1..] + [blank];
      LeadExtends(Next(s, a[0]), a[1..], blank);
    }
  }

  lemma TrimTwice(atoms: seq<Atom>, blank: Atom)
    requires BlankAtom(blank)
    ensures Trim(Trim(atoms)) == Trim(atoms) && Trim(Trim(atoms) + [blank]) == Trim(atoms)
  {
    assert (Trim(atoms) + [blank])[..|Trim(atoms)|] == Trim(atoms);
  }

  lemma AfterFirst(s: Scan, atoms: seq<Atom>)
    requires atoms != []
    ensures After(s, atoms) == After(Next(s, atoms[0]), atoms[1..])
  {
  }

  lemma PiecesAt(s: Scan, body: seq<Atom>, next: seq<Atom>)
    requires body != [] && Opens(s, body[0]).Some?
    requires Lead(Next(s, body[0]), (body + next)[1..]) == |body| - 1
    ensures Pieces(s, body + next) == [Piece(Opens(s, body[0]).value, Trim(body))] + Pieces(After(s, body), next)
  {
    hide Opens, Next, Trim, Lead, After;
    var all := body + next;
    assert all[0] == body[0] && all[..|body|] == body && all[|body|..] == next;
  }

  /** A trimmed piece, followed by a line break and atoms that open a block where the piece ends. */
  lemma PieceThen(s: Scan, p: seq<Atom>, next: seq<Atom>)
    requires p != [] && Opens(s, p[0]).Some? && Trim(p) != [] && Trim(p)[0] == p[0]
    requires Lead(Next(s, p[0]), p[1..]) == |p| - 1
    requires next != [] && Opens(After(s, p), next[0]).Some?
    ensures var tag := Opens(s, p[0]).value;
            Pieces(s, Trim(p) + [Char('\n')] + next) == [Piece(tag, Trim(p))] + Pieces(After(s, p), next)
  {
    hide Opens, Next, Trim, Text, Pieces, After, Lead;
    var t, blank := Trim(p), Char('\n');
    var s1, body := Next(s, p[0]), t + [blank];
    assert body[1..] == t[1..] + [blank] && t[1..] == p[1..][..|t| - 1];
    AfterPiece(s, p);
    AfterFirst(s, t);
    AfterFirst(s, body);
    LeadPrefix(s1, p[1..], |t| - 1);
    LeadExtends(s1, t[1..], blank);
    LeadOf(s1, body[1..], next);
    assert (body + next)[1..] == body[1..] + next;
    TrimTwice(p, blank);
    PiecesAt(s, body, next);
  }

  lemma LastPiece(s: Scan, p: seq<Atom>)
    requires p != [] && Opens(s, p[0]).Some? && Trim(p) != [] && Trim(p)[0] == p[0]
    requires Lead(Next(s, p[0]), p[1..]) == |p| - 1
    ensures Pieces(s, Trim(p)) == [Piece(Opens(s, p[0]).value, Trim(p))]
  {
    hide Opens, Next, Trim, Text;
    var t := Trim(p);
    LeadPrefix(Next(s, p[0]), p[1..], |t| - 1);
    assert t[1..] == p[1..][..|t| - 1];
    TrimTwice(p, Char('\n'));
    assert t[..|t|] == t && t[|t|..] == [];
  }

  /** The first piece of atoms that open a block opens one by itself, and nothing in it opens another. */
  lemma ExtentIsPiece(s: Scan, atoms: seq<Atom>)
    requires AllSolid(atoms) && atoms != [] && Opens(s, atoms[0]).Some?
    ensures var p := atoms[..Extent(s, atoms)];
            && p[0] == atoms[0] && Trim(p) != [] && Trim(p)[0] == p[0]
            && Lead(Next(s, p[0]), p[1..]) == |p| - 1
  {
    hide Opens, Next, Trim, Text, Lead;
    var n := Extent(s, atoms);
    var p := atoms[..n];
    OpenerIsKept(s, p);
    LeadPrefix(Next(s, atoms[0]), atoms[1..], n - 1);
    assert p[1..] == atoms[1..][..n - 1];
  }

  lemma JoinedMore(first: Piece, later: seq<Piece>)
    ensures Joined([first] + later) == if later == [] then first.atoms else first.atoms + [Char('\n')] + Joined(later)
  {
    assert ([first] + later)[1..] == later;
  }

  lemma {:induction false} JoinedPieces(s: Scan, atoms: seq<Atom>)
    requires AllSolid(atoms)
    requires atoms != [] ==> Opens(s, atoms[0]).Some?
    ensures Pieces(s, Joined(Pieces(s, atoms))) == Pieces(s, atoms)
    ensures atoms != [] ==> Joined(Pieces(s, atoms)) != [] && Joined(Pieces(s, atoms))[0] == atoms[0]
    decreases |atoms|
  {
    hide Opens, Next, Trim, Text, After, Lead, Pieces, Joined, Cuts, Extent;
    if atoms == [] {
      NothingSplits();
      assert Pieces(s, []) == [] by { NoPieces(s); }
    } else {
      FirstPiece(s, atoms, 0);
      ExtentIsPiece(s, atoms);
      var n := Extent(s, atoms);
      var p, s', rest := atoms[..n], After(s, atoms[..n]), atoms[n..];
      JoinedPieces(s', rest);
      var first, later := Piece(Opens(s, atoms[0]).value, Trim(p)), Pieces(s', rest);
      PiecesUnfold(s, atoms);
      JoinedMore(first, later);
      if rest == [] {
        NoPieces(s');
        LastPiece(s, p);
      } else {
        SomePieces(s', rest);
        PieceThen(s, p, Joined(later));
      }
    }
  }

  lemma NoPieces(s: Scan)
    ensures Pieces(s, []) == []
  {
  }

  lemma SomePieces(s: Scan, atoms: seq<Atom>)
    requires atoms != [] && Opens(s, atoms[0]).Some?
    ensures Pieces(s, atoms) != []
  {
  }

  lemma PiecesUnfold(s: Scan, atoms: seq<Atom>)
    requires atoms != [] && Opens(s, atoms[0]).Some?
    ensures var n := Extent(s, atoms);
            Pieces(s, atoms) == [Piece(Opens(s, atoms[0]).value, Trim(atoms[..n]))]
              + Pieces(After(s, atoms[..n]), atoms[n..])
  {
    hide Opens, Trim, After, Extent;
  }

  /** Splitting the joined blocks gives the same blocks, with the same tags. */
  lemma SplitJoinSplit(atoms: seq<Atom>)
    requires AllSolid(atoms)
    ensures Split(Joined(Split(atoms))) == Split(atoms)
  {
    hide Opens, Next, Text, After, Pieces, Joined;
    var n := Lead(START, atoms);
    LeadKeepsStart(atoms);
    LeadIsSilent(START, atoms, 0);
    JoinedPieces(START, atoms[n..]);
    var joined := Joined(Split(atoms));
    if n < |atoms| {
      assert joined[..0] == [] && joined[0..] == joined;
      assert After(START, []) == START by { LeadKeepsStart([]); }
    } else {
      assert atoms[n..] == [];
      NothingSplits();
    }
  }

  lemma NothingSplits()
    ensures Pieces(START, []) == [] && Joined([]) == [] && Split([]) == []
  {
  }

  /** The joined atoms spell the joined strings, so the law above is one about stored content. */
  lemma {:induction false} JoinedText(pieces: seq<Piece>)
    requires forall i :: 0 <= i < |pieces| ==> Text(pieces[i].atoms) != ""
    ensures Text(Joined(pieces)) == JoinBlocks(Strings(Htmls(pieces)))
    ensures pieces != [] ==> Text(Joined(pieces)) != ""
  {
    hide Text;
    if pieces == [] {
      EmptyText();
    } else {
      var first, rest := pieces[0], pieces[1..];
      assert pieces == [first] + rest;
      JoinedText(rest);
      FirstHtml(first, rest);
      assert Htmls(pieces)[1..] == Htmls(rest);
      assert Strings(Htmls(pieces))[1..] == Strings(Htmls(rest));
      if rest != [] {
        TextConcat(first.atoms + [Char('\n')], Joined(rest));
        TextConcat(first.atoms, [Char('\n')]);
        LineBreak();
      } else {
        EmptyText();
      }
    }
  }

  lemma LineBreak()
    ensures Text([Char('\n')]) == SEPARATOR
  {
    assert [Char('\n')][1..] == [];
  }

  lemma {:induction false} PiecesHaveText(s: Scan, atoms: seq<Atom>)
    requires AllSolid(atoms)
    ensures forall i :: 0 <= i < |Pieces(s, atoms)| ==> Text(Pieces(s, atoms)[i].atoms) != ""
    decreases |atoms|
  {
    hide Text, Trim, Opens, Next, Lead, After;
    if atoms != [] && Opens(s, atoms[0]).Some? {
      var n := Extent(s, atoms);
      OpenerIsKept(s, atoms[..n]);
      PiecesHaveText(After(s, atoms[..n]), atoms[n..]);
    }
  }

  /** The stored content that an edit without effect would write. */
  lemma SplitJoinText(atoms: seq<Atom>)
    requires AllSolid(atoms)
    ensures Text(Joined(Split(atoms))) == JoinBlocks(Strings(Htmls(Split(atoms))))
  {
    hide Pieces, Text, Htmls, Joined, JoinBlocks;
    var n := Lead(START, atoms);
    PiecesHaveText(After(START, atoms[..n]), atoms[n..]);
    JoinedText(Split(atoms));
  }
}
