/** Cutting stored chapter HTML into top-level blocks, and joining blocks again. */
module Blocks {
  import opened Prelude

  // ------------------------------------------------------------------
  // Text
  // ------------------------------------------------------------------

  function RStrip(s: string): (r: string)
    ensures |r| <= |s| && r == s[..|r|] && AllBlank(s[|r|..])
    ensures r != "" ==> !IsBlank(r[|r| - 1])
  {
    if s == "" then "" else if IsBlank(s[|s| - 1]) then RStrip(s[..|s| - 1]) else s
  }

  function LeadingBlanks(s: string): (n: nat)
    ensures n <= |s| && AllBlank(s[..n]) && (n < |s| ==> !IsBlank(s[n]))
  {
    if s == "" || !IsBlank(s[0]) then 0
    else
      var n := 1 + LeadingBlanks(s[1..]);
      assert s[..n] == [s[0]] + s[1..][..n - 1];
      n
  }

  // ------------------------------------------------------------------
  // Positions
  // ------------------------------------------------------------------

  function Newlines(s: string): nat {
    if s == "" then 0 else Newlines(s[..|s| - 1]) + if s[|s| - 1] == '\n' then 1 else 0
  }

  /** Characters after the last line break. */
  function Column(s: string): (c: nat)
    ensures c <= |s|
  {
    if s == "" || s[|s| - 1] == '\n' then 0 else 1 + Column(s[..|s| - 1])
  }

  function StartsOf(s: string): (starts: seq<nat>)
    ensures |starts| == Newlines(s) + 1
    ensures starts[|starts| - 1] == |s| - Column(s)
  {
    if s == "" then [0]
    else StartsOf(s[..|s| - 1]) + if s[|s| - 1] == '\n' then [|s|] else []
  }

  method LineStarts(content: string) returns (starts: seq<nat>)
    ensures starts == StartsOf(content)
  {
    starts := [0];
    for index := 0 to |content|
      invariant starts == StartsOf(content[..index])
    {
      assert content[..index + 1][..index] == content[..index];
      if content[index] == '\n' { starts := starts + [index + 1]; }
    }
    assert content[..|content|] == content;
  }

  lemma {:induction false} StartsGrow(content: string, i: nat)
    requires i <= |content|
    ensures StartsOf(content[..i]) <= StartsOf(content)
  {
    if i < |content| {
      StartsGrow(content[..|content| - 1], i);
      assert content[..|content| - 1][..i] == content[..i];
    } else {
      assert content[..i] == content;
    }
  }

  /** The offset recovered from a one-based line and a column, bounded by the content. */
  function OffsetOf(starts: seq<nat>, length: nat, line: nat, col: nat): nat
    requires line >= 1
  {
    if line - 1 >= |starts| then length
    else if starts[line - 1] + col < length then starts[line - 1] + col else length
  }

  /** The line and column the parser reports for a token give back the token's own offset. */
  lemma PositionRoundTrip(content: string, i: nat)
    requires i <= |content|
    ensures OffsetOf(StartsOf(content), |content|, Newlines(content[..i]) + 1, Column(content[..i])) == i
  {
    hide StartsOf, Newlines, Column;
    StartsGrow(content, i);
    var before, all, line := StartsOf(content[..i]), StartsOf(content), Newlines(content[..i]);
    assert |before| == line + 1 && before[line] == i - Column(content[..i]);
    assert all == before + all[|before|..];
    assert all[line] == before[line];
  }

  // ------------------------------------------------------------------
  // Tokens, and the atoms they consist of
  // ------------------------------------------------------------------

  const VOID_TAGS: set<string> := {
    "area", "base", "br", "col", "embed", "hr", "img", "input", "link", "meta", "param", "source", "track", "wbr"}

  const TEXT_TAG := "text"

  /** Opaque: entity and character references, comments, declarations and processing instructions.
      Unheard: what the parser recognises and the splitter has no handler for. */
  datatype Kind = StartTag | StartEndTag | EndTag | Opaque | Unheard

  /** The smallest things a cut can fall between: one character of data, or one piece of markup. */
  datatype Atom = Char(c: char) | Mark(kind: Kind, tag: string, raw: string)

  datatype Token = Data(text: string) | Markup(kind: Kind, tag: string, raw: string)

  function Raw(a: Atom): string { if a.Char? then [a.c] else a.raw }

  function Text(atoms: seq<Atom>): string { if atoms == [] then "" else Raw(atoms[0]) + Text(atoms[1..]) }

  function Characters(s: string): seq<Atom> { if s == "" then [] else [Char(s[0])] + Characters(s[1..]) }

  function AtomsIn(t: Token): seq<Atom> { if t.Data? then Characters(t.text) else [Mark(t.kind, t.tag, t.raw)] }

  function AtomsOf(tokens: seq<Token>): seq<Atom> {
    if tokens == [] then [] else AtomsIn(tokens[0]) + AtomsOf(tokens[1..])
  }

  predicate BlankAtom(a: Atom) { a.Char? && IsBlank(a.c) }

  /** Markup starts with '<' or '&', and ends in a character that is not blank. */
  predicate Solid(a: Atom) { a.Mark? ==> a.raw != "" && !IsBlank(a.raw[0]) && !IsBlank(a.raw[|a.raw| - 1]) }

  ghost predicate AllSolid(atoms: seq<Atom>) { forall i :: 0 <= i < |atoms| ==> Solid(atoms[i]) }

  ghost predicate BlankAtoms(atoms: seq<Atom>) { forall i :: 0 <= i < |atoms| ==> BlankAtom(atoms[i]) }

  lemma {:induction false} TextConcat(a: seq<Atom>, b: seq<Atom>)
    ensures Text(a + b) == Text(a) + Text(b)
  {
    if a == [] {
      assert a + b == b;
    } else {
      assert (a + b)[1..] == a[1..] + b;
      TextConcat(a[1..], b);
    }
  }

  // ------------------------------------------------------------------
  // The scan
  // ------------------------------------------------------------------

  datatype Scan = Scan(depth: nat, textOpen: bool)

  const START := Scan(0, false)

  /** The tag of the block an atom begins, if it begins one. */
  function Opens(s: Scan, a: Atom): Option<string> {
    if s.depth > 0 then None
    else match a
      case Char(c) => if s.textOpen || IsBlank(c) then None else Some(TEXT_TAG)
      case Mark(StartTag, tag, _) => Some(tag)
      case Mark(StartEndTag, tag, _) => Some(tag)
      case Mark(EndTag, tag, _) => if s.textOpen || tag in VOID_TAGS then None else Some(TEXT_TAG)
      case Mark(Opaque, _, _) => if s.textOpen then None else Some(TEXT_TAG)
      case Mark(Unheard, _, _) => None
  }

  function Next(s: Scan, a: Atom): Scan {
    match a
    case Char(c) => if s.depth == 0 && !IsBlank(c) then Scan(0, true) else s
    case Mark(StartTag, tag, _) =>
      Scan(s.depth + if tag in VOID_TAGS then 0 else 1, s.depth > 0 && s.textOpen)
    case Mark(StartEndTag, _, _) => Scan(s.depth, s.depth > 0 && s.textOpen)
    case Mark(EndTag, tag, _) =>
      if tag in VOID_TAGS then s else if s.depth == 0 then Scan(0, true) else Scan(s.depth - 1, s.textOpen)
    case Mark(Opaque, _, _) => if s.depth == 0 then Scan(0, true) else s
    case Mark(Unheard, _, _) => s
  }

  function After(s: Scan, atoms: seq<Atom>): Scan
    decreases atoms
  {
    if atoms == [] then s else After(Next(s, atoms[0]), atoms[1..])
  }

  datatype Cut = Cut(at: nat, tag: string)

  function CutAt(s: Scan, a: Atom, at: nat): seq<Cut> {
    match Opens(s, a) case Some(tag) => [Cut(at, tag)] case None => []
  }

  /** Where blocks begin in atoms that stand at an offset, scanned from a state. */
  function Cuts(s: Scan, atoms: seq<Atom>, at: nat): seq<Cut>
    decreases atoms
  {
    if atoms == [] then []
    else CutAt(s, atoms[0], at) + Cuts(Next(s, atoms[0]), atoms[1..], at + |Raw(atoms[0])|)
  }

  lemma {:induction false} AfterConcat(s: Scan, a: seq<Atom>, b: seq<Atom>)
    ensures After(s, a + b) == After(After(s, a), b)
    decreases a
  {
    if a == [] {
      assert a + b == b;
    } else {
      assert (a + b)[1..] == a[1..] + b;
      AfterConcat(Next(s, a[0]), a[1..], b);
    }
  }

  lemma {:induction false} CutsConcat(s: Scan, a: seq<Atom>, b: seq<Atom>, at: nat)
    ensures Cuts(s, a + b, at) == Cuts(s, a, at) + Cuts(After(s, a), b, at + |Text(a)|)
    decreases a
  {
    if a == [] {
      assert a + b == b;
    } else {
      assert (a + b)[1..] == a[1..] + b;
      CutsConcat(Next(s, a[0]), a[1..], b, at + |Raw(a[0])|);
    }
  }

  /** A blank character changes nothing and begins nothing, so neither does a run of them. */
  lemma {:induction false} BlanksAreSilent(s: Scan, atoms: seq<Atom>, at: nat)
    requires BlankAtoms(atoms)
    ensures After(s, atoms) == s && Cuts(s, atoms, at) == []
  {
    if atoms != [] {
      assert BlankAtom(atoms[0]);
      BlanksAreSilent(s, atoms[1..], at + |Raw(atoms[0])|);
    }
  }

  /** Data inside an element, or in text already open, begins nothing however it is cut up. */
  lemma {:induction false} DataInsideIsSilent(s: Scan, data: string, at: nat)
    requires s.depth > 0 || s.textOpen
    ensures After(s, Characters(data)) == s && Cuts(s, Characters(data), at) == []
  {
    if data != "" { DataInsideIsSilent(s, data[1..], at + 1); }
  }

  lemma FirstCharacter(s: Scan, data: string, at: nat)
    requires data != ""
    ensures After(s, Characters(data)) == After(Next(s, Char(data[0])), Characters(data[1..]))
    ensures Cuts(s, Characters(data), at)
         == CutAt(s, Char(data[0]), at) + Cuts(Next(s, Char(data[0])), Characters(data[1..]), at + 1)
  {
    hide Next, Opens;
    var atoms := Characters(data);
    assert atoms[0] == Char(data[0]) && atoms[1..] == Characters(data[1..]);
  }

  /** Data at the top level begins text at its first character that is not blank. */
  lemma {:induction false} DataOutside(s: Scan, data: string, at: nat)
    requires s == START
    ensures var n := LeadingBlanks(data);
            if n == |data| then After(s, Characters(data)) == s && Cuts(s, Characters(data), at) == []
            else After(s, Characters(data)) == Scan(0, true) && Cuts(s, Characters(data), at) == [Cut(at + n, TEXT_TAG)]
  {
    hide After, Cuts, Characters, IsBlank;
    if data == "" {
      NoData(s, at);
    } else {
      FirstCharacter(s, data, at);
      if IsBlank(data[0]) {
        DataOutside(s, data[1..], at + 1);
      } else {
        DataInsideIsSilent(Scan(0, true), data[1..], at + 1);
      }
    }
  }

  lemma NoData(s: Scan, at: nat)
    ensures After(s, Characters("")) == s && Cuts(s, Characters(""), at) == []
  {
  }

  // ------------------------------------------------------------------
  // The splitter
  // ------------------------------------------------------------------

  class Splitter {
    const content: string
    const lineStarts: seq<nat>
    var depth: nat
    var textOpen: bool
    var cuts: seq<Cut>
    var line: nat
    var col: nat

    ghost predicate Valid()
      reads this
    {
      line >= 1 && lineStarts == StartsOf(content) && (textOpen ==> depth == 0)
    }

    ghost function State(): Scan
      reads this
    {
      Scan(depth, textOpen)
    }

    constructor (content: string)
      ensures Valid() && this.content == content && State() == START && cuts == []
    {
      var starts := LineStarts(content);
      this.content, lineStarts := content, starts;
      depth, textOpen, cuts, line, col := 0, false, [], 1, 0;
    }

    function Offset(): nat
      requires Valid()
      reads this
    {
      OffsetOf(lineStarts, |content|, line, col)
    }

    method BeginElement(tag: string)
      requires Valid()
      modifies `cuts, `textOpen
      ensures Valid() && textOpen == (depth > 0 && old(textOpen))
      ensures cuts == old(cuts) + if depth == 0 then [Cut(old(Offset()), tag)] else []
    {
      if depth == 0 {
        cuts := cuts + [Cut(Offset(), tag)];
        textOpen := false;
      }
    }

    method BeginText(offset: nat)
      requires Valid()
      modifies `cuts, `textOpen
      ensures Valid() && textOpen == (depth == 0 || old(textOpen))
      ensures cuts == old(cuts) + if depth == 0 && !old(textOpen) then [Cut(offset, TEXT_TAG)] else []
    {
      if depth == 0 && !textOpen {
        cuts := cuts + [Cut(offset, TEXT_TAG)];
        textOpen := true;
      }
    }

    method HandleStartTag(tag: string, ghost raw: string)
      requires Valid()
      modifies `cuts, `textOpen, `depth
      ensures Valid() && State() == Next(old(State()), Mark(StartTag, tag, raw))
      ensures cuts == old(cuts) + CutAt(old(State()), Mark(StartTag, tag, raw), old(Offset()))
    {
      BeginElement(tag);
      if tag !in VOID_TAGS { depth := depth + 1; }
    }

    method HandleStartEndTag(tag: string, ghost raw: string)
      requires Valid()
      modifies `cuts, `textOpen
      ensures Valid() && State() == Next(old(State()), Mark(StartEndTag, tag, raw))
      ensures cuts == old(cuts) + CutAt(old(State()), Mark(StartEndTag, tag, raw), old(Offset()))
    {
      BeginElement(tag);
    }

    method HandleEndTag(tag: string, ghost raw: string)
      requires Valid()
      modifies `cuts, `textOpen, `depth
      ensures Valid() && State() == Next(old(State()), Mark(EndTag, tag, raw))
      ensures cuts == old(cuts) + CutAt(old(State()), Mark(EndTag, tag, raw), old(Offset()))
    {
      if tag in VOID_TAGS { return; }
      if depth == 0 {
        BeginText(Offset());
        return;
      }
      depth := depth - 1;
    }

    method HandleOpaque(tag: string, ghost raw: string)
      requires Valid()
      modifies `cuts, `textOpen
      ensures Valid() && State() == Next(old(State()), Mark(Opaque, tag, raw))
      ensures cuts == old(cuts) + CutAt(old(State()), Mark(Opaque, tag, raw), old(Offset()))
    {
      BeginText(Offset());
    }

    method HandleData(data: string)
      requires Valid()
      modifies `cuts, `textOpen
      ensures Valid() && State() == After(old(State()), Characters(data))
      ensures cuts == old(cuts) + Cuts(old(State()), Characters(data), old(Offset()))
    {
      if depth > 0 || textOpen {
        DataInsideIsSilent(State(), data, Offset());
        return;
      }
      DataOutside(State(), data, Offset());
      var n := LeadingBlanks(data);
      if n == |data| { return; }
      BeginText(Offset() + n);
    }

    /** One token, at the position the parser reports for it. */
    method FeedOne(t: Token, offset: nat)
      requires Valid() && offset <= |content|
      modifies this
      ensures Valid() && State() == After(old(State()), AtomsIn(t))
      ensures cuts == old(cuts) + Cuts(old(State()), AtomsIn(t), offset)
    {
      hide After, Cuts, OffsetOf, StartsOf, Opens, Next;
      line, col := Newlines(content[..offset]) + 1, Column(content[..offset]);
      PositionRoundTrip(content, offset);
      if t.Markup? { OneToken(State(), t, offset); }
      match t {
        case Data(text) => HandleData(text);
        case Markup(StartTag, tag, raw) => HandleStartTag(tag, raw);
        case Markup(StartEndTag, tag, raw) => HandleStartEndTag(tag, raw);
        case Markup(EndTag, tag, raw) => HandleEndTag(tag, raw);
        case Markup(Opaque, tag, raw) => HandleOpaque(tag, raw);
        case Markup(Unheard, _, _) =>
      }
    }

    /** The parser's loop over the tokens of the content. */
    method Feed(tokens: seq<Token>)
      requires Valid() && State() == START && cuts == []
      requires content == Text(AtomsOf(tokens))
      modifies this
      ensures Valid() && State() == After(START, AtomsOf(tokens))
      ensures cuts == Cuts(START, AtomsOf(tokens), 0)
    {
      hide After, Cuts, Valid, AtomsOf, Text;
      EmptyScan();
      assert tokens[..0] == [];
      for i := 0 to |tokens|
        invariant Valid()
        invariant State() == After(START, AtomsOf(tokens[..i]))
        invariant cuts == Cuts(START, AtomsOf(tokens[..i]), 0)
      {
        FeedPosition(tokens, i);
        FeedOne(tokens[i], Length(tokens[..i]));
      }
      assert tokens[..|tokens|] == tokens;
    }
  }

  lemma EmptyScan()
    ensures After(START, AtomsOf([])) == START && Cuts(START, AtomsOf([]), 0) == []
  {
  }

  /** How far into the content a run of tokens reaches. */
  function Length(tokens: seq<Token>): nat { |Text(AtomsOf(tokens))| }

  lemma {:induction false} AtomsConcat(a: seq<Token>, b: seq<Token>)
    ensures AtomsOf(a + b) == AtomsOf(a) + AtomsOf(b)
  {
    if a == [] {
      assert a + b == b;
    } else {
      assert (a + b)[1..] == a[1..] + b;
      AtomsConcat(a[1..], b);
    }
  }

  lemma OneTokenAtoms(t: Token)
    ensures AtomsOf([t]) == AtomsIn(t)
  {
    hide AtomsIn;
    assert [t][1..] == [] && AtomsIn(t) + [] == AtomsIn(t);
  }

  lemma AtomsUpTo(tokens: seq<Token>, i: nat)
    requires i < |tokens|
    ensures AtomsOf(tokens[..i + 1]) == AtomsOf(tokens[..i]) + AtomsIn(tokens[i])
  {
    hide AtomsIn, AtomsOf;
    assert tokens[..i + 1] == tokens[..i] + [tokens[i]];
    AtomsConcat(tokens[..i], [tokens[i]]);
    OneTokenAtoms(tokens[i]);
  }

  lemma AtomsSplit(tokens: seq<Token>, i: nat)
    requires i <= |tokens|
    ensures AtomsOf(tokens) == AtomsOf(tokens[..i]) + AtomsOf(tokens[i..])
  {
    hide AtomsIn, AtomsOf;
    assert tokens == tokens[..i] + tokens[i..];
    AtomsConcat(tokens[..i], tokens[i..]);
  }

  lemma FeedPosition(tokens: seq<Token>, i: nat)
    requires i < |tokens|
    ensures Length(tokens[..i]) <= |Text(AtomsOf(tokens))|
    ensures var a, b := AtomsOf(tokens[..i]), AtomsIn(tokens[i]);
            && After(START, AtomsOf(tokens[..i + 1])) == After(After(START, a), b)
            && Cuts(START, AtomsOf(tokens[..i + 1]), 0) == Cuts(START, a, 0) + Cuts(After(START, a), b, |Text(a)|)
  {
    hide After, Cuts, Text, AtomsOf, AtomsIn;
    AtomsUpTo(tokens, i);
    AtomsSplit(tokens, i);
    var a, b := AtomsOf(tokens[..i]), AtomsIn(tokens[i]);
    TextConcat(a, AtomsOf(tokens[i..]));
    AfterConcat(START, a, b);
    CutsConcat(START, a, b, 0);
  }

  lemma OneToken(s: Scan, t: Token, at: nat)
    requires t.Markup?
    ensures var a := Mark(t.kind, t.tag, t.raw);
            After(s, AtomsIn(t)) == Next(s, a) && Cuts(s, AtomsIn(t), at) == CutAt(s, a, at)
    ensures t.kind == Unheard ==> After(s, AtomsIn(t)) == s && Cuts(s, AtomsIn(t), at) == []
  {
    var a := Mark(t.kind, t.tag, t.raw);
    assert AtomsIn(t) == [a] && [a][1..] == [];
  }

  // ------------------------------------------------------------------
  // Blocks
  // ------------------------------------------------------------------

  datatype Block = Block(tag: string, html: string)

  /** Cuts that follow one another between two offsets. */
  predicate InOrder(cuts: seq<Cut>, from: nat, to: nat)
    decreases cuts
  {
    cuts == [] || (from <= cuts[0].at <= to && InOrder(cuts[1..], cuts[0].at, to))
  }

  function Slices(content: string, cuts: seq<Cut>, from: nat): seq<Block>
    requires InOrder(cuts, from, |content|)
    decreases cuts
  {
    if cuts == [] then []
    else
      assert InOrder(cuts[1..], cuts[0].at, |content|) && (|cuts| > 1 ==> cuts[1..][0] == cuts[1]);
      var end := if |cuts| > 1 then cuts[1].at else |content|;
      var html := RStrip(content[cuts[0].at..end]);
      (if html == "" then [] else [Block(cuts[0].tag, html)]) + Slices(content, cuts[1..], cuts[0].at)
  }

  /** A stretch of atoms from one cut to the next. */
  datatype Piece = Piece(tag: string, atoms: seq<Atom>)

  function Lead(s: Scan, atoms: seq<Atom>): (n: nat)
    ensures n <= |atoms|
    decreases atoms
  {
    if atoms == [] || Opens(s, atoms[0]).Some? then 0 else 1 + Lead(Next(s, atoms[0]), atoms[1..])
  }

  function Trim(atoms: seq<Atom>): (r: seq<Atom>)
    ensures |r| <= |atoms| && r == atoms[..|r|] && BlankAtoms(atoms[|r|..])
    ensures r != [] ==> !BlankAtom(r[|r| - 1])
  {
    if atoms == [] then [] else if BlankAtom(atoms[|atoms| - 1]) then Trim(atoms[..|atoms| - 1]) else atoms
  }

  /** How many atoms the first piece takes, when the atoms open one. */
  function Extent(s: Scan, atoms: seq<Atom>): (n: nat)
    requires atoms != []
    ensures 1 <= n <= |atoms|
  {
    1 + Lead(Next(s, atoms[0]), atoms[1..])
  }

  /** Atoms that begin a block, cut into the blocks they hold. */
  function Pieces(s: Scan, atoms: seq<Atom>): seq<Piece>
    decreases |atoms|
  {
    if atoms == [] then []
    else match Opens(s, atoms[0])
      case None => []
      case Some(tag) =>
        var n := Extent(s, atoms);
        [Piece(tag, Trim(atoms[..n]))] + Pieces(After(s, atoms[..n]), atoms[n..])
  }

  /** The blocks of some atoms: what follows whatever begins nothing. */
  function Split(atoms: seq<Atom>): seq<Piece> {
    var n := Lead(START, atoms);
    Pieces(After(START, atoms[..n]), atoms[n..])
  }

  function Htmls(pieces: seq<Piece>): seq<Block> {
    if pieces == [] then [] else [Block(pieces[0].tag, Text(pieces[0].atoms))] + Htmls(pieces[1..])
  }

  /** The atoms before the next cut are silent, and the atom there, if any, opens a block. */
  lemma {:induction false} LeadIsSilent(s: Scan, atoms: seq<Atom>, at: nat)
    ensures Cuts(s, atoms[..Lead(s, atoms)], at) == []
    ensures var n := Lead(s, atoms); n < |atoms| ==> Opens(After(s, atoms[..n]), atoms[n]).Some?
    decreases atoms
  {
    if atoms != [] && Opens(s, atoms[0]).None? {
      var n := Lead(s, atoms);
      LeadIsSilent(Next(s, atoms[0]), atoms[1..], at + |Raw(atoms[0])|);
      assert atoms[..n][1..] == atoms[1..][..n - 1];
    }
  }

  lemma {:induction false} TrimIsRStrip(atoms: seq<Atom>)
    requires AllSolid(atoms)
    ensures RStrip(Text(atoms)) == Text(Trim(atoms))
  {
    if atoms != [] {
      var k := |atoms| - 1;
      assert atoms == atoms[..k] + [atoms[k]];
      TextConcat(atoms[..k], [atoms[k]]);
      assert [atoms[k]][1..] == [];
      assert Solid(atoms[k]);
      if BlankAtom(atoms[k]) {
        assert AllSolid(atoms[..k]);
        TrimIsRStrip(atoms[..k]);
        assert Text(atoms)[..|Text(atoms)| - 1] == Text(atoms[..k]);
      }
    }
  }

  lemma OpenerIsKept(s: Scan, atoms: seq<Atom>)
    requires atoms != [] && AllSolid(atoms) && Opens(s, atoms[0]).Some?
    ensures Trim(atoms) != [] && Trim(atoms)[0] == atoms[0]
    ensures Text(Trim(atoms)) != "" && !IsBlank(Text(Trim(atoms))[0])
  {
    var t := Trim(atoms);
    assert t == [] ==> BlankAtom(atoms[|t|..][0]);
    assert Solid(atoms[0]);
  }

  lemma {:induction false} CutsInOrder(s: Scan, atoms: seq<Atom>, from: nat, at: nat)
    requires from <= at
    ensures InOrder(Cuts(s, atoms, at), from, at + |Text(atoms)|)
    decreases atoms
  {
    hide Opens, Next, InOrder;
    if atoms == [] {
      NoCutsInOrder(from, at);
    } else {
      var s', rest, at' := Next(s, atoms[0]), atoms[1..], at + |Raw(atoms[0])|;
      CutsInOrder(s', rest, at, at');
      CutsInOrder(s', rest, from, at');
      match Opens(s, atoms[0])
      case Some(tag) => OneMoreInOrder(Cut(at, tag), Cuts(s', rest, at'), from, at + |Text(atoms)|);
      case None => assert Cuts(s, atoms, at) == Cuts(s', rest, at');
    }
  }

  lemma NoCutsInOrder(from: nat, to: nat)
    ensures InOrder([], from, to)
  {
  }

  lemma OneMoreInOrder(c: Cut, later: seq<Cut>, from: nat, to: nat)
    requires from <= c.at <= to && InOrder(later, c.at, to)
    ensures InOrder([c] + later, from, to)
  {
    assert ([c] + later)[1..] == later;
  }

  lemma SilentExtent(s: Scan, atoms: seq<Atom>, at: nat)
    requires atoms != []
    ensures var n := Extent(s, atoms);
            Cuts(s, atoms[..n], at) == CutAt(s, atoms[0], at)
              && (n < |atoms| ==> Opens(After(s, atoms[..n]), atoms[n]).Some?)
  {
    hide Opens, Next, Lead, Raw;
    var n := Extent(s, atoms);
    var a := atoms[..n];
    assert a[0] == atoms[0] && a[1..] == atoms[1..][..n - 1];
    LeadIsSilent(Next(s, atoms[0]), atoms[1..], at + |Raw(atoms[0])|);
  }

  /** The first cut of atoms that open a block is where they stand; the next, where the next piece does. */
  lemma FirstPiece(s: Scan, atoms: seq<Atom>, at: nat)
    requires atoms != [] && Opens(s, atoms[0]).Some?
    ensures var n := Extent(s, atoms);
            && Cuts(s, atoms, at) == [Cut(at, Opens(s, atoms[0]).value)]
                                   + Cuts(After(s, atoms[..n]), atoms[n..], at + |Text(atoms[..n])|)
            && Text(atoms) == Text(atoms[..n]) + Text(atoms[n..])
            && (n < |atoms| ==> Opens(After(s, atoms[..n]), atoms[n]).Some?)
  {
    hide Opens, Next, Lead, Raw, Cuts, After, Text, Extent;
    var n := Extent(s, atoms);
    var a, b := atoms[..n], atoms[n..];
    assert atoms == a + b;
    CutsConcat(s, a, b, at);
    TextConcat(a, b);
    SilentExtent(s, atoms, at);
  }

  lemma SliceApart(content: string, at: nat, a: string, b: string)
    requires at <= |content| && content[at..] == a + b
    ensures at + |a| <= |content| && content[at..at + |a|] == a && content[at + |a|..] == b
  {
    assert content[at..][..|a|] == content[at..at + |a|] && content[at..][|a|..] == content[at + |a|..];
  }

  /** The first of some cuts, whose slice is a piece that opens a block, and the others. */
  lemma FirstSlice(content: string, s: Scan, p: seq<Atom>, at: nat, later: seq<Cut>, from: nat)
    requires AllSolid(p) && p != [] && Opens(s, p[0]).Some?
    requires at + |Text(p)| <= |content| && content[at..at + |Text(p)|] == Text(p)
    requires InOrder([Cut(at, Opens(s, p[0]).value)] + later, from, |content|)
    requires if later == [] then at + |Text(p)| == |content| else later[0].at == at + |Text(p)|
    ensures var cuts := [Cut(at, Opens(s, p[0]).value)] + later;
            && InOrder(later, at, |content|)
            && Slices(content, cuts, from) == [Block(Opens(s, p[0]).value, Text(Trim(p)))] + Slices(content, later, at)
  {
    hide Opens, RStrip, Trim, Text, Slices, InOrder;
    var cuts := [Cut(at, Opens(s, p[0]).value)] + later;
    assert cuts[1..] == later && (|cuts| > 1 ==> cuts[1] == later[0]);
    SliceStep(content, cuts, from);
    TrimIsRStrip(p);
    OpenerIsKept(s, p);
  }

  /** Slicing the content at the cuts gives the pieces, one block a cut. */
  lemma {:induction false} SlicesArePieces(content: string, s: Scan, atoms: seq<Atom>, from: nat, at: nat)
    requires AllSolid(atoms) && at <= |content| && content[at..] == Text(atoms)
    requires atoms != [] ==> Opens(s, atoms[0]).Some?
    requires InOrder(Cuts(s, atoms, at), from, |content|)
    ensures Slices(content, Cuts(s, atoms, at), from) == Htmls(Pieces(s, atoms))
    ensures |Pieces(s, atoms)| == |Cuts(s, atoms, at)|
    decreases |atoms|
  {
    hide Opens, Next, RStrip, Trim, Lead, Cuts, Text, After, Slices, InOrder, Htmls, Extent;
    if atoms == [] {
      NextCut(s, atoms, at);
      NoHtmls();
      SliceStep(content, [], from);
    } else {
      FirstPiece(s, atoms, at);
      var n := Extent(s, atoms);
      var p, s', rest, at' := atoms[..n], After(s, atoms[..n]), atoms[n..], at + |Text(atoms[..n])|;
      SliceApart(content, at, Text(p), Text(rest));
      NextCut(s', rest, at');
      FirstSlice(content, s, p, at, Cuts(s', rest, at'), from);
      SlicesArePieces(content, s', rest, at, at');
      FirstHtml(Piece(Opens(s, atoms[0]).value, Trim(p)), Pieces(s', rest));
    }
  }

  lemma NoHtmls()
    ensures Htmls([]) == []
  {
  }

  lemma FirstHtml(p: Piece, rest: seq<Piece>)
    ensures Htmls([p] + rest) == [Block(p.tag, Text(p.atoms))] + Htmls(rest)
  {
    assert ([p] + rest)[1..] == rest;
  }

  lemma NextCut(s: Scan, atoms: seq<Atom>, at: nat)
    requires atoms != [] ==> Opens(s, atoms[0]).Some?
    ensures atoms == [] ==> Cuts(s, atoms, at) == [] && Text(atoms) == ""
    ensures atoms != [] ==> Cuts(s, atoms, at) != [] && Cuts(s, atoms, at)[0].at == at
  {
  }

  /** The splitter's blocks depend on the atoms alone: not on how the parser chunks text into tokens. */
  lemma SlicesAreSplit(atoms: seq<Atom>)
    requires AllSolid(atoms)
    ensures InOrder(Cuts(START, atoms, 0), 0, |Text(atoms)|)
    ensures Slices(Text(atoms), Cuts(START, atoms, 0), 0) == Htmls(Split(atoms))
    ensures |Split(atoms)| == |Cuts(START, atoms, 0)|
  {
    hide Opens, Next, Slices, Lead, Cuts, Text, After, Pieces, InOrder;
    var n := Lead(START, atoms);
    var a, b := atoms[..n], atoms[n..];
    assert atoms == a + b;
    LeadIsSilent(START, atoms, 0);
    CutsConcat(START, a, b, 0);
    TextConcat(a, b);
    CutsInOrder(START, atoms, 0, 0);
    assert Cuts(START, atoms, 0) == Cuts(After(START, a), b, |Text(a)|);
    SlicesArePieces(Text(atoms), After(START, a), b, 0, |Text(a)|);
  }

  method SplitBlocks(content: string, tokens: seq<Token>) returns (blocks: seq<Block>)
    requires content == Text(AtomsOf(tokens)) && AllSolid(AtomsOf(tokens))
    ensures blocks == Htmls(Split(AtomsOf(tokens)))
  {
    hide Cuts, Slices, Split, Text, InOrder, AllSolid;
    ghost var atoms := AtomsOf(tokens);
    SlicesAreSplit(atoms);
    if LeadingBlanks(content) == |content| {
      BlankContent(atoms);
      return [];
    }
    var parser := new Splitter(content);
    parser.Feed(tokens);
    blocks := SliceAll(content, parser.cuts);
  }

  /** The loop over the cuts. */
  method SliceAll(content: string, cuts: seq<Cut>) returns (blocks: seq<Block>)
    requires InOrder(cuts, 0, |content|)
    ensures blocks == Slices(content, cuts, 0)
  {
    hide Slices, RStrip, InOrder;
    blocks := [];
    ghost var from := 0;
    for index := 0 to |cuts|
      invariant InOrder(cuts[index..], from, |content|)
      invariant blocks + Slices(content, cuts[index..], from) == Slices(content, cuts, 0)
    {
      SliceStep(content, cuts[index..], from);
      assert cuts[index..][1..] == cuts[index + 1..];
      var start, end := cuts[index].at, if index + 1 < |cuts| then cuts[index + 1].at else |content|;
      var html := RStrip(content[start..end]);
      if html != "" { blocks := blocks + [Block(cuts[index].tag, html)]; }
      from := start;
    }
    SliceStep(content, cuts[|cuts|..], from);
  }

  lemma SliceStep(content: string, cuts: seq<Cut>, from: nat)
    requires InOrder(cuts, from, |content|)
    ensures cuts == [] ==> Slices(content, cuts, from) == []
    ensures cuts != [] ==>
              var start, end := cuts[0].at, if |cuts| > 1 then cuts[1].at else |content|;
              start <= end <= |content| && InOrder(cuts[1..], start, |content|) &&
              var html := RStrip(content[start..end]);
              Slices(content, cuts, from)
                == (if html == "" then [] else [Block(cuts[0].tag, html)]) + Slices(content, cuts[1..], start)
  {
    hide RStrip;
  }

  lemma {:induction false} BlankContent(atoms: seq<Atom>)
    requires AllSolid(atoms) && AllBlank(Text(atoms))
    ensures BlankAtoms(atoms) && Split(atoms) == []
  {
    BlankTextBlankAtoms(atoms);
    SilentLead(START, atoms);
  }

  lemma {:induction false} BlankTextBlankAtoms(atoms: seq<Atom>)
    requires AllSolid(atoms) && AllBlank(Text(atoms))
    ensures BlankAtoms(atoms)
  {
    if atoms != [] {
      assert Solid(atoms[0]) && IsBlank(Text(atoms)[|Raw(atoms[0])| - 1]);
      assert Text(atoms[1..]) == Text(atoms)[|Raw(atoms[0])|..];
      BlankTextBlankAtoms(atoms[1..]);
    }
  }

  lemma {:induction false} SilentLead(s: Scan, atoms: seq<Atom>)
    requires BlankAtoms(atoms)
    ensures Lead(s, atoms) == |atoms|
  {
    if atoms != [] {
      assert BlankAtom(atoms[0]);
      SilentLead(s, atoms[1..]);
    }
  }
}
