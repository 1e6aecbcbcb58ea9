/**
 Which blocks a chapter of whole elements has: one each.  Depth is compared with a count of open elements that
 knows nothing of the scan, and the blocks of a chapter with the parts it was laid out from.
 */
module BlockElements {
  import opened Prelude
  import opened Blocks
  import opened BlockLaws

  // ------------------------------------------------------------------
  // Depth is the number of elements left open
  // ------------------------------------------------------------------

  /** How many elements are open after some atoms, when h were before.  Void elements are never open, and a
      close tag with nothing open closes nothing. */
  function Open(h: nat, atoms: seq<Atom>): nat
    decreases atoms
  {
    if atoms == [] then h
    else match atoms[0]
      case Mark(StartTag, tag, _) => Open(if tag in VOID_TAGS then h else h + 1, atoms[1..])
      case Mark(EndTag, tag, _) => Open(if tag in VOID_TAGS || h == 0 then h else h - 1, atoms[1..])
      case _ => Open(h, atoms[1..])
  }

  lemma {:induction false} DepthIsOpen(s: Scan, atoms: seq<Atom>)
    ensures After(s, atoms).depth == Open(s.depth, atoms)
    decreases atoms
  {
    if atoms != [] { DepthIsOpen(Next(s, atoms[0]), atoms[1..]); }
  }

  // ------------------------------------------------------------------
  // Parts of a chapter
  // ------------------------------------------------------------------

  /** What stands in an element: h elements of it are open, and the last of the atoms leaves none open; before
      that at least one always is. */
  predicate Closes(h: nat, atoms: seq<Atom>)
    decreases atoms
  {
    atoms != [] && h > 0 &&
    match atoms[0]
    case Mark(StartTag, tag, _) => Closes(if tag in VOID_TAGS then h else h + 1, atoms[1..])
    case Mark(EndTag, tag, _) =>
      if tag in VOID_TAGS then Closes(h, atoms[1..])
      else if h > 1 then Closes(h - 1, atoms[1..])
      else |atoms| == 1
    case _ => Closes(h, atoms[1..])
  }

  /** A whole element: a void one, one that closes itself, or a start tag up to where it is closed. */
  predicate Element(atoms: seq<Atom>) {
    && atoms != [] && atoms[0].Mark?
    && match atoms[0].kind
       case StartTag => if atoms[0].tag in VOID_TAGS then |atoms| == 1 else Closes(1, atoms[1..])
       case StartEndTag => |atoms| == 1
       case _ => false
  }

  /** Text between elements: no element begins in it, it begins with something that counts as text and ends in
      something that is not blank. */
  predicate Words(atoms: seq<Atom>) {
    && atoms != [] && !BlankAtom(atoms[|atoms| - 1])
    && (match atoms[0]
        case Char(c) => !IsBlank(c)
        case Mark(EndTag, tag, _) => tag !in VOID_TAGS
        case Mark(Opaque, _, _) => true
        case _ => false)
    && forall i :: 0 <= i < |atoms| ==> atoms[i].Mark? ==> atoms[i].kind != StartTag && atoms[i].kind != StartEndTag
  }

  predicate Part(atoms: seq<Atom>) { Element(atoms) || Words(atoms) }

  function TagOf(part: seq<Atom>): string
    requires Part(part)
  {
    if Element(part) then part[0].tag else TEXT_TAG
  }

  /** Parts laid out one after the other, blanks before each and after the last; two stretches of text are
      never neighbours. */
  ghost predicate Layout(parts: seq<seq<Atom>>, gaps: seq<seq<Atom>>) {
    && |gaps| == |parts| + 1
    && (forall i :: 0 <= i < |parts| ==> Part(parts[i]))
    && (forall i :: 0 <= i < |gaps| ==> BlankAtoms(gaps[i]))
    && (forall i :: 0 <= i < |parts| - 1 ==> Element(parts[i]) || Element(parts[i + 1]))
  }

  /** The parts with the gap that follows each. */
  function Laid(parts: seq<seq<Atom>>, gaps: seq<seq<Atom>>): seq<Atom>
    requires |gaps| == |parts|
  {
    if parts == [] then [] else parts[0] + gaps[0] + Laid(parts[1..], gaps[1..])
  }

  /** One block a part, with the part's tag. */
  function Expected(parts: seq<seq<Atom>>): seq<Piece>
    requires forall i :: 0 <= i < |parts| ==> Part(parts[i])
  {
    if parts == [] then []
    else [Piece(TagOf(parts[0]), parts[0])] + Expected(parts[1..])
  }

  // ------------------------------------------------------------------
  // One part
  // ------------------------------------------------------------------

  /** Inside an element nothing begins a block, and where it is closed nothing is left open. */
  lemma {:induction false} InsideElement(s: Scan, atoms: seq<Atom>)
    requires Closes(s.depth, atoms)
    ensures Lead(s, atoms) == |atoms| && After(s, atoms) == Scan(0, s.textOpen) && !BlankAtom(atoms[|atoms| - 1])
    decreases atoms
  {
    if |atoms| == 1 {
      assert atoms[1..] == [];
    } else {
      InsideElement(Next(s, atoms[0]), atoms[1..]);
    }
  }

  lemma {:induction false} InsideWords(s: Scan, atoms: seq<Atom>)
    requires s == Scan(0, true)
    requires forall i :: 0 <= i < |atoms| ==> atoms[i].Mark? ==>
        atoms[i].kind != StartTag && atoms[i].kind != StartEndTag
    ensures Lead(s, atoms) == |atoms| && After(s, atoms) == s
    decreases atoms
  {
    if atoms != [] {
      assert Next(s, atoms[0]) == s;
      assert forall i :: 0 <= i < |atoms[1..]| ==> atoms[1..][i] == atoms[i + 1];
      InsideWords(s, atoms[1..]);
    }
  }

  /** A part at the top level begins one block and nothing else, unless it is text that goes on. */
  lemma PartIsPiece(s: Scan, part: seq<Atom>)
    requires Part(part) && s.depth == 0 && (s.textOpen ==> Element(part))
    ensures part != [] && Opens(s, part[0]) == Some(TagOf(part))
    ensures Lead(Next(s, part[0]), part[1..]) == |part| - 1 && !BlankAtom(part[|part| - 1])
    ensures After(s, part) == Scan(0, !Element(part))
  {
    hide Closes;
    if Element(part) { ElementIsPiece(s, part); } else { WordsArePiece(s, part); }
  }

  lemma ElementIsPiece(s: Scan, part: seq<Atom>)
    requires Element(part) && s.depth == 0
    ensures Opens(s, part[0]) == Some(part[0].tag)
    ensures Lead(Next(s, part[0]), part[1..]) == |part| - 1 && !BlankAtom(part[|part| - 1])
    ensures After(s, part) == Scan(0, false)
  {
    hide Closes;
    if |part| == 1 { assert part[1..] == []; }
    if part[0].kind == StartTag && part[0].tag !in VOID_TAGS { InsideElement(Scan(1, false), part[1..]); }
  }

  lemma WordsArePiece(s: Scan, part: seq<Atom>)
    requires Words(part) && s == START
    ensures Opens(s, part[0]) == Some(TEXT_TAG)
    ensures Lead(Next(s, part[0]), part[1..]) == |part| - 1 && !BlankAtom(part[|part| - 1])
    ensures After(s, part) == Scan(0, true)
  {
    assert forall i :: 0 <= i < |part[1..]| ==> part[1..][i] == part[i + 1];
    InsideWords(Scan(0, true), part[1..]);
  }

  lemma TrimPart(part: seq<Atom>, gap: seq<Atom>)
    requires part != [] && !BlankAtom(part[|part| - 1]) && BlankAtoms(gap)
    ensures Trim(part + gap) == part
    decreases |gap|
  {
    if gap == [] {
      assert part + gap == part;
    } else {
      assert BlankAtom((part + gap)[|part + gap| - 1]) by { assert BlankAtom(gap[|gap| - 1]); }
      assert (part + gap)[..|part + gap| - 1] == part + gap[..|gap| - 1];
      TrimPart(part, gap[..|gap| - 1]);
    }
  }

  lemma {:induction false} LeadBlanks(s: Scan, gap: seq<Atom>)
    requires BlankAtoms(gap)
    ensures Lead(s, gap) == |gap| && After(s, gap) == s
    decreases gap
  {
    if gap != [] {
      assert BlankAtom(gap[0]);
      LeadBlanks(s, gap[1..]);
    }
  }

  lemma {:induction false} LeadThrough(s: Scan, a: seq<Atom>, b: seq<Atom>)
    requires Lead(s, a) == |a|
    ensures Lead(s, a + b) == |a| + Lead(After(s, a), b)
    decreases a
  {
    if a == [] {
      assert a + b == b;
    } else {
      assert (a + b)[1..] == a[1..] + b;
      LeadThrough(Next(s, a[0]), a[1..], b);
    }
  }

  /** The first part, the blanks after it, and what follows. */
  lemma FirstPart(s: Scan, part: seq<Atom>, gap: seq<Atom>, rest: seq<Atom>)
    requires Part(part) && s.depth == 0 && (s.textOpen ==> Element(part)) && BlankAtoms(gap)
    requires rest != [] ==> Opens(Scan(0, !Element(part)), rest[0]).Some?
    ensures Pieces(s, part + gap + rest) == [Piece(TagOf(part), part)] + Pieces(Scan(0, !Element(part)), rest)
  {
    hide Part, Element, Opens, Next, Trim, After, Pieces, Lead, TagOf;
    PartIsPiece(s, part);
    var body, s1 := part + gap, Next(s, part[0]);
    assert body[1..] == part[1..] + gap;
    AfterFirst(s, part);
    LeadThrough(s1, part[1..], gap);
    LeadBlanks(After(s1, part[1..]), gap);
    AfterConcat(s, part, gap);
    LeadThrough(s1, body[1..], rest);
    AfterFirst(s, body);
    NoLead(After(s, body), rest);
    assert (body + rest)[1..] == body[1..] + rest;
    PiecesAt(s, body, rest);
    TrimPart(part, gap);
  }

  lemma NoLead(s: Scan, rest: seq<Atom>)
    requires rest != [] ==> Opens(s, rest[0]).Some?
    ensures Lead(s, rest) == 0
  {
  }

  // ------------------------------------------------------------------
  // All parts
  // ------------------------------------------------------------------

  ghost predicate Follows(s: Scan, parts: seq<seq<Atom>>) { parts != [] && s.textOpen ==> Element(parts[0]) }

  lemma {:induction false} PartsArePieces(s: Scan, parts: seq<seq<Atom>>, gaps: seq<seq<Atom>>, last: seq<Atom>)
    requires |gaps| == |parts| && Layout(parts, gaps + [last]) && s.depth == 0 && Follows(s, parts)
    ensures Pieces(s, Laid(parts, gaps)) == Expected(parts)
    ensures parts != [] ==> Laid(parts, gaps) != [] && Opens(s, Laid(parts, gaps)[0]).Some?
    decreases parts
  {
    hide Part, Element, Opens, Trim, After, Pieces, Lead, TagOf;
    if parts == [] {
      NoPieces(s);
    } else {
      var s' := Scan(0, !Element(parts[0]));
      RestOfLayout(parts, gaps, last);
      PartsArePieces(s', parts[1..], gaps[1..], last);
      LaidNothing(parts[1..], gaps[1..]);
      PartIsPiece(s, parts[0]);
      FirstPart(s, parts[0], gaps[0], Laid(parts[1..], gaps[1..]));
    }
  }

  lemma LaidNothing(parts: seq<seq<Atom>>, gaps: seq<seq<Atom>>)
    requires |gaps| == |parts|
    ensures parts == [] ==> Laid(parts, gaps) == []
  {
  }

  lemma RestOfLayout(parts: seq<seq<Atom>>, gaps: seq<seq<Atom>>, last: seq<Atom>)
    requires parts != [] && |gaps| == |parts| && Layout(parts, gaps + [last])
    ensures Part(parts[0]) && BlankAtoms(gaps[0]) && Layout(parts[1..], gaps[1..] + [last])
    ensures Follows(Scan(0, !Element(parts[0])), parts[1..])
  {
    hide Part, Element, BlankAtoms;
    var all := gaps + [last];
    assert all[0] == gaps[0] && all[1..] == gaps[1..] + [last];
    assert forall i :: 0 <= i < |parts[1..]| ==> parts[1..][i] == parts[i + 1];
    assert forall i :: 0 <= i < |all[1..]| ==> all[1..][i] == all[i + 1];
  }

  /** A chapter of whole elements and stretches of text, with any blanks between, splits into exactly those, each
      with its own tag: a void element is one block, and so is an element however deep. */
  lemma SplitIsLayout(parts: seq<seq<Atom>>, gaps: seq<seq<Atom>>)
    requires Layout(parts, gaps)
    ensures Split(gaps[0] + Laid(parts, gaps[1..])) == Expected(parts)
  {
    hide Part, Element, Opens, Next, After, Pieces, Lead, TagOf, Laid;
    var first, rest := gaps[0], Laid(parts, gaps[1..]);
    Shifted(parts, gaps);
    PartsArePieces(START, parts, gaps[1..], []);
    LaidNothing(parts, gaps[1..]);
    LeadBlanks(START, first);
    LeadThrough(START, first, rest);
    NoLead(START, rest);
    assert (first + rest)[..|first|] == first && (first + rest)[|first|..] == rest;
  }

  lemma Shifted(parts: seq<seq<Atom>>, gaps: seq<seq<Atom>>)
    requires Layout(parts, gaps)
    ensures BlankAtoms(gaps[0]) && Layout(parts, gaps[1..] + [[]])
  {
    hide Part, Element;
    var shifted := gaps[1..] + [[]];
    forall i | 0 <= i < |shifted| ensures BlankAtoms(shifted[i]) {
      if i < |parts| { assert shifted[i] == gaps[i + 1]; }
    }
  }

  lemma {:induction false} ExpectedAt(parts: seq<seq<Atom>>, i: nat)
    requires i < |parts| && forall j :: 0 <= j < |parts| ==> Part(parts[j])
    ensures |Expected(parts)| == |parts| && Expected(parts)[i] == Piece(TagOf(parts[i]), parts[i])
  {
    hide Part, TagOf;
    if i > 0 { ExpectedAt(parts[1..], i - 1); } else if |parts| > 1 { ExpectedAt(parts[1..], 0); }
  }
}
