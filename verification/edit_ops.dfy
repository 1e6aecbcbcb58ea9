/** Positional edits of a chapter's blocks: validated, put in order, and applied back to front in place. */
module EditOps {
  import opened Prelude
  import opened Blocks
  import opened BlockLaws
  import opened Ordering

  const MAX_OPS_PER_CALL: nat := 20
  const MAX_CHAPTER_CONTENT_CHARS: nat := 100_000
  const PLAIN_BLOCK_TAGS: set<string> := {"p", TEXT_TAG}
  const HEADING_TAGS: set<string> := {"h1", "h2", "h3", "h4", "h5", "h6"}

  datatype EditError =
    | NotAList | NoOps | TooManyOps
    | NotAnOp | BadAction | BadIndex | BadText | EmptyInsert
    | SameBlock(index: int)
    | OutOfRange(index: int)
    | NotSingleLine(index: int)
    | Structural(index: int)

  // ------------------------------------------------------------------
  // Rendering prose
  // ------------------------------------------------------------------

  /** Plain text with the paragraphs that blank lines divide it into. */
  datatype Prose = Prose(text: string, paragraphs: seq<string>)

  function Escaped(c: char): string {
    if c == '&' then "&amp;" else if c == '<' then "&lt;" else if c == '>' then "&gt;" else [c]
  }

  function Escape(s: string): string { if s == "" then "" else Escaped(s[0]) + Escape(s[1..]) }

  function Strip(s: string): string { RStrip(s[LeadingBlanks(s)..]) }

  function WrapAll(paragraphs: seq<string>): seq<string> {
    if paragraphs == [] then []
    else
      var block := Strip(paragraphs[0]);
      (if block == "" then [] else ["<p>" + Escape(block) + "</p>"]) + WrapAll(paragraphs[1..])
  }

  function ToParagraphHtml(p: Prose): string {
    if LeadingBlanks(p.text) == |p.text| then "" else JoinBlocks(WrapAll(p.paragraphs))
  }

  /** The words of a text, one space between. */
  function OneLine(s: string): string {
    if s == "" then ""
    else if IsBlank(s[0]) then OneLine(s[1..])
    else if |s| > 1 && IsBlank(s[1]) && OneLine(s[1..]) != "" then [s[0], ' '] + OneLine(s[1..])
    else [s[0]] + OneLine(s[1..])
  }

  /** Escaped text holds no markup of its own. */
  lemma {:induction false} EscapeHasNoMarkup(s: string)
    ensures '<' !in Escape(s) && '>' !in Escape(s)
  {
    if s != "" { EscapeHasNoMarkup(s[1..]); }
  }

  // ------------------------------------------------------------------
  // Operations
  // ------------------------------------------------------------------

  datatype Action = Replace | InsertAfter

  /** One operation as the caller sent it; None marks a value of the wrong kind. */
  datatype RawOp = NotAnObject | RawOp(action: Option<Action>, index: Option<int>, text: Option<Prose>)

  datatype Op = Op(action: Action, index: int, html: string, text: Prose)

  function Check(raw: RawOp): Result<Op, EditError> {
    if raw.NotAnObject? then Err(NotAnOp)
    else if raw.action.None? then Err(BadAction)
    else if raw.index.None? then Err(BadIndex)
    else if raw.text.None? then Err(BadText)
    else
      var html := ToParagraphHtml(raw.text.value);
      if raw.action.value.InsertAfter? && html == "" then Err(EmptyInsert)
      else Ok(Op(raw.action.value, raw.index.value, html, raw.text.value))
  }

  function Indices(ops: seq<Op>): set<int> { set i | 0 <= i < |ops| :: ops[i].index }

  /** The operations in the order listed, or the first fault found going through them. */
  function Collected(raw: seq<RawOp>): Result<seq<Op>, EditError> {
    if raw == [] then Ok([])
    else
      var before := Collected(raw[..|raw| - 1]);
      if before.Err? then before
      else match Check(raw[|raw| - 1])
        case Err(e) => Err(e)
        case Ok(op) => if op.index in Indices(before.value) then Err(SameBlock(op.index)) else Ok(before.value + [op])
  }

  predicate IndexAbove(a: Op, b: Op) { a.index > b.index }

  function SortDescending(ops: seq<Op>): seq<Op> { Sort(ops, IndexAbove) }

  function Normalized(raw: Option<seq<RawOp>>): Result<seq<Op>, EditError> {
    match raw
    case None => Err(NotAList)
    case Some(list) =>
      if list == [] then Err(NoOps)
      else if |list| > MAX_OPS_PER_CALL then Err(TooManyOps)
      else match Collected(list) case Err(e) => Err(e) case Ok(ops) => Ok(SortDescending(ops))
  }

  method NormalizeOps(raw: Option<seq<RawOp>>) returns (r: Result<seq<Op>, EditError>)
    ensures r == Normalized(raw)
  {
    if raw.None? { return Err(NotAList); }
    var list := raw.value;
    if list == [] { return Err(NoOps); }
    if |list| > MAX_OPS_PER_CALL { return Err(TooManyOps); }
    var normalized: seq<Op>, seen: set<int> := [], {};
    for k := 0 to |list|
      invariant Collected(list[..k]) == Ok(normalized) && seen == Indices(normalized)
    {
      assert list[..k + 1][..k] == list[..k];
      var checked := Check(list[k]);
      if checked.Err? {
        CollectedPrefix(list, k + 1);
        return Err(checked.error);
      }
      var op := checked.value;
      if op.index in seen {
        CollectedPrefix(list, k + 1);
        return Err(SameBlock(op.index));
      }
      seen := seen + {op.index};
      IndicesConcat(normalized, op);
      normalized := normalized + [op];
    }
    assert list[..|list|] == list;
    return Ok(SortDescending(normalized));
  }

  lemma IndicesConcat(ops: seq<Op>, op: Op)
    ensures Indices(ops + [op]) == Indices(ops) + {op.index}
  {
    var all := ops + [op];
    assert all[|ops|] == op;
    forall x | x in Indices(ops) ensures x in Indices(all) {
      var i :| 0 <= i < |ops| && ops[i].index == x;
      assert all[i] == ops[i];
    }
  }

  lemma {:induction false} CollectedPrefix(raw: seq<RawOp>, k: nat)
    requires k <= |raw| && Collected(raw[..k]).Err?
    ensures Collected(raw) == Collected(raw[..k])
  {
    if k == |raw| {
      assert raw[..k] == raw;
    } else {
      assert raw[..|raw| - 1][..k] == raw[..k];
      CollectedPrefix(raw[..|raw| - 1], k);
    }
  }

  // ------------------------------------------------------------------
  // The order the caller listed operations in does not matter
  // ------------------------------------------------------------------

  ghost predicate Descending(ops: seq<Op>) { forall i, j :: 0 <= i < j < |ops| ==> ops[i].index > ops[j].index }

  ghost predicate DistinctIndices(ops: seq<Op>) { forall i, j :: 0 <= i < j < |ops| ==> ops[i].index != ops[j].index }

  lemma IndexOrders()
    ensures Orders(IndexAbove)
  {
  }

  lemma SortedDescending(ops: seq<Op>)
    requires DistinctIndices(ops)
    ensures Descending(SortDescending(ops)) && multiset(SortDescending(ops)) == multiset(ops)
  {
    hide Sort;
    IndexOrders();
    SortSorts(ops, IndexAbove);
    DistinctSort(ops, IndexAbove);
    SortPermutes(ops, IndexAbove);
  }

  lemma IndicesCount(front: seq<Op>, last: Op)
    ensures |Indices(front + [last])| == |Indices(front)| + if last.index in Indices(front) then 0 else 1
  {
    hide Indices;
    IndicesConcat(front, last);
    if last.index in Indices(front) { assert Indices(front) + {last.index} == Indices(front); }
  }

  lemma DistinctPush(front: seq<Op>, last: Op)
    ensures DistinctIndices(front + [last]) <==> DistinctIndices(front) && last.index !in Indices(front)
  {
    var all := front + [last];
    assert forall i :: 0 <= i < |front| ==> all[i] == front[i] && front[i].index in Indices(front);
    if last.index in Indices(front) {
      var i :| 0 <= i < |front| && front[i].index == last.index;
      assert all[i].index == all[|front|].index;
    }
  }

  lemma {:induction false} DistinctByCount(ops: seq<Op>)
    ensures |Indices(ops)| <= |ops| && (|Indices(ops)| == |ops| <==> DistinctIndices(ops))
  {
    hide Indices, DistinctIndices;
    if ops == [] {
      NoIndices();
    } else {
      var front, last := ops[..|ops| - 1], ops[|ops| - 1];
      assert ops == front + [last];
      DistinctByCount(front);
      IndicesCount(front, last);
      DistinctPush(front, last);
    }
  }

  lemma NoIndices()
    ensures Indices([]) == {} && DistinctIndices([])
  {
  }

  /** Collecting succeeds exactly when every operation is valid and no two name one block. */
  lemma {:induction false} CollectedOk(raw: seq<RawOp>)
    ensures Collected(raw).Ok? ==>
              && |Collected(raw).value| == |raw|
              && (forall i :: 0 <= i < |raw| ==> Check(raw[i]) == Ok(Collected(raw).value[i]))
              && DistinctIndices(Collected(raw).value)
    ensures Collected(raw).Err? ==>
              || (exists i :: 0 <= i < |raw| && Check(raw[i]).Err?)
              || (exists i, j :: 0 <= i < j < |raw| && Check(raw[i]).Ok? && Check(raw[j]).Ok?
                                 && Check(raw[i]).value.index == Check(raw[j]).value.index)
  {
    hide Check;
    if raw != [] {
      var front, last := raw[..|raw| - 1], raw[|raw| - 1];
      CollectedOk(front);
      assert forall i :: 0 <= i < |front| ==> front[i] == raw[i];
      if Collected(front).Ok? && Check(last).Ok? && Check(last).value.index in Indices(Collected(front).value) {
        var ops := Collected(front).value;
        var i :| 0 <= i < |ops| && ops[i].index == Check(last).value.index;
        assert Check(raw[i]) == Ok(ops[i]);
      } else if Collected(front).Ok? && Check(last).Ok? {
        var ops := Collected(front).value;
        forall i | 0 <= i < |ops| ensures ops[i].index != Check(last).value.index {
          assert ops[i].index in Indices(ops);
        }
      }
    }
  }

  lemma PermutationsAgree<T(!new)>(a: seq<T>, b: seq<T>)
    requires multiset(a) == multiset(b)
    ensures |a| == |b| && SameElements(a, b)
  {
    assert |multiset(a)| == |a| && |multiset(b)| == |b|;
    forall x ensures x in a <==> x in b { assert x in multiset(a) <==> x in multiset(b); }
  }

  /** If one order collects, every other order collects the same operations. */
  lemma CollectedAnyOrder(a: seq<RawOp>, b: seq<RawOp>)
    requires multiset(a) == multiset(b) && Collected(a).Ok?
    ensures Collected(b).Ok?
    ensures SameElements(Collected(a).value, Collected(b).value)
  {
    hide Check;
    PermutationsAgree(a, b);
    CollectedOk(a);
    CollectedOk(b);
    var ops := Collected(a).value;
    forall i | 0 <= i < |b| ensures Check(b[i]).Ok? && Check(b[i]).value in ops {
      assert b[i] in a;
      var k :| 0 <= k < |a| && a[k] == b[i];
      assert Check(a[k]) == Ok(ops[k]);
    }
    var image := seq(|b|, i requires 0 <= i < |b| => Check(b[i]).value);
    forall x | x in ops ensures x in image {
      var k :| 0 <= k < |ops| && ops[k] == x;
      assert a[k] in b;
      var i :| 0 <= i < |b| && b[i] == a[k];
      assert image[i] == x;
    }
    assert Indices(image) == Indices(ops) by { SameIndices(image, ops); }
    DistinctByCount(ops);
    DistinctByCount(image);
    forall i, j | 0 <= i < j < |b| ensures Check(b[i]).value.index != Check(b[j]).value.index {
      assert image[i].index != image[j].index;
    }
    assert Collected(b).value == image;
  }

  lemma SameIndices(a: seq<Op>, b: seq<Op>)
    requires forall x :: x in a <==> x in b
    ensures Indices(a) == Indices(b)
  {
    forall k ensures k in Indices(a) <==> k in Indices(b) {
      if k in Indices(a) { var i :| 0 <= i < |a| && a[i].index == k; assert a[i] in b; }
      if k in Indices(b) { var i :| 0 <= i < |b| && b[i].index == k; assert b[i] in a; }
    }
  }

  lemma SortedAlike(x: seq<Op>, y: seq<Op>)
    requires DistinctIndices(x) && DistinctIndices(y) && SameElements(x, y)
    ensures SortDescending(x) == SortDescending(y)
  {
    hide Sort;
    IndexOrders();
    SortForgetsOrder(x, y, IndexAbove);
  }

  /** Any two orders of the same operations are both refused, or come out as the same list. */
  lemma NormalizedIgnoresOrder(a: seq<RawOp>, b: seq<RawOp>)
    requires multiset(a) == multiset(b)
    ensures Normalized(Some(a)).Ok? == Normalized(Some(b)).Ok?
    ensures Normalized(Some(a)).Ok? ==> Normalized(Some(a)) == Normalized(Some(b))
  {
    hide Collected, Check, SortDescending, DistinctIndices;
    PermutationsAgree(a, b);
    if Collected(b).Ok? { CollectedAnyOrder(b, a); }
    if Collected(a).Ok? {
      CollectedAnyOrder(a, b);
      CollectedOk(a);
      CollectedOk(b);
      SortedAlike(Collected(a).value, Collected(b).value);
    }
  }

  lemma NormalizedDescends(raw: Option<seq<RawOp>>)
    requires Normalized(raw).Ok?
    ensures Descending(Normalized(raw).value) && |Normalized(raw).value| <= MAX_OPS_PER_CALL
  {
    hide Collected, SortDescending, Check;
    var ops := Collected(raw.value).value;
    CollectedOk(raw.value);
    SortedDescending(ops);
    PermutationsAgree(ops, SortDescending(ops));
  }
}
