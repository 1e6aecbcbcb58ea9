/** What an edit does, in the caller's terms: which operations are taken, and what becomes of the block each names. */
module EditMeaning {
  import opened Prelude
  import opened EditOps
  import opened EditApply

  // ------------------------------------------------------------------
  // Text
  // ------------------------------------------------------------------

  /** Reading escaped text: each reference becomes its character again. */
  function Unescape(s: string): string
    decreases |s|
  {
    if s == "" then ""
    else if "&amp;" <= s then "&" + Unescape(s[5..])
    else if "&lt;" <= s then "<" + Unescape(s[4..])
    else if "&gt;" <= s then ">" + Unescape(s[4..])
    else [s[0]] + Unescape(s[1..])
  }

  lemma UnescapeOne(c: char, rest: string)
    ensures Unescape(Escaped(c) + rest) == [c] + Unescape(rest)
  {
    var s := Escaped(c) + rest;
    assert s[|Escaped(c)|..] == rest;
    assert s[0] == Escaped(c)[0];
    if c == '<' {
      assert s[1] == 'l';
    } else if c == '>' {
      assert s[1] == 'g';
    }
  }

  /** Escaping keeps the text: whoever reads it back sees the characters that were written. */
  lemma {:induction false} EscapeRoundTrip(s: string)
    ensures Unescape(Escape(s)) == s
  {
    if s != "" {
      EscapeRoundTrip(s[1..]);
      UnescapeOne(s[0], Escape(s[1..]));
    }
  }

  /** How far the first word of a text goes, from its start. */
  function WordEnd(s: string): (n: nat)
    ensures n <= |s| && (s != "" && !IsBlank(s[0]) ==> n > 0)
  {
    if s == "" || IsBlank(s[0]) then 0 else 1 + WordEnd(s[1..])
  }

  /** The words of a text: its longest stretches without blanks. */
  function Words(s: string): seq<string>
    decreases |s|
  {
    if s == "" then []
    else if IsBlank(s[0]) then Words(s[1..])
    else [s[..WordEnd(s)]] + Words(s[WordEnd(s)..])
  }

  function Spaced(words: seq<string>): string {
    if words == [] then "" else if |words| == 1 then words[0] else words[0] + " " + Spaced(words[1..])
  }

  lemma {:induction false} WordThenLine(s: string)
    requires s != "" && !IsBlank(s[0])
    ensures var rest := OneLine(s[WordEnd(s)..]);
            OneLine(s) == s[..WordEnd(s)] + if rest == "" then "" else " " + rest
    decreases |s|
  {
    hide IsBlank;
    if |s| == 1 || IsBlank(s[1]) {
      assert WordEnd(s) == 1;
      if |s| == 1 { assert s[1..] == ""; }
    } else {
      WordThenLine(s[1..]);
      assert s[1..][WordEnd(s[1..])..] == s[WordEnd(s)..];
      assert s[..WordEnd(s)] == [s[0]] + s[1..][..WordEnd(s[1..])];
    }
  }

  /** A heading's text is its words, one space between. */
  lemma {:induction false} OneLineIsWords(s: string)
    ensures OneLine(s) == Spaced(Words(s)) && (OneLine(s) == "" <==> Words(s) == [])
    decreases |s|
  {
    hide IsBlank;
    if s != "" && IsBlank(s[0]) {
      OneLineIsWords(s[1..]);
    } else if s != "" {
      WordThenLine(s);
      OneLineIsWords(s[WordEnd(s)..]);
    }
  }

  // ------------------------------------------------------------------
  // Which operations are taken
  // ------------------------------------------------------------------

  /** A well-formed operation: an object with an action, an index and a text, which is not empty in an insertion. */
  predicate WellFormed(raw: RawOp) {
    && raw.RawOp? && raw.action.Some? && raw.index.Some? && raw.text.Some?
    && (raw.action == Some(InsertAfter) ==> ToParagraphHtml(raw.text.value) != "")
  }

  function Named(raw: RawOp): Option<int> { if raw.RawOp? then raw.index else None }

  /** An operation says what the caller said. */
  predicate Says(op: Op, raw: RawOp) {
    && WellFormed(raw)
    && Some(op.action) == raw.action && Some(op.index) == raw.index && Some(op.text) == raw.text
    && op.html == ToParagraphHtml(op.text)
  }

  ghost predicate Among(ops: seq<Op>, raw: RawOp) { exists op :: op in ops && Says(op, raw) }

  lemma CheckSays(raw: RawOp)
    ensures Check(raw).Ok? <==> WellFormed(raw)
    ensures Check(raw).Ok? ==> Says(Check(raw).value, raw) && Some(Check(raw).value.index) == Named(raw)
  {
  }

  /** A listing is taken exactly if it has one to twenty operations, all well-formed, on different blocks; and
      then what is applied is what the caller said, each operation once. */
  lemma NormalizedSays(list: seq<RawOp>)
    ensures Normalized(Some(list)).Ok? <==>
            && 0 < |list| <= 20 && (forall i :: 0 <= i < |list| ==> WellFormed(list[i]))
            && forall i, j :: 0 <= i < j < |list| ==> Named(list[i]) != Named(list[j])
    ensures Normalized(Some(list)).Ok? ==>
              && |Normalized(Some(list)).value| == |list|
              && (forall i :: 0 <= i < |list| ==> Among(Normalized(Some(list)).value, list[i]))
  {
    hide Collected, SortDescending, Check, WellFormed, Says;
    CollectedOk(list);
    forall i | 0 <= i < |list|
      ensures Check(list[i]).Ok? <==> WellFormed(list[i])
      ensures Check(list[i]).Ok? ==>
                Says(Check(list[i]).value, list[i]) && Some(Check(list[i]).value.index) == Named(list[i])
    {
      CheckSays(list[i]);
    }
    if Collected(list).Ok? {
      var ops := Collected(list).value;
      CollectedIndices(list);
      SortedDescending(ops);
      PermutationsAgree(ops, SortDescending(ops));
      forall i | 0 <= i < |list| ensures Among(SortDescending(ops), list[i]) {
        assert Check(list[i]) == Ok(ops[i]) && ops[i] in ops;
        assert ops[i] in SortDescending(ops) && Says(ops[i], list[i]);
      }
    }
  }

  lemma CollectedIndices(list: seq<RawOp>)
    requires Collected(list).Ok?
    ensures forall i, j :: 0 <= i < j < |list| ==> Named(list[i]) != Named(list[j])
  {
    hide Collected, Check;
    CollectedOk(list);
    var ops := Collected(list).value;
    forall i | 0 <= i < |list| ensures Named(list[i]) == Some(ops[i].index) {
      assert Check(list[i]) == Ok(ops[i]);
      CheckSays(list[i]);
    }
  }

  /** Edits apply exactly if every insertion is after a block or before the first, and every replacement is of a
      block, which is to be deleted, or is plain text, or is a heading and stays one line. */
  lemma {:induction false} AppliesIff(tags: seq<string>, ops: seq<Op>)
    ensures FirstFailure(tags, ops).None? <==>
            forall op :: op in ops ==>
              if op.action == InsertAfter then -1 <= op.index < |tags|
              else
                && 0 <= op.index < |tags|
                && (|| op.html == "" || tags[op.index] in PLAIN_BLOCK_TAGS
                    || (tags[op.index] in HEADING_TAGS && |op.text.paragraphs| == 1))
  {
    hide FirstFailure;
    FirstFailureIff(tags, ops);
  }

  /** The fault reported is that of the first operation, in the order they are applied, that cannot be. */
  lemma {:induction false} FaultIsFirst(tags: seq<string>, ops: seq<Op>, fault: EditError)
    requires FirstFailure(tags, ops) == Some(fault)
    ensures exists k :: 0 <= k < |ops| && Failure(tags, ops[k]) == Some(fault)
              && forall j :: 0 <= j < k ==> Failure(tags, ops[j]).None?
  {
    hide Failure;
    if Failure(tags, ops[0]).None? {
      FaultIsFirst(tags, ops[1..], fault);
      var k :| 0 <= k < |ops[1..]| && Failure(tags, ops[1..][k]) == Some(fault)
               && forall j :: 0 <= j < k ==> Failure(tags, ops[1..][j]).None?;
      assert ops[k + 1] == ops[1..][k];
      forall j | 0 <= j < k + 1 ensures Failure(tags, ops[j]).None? {
        if j > 0 { assert ops[j] == ops[1..][j - 1]; }
      }
    }
  }

  // ------------------------------------------------------------------
  // What becomes of the block an operation names
  // ------------------------------------------------------------------

  ghost predicate Applied(parts: seq<string>, tags: seq<string>, ops: seq<Op>, op: Op) {
    |tags| == |parts| && DistinctIndices(ops) && FirstFailure(tags, ops).None? && op in ops
  }

  lemma NamedSlot(parts: seq<string>, tags: seq<string>, ops: seq<Op>, op: Op)
    requires Applied(parts, tags, ops, op)
    ensures Failure(tags, op).None? && OpAt(ops, op.index) == Some(op)
  {
    FirstFailureIff(tags, ops);
    OpAtIs(ops, op);
  }

  /** An insertion stands directly after the block it names, which stays; index -1 is before the first block. */
  lemma Inserted(parts: seq<string>, tags: seq<string>, ops: seq<Op>, op: Op)
    requires Applied(parts, tags, ops, op) && op.action == InsertAfter
    ensures -1 <= op.index < |parts|
    ensures var r := Rewrite(parts, tags, ops);
            if op.index == -1 then Place(parts, tags, ops, 0) == 1 <= |r| && r[0] == op.html
            else
              var at := Place(parts, tags, ops, op.index);
              && Place(parts, tags, ops, op.index + 1) == at + 2 <= |r|
              && r[at] == parts[op.index] && r[at + 1] == op.html
  {
    hide FirstFailure, Tail;
    NamedSlot(parts, tags, ops, op);
    if op.index >= 0 {
      var slot := [parts[op.index], op.html];
      SlotIs(parts, tags, ops, op.index, slot);
      var r, at := Rewrite(parts, tags, ops), Place(parts, tags, ops, op.index);
      assert r[at + 0] == slot[0] && r[at + 1] == slot[1];
    }
  }

  /** A replacement stands alone where its block stood: paragraphs for plain text, and for a heading its words,
      escaped, in a heading of the same level. */
  lemma Replaced(parts: seq<string>, tags: seq<string>, ops: seq<Op>, op: Op)
    requires Applied(parts, tags, ops, op) && op.action == Replace && op.html != ""
    ensures 0 <= op.index < |parts|
    ensures var r, at, tag := Rewrite(parts, tags, ops), Place(parts, tags, ops, op.index), tags[op.index];
            && Place(parts, tags, ops, op.index + 1) == at + 1 <= |r|
            && if tag in PLAIN_BLOCK_TAGS then r[at] == op.html
               else
                 && tag in HEADING_TAGS && |op.text.paragraphs| == 1
                 && r[at] == "<" + tag + ">" + Escape(Spaced(Words(op.text.text))) + "</" + tag + ">"
  {
    NamedSlot(parts, tags, ops, op);
    hide Rewrite, FirstFailure, OneLine, Words, Spaced, Escape, OpAt, Place;
    OneLineIsWords(op.text.text);
    var slot := Slot(parts[op.index], tags[op.index], Some(op));
    SlotIs(parts, tags, ops, op.index, slot);
    var r, at := Rewrite(parts, tags, ops), Place(parts, tags, ops, op.index);
    assert r[at + 0] == slot[0];
  }

  /** A deleted block leaves nothing: its neighbours' slots meet. */
  lemma Deleted(parts: seq<string>, tags: seq<string>, ops: seq<Op>, op: Op)
    requires Applied(parts, tags, ops, op) && op.action == Replace && op.html == ""
    ensures 0 <= op.index < |parts| && Place(parts, tags, ops, op.index + 1) == Place(parts, tags, ops, op.index)
  {
    NamedSlot(parts, tags, ops, op);
    SlotIs(parts, tags, ops, op.index, []);
  }

  lemma SlotIs(parts: seq<string>, tags: seq<string>, ops: seq<Op>, i: nat, slot: seq<string>)
    requires i < |parts| == |tags| && Slot(parts[i], tags[i], OpAt(ops, i)) == slot
    ensures var r, at := Rewrite(parts, tags, ops), Place(parts, tags, ops, i);
            && Place(parts, tags, ops, i + 1) == at + |slot| <= |r|
            && forall k :: 0 <= k < |slot| ==> r[at + k] == slot[k]
  {
    hide Rewrite, OpAt, Slot;
    SlotsInOrder(parts, tags, ops, i);
    var r, at, end := Rewrite(parts, tags, ops), Place(parts, tags, ops, i), Place(parts, tags, ops, i + 1);
    forall k | 0 <= k < |slot| ensures r[at + k] == slot[k] { assert r[at..end][k] == slot[k]; }
  }
}
