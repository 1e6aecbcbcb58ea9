/** Applying normalized edits in place, from the back, is rewriting every block at once. */
module EditApply {
  import opened Prelude
  import opened Blocks
  import opened BlockLaws
  import opened EditOps

  /** What a replace stores in place of a block with some tag. */
  function ReplacementHtml(op: Op, tag: string): Result<string, EditError> {
    if tag in PLAIN_BLOCK_TAGS then Ok(op.html)
    else if tag in HEADING_TAGS then
      if |op.text.paragraphs| != 1 then Err(NotSingleLine(op.index))
      else Ok("<" + tag + ">" + Escape(OneLine(op.text.text)) + "</" + tag + ">")
    else Err(Structural(op.index))
  }

  /** Why an operation cannot be applied to blocks with these tags, if it cannot. */
  function Failure(tags: seq<string>, op: Op): Option<EditError> {
    match op.action
    case Replace =>
      if !(0 <= op.index < |tags|) then Some(OutOfRange(op.index))
      else if op.html == "" then None
      else (match ReplacementHtml(op, tags[op.index]) case Ok(_) => None case Err(e) => Some(e))
    case InsertAfter => if !(-1 <= op.index < |tags|) then Some(OutOfRange(op.index)) else None
  }

  function FirstFailure(tags: seq<string>, ops: seq<Op>): Option<EditError> {
    if ops == [] then None
    else if Failure(tags, ops[0]).Some? then Failure(tags, ops[0])
    else FirstFailure(tags, ops[1..])
  }

  // ------------------------------------------------------------------
  // The simultaneous rewrite
  // ------------------------------------------------------------------

  function OpAt(ops: seq<Op>, index: int): Option<Op> {
    if ops == [] then None else if ops[0].index == index then Some(ops[0]) else OpAt(ops[1..], index)
  }

  /** What becomes of one block: kept, replaced or deleted, and then what is inserted after it. */
  function Slot(part: string, tag: string, op: Option<Op>): seq<string> {
    match op
    case None => [part]
    case Some(o) =>
      if o.action.InsertAfter? then [part, o.html]
      else if o.html == "" then []
      else match ReplacementHtml(o, tag) case Ok(html) => [html] case Err(_) => [part]
  }

  function Tail(parts: seq<string>, tags: seq<string>, ops: seq<Op>, i: nat): seq<string>
    requires |tags| == |parts|
    decreases |parts| - i
  {
    if i >= |parts| then [] else Slot(parts[i], tags[i], OpAt(ops, i)) + Tail(parts, tags, ops, i + 1)
  }

  function Rewrite(parts: seq<string>, tags: seq<string>, ops: seq<Op>): seq<string>
    requires |tags| == |parts|
  {
    (match OpAt(ops, -1) case Some(op) => [op.html] case None => []) + Tail(parts, tags, ops, 0)
  }

  lemma {:induction false} OpAtIs(ops: seq<Op>, op: Op)
    requires DistinctIndices(ops)
    ensures OpAt(ops, op.index) == Some(op) <==> op in ops
  {
    if ops != [] {
      assert ops == [ops[0]] + ops[1..];
      assert DistinctIndices(ops[1..]) by { assert forall i :: 0 <= i < |ops[1..]| ==> ops[1..][i] == ops[i + 1]; }
      OpAtIs(ops[1..], op);
    }
  }

  lemma {:induction false} OpAtSome(ops: seq<Op>, index: int)
    ensures OpAt(ops, index).Some? ==> OpAt(ops, index).value in ops && OpAt(ops, index).value.index == index
    ensures OpAt(ops, index).None? ==> forall op :: op in ops ==> op.index != index
  {
    if ops != [] {
      OpAtSome(ops[1..], index);
      assert ops == [ops[0]] + ops[1..];
    }
  }

  lemma {:induction false} SameSlots(parts: seq<string>, tags: seq<string>, a: seq<Op>, b: seq<Op>, i: nat)
    requires |tags| == |parts|
    requires forall k :: i <= k < |parts| ==> OpAt(a, k) == OpAt(b, k)
    ensures Tail(parts, tags, a, i) == Tail(parts, tags, b, i)
    decreases |parts| - i
  {
    if i < |parts| {
      SameSlots(parts, tags, a, b, i + 1);
    }
  }

  /** The rewrite does not depend on the order of the operations. */
  lemma RewriteIgnoresOrder(parts: seq<string>, tags: seq<string>, a: seq<Op>, b: seq<Op>)
    requires |tags| == |parts| && DistinctIndices(a) && DistinctIndices(b)
    requires forall op :: op in a <==> op in b
    ensures Rewrite(parts, tags, a) == Rewrite(parts, tags, b)
  {
    hide DistinctIndices;
    forall k: int ensures OpAt(a, k) == OpAt(b, k) {
      OpAtSome(a, k);
      OpAtSome(b, k);
      if OpAt(a, k).Some? { OpAtIs(b, OpAt(a, k).value); }
    }
    SameSlots(parts, tags, a, b, 0);
  }

  /** Where a block's slot begins in the rewritten list. */
  function Place(parts: seq<string>, tags: seq<string>, ops: seq<Op>, i: nat): nat
    requires i <= |parts| == |tags|
  {
    if i == 0 then (if OpAt(ops, -1).Some? then 1 else 0)
    else Place(parts, tags, ops, i - 1) + |Slot(parts[i - 1], tags[i - 1], OpAt(ops, i - 1))|
  }

  lemma {:induction false} TailPlace(parts: seq<string>, tags: seq<string>, ops: seq<Op>, i: nat)
    requires i <= |parts| == |tags|
    ensures var r, at := Rewrite(parts, tags, ops), Place(parts, tags, ops, i);
            at <= |r| && r[at..] == Tail(parts, tags, ops, i)
  {
    hide Slot, OpAt;
    if i == 0 {
      var r := Rewrite(parts, tags, ops);
      assert r[Place(parts, tags, ops, 0)..] == Tail(parts, tags, ops, 0);
    } else {
      TailPlace(parts, tags, ops, i - 1);
      var r, at := Rewrite(parts, tags, ops), Place(parts, tags, ops, i - 1);
      var slot := Slot(parts[i - 1], tags[i - 1], OpAt(ops, i - 1));
      assert r[at..] == slot + Tail(parts, tags, ops, i);
      assert r[at + |slot|..] == r[at..][|slot|..];
    }
  }

  /** Every slot stands whole in the rewritten list, after the slots of the blocks before it. */
  lemma SlotsInOrder(parts: seq<string>, tags: seq<string>, ops: seq<Op>, i: nat)
    requires i < |parts| == |tags|
    ensures var r, at, end := Rewrite(parts, tags, ops), Place(parts, tags, ops, i), Place(parts, tags, ops, i + 1);
            at <= end <= |r| && r[at..end] == Slot(parts[i], tags[i], OpAt(ops, i))
    ensures Place(parts, tags, ops, |parts|) == |Rewrite(parts, tags, ops)|
  {
    hide Slot, OpAt;
    TailPlace(parts, tags, ops, i);
    TailPlace(parts, tags, ops, i + 1);
    TailPlace(parts, tags, ops, |parts|);
    var r, at, end := Rewrite(parts, tags, ops), Place(parts, tags, ops, i), Place(parts, tags, ops, i + 1);
    assert r[at..end] == r[at..][..end - at];
  }

  lemma {:induction false} PlacesGrow(parts: seq<string>, tags: seq<string>, ops: seq<Op>, i: nat, j: nat)
    requires i <= j <= |parts| == |tags|
    ensures Place(parts, tags, ops, i) <= Place(parts, tags, ops, j)
  {
    if i < j { PlacesGrow(parts, tags, ops, i, j - 1); }
  }

  /** A block that no operation names takes one place, and is there. */
  lemma UnnamedBlockStays(parts: seq<string>, tags: seq<string>, ops: seq<Op>, i: nat)
    requires i < |parts| == |tags| && OpAt(ops, i).None?
    ensures var r, at := Rewrite(parts, tags, ops), Place(parts, tags, ops, i);
            at < |r| && r[at] == parts[i] && Place(parts, tags, ops, i + 1) == at + 1
  {
    hide Rewrite, OpAt;
    SlotsInOrder(parts, tags, ops, i);
    var r, at := Rewrite(parts, tags, ops), Place(parts, tags, ops, i);
    assert r[at..at + 1][0] == parts[i];
  }

  /** Blocks that no operation names are carried through unchanged and in their order. */
  lemma UnnamedBlocksSurvive(parts: seq<string>, tags: seq<string>, ops: seq<Op>, i: nat, j: nat)
    requires i < j < |parts| == |tags|
    requires OpAt(ops, i).None? && OpAt(ops, j).None?
    ensures var r := Rewrite(parts, tags, ops);
            Place(parts, tags, ops, i) < Place(parts, tags, ops, j) < |r|
            && r[Place(parts, tags, ops, i)] == parts[i] && r[Place(parts, tags, ops, j)] == parts[j]
  {
    hide Rewrite, OpAt, Place;
    UnnamedBlockStays(parts, tags, ops, i);
    UnnamedBlockStays(parts, tags, ops, j);
    PlacesGrow(parts, tags, ops, i + 1, j);
  }

  // ------------------------------------------------------------------
  // In place, from the back
  // ------------------------------------------------------------------

  lemma PlainSlot(part: string, tag: string)
    ensures Slot(part, tag, None) == [part]
  {
  }

  lemma {:induction false} PlainTail(parts: seq<string>, tags: seq<string>, ops: seq<Op>, i: nat, k: nat)
    requires i <= k <= |parts| == |tags|
    requires forall op :: op in ops ==> op.index >= k
    ensures Tail(parts, tags, ops, i) == parts[i..k] + Tail(parts, tags, ops, k)
    decreases k - i
  {
    hide OpAt, Slot;
    if i < k {
      PlainSlot(parts[i], tags[i]);
      PlainTail(parts, tags, ops, i + 1, k);
      OpAtSome(ops, i);
      assert parts[i..k] == [parts[i]] + parts[i + 1..k];
    } else {
      assert parts[i..k] == [];
    }
  }

  lemma {:induction false} OpAtAppend(ops: seq<Op>, op: Op, index: int)
    ensures OpAt(ops + [op], index)
         == if OpAt(ops, index).Some? then OpAt(ops, index) else if op.index == index then Some(op) else None
  {
    if ops == [] {
      assert ops + [op] == [op];
    } else {
      assert (ops + [op])[1..] == ops[1..] + [op];
      OpAtAppend(ops[1..], op, index);
    }
  }

  /** So far only blocks past some point are touched: before it the list is as it was. */
  lemma RewriteSoFar(parts: seq<string>, tags: seq<string>, ops: seq<Op>, k: nat)
    requires k <= |parts| == |tags| && forall op :: op in ops ==> op.index >= k
    ensures Rewrite(parts, tags, ops) == parts[..k] + Tail(parts, tags, ops, k)
  {
    PlainTail(parts, tags, ops, 0, k);
    OpAtSome(ops, -1);
    assert parts[0..k] == parts[..k];
  }

  lemma SameTail(parts: seq<string>, tags: seq<string>, ops: seq<Op>, op: Op, k: nat)
    requires |tags| == |parts| && op.index < k
    ensures Tail(parts, tags, ops + [op], k) == Tail(parts, tags, ops, k)
  {
    forall i | k <= i < |parts| ensures OpAt(ops + [op], i) == OpAt(ops, i) { OpAtAppend(ops, op, i); }
    SameSlots(parts, tags, ops + [op], ops, k);
  }

  /** One more operation, on a block before every block touched so far, rewrites just that block's slot. */
  lemma OneMoreOp(parts: seq<string>, tags: seq<string>, ops: seq<Op>, op: Op)
    requires |tags| == |parts| && 0 <= op.index < |parts|
    requires forall o :: o in ops ==> o.index > op.index
    ensures Rewrite(parts, tags, ops) == parts[..op.index + 1] + Tail(parts, tags, ops, op.index + 1)
    ensures Rewrite(parts, tags, ops + [op])
         == parts[..op.index] + Slot(parts[op.index], tags[op.index], Some(op)) + Tail(parts, tags, ops, op.index + 1)
  {
    hide Slot;
    var i := op.index;
    RewriteSoFar(parts, tags, ops, i + 1);
    RewriteSoFar(parts, tags, ops + [op], i);
    SameTail(parts, tags, ops, op, i + 1);
    OpAtAppend(ops, op, i);
    OpAtSome(ops, i);
  }

  /** And an insertion before the first block, last, touches no slot at all. */
  lemma OneMoreHead(parts: seq<string>, tags: seq<string>, ops: seq<Op>, op: Op)
    requires |tags| == |parts| && op.index == -1
    requires forall o :: o in ops ==> o.index > -1
    ensures Rewrite(parts, tags, ops + [op]) == [op.html] + Rewrite(parts, tags, ops)
  {
    SameTail(parts, tags, ops, op, 0);
    OpAtAppend(ops, op, -1);
    OpAtSome(ops, -1);
  }

  class Editing {
    var parts: seq<string>
    const tags: seq<string>

    constructor (blocks: seq<Block>)
      ensures parts == Strings(blocks) && |tags| == |parts| == |blocks|
      ensures forall i :: 0 <= i < |blocks| ==> tags[i] == blocks[i].tag
    {
      parts := Strings(blocks);
      tags := seq(|blocks|, i requires 0 <= i < |blocks| => blocks[i].tag);
      new;
      StringsLength(blocks);
    }

    /** Refused at the first operation that cannot be applied; otherwise the list is the rewrite of
        what it was, every index having meant a position in the original. */
    method ApplyOps(normalized: seq<Op>) returns (error: Option<EditError>)
      requires |tags| == |parts| && Descending(normalized)
      modifies this`parts
      ensures error == FirstFailure(tags, normalized)
      ensures error.None? ==> parts == Rewrite(old(parts), tags, normalized)
    {
      hide Rewrite, Failure, FirstFailure, Slot, Tail;
      ghost var original := parts;
      var count := |parts|;
      NothingRewritten(original, tags);
      assert normalized[..0] == [] && normalized[0..] == normalized;
      for k := 0 to |normalized|
        invariant parts == Rewrite(original, tags, normalized[..k])
        invariant FirstFailure(tags, normalized[k..]) == FirstFailure(tags, normalized)
      {
        var op := normalized[k];
        ghost var before := normalized[..k];
        NextFailure(tags, normalized, k);
        assert normalized[..k + 1] == before + [op];
        error := ApplyOne(original, before, op);
        if error.Some? { return error; }
      }
      NextFailure(tags, normalized, |normalized|);
      assert normalized[..|normalized|] == normalized;
      return None;
    }

    method ApplyOne(ghost original: seq<string>, ghost before: seq<Op>, op: Op) returns (error: Option<EditError>)
      requires |tags| == |original| && parts == Rewrite(original, tags, before)
      requires forall o :: o in before ==> o.index > op.index
      modifies this`parts
      ensures error == Failure(tags, op)
      ensures error.None? ==> parts == Rewrite(original, tags, before + [op])
    {
      hide Rewrite, ReplacementHtml, Tail;
      var index := op.index;
      ghost var rest := if 0 <= index < |original| then Tail(original, tags, before, index + 1) else [];
      if 0 <= index < |tags| { OneMoreOp(original, tags, before, op); }
      if index == -1 { OneMoreHead(original, tags, before, op); }
      if op.action.Replace? {
        if !(0 <= index < |tags|) { return Some(OutOfRange(index)); }
        assert parts[index + 1..] == rest && parts[..index] == original[..index];
        if op.html != "" {
          var html := ReplacementHtml(op, tags[index]);
          if html.Err? { return Some(html.error); }
          parts := parts[..index] + [html.value] + parts[index + 1..];
        } else {
          parts := parts[..index] + parts[index + 1..];
        }
      } else {
        if !(-1 <= index < |tags|) { return Some(OutOfRange(index)); }
        assert index >= 0 ==> parts[index + 1..] == rest && parts[..index + 1] == original[..index] + [original[index]];
        parts := parts[..index + 1] + [op.html] + parts[index + 1..];
      }
      return None;
    }
  }

  lemma {:induction false} StringsLength(blocks: seq<Block>)
    ensures |Strings(blocks)| == |blocks| && forall i :: 0 <= i < |blocks| ==> Strings(blocks)[i] == blocks[i].html
  {
    if blocks != [] { StringsLength(blocks[1..]); }
  }

  lemma NothingRewritten(parts: seq<string>, tags: seq<string>)
    requires |tags| == |parts|
    ensures Rewrite(parts, tags, []) == parts
  {
    RewriteSoFar(parts, tags, [], |parts|);
    assert parts[..|parts|] == parts;
  }

  lemma NextFailure(tags: seq<string>, ops: seq<Op>, k: nat)
    requires k <= |ops|
    ensures k == |ops| ==> FirstFailure(tags, ops[k..]) == None
    ensures k < |ops| ==>
              FirstFailure(tags, ops[k..])
                == if Failure(tags, ops[k]).Some? then Failure(tags, ops[k]) else FirstFailure(tags, ops[k + 1..])
  {
    if k < |ops| { assert ops[k..][1..] == ops[k + 1..]; }
  }

  lemma {:induction false} FirstFailureIff(tags: seq<string>, ops: seq<Op>)
    ensures FirstFailure(tags, ops).None? <==> forall op :: op in ops ==> Failure(tags, op).None?
  {
    hide Failure;
    if ops != [] {
      FirstFailureIff(tags, ops[1..]);
      assert ops == [ops[0]] + ops[1..];
    }
  }
}
