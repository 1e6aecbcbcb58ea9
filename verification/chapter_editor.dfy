/** The two tools that edit a stored chapter, as code that other writers may interrupt anywhere. */
module ChapterEditor {
  import opened Prelude
  import opened Blocks
  import opened BlockLaws
  import opened EditOps
  import opened EditApply
  import opened ChapterWrites

  /** The HTML parser, taken as given: its tokens spell the content. */
  ghost predicate Tokenizes(parse: string -> seq<Token>) {
    forall c :: Text(AtomsOf(parse(c))) == c && AllSolid(AtomsOf(parse(c)))
  }

  function Bounded(stored: string): Result<string, Refusal> {
    if |stored| > MAX_CHAPTER_CONTENT_CHARS then Err(TooLong) else Ok(stored)
  }

  function Appended(existing: string, addition: string): Result<string, Refusal> {
    Bounded(if existing != "" then existing + SEPARATOR + addition else addition)
  }

  function Tags(blocks: seq<Block>): (tags: seq<string>)
    ensures |tags| == |blocks| && forall i :: 0 <= i < |blocks| ==> tags[i] == blocks[i].tag
  {
    if blocks == [] then [] else [blocks[0].tag] + Tags(blocks[1..])
  }

  function BlocksOf(parse: string -> seq<Token>, content: string): seq<Block> { Htmls(Split(AtomsOf(parse(content)))) }

  function Rewritten(parse: string -> seq<Token>, ops: seq<Op>, content: string): Result<string, Refusal> {
    var blocks := BlocksOf(parse, content);
    match FirstFailure(Tags(blocks), ops)
    case Some(fault) => Err(Unapplicable(fault))
    case None => StringsLength(blocks); Bounded(JoinBlocks(Rewrite(Strings(blocks), Tags(blocks), ops)))
  }

  function AppendEdit(addition: string): Edit { (existing: string) => Appended(existing, addition) }

  function BlocksEdit(parse: string -> seq<Token>, ops: seq<Op>): Edit {
    (content: string) => Rewritten(parse, ops, content)
  }

  datatype Answer = Invalid(error: EditError) | EmptyText | NotFound | Stale | Refused(refusal: Refusal)

  /** What a successful answer means: the stored text is in the chapter's history as the one successor of
      the row the caller named, and is the edit of that row's content. */
  ghost predicate TookEffect(s: Sys, pid: Pid, base: nat, edit: Edit, stored: string) {
    && pid in s.accepted && s.accepted[pid] == Write(base, edit) && Succeeds(s.log, s.accepted[pid])
    && s.log[base + 1].content == stored
  }

  /** When a call that got past its arguments may be refused, by the row stored as it is told so. */
  ghost predicate Declines(row: Option<Row>, base: nat, edit: Edit, a: Answer) {
    match a
    case NotFound => row.None?
    case Stale => row.Some? && row.value.revision != base
    case Refused(why) => row.Some? && row.value.revision == base && edit(row.value.content) == Err(why)
    case _ => false
  }

  ghost predicate SameCall(s: Sys, s': Sys, pid: Pid) {
    && (pid in s.calls <==> pid in s'.calls) && (pid in s.calls ==> s'.calls[pid] == s.calls[pid])
    && (pid in s.accepted <==> pid in s'.accepted)
  }

  ghost predicate Rely(s: Sys, s': Sys, pid: Pid) { Inv(s') && Later(s, s') && SameCall(s, s', pid) }

  function Actor(a: Act): Option<Pid> {
    match a case OtherWrite(_) => None case Delete => None case _ => Some(a.pid)
  }

  lemma OthersKeepCall(s: Sys, a: Act, s': Sys, pid: Pid)
    requires Step(s, a, s') && Actor(a) != Some(pid)
    ensures SameCall(s, s', pid)
  {
  }

  /** Interfere's contract covers every sequence of steps of other calls and other writers. */
  lemma {:induction false} OthersRely(tr: seq<Sys>, acts: seq<Act>, pid: Pid)
    requires |tr| == |acts| + 1 && Inv(tr[0])
    requires forall i {:trigger acts[i]} :: 0 <= i < |acts| ==>
        Step(tr[i], acts[i], tr[i + 1]) && Actor(acts[i]) != Some(pid)
    ensures Rely(tr[0], tr[|acts|], pid)
  {
    hide Inv, Step, Actor;
    if acts != [] {
      var n := |acts| - 1;
      OthersRely(tr[..n + 1], acts[..n], pid);
      StepKeeps(tr[n], acts[n], tr[n + 1]);
      OthersKeepCall(tr[n], acts[n], tr[n + 1], pid);
    }
  }

  class Chapter {
    var row: Option<Row>
    ghost var w: Sys        // calls and history; its row is not used

    ghost function S(): Sys reads this { w.(row := row) }

    method Interfere(ghost pid: Pid)
      requires Inv(S())
      modifies this
      ensures Rely(old(S()), S(), pid)
    {
    }

    ghost method Advance(before: Sys, a: Act)
      requires Inv(before) && Enabled(before, a) && Effect(before, a).row == row
      modifies this`w
      ensures S() == Effect(before, a) && Inv(S()) && Later(before, S())
    {
      hide Inv, Enabled, Effect, Later;
      StepKeeps(before, a, Effect(before, a));
      w := Effect(before, a);
    }

    /** _chapter_at_revision */
    method AtRevision(ghost pid: Pid, base: nat, ghost edit: Edit) returns (r: Result<Row, Answer>)
      requires Inv(S()) && pid !in S().calls && pid !in S().accepted
      modifies this
      ensures Inv(S()) && pid !in S().accepted && Later(old(S()), S())
      ensures r.Ok? ==> pid in S().calls && S().calls[pid] == Holding(base, edit, r.value)
      ensures r.Ok? ==> row == Some(r.value) && r.value.revision == base
      ensures r.Err? ==> pid !in S().calls && Declines(row, base, edit, r.error) && !r.error.Refused?
    {
      hide Inv, Later;
      ghost var s := S();
      Advance(s, Ask(pid, base, edit));
      ghost var t := S();
      Interfere(pid);
      LaterOn(s, t, S());
      t := s;
      s := S();
      if row.None? || row.value.revision != base {
        Advance(s, End(pid));
        LaterOn(t, s, S());
        return Err(if row.None? then NotFound else Stale);
      }
      Advance(s, Read(pid));
      LaterOn(t, s, S());
      return Ok(row.value);
    }

    /** _write_chapter_content */
    method WriteContent(ghost pid: Pid, base: nat, ghost edit: Edit, cur: Row, stored: string)
      returns (r: Result<Row, Answer>)
      requires Inv(S()) && pid in S().calls && S().calls[pid] == Holding(base, edit, cur)
      requires edit(cur.content) == Ok(stored)
      modifies this
      ensures Inv(S()) && pid !in S().calls && Later(old(S()), S())
      ensures r.Ok? ==>
                && r.value == Row(base + 1, cur.title, stored, cur.position) && row == Some(r.value)
                && TookEffect(S(), pid, base, edit, stored)
      ensures r.Err? ==> (pid in S().accepted <==> pid in old(S()).accepted)
      ensures r.Err? ==> Declines(row, base, edit, r.error) && !r.error.Refused?
    {
      hide Inv, Later;
      ghost var t := S();
      Interfere(pid);
      ghost var s := S();
      if row.None? || row.value.revision != base {
        Advance(s, End(pid));
        LaterOn(t, s, S());
        return Err(if row.None? then NotFound else Stale);
      }
      row := Some(Row(base + 1, cur.title, stored, cur.position));
      Advance(s, Accept(pid));
      LaterOn(t, s, S());
      AcceptedSucceeds(S(), pid);
      return Ok(row.value);
    }

    /** The call gives up after reading: its text is too long or an operation does not apply. */
    ghost method GiveUp(pid: Pid)
      requires Inv(S()) && pid in S().calls
      modifies this`w
      ensures Inv(S()) && pid !in S().calls && S().accepted == old(S().accepted) && Later(old(S()), S())
    {
      Advance(S(), End(pid));
    }

    method AppendToChapter(ghost pid: Pid, content: Prose, base: nat) returns (r: Result<string, Answer>)
      requires Inv(S()) && pid !in S().calls && pid !in S().accepted
      modifies this
      ensures Inv(S()) && pid !in S().calls && Later(old(S()), S())
      ensures r.Ok? ==>
                && TookEffect(S(), pid, base, AppendEdit(ToParagraphHtml(content)), r.value)
                && var was := S().log[base].content;
                   r.value == if was == "" then ToParagraphHtml(content) else was + "\n" + ToParagraphHtml(content)
      ensures r.Err? ==> pid !in S().accepted
      ensures r.Err? ==> if ToParagraphHtml(content) == "" then r.error == EmptyText
                         else Declines(row, base, AppendEdit(ToParagraphHtml(content)), r.error)
    {
      hide Inv, Later;
      var addition := ToParagraphHtml(content);
      if addition == "" {
        LaterSelf(S());
        return Err(EmptyText);
      }
      ghost var edit := AppendEdit(addition);
      ghost var s := S();
      var current := AtRevision(pid, base, edit);
      ghost var t := S();
      if current.Err? { return Err(current.error); }
      var existing := current.value.content;
      var stored := if existing != "" then existing + SEPARATOR + addition else addition;
      if |stored| > MAX_CHAPTER_CONTENT_CHARS {
        GiveUp(pid);
        LaterOn(s, t, S());
        return Err(Refused(TooLong));
      }
      var updated := WriteContent(pid, base, edit, current.value, stored);
      LaterOn(s, t, S());
      if updated.Err? { return Err(updated.error); }
      return Ok(stored);
    }

    method EditChapterBlocks(ghost pid: Pid, parse: string -> seq<Token>, raw: Option<seq<RawOp>>, base: nat)
      returns (r: Result<string, Answer>)
      requires Tokenizes(parse) && Inv(S()) && pid !in S().calls && pid !in S().accepted
      modifies this
      ensures Inv(S()) && pid !in S().calls && Later(old(S()), S())
      ensures r.Ok? ==>
                Normalized(raw).Ok? && TookEffect(S(), pid, base, BlocksEdit(parse, Normalized(raw).value), r.value)
      ensures r.Err? ==> pid !in S().accepted
      ensures r.Err? ==> match Normalized(raw)
                         case Err(fault) => r.error == Invalid(fault)
                         case Ok(ops) => Declines(row, base, BlocksEdit(parse, ops), r.error)
    {
      hide Inv, Later, Split, Htmls, Rewrite, FirstFailure, JoinBlocks, Collected, SortDescending, Tags, Strings;
      var normalized := NormalizeOps(raw);
      if normalized.Err? {
        LaterSelf(S());
        return Err(Invalid(normalized.error));
      }
      NormalizedDescends(raw);
      ghost var edit := BlocksEdit(parse, normalized.value);
      ghost var s := S();
      var current := AtRevision(pid, base, edit);
      ghost var t := S();
      if current.Err? { return Err(current.error); }
      var content := current.value.content;
      var stored := Compute(parse, normalized.value, content);
      if stored.Err? {
        GiveUp(pid);
        LaterOn(s, t, S());
        return Err(Refused(stored.error));
      }
      var updated := WriteContent(pid, base, edit, current.value, stored.value);
      LaterOn(s, t, S());
      if updated.Err? { return Err(updated.error); }
      return Ok(stored.value);
    }

    /** Split, apply in place, join, and check the size. */
    method Compute(parse: string -> seq<Token>, ops: seq<Op>, content: string) returns (stored: Result<string, Refusal>)
      requires Tokenizes(parse) && Descending(ops)
      ensures stored == Rewritten(parse, ops, content)
    {
      hide Rewrite, FirstFailure, Split, Htmls, JoinBlocks, Descending;
      var split := SplitBlocks(content, parse(content));
      var editing := new Editing(split);
      StringsLength(split);
      assert editing.tags == Tags(split);
      var fault := editing.ApplyOps(ops);
      if fault.Some? { return Err(Unapplicable(fault.value)); }
      return Bounded(JoinBlocks(editing.parts));
    }
  }

  lemma LaterSelf(s: Sys)
    ensures Later(s, s)
  {
  }

  lemma AcceptedSucceeds(s: Sys, pid: Pid)
    requires Inv(s) && pid in s.accepted
    ensures Succeeds(s.log, s.accepted[pid])
  {
  }

  /** Whatever order the caller lists the operations in, the stored text is the same. */
  lemma EditIgnoresOrder(parse: string -> seq<Token>, a: seq<RawOp>, b: seq<RawOp>, content: string)
    requires multiset(a) == multiset(b) && Normalized(Some(a)).Ok?
    ensures Normalized(Some(b)).Ok?
    ensures Rewritten(parse, Normalized(Some(a)).value, content) == Rewritten(parse, Normalized(Some(b)).value, content)
  {
    NormalizedIgnoresOrder(a, b);
  }
}
