/**
 One consult of a specialist, driven by whatever its context and its provider do, while
 other consults take from the same budget.
 */
module Consults {
  import opened Prelude
  import opened RunBudgets

  /** Validated arguments: which mode the specialist works in, and whether a review is asked for. */
  datatype Request = Request(drafting: bool, review: bool)

  datatype StreamFault = Timeout | Provider | Unexpected
  datatype ContextEnd = Built | FocusRejected | StoryNotFound | StoryUnavailable | ContextFault(fault: StreamFault)

  datatype ProviderEvent =
    | Text(text: string)
    | Fragment(isObject: bool, index: int, submits: Option<bool>, delta: Option<string>)
    | UsageReport
    | StreamError
    | Finished(length: bool)
    | Ignored

  /** What the outside world does: the context, the stream, how the stream ends if nothing in it ends
      it, and whether findings can be read from what was submitted. */
  datatype Script = Script(context: ContextEnd, events: seq<ProviderEvent>, fault: Option<StreamFault>, readable: bool)

  datatype End =
    | InvalidArguments | Declined | AccessDenied | StoryDown | Failed(fault: StreamFault) | StreamFailed
    | Unfinished | InvalidSubmission | Unusable | Delivered(truncated: bool) | Findings(reviewed: bool)

  /** A consult yields text and then one outcome; draft is the text the outcome carries. */
  datatype Item = Piece(text: string) | Outcome(end: End, draft: string, usage: nat)

  function Pieces(items: seq<Item>): string {
    if items == [] then "" else (if items[0].Piece? then items[0].text else "") + Pieces(items[1..])
  }

  // What a stream comes to, read off its events.

  predicate Ends(e: ProviderEvent) { e.StreamError? || e.Finished? }

  /** How much of a stream is read: up to its first error or end. */
  function Heard(events: seq<ProviderEvent>): (n: nat)
    ensures n <= |events| && (n < |events| ==> n > 0 && Ends(events[n - 1]))
    ensures forall i :: 0 <= i < n - 1 ==> !Ends(events[i])
  {
    if events == [] then 0 else if Ends(events[0]) then 1 else 1 + Heard(events[1..])
  }

  function TextIn(events: seq<ProviderEvent>): string {
    if events == [] then ""
    else
      var last := events[|events| - 1];
      TextIn(events[..|events| - 1]) + if last.Text? then last.text else ""
  }

  function UsageIn(events: seq<ProviderEvent>): nat {
    if events == [] then 0
    else UsageIn(events[..|events| - 1]) + if events[|events| - 1].UsageReport? then 1 else 0
  }

  /** A fragment that no specialist may send: malformed, from a drafter, of a second call, or naming another tool. */
  predicate Spoils(drafting: bool, e: ProviderEvent) {
    e.Fragment? && (!e.isObject || drafting || e.index != 0 || e.submits == Some(false))
  }

  predicate Submits(e: ProviderEvent) { e.Fragment? && e.isObject && e.submits == Some(true) }

  predicate Argues(e: ProviderEvent) { e.Fragment? && e.isObject && e.delta.Some? }

  ghost predicate Invalid(drafting: bool, heard: seq<ProviderEvent>) {
    || (exists e :: e in heard && Spoils(drafting, e))
    || ((exists e :: e in heard && Argues(e)) && forall e :: e in heard ==> !Submits(e))
  }

  /** What the specialist's stream comes to. */
  ghost function EndOfStream(drafting: bool, reviewing: bool, script: Script): End {
    var heard := script.events[..Heard(script.events)];
    if heard == [] || !Ends(heard[|heard| - 1]) then
      if script.fault.Some? then Failed(script.fault.value) else Unfinished
    else if heard[|heard| - 1].StreamError? then StreamFailed
    else if Invalid(drafting, heard) then InvalidSubmission
    else if drafting then if AllBlank(TextIn(heard)) then Unusable else Delivered(heard[|heard| - 1].length)
    else if script.readable then Findings(reviewing)
    else Unusable
  }

  /** Its outcome: a drafter's text with it, all that was received, unless that is unusable. */
  ghost function OutcomeOfStream(drafting: bool, reviewing: bool, script: Script): Item {
    var heard := script.events[..Heard(script.events)];
    var end := EndOfStream(drafting, reviewing, script);
    Outcome(end, if drafting && !end.Unusable? then TextIn(heard) else "", UsageIn(heard))
  }

  /** What failing to build the context comes to. */
  function EndOfContext(context: ContextEnd): End
    requires !context.Built?
  {
    match context
    case FocusRejected => Declined
    case StoryNotFound => AccessDenied
    case StoryUnavailable => StoryDown
    case ContextFault(fault) => Failed(fault)
  }

  lemma {:induction false} HeardAll(events: seq<ProviderEvent>, n: nat)
    requires n <= |events| && forall i :: 0 <= i < n - 1 ==> !Ends(events[i])
    requires n == |events| || (n > 0 && Ends(events[n - 1]))
    ensures Heard(events) == n
  {
    if events != [] && !Ends(events[0]) {
      assert forall i :: 0 <= i < |events[1..]| ==> events[1..][i] == events[i + 1];
      HeardAll(events[1..], n - 1);
    }
  }

  /** Text first, if any, and exactly one outcome, last, that carries the text; a draft of nothing but
      blanks is dropped. */
  ghost predicate WellFormed(items: seq<Item>) {
    && items != [] && items[|items| - 1].Outcome?
    && (forall i :: 0 <= i < |items| - 1 ==> items[i].Piece? && items[i].text != "")
    && var o := items[|items| - 1];
       o.draft == Pieces(items[..|items| - 1]) || (o.end == Unusable && AllBlank(Pieces(items[..|items| - 1])))
  }

  ghost predicate OnlyPieces(items: seq<Item>) {
    forall i :: 0 <= i < |items| ==> items[i].Piece? && items[i].text != ""
  }

  lemma {:induction false} PiecesConcat(a: seq<Item>, b: seq<Item>)
    ensures Pieces(a + b) == Pieces(a) + Pieces(b)
  {
    if a == [] {
      assert a + b == b;
    } else {
      assert (a + b)[1..] == a[1..] + b;
      PiecesConcat(a[1..], b);
    }
  }

  lemma ClosedIsWellFormed(pieces: seq<Item>, o: Item)
    requires OnlyPieces(pieces) && o.Outcome?
    requires o.draft == Pieces(pieces) || (o.end == Unusable && AllBlank(Pieces(pieces)))
    ensures WellFormed(pieces + [o])
  {
    assert (pieces + [o])[..|pieces|] == pieces;
  }

  ghost predicate SameConsult(s: Sys, s': Sys, pid: Pid) {
    && s'.director == s.director
    && (pid in s.live <==> pid in s'.live) && (pid in s.live ==> s'.live[pid] == s.live[pid])
    && (pid in s.begun <==> pid in s'.begun) && (pid in s.granted <==> pid in s'.granted)
    && (pid in s.reviewing <==> pid in s'.reviewing) && (pid in s.called <==> pid in s'.called)
  }

  ghost predicate Rely(l: Limits, s: Sys, s': Sys, pid: Pid) { Inv(l, s') && SameConsult(s, s', pid) }

  lemma OthersKeepConsult(l: Limits, s: Sys, a: Act, s': Sys, pid: Pid)
    requires Step(l, s, a, s') && !a.Direct? && a.pid != pid
    ensures SameConsult(s, s', pid)
  {
  }

  /** Interfere's contract covers every sequence of other consults' steps.  The director makes no call
      of its own while its consults are at work. */
  lemma {:induction false} OthersRely(l: Limits, tr: seq<Sys>, acts: seq<Act>, pid: Pid)
    requires |tr| == |acts| + 1 && Inv(l, tr[0])
    requires forall i {:trigger acts[i]} :: 0 <= i < |acts| ==>
        Step(l, tr[i], acts[i], tr[i + 1]) && !acts[i].Direct? && acts[i].pid != pid
    ensures Rely(l, tr[0], tr[|acts|], pid)
  {
    hide Inv, Step;
    if acts != [] {
      var n := |acts| - 1;
      OthersRely(l, tr[..n + 1], acts[..n], pid);
      StepInv(l, tr[n], acts[n], tr[n + 1]);
      OthersKeepConsult(l, tr[n], acts[n], tr[n + 1], pid);
    }
  }

  /** The budget has a consult left, and a review if one is wanted. */
  predicate Claimable(l: Limits, u: Used, reviewing: bool) { CanConsult(l, u) && (reviewing ==> CanReview(l, u)) }

  /** The outcome of a consult, by what is asked, what is left of the budget, and what the outside world does. */
  ghost function OutcomeOf(l: Limits, u: Used, request: Option<Request>, alone: bool, findingsKnown: bool,
                           forceReview: bool, script: Script): Item
  {
    if request.None? then Outcome(InvalidArguments, "", 0)
    else
      var drafting := request.value.drafting;
      var reviewing := (request.value.review || forceReview) && findingsKnown && !drafting;
      if (drafting && !alone) || !Claimable(l, u, reviewing) then Outcome(Declined, "", 0)
      else if !script.context.Built? then Outcome(EndOfContext(script.context), "", 0)
      else OutcomeOfStream(drafting, reviewing, script)
  }

  /** What the loop over a stream has gathered beside the text. */
  datatype Notes = Notes(usage: nat, spoiled: bool, submitted: bool, chunks: nat)

  function Noted(drafting: bool, e: ProviderEvent, n: Notes): Notes {
    Notes(n.usage + (if e.UsageReport? then 1 else 0), n.spoiled || Spoils(drafting, e), n.submitted || Submits(e),
          n.chunks + if Argues(e) then 1 else 0)
  }

  /** That is what the events read say. */
  ghost predicate ReadSoFar(drafting: bool, heard: seq<ProviderEvent>, text: string, n: Notes) {
    && text == TextIn(heard) && n.usage == UsageIn(heard)
    && (n.spoiled <==> exists e :: e in heard && Spoils(drafting, e))
    && (n.submitted <==> exists e :: e in heard && Submits(e))
    && (n.chunks > 0 <==> exists e :: e in heard && Argues(e))
  }

  lemma ReadOneMore(drafting: bool, heard: seq<ProviderEvent>, e: ProviderEvent, text: string, n: Notes)
    requires ReadSoFar(drafting, heard, text, n)
    ensures ReadSoFar(drafting, heard + [e], text + (if e.Text? then e.text else ""), Noted(drafting, e, n))
  {
    hide Spoils, Submits, Argues;
    var all := heard + [e];
    assert all[..|heard|] == heard && all[|all| - 1] == e;
    forall x ensures x in all <==> x in heard || x == e {}
    if n.submitted { var x :| x in heard && Submits(x); assert x in all; }
    if n.spoiled { var x :| x in heard && Spoils(drafting, x); assert x in all; }
    if n.chunks > 0 { var x :| x in heard && Argues(x); assert x in all; }
    assert e in all;
  }

  /** A drafter's text has been shown, and nothing of anybody else's. */
  ghost predicate Shown(drafting: bool, items: seq<Item>, text: string) {
    OnlyPieces(items) && if drafting then Pieces(items) == text else items == []
  }

  lemma ShownIs(drafting: bool, items: seq<Item>, text: string)
    requires Shown(drafting, items, text)
    ensures OnlyPieces(items) && Pieces(items) == (if drafting then text else "") && (!drafting ==> items == [])
  {
  }

  lemma NothingRead(drafting: bool)
    ensures ReadSoFar(drafting, [], "", Notes(0, false, false, 0)) && Shown(drafting, [], "")
  {
  }

  lemma OnePiece(items: seq<Item>, text: string)
    requires OnlyPieces(items) && text != ""
    ensures OnlyPieces(items + [Piece(text)]) && Pieces(items + [Piece(text)]) == Pieces(items) + text
  {
    PiecesConcat(items, [Piece(text)]);
    assert [Piece(text)][1..] == [];
  }

  lemma InvalidIs(drafting: bool, heard: seq<ProviderEvent>, text: string, n: Notes)
    requires ReadSoFar(drafting, heard, text, n)
    ensures Invalid(drafting, heard) <==> n.spoiled || (n.chunks > 0 && !n.submitted)
    ensures text == TextIn(heard) && n.usage == UsageIn(heard)
  {
  }

  class Room {
    const budget: RunBudget
    ghost var w: Sys        // who holds what; its counters are not used

    ghost function S(): Sys reads this, budget { w.(used := budget.used) }

    constructor (limits: Limits)
      ensures Good() && budget.limits == limits && Init(S()) && fresh(budget)
    {
      budget := new RunBudget(limits);
      w := Sys(Used(0, 0, 0), 0, map[], {}, {}, {}, {}, false);
    }

    ghost predicate Good() reads this, budget { Inv(budget.limits, S()) }

    method Interfere(ghost pid: Pid)
      requires Good()
      modifies this`w, budget`used
      ensures Rely(budget.limits, old(S()), S(), pid)
    {
    }

    ghost method Advance(before: Sys, a: Act)
      requires Inv(budget.limits, before) && Enabled(budget.limits, before, a)
      requires Effect(budget.limits, before, a).used == budget.used
      modifies this`w
      ensures S() == Effect(budget.limits, before, a) && Good()
    {
      hide Inv, Enabled, Effect;
      StepInv(budget.limits, before, a, Effect(budget.limits, before, a));
      w := Effect(budget.limits, before, a);
    }

    /** consult_stream: one outcome, last; and the budget is charged exactly if the model was reached. */
    method ConsultStream(ghost pid: Pid, request: Option<Request>, alone: bool, findingsKnown: bool, forceReview: bool,
        script: Script)
      returns (items: seq<Item>)
      requires Good() && pid !in S().begun
      modifies this`w, budget`used
      ensures Good() && pid !in S().live && S().director == old(S().director)
      ensures WellFormed(items)
      ensures request.None? || !request.value.drafting ==> |items| == 1
      ensures request.Some? && request.value.drafting && !alone ==> |items| == 1 && items[0] == Outcome(Declined, "", 0)
      ensures pid in S().granted <==> pid in S().called
      ensures pid in S().reviewing ==> pid in S().called
      ensures items[|items| - 1]
           == OutcomeOf(budget.limits, old(budget.used), request, alone, findingsKnown, forceReview, script)
      ensures pid in S().called && request.Some? && request.value.drafting ==>
                Pieces(items[..|items| - 1]) == TextIn(script.events[..Heard(script.events)])
    {
      hide Inv, WellFormed, OutcomeOfStream;
      ghost var s0 := S();
      NotGranted(budget.limits, s0, pid);
      if request.None? {
        items := Only(InvalidArguments);
        return;
      }
      var drafting := request.value.drafting;
      if drafting && !alone {
        items := Only(Declined);
        return;
      }
      var reviewing := (request.value.review || forceReview) && findingsKnown && !drafting;
      var granted := Claim(pid, reviewing);
      if !granted {
        items := Only(Declined);
        return;
      }
      var called;
      items, called := Attempt(pid, drafting, reviewing, script);
      Settle(pid, reviewing, called);
    }

    method Only(end: End) returns (items: seq<Item>)
      ensures WellFormed(items) && items == [Outcome(end, "", 0)]
    {
      items := [Outcome(end, "", 0)];
      ClosedIsWellFormed([], items[0]);
      assert [] + items == items;
    }

    /** The consult, and the review if one is wanted, or neither. */
    method Claim(ghost pid: Pid, reviewing: bool) returns (granted: bool)
      requires Good() && pid !in S().begun && pid !in S().live && pid !in S().granted && pid !in S().called
          && pid !in S().reviewing
      modifies this`w, budget`used
      ensures Good() && pid !in S().called && S().director == old(S().director)
      ensures granted ==> pid in S().live && S().live[pid] == (if reviewing then Reviewing else Held(false))
                          && pid in S().granted && (pid in S().reviewing <==> reviewing)
      ensures !granted ==> pid !in S().live && pid !in S().granted && pid !in S().reviewing
      ensures granted <==> CanConsult(budget.limits, old(budget.used))
                           && (reviewing ==> CanReview(budget.limits, old(budget.used)))
    {
      hide Inv;
      Advance(S(), Begin(pid, reviewing));
      ghost var s := S();
      var ok := budget.TakeConsult();
      if !ok {
        Advance(s, Refuse(pid));
        return false;
      }
      Advance(s, Take(pid));
      if reviewing {
        s := S();
        ok := budget.TakeCritique();
        if !ok {
          budget.RefundConsult();
          Advance(s, RefuseReview(pid));
          return false;
        }
        Advance(s, TakeReview(pid));
      }
      return true;
    }

    /** The finally clause. */
    method Settle(ghost pid: Pid, reviewing: bool, called: bool)
      requires Good() && pid in S().live && pid in S().granted && (pid in S().reviewing <==> reviewing)
      requires S().live[pid] == (if called then Modelling else if reviewing then Reviewing else Held(false))
      requires pid in S().called <==> called
      modifies this`w, budget`used
      ensures Good() && pid !in S().live && (pid in S().granted <==> pid in S().called)
      ensures pid in S().called <==> called
      ensures S().director == old(S().director)
      ensures pid in S().reviewing ==> pid in S().called
    {
      hide Inv;
      ghost var s := S();
      if !called {
        budget.RefundConsult();
        if reviewing { budget.RefundCritique(); }
        Advance(s, Refund(pid));
      } else {
        Advance(s, Finish(pid));
      }
    }

    /** The timed block: everything between the claim and the finally clause. */
    method Attempt(ghost pid: Pid, drafting: bool, reviewing: bool, script: Script)
      returns (items: seq<Item>, called: bool)
      requires Good() && pid in S().live && pid in S().granted && (pid in S().reviewing <==> reviewing)
      requires S().live[pid] == (if reviewing then Reviewing else Held(false)) && pid !in S().called
      modifies this`w, budget`used
      ensures Good() && pid in S().live && pid in S().granted && (pid in S().reviewing <==> reviewing)
      ensures S().live[pid] == (if called then Modelling else if reviewing then Reviewing else Held(false))
      ensures (pid in S().called <==> called) && S().director == old(S().director)
      ensures WellFormed(items) && (!drafting ==> |items| == 1)
      ensures called <==> script.context.Built?
      ensures called ==> items[|items| - 1] == OutcomeOfStream(drafting, reviewing, script)
      ensures called && drafting ==> Pieces(items[..|items| - 1]) == TextIn(script.events[..Heard(script.events)])
      ensures !called ==> items == [Outcome(EndOfContext(script.context), "", 0)]
    {
      hide Inv, WellFormed;
      Interfere(pid);
      called := script.context.Built?;
      match script.context {
        case FocusRejected => items := Only(Declined);
        case StoryNotFound => items := Only(AccessDenied);
        case StoryUnavailable => items := Only(StoryDown);
        case ContextFault(fault) => items := Only(Failed(fault));
        case Built =>
          Advance(S(), CallModel(pid));
          items := Converse(pid, drafting, reviewing, script);
      }
    }

    /** The provider's stream, and what is made of it. */
    method Converse(ghost pid: Pid, drafting: bool, reviewing: bool, script: Script) returns (items: seq<Item>)
      requires Good() && pid in S().live && S().live[pid].Modelling? && pid in S().granted && pid in S().called
      modifies this`w, budget`used
      ensures Good() && pid in S().live && S().live[pid].Modelling? && pid in S().granted && pid in S().called
      ensures (pid in S().reviewing <==> pid in old(S()).reviewing) && S().director == old(S().director)
      ensures WellFormed(items) && (!drafting ==> |items| == 1)
      ensures items[|items| - 1] == OutcomeOfStream(drafting, reviewing, script)
      ensures drafting ==> Pieces(items[..|items| - 1]) == TextIn(script.events[..Heard(script.events)])
    {
      hide Inv, WellFormed, AllBlank, Invalid, Heard, TextIn, UsageIn, OnlyPieces, Pieces, EndOfStream;
      var draft, usage, invalid, stop;
      items, draft, usage, invalid, stop := Listen(pid, drafting, script);
      ghost var shown := items;
      var end := Conclude(drafting, reviewing, script, draft, invalid, stop);
      items := Close(items, end, if drafting && end.Unusable? then "" else draft, usage);
      assert items[..|items| - 1] == shown;
    }

    /** What is made of a stream that was heard. */
    method Conclude(drafting: bool, reviewing: bool, script: Script, draft: string, invalid: bool,
        stop: Option<ProviderEvent>)
      returns (end: End)
      requires var heard := script.events[..Heard(script.events)];
               && (drafting ==> draft == TextIn(heard)) && (invalid <==> Invalid(drafting, heard))
               && (stop.None? ==> heard == [] || !Ends(heard[|heard| - 1]))
               && (stop.Some? ==> heard != [] && Ends(stop.value) && heard[|heard| - 1] == stop.value)
      ensures end == EndOfStream(drafting, reviewing, script)
      ensures drafting && end.Unusable? ==> AllBlank(draft)
    {
      hide AllBlank, Invalid, Heard, TextIn;
      if stop.None? { return if script.fault.Some? then Failed(script.fault.value) else Unfinished; }
      if stop.value.StreamError? { return StreamFailed; }
      if invalid { return InvalidSubmission; }
      if !drafting { return if script.readable then Findings(reviewing) else Unusable; }
      return if AllBlank(draft) then Unusable else Delivered(stop.value.length);
    }

    /** The stream up to its first error or end: a drafter's text is passed on as it comes. */
    method Listen(ghost pid: Pid, drafting: bool, script: Script)
      returns (items: seq<Item>, draft: string, usage: nat, invalid: bool, stop: Option<ProviderEvent>)
      requires Good() && pid in S().live && S().live[pid].Modelling? && pid in S().granted && pid in S().called
      modifies this`w, budget`used
      ensures Good() && pid in S().live && S().live[pid].Modelling? && pid in S().granted && pid in S().called
      ensures (pid in S().reviewing <==> pid in old(S()).reviewing) && S().director == old(S().director)
      ensures OnlyPieces(items) && Pieces(items) == draft && (!drafting ==> items == [] && draft == "")
      ensures var heard := script.events[..Heard(script.events)];
              && (drafting ==> draft == TextIn(heard)) && usage == UsageIn(heard)
                && (invalid <==> Invalid(drafting, heard))
              && (stop.None? ==> heard == [] || !Ends(heard[|heard| - 1]))
              && (stop.Some? ==> heard != [] && Ends(stop.value) && heard[|heard| - 1] == stop.value)
    {
      hide Inv, ReadSoFar, OnlyPieces, Pieces, Invalid, Heard, TextIn, UsageIn, Shown;
      items, stop := [], None;
      var text, i, notes := "", 0, Notes(0, false, false, 0);
      NothingRead(drafting);
      while i < |script.events| && stop.None?
        invariant i <= |script.events| && Good()
        invariant pid in S().live && S().live[pid].Modelling? && pid in S().granted && pid in S().called
        invariant (pid in S().reviewing <==> pid in old(S()).reviewing) && S().director == old(S().director)
        invariant Shown(drafting, items, text)
        invariant forall k :: 0 <= k < i - 1 ==> !Ends(script.events[k])
        invariant if stop.Some? then i > 0 && script.events[i - 1] == stop.value && Ends(stop.value)
                  else i > 0 ==> !Ends(script.events[i - 1])
        invariant ReadSoFar(drafting, script.events[..i], text, notes)
        decreases |script.events| - i, stop.None?
      {
        Interfere(pid);
        var event := script.events[i];
        ReadOneMore(drafting, script.events[..i], event, text, notes);
        assert script.events[..i + 1] == script.events[..i] + [event];
        i := i + 1;
        notes := Note(drafting, event, notes);
        if event.Text? {
          items := Show(drafting, items, text, event.text);
          text := text + event.text;
        } else {
          assert text + "" == text;
        }
        if event.StreamError? || event.Finished? { stop := Some(event); }
      }
      HeardAll(script.events, i);
      InvalidIs(drafting, script.events[..i], text, notes);
      ShownIs(drafting, items, text);
      draft, usage := if drafting then text else "", notes.usage;
      invalid := notes.spoiled || (notes.chunks > 0 && !notes.submitted);
    }

    /** A drafter's text is shown as it comes, but for empty pieces. */
    method Show(drafting: bool, items: seq<Item>, text: string, piece: string) returns (shown: seq<Item>)
      requires Shown(drafting, items, text)
      ensures Shown(drafting, shown, text + piece)
    {
      hide OnlyPieces, Pieces;
      if drafting && piece != "" {
        OnePiece(items, piece);
        return items + [Piece(piece)];
      }
      if piece == "" { assert text + piece == text; }
      return items;
    }

    /** What an event that is no text adds to the count of usage reports and to what is known of the submission. */
    method Note(drafting: bool, event: ProviderEvent, notes: Notes) returns (after: Notes)
      ensures after == Noted(drafting, event, notes)
    {
      after := notes;
      match event {
        case Fragment(isObject, index, submits, delta) =>
          if !isObject { return after.(spoiled := true); }
          if drafting || index != 0 { after := after.(spoiled := true); }
          if submits.Some? {
            if submits.value { after := after.(submitted := true); } else { after := after.(spoiled := true); }
          }
          if delta.Some? { after := after.(chunks := after.chunks + 1); }
        case UsageReport => after := after.(usage := after.usage + 1);
        case _ =>
      }
    }

    method Close(pieces: seq<Item>, end: End, draft: string, usage: nat) returns (items: seq<Item>)
      requires OnlyPieces(pieces) && (draft == Pieces(pieces) || (end == Unusable && AllBlank(Pieces(pieces))))
      ensures WellFormed(items) && items == pieces + [Outcome(end, draft, usage)]
    {
      items := pieces + [Outcome(end, draft, usage)];
      ClosedIsWellFormed(pieces, Outcome(end, draft, usage));
    }

    /** run_consult: the items collected, and the one outcome among them. */
    method RunConsult(ghost pid: Pid, request: Option<Request>, alone: bool, findingsKnown: bool, forceReview: bool,
        script: Script)
      returns (outcome: Item)
      requires Good() && pid !in S().begun
      modifies this`w, budget`used
      ensures Good() && pid !in S().live && outcome.Outcome? && S().director == old(S().director)
      ensures pid in S().granted <==> pid in S().called
      ensures outcome == OutcomeOf(budget.limits, old(budget.used), request, alone, findingsKnown, forceReview, script)
    {
      hide OutcomeOf;
      var items := ConsultStream(pid, request, alone, findingsKnown, forceReview, script);
      var found: Option<Item> := None;
      for i := 0 to |items|
        invariant i == |items| ==> found == Some(items[|items| - 1])
        invariant found.Some? ==> found.value.Outcome?
      {
        if items[i].Outcome? { found := Some(items[i]); }
      }
      outcome := found.value;
    }
  }

  lemma NotGranted(l: Limits, s: Sys, pid: Pid)
    requires Inv(l, s) && pid !in s.begun
    ensures pid !in s.live && pid !in s.granted && pid !in s.called && pid !in s.reviewing
  {
  }
}
