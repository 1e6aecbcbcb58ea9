/** The events of one run: stamped in order, at most one of them terminal, and that one last. */
module EventLog {
  import opened Prelude

  const MAX_ID_CHARS: nat := 128
  const MAX_TOOL_NAME_CHARS: nat := 64
  const MAX_CONTENT_CHARS: nat := 100_000

  datatype Code = ProviderError | ProviderUnavailable | RateLimited | QuotaExceeded | InternalError | StoryAccessDenied

  datatype Reason = Stop | Length | ToolCalls | MaxSteps

  /** What the loop depends on of each event.  index says for which of a step's calls arguments are
      passed on, and is not sent; accepted stands for fields that are not modelled. */
  datatype Kind =
    | RunStarted
    | TextDelta(text: string)
    | TextDone(text: string)
    | ToolStarted(id: string, name: string)
    | ToolArgsDelta(id: string, index: int, delta: string)
    | ToolCompleted(id: string, name: string)
    | ToolFailed(id: string, code: Code)
    | ApprovalRequested(accepted: bool)
    | ApprovalResolved(accepted: bool)
    | Reference(accepted: bool)
    | Usage(accepted: bool)
    | RunCompleted(reason: Reason)
    | RunFailed(code: Code)
    | RunCancelled

  datatype Event = Event(runId: string, seqNo: nat, kind: Kind)

  predicate Terminal(k: Kind) { k.RunCompleted? || k.RunFailed? || k.RunCancelled? }

  predicate Between(s: string, most: nat) { 1 <= |s| <= most }

  /** Whether an event's own model accepts its fields. */
  predicate Accepts(k: Kind) {
    match k
    case TextDelta(text) => Between(text, MAX_CONTENT_CHARS)
    case TextDone(text) => Between(text, MAX_CONTENT_CHARS)
    case ToolStarted(id, name) => Between(id, MAX_ID_CHARS) && Between(name, MAX_TOOL_NAME_CHARS)
    case ToolArgsDelta(id, _, delta) => Between(id, MAX_ID_CHARS) && Between(delta, MAX_CONTENT_CHARS)
    case ToolCompleted(id, name) => Between(id, MAX_ID_CHARS) && Between(name, MAX_TOOL_NAME_CHARS)
    case ToolFailed(id, _) => Between(id, MAX_ID_CHARS)
    case ApprovalRequested(ok) => ok
    case ApprovalResolved(ok) => ok
    case Reference(ok) => ok
    case Usage(ok) => ok
    case _ => true
  }

  // ------------------------------------------------------------------
  // What a valid run is
  // ------------------------------------------------------------------

  function Terminals(events: seq<Event>): nat {
    if events == [] then 0
    else Terminals(events[..|events| - 1]) + if Terminal(events[|events| - 1].kind) then 1 else 0
  }

  datatype Fault = Empty | SeveralRuns | NotDense(at: nat) | WrongTerminals(count: nat) | TerminalNotLast

  /** One run id, sequence numbers dense from zero, and one terminal event, which is the last. */
  ghost predicate ValidRun(events: seq<Event>) {
    && events != []
    && (forall i :: 0 <= i < |events| ==> events[i].runId == events[0].runId && events[i].seqNo == i)
    && Terminal(events[|events| - 1].kind)
    && (forall i :: 0 <= i < |events| - 1 ==> !Terminal(events[i].kind))
  }

  lemma {:induction false} NoTerminals(events: seq<Event>)
    ensures Terminals(events) == 0 <==> forall i :: 0 <= i < |events| ==> !Terminal(events[i].kind)
  {
    if events != [] { NoTerminals(events[..|events| - 1]); }
  }

  /** One terminal, at the end, is the same as the end being terminal and nothing before it. */
  lemma OneTerminalLast(events: seq<Event>)
    requires events != []
    ensures Terminals(events) == 1 && Terminal(events[|events| - 1].kind)
       <==> Terminal(events[|events| - 1].kind) && forall i :: 0 <= i < |events| - 1 ==> !Terminal(events[i].kind)
  {
    NoTerminals(events[..|events| - 1]);
  }

  method ValidateEventSequence(events: seq<Event>) returns (fault: Option<Fault>)
    ensures fault.None? <==> ValidRun(events)
  {
    if events == [] { return Some(Empty); }
    for i := 0 to |events|
      invariant forall k :: 0 <= k < i ==> events[k].runId == events[0].runId
    {
      if events[i].runId != events[0].runId { return Some(SeveralRuns); }
    }
    for expected := 0 to |events|
      invariant forall k :: 0 <= k < expected ==> events[k].seqNo == k
    {
      if events[expected].seqNo != expected { return Some(NotDense(expected)); }
    }
    var terminals := 0;
    for i := 0 to |events|
      invariant terminals == Terminals(events[..i])
    {
      assert events[..i + 1][..i] == events[..i];
      if Terminal(events[i].kind) { terminals := terminals + 1; }
    }
    assert events[..|events|] == events;
    OneTerminalLast(events);
    if terminals != 1 { return Some(WrongTerminals(terminals)); }
    if !Terminal(events[|events| - 1].kind) { return Some(TerminalNotLast); }
    return None;
  }

  // ------------------------------------------------------------------
  // Counting and approvals
  // ------------------------------------------------------------------

  predicate Settles(k: Kind, id: string) { (k.ToolCompleted? || k.ToolFailed?) && k.id == id }

  /** Every approval request is directly followed by the run's completion with tool_calls. */
  ghost predicate ApprovalsClose(events: seq<Event>) {
    forall i :: 0 <= i < |events| && events[i].kind.ApprovalRequested? ==>
      i + 1 < |events| && events[i + 1].kind == RunCompleted(ToolCalls)
  }

  // ------------------------------------------------------------------
  // The emitter
  // ------------------------------------------------------------------

  /** How a stretch of the program can end other than normally. */
  datatype Exc = TimedOut | Invalid | ToolError(code: Code) | ProviderFault(code: Code) | Unexpected

  class RunEvents {
    const runId: string
    var next: nat
    var terminated: bool
    var log: seq<Event>     // what was yielded

    ghost predicate Valid()
      reads this
    {
      && next == |log|
      && (forall i :: 0 <= i < |log| ==> log[i].runId == runId && log[i].seqNo == i)
      && (forall i :: 0 <= i < |log| - 1 ==> !Terminal(log[i].kind))
      && (terminated <==> log != [] && Terminal(log[|log| - 1].kind))
    }

    constructor (runId: string)
      ensures Valid() && this.runId == runId && log == [] && !terminated
    {
      this.runId, next, terminated, log := runId, 0, false, [];
    }

    /** Nothing is stamped after the terminal event, nor when the event's model refuses its fields. */
    method Emit(kind: Kind) returns (raised: Option<Exc>)
      requires Valid()
      modifies this
      ensures Valid()
      ensures raised == if old(terminated) then Some(Unexpected) else if Accepts(kind) then None else Some(Invalid)
      ensures raised.Some? ==> log == old(log) && terminated == old(terminated)
      ensures raised.None? ==> log == old(log) + [Event(runId, |old(log)|, kind)] && terminated == Terminal(kind)
    {
      if terminated { return Some(Unexpected); }
      if !Accepts(kind) { return Some(Invalid); }
      log := log + [Event(runId, next, kind)];
      next := next + 1;
      if Terminal(kind) { terminated := true; }
      return None;
    }

    /** A run that has ended is one the validator accepts. */
    lemma EndedIsValid()
      requires Valid() && terminated
      ensures ValidRun(log)
    {
    }
  }
}
