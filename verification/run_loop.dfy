/**
 The run itself: model calls, the calls they ask for, and every way a run can end.  What
 the outside world does (streams, tools, consults, timeouts, failures) is left open.
 */
module RunLoop {
  import opened Prelude
  import opened EventLog
  import opened RunStream
  import B = RunBudgets
  import C = Consults

  /** A call a step asks for.  args is the joined argument text. */
  datatype Call = Call(id: string, name: string, args: string)

  datatype Payload = Answer | Error(code: Code)

  /** What an event that settles a call says of it to the model. */
  function PayloadOf(k: Kind): Payload { if k.ToolFailed? then Error(k.code) else Answer }

  /** The completed-or-failed events of a call id, by what they say. */
  function Told(events: seq<Event>, id: string): seq<Payload> {
    if events == [] then []
    else
      var last := events[|events| - 1].kind;
      Told(events[..|events| - 1], id) + if Settles(last, id) then [PayloadOf(last)] else []
  }

  datatype Message = Given | Nudge | AssistantTurn(ids: seq<string>) | ToolMessage(id: string, payload: Payload)

  datatype Ask = Ask(who: string, draft: bool)

  datatype Config = Config(
    modelCalls: nat, consults: nat, toolCalls: nat, room: bool, entityProposals: bool, edits: bool,
      editorCanPropose: bool,
    ask: string -> Option<Ask>, wantsReview: string -> bool)

  ghost predicate DistinctIds(calls: seq<Call>) { forall i, j :: 0 <= i < j < |calls| ==> calls[i].id != calls[j].id }

  function Ids(calls: seq<Call>): set<string> { set i | 0 <= i < |calls| :: calls[i].id }

  function IdList(calls: seq<Call>): seq<string> { seq(|calls|, i requires 0 <= i < |calls| => calls[i].id) }

  /** Every assistant turn that asked for calls is followed by one tool message for each, in call order. */
  ghost predicate Answered(messages: seq<Message>) {
    forall p :: 0 <= p < |messages| && messages[p].AssistantTurn? ==> AnsweredAt(messages, p)
  }

  ghost predicate AnsweredAt(messages: seq<Message>, p: nat)
    requires p < |messages| && messages[p].AssistantTurn?
  {
    var ids := messages[p].ids;
    p + |ids| < |messages| && AnswersTo(messages[p + 1..p + 1 + |ids|], ids)
  }

  ghost predicate AnswersTo(added: seq<Message>, ids: seq<string>) {
    && |added| == |ids|
    && forall i :: 0 <= i < |ids| ==> added[i].ToolMessage? && added[i].id == ids[i]
  }

  /** One tool message a call, in call order. */
  ghost predicate Answers(added: seq<Message>, calls: seq<Call>) { AnswersTo(added, IdList(calls)) }

  /** A turn answered in a list of messages is answered in a longer one. */
  lemma AnsweredLonger(messages: seq<Message>, all: seq<Message>, p: nat)
    requires messages <= all && p < |messages| && messages[p].AssistantTurn? && AnsweredAt(messages, p)
    ensures AnsweredAt(all, p)
  {
    hide AnswersTo;
    var n := |messages[p].ids|;
    assert all == messages + all[|messages|..];
    assert all[p] == messages[p];
    assert all[p + 1..p + 1 + n] == messages[p + 1..p + 1 + n];
  }

  lemma TurnAnswered(messages: seq<Message>, calls: seq<Call>, added: seq<Message>)
    requires Answers(added, calls)
    ensures AnsweredAt(messages + [AssistantTurn(IdList(calls))] + added, |messages|)
  {
    var all, p := messages + [AssistantTurn(IdList(calls))] + added, |messages|;
    assert all[p].ids == IdList(calls);
    assert all[p + 1..p + 1 + |calls|] == added;
  }

  lemma AnswersKeep(messages: seq<Message>, calls: seq<Call>, added: seq<Message>)
    requires Answered(messages) && Answers(added, calls)
    ensures Answered(messages + [AssistantTurn(IdList(calls))] + added)
  {
    hide AnsweredAt;
    var all := messages + [AssistantTurn(IdList(calls))] + added;
    assert forall q :: 0 <= q < |added| ==> !added[q].AssistantTurn?;
    forall p | 0 <= p < |all| && all[p].AssistantTurn? ensures AnsweredAt(all, p) {
      if p < |messages| {
        assert messages[p] == all[p];
        AnsweredLonger(messages, all, p);
      } else {
        TurnAnswered(messages, calls, added);
      }
    }
  }

  lemma PlainMessageKeeps(messages: seq<Message>, m: Message)
    requires Answered(messages) && !m.AssistantTurn?
    ensures Answered(messages + [m])
  {
    hide AnsweredAt;
    forall p | 0 <= p < |messages + [m]| && (messages + [m])[p].AssistantTurn? ensures AnsweredAt(messages + [m], p) {
      assert messages[p] == (messages + [m])[p];
      AnsweredLonger(messages, messages + [m], p);
    }
  }

  /** A failure that says the story is not this user's. */
  predicate Denial(k: Kind) { k.ToolFailed? && k.code == StoryAccessDenied }

  ghost predicate Denied(start: seq<Event>, log: seq<Event>) { exists i :: |start| <= i < |log| && Denial(log[i].kind) }

  ghost predicate Undenied(start: seq<Event>, log: seq<Event>) { start <= log && !Denied(start, log) }

  lemma DeniedPush(start: seq<Event>, log: seq<Event>, e: Event)
    requires start <= log
    ensures start <= log + [e] && (Denied(start, log + [e]) <==> Denied(start, log) || Denial(e.kind))
  {
    hide Denial;
    var all := log + [e];
    assert all[|log|] == e && forall i :: 0 <= i < |log| ==> all[i] == log[i];
  }

  lemma DeniedOn(start: seq<Event>, log: seq<Event>, more: seq<Event>)
    requires start <= log && Undenied(log, more)
    ensures start <= more && (Denied(start, more) <==> Denied(start, log))
  {
    hide Denial;
    assert forall i :: 0 <= i < |log| ==> more[i] == log[i];
  }

  lemma NothingDenied(log: seq<Event>)
    ensures Undenied(log, log)
  {
  }

  ghost predicate Completed(start: seq<Event>, log: seq<Event>, name: string) {
    exists i :: |start| <= i < |log| && log[i].kind.ToolCompleted? && log[i].kind.name == name
  }

  /** Since then approval was requested, and the run ended with the request. */
  ghost predicate Requested(start: seq<Event>, log: seq<Event>) {
    start <= log && |log| >= |start| + 2 && log[|log| - 2].kind.ApprovalRequested?
  }

  /** Why a step's calls may end the run: a denied story, a proposal to approve, or a draft delivered. */
  ghost predicate EndedByCall(start: seq<Event>, log: seq<Event>) {
    && start <= log && |log| >= 2
    && match log[|log| - 1].kind
       case RunFailed(code) => code == StoryAccessDenied && Denied(start, log)
       case RunCompleted(ToolCalls) =>
         && log[|log| - 2].kind.ApprovalRequested?
         && (Completed(start, log, "propose_editor_edit") || Completed(start, log, "propose_story_changes"))
       case RunCompleted(MaxSteps) => false
       case RunCompleted(_) => Completed(start, log, "consult_specialist")
       case _ => false
  }

  lemma EndedSince(start: seq<Event>, mid: seq<Event>, log: seq<Event>)
    requires start <= mid && EndedByCall(mid, log)
    ensures EndedByCall(start, log)
  {
    hide Denial;
  }

  lemma DeniedEnds(start: seq<Event>, log: seq<Event>, e: Event)
    requires start <= log && Denied(start, log) && e.kind == RunFailed(StoryAccessDenied)
    ensures EndedByCall(start, log + [e])
  {
    DeniedPush(start, log, e);
  }

  /** A completed call whose effect ends the run, after what it refers to. */
  lemma CompletedEnds(start: seq<Event>, log: seq<Event>, name: string)
    requires start < log && log[|start|].kind.ToolCompleted? && log[|start|].kind.name == name && |log| >= |start| + 2
    requires match log[|log| - 1].kind
             case RunCompleted(ToolCalls) =>
               log[|log| - 2].kind.ApprovalRequested? && name in {"propose_editor_edit", "propose_story_changes"}
             case RunCompleted(MaxSteps) => false
             case RunCompleted(_) => name == "consult_specialist"
             case _ => false
    ensures EndedByCall(start, log)
  {
    assert Completed(start, log, name);
  }

  lemma ToldPush(log: seq<Event>, e: Event, id: string)
    ensures Told(log + [e], id) == Told(log, id) + if Settles(e.kind, id) then [PayloadOf(e.kind)] else []
  {
    assert (log + [e])[..|log|] == log;
  }

  /** If a call id was told one thing more since a point in the log, exactly one event since settles it, and
      that event says it: it is a ToolCompleted exactly for an answer, and a ToolFailed with that code else. */
  lemma {:induction false} ToldOnce(start: seq<Event>, log: seq<Event>, id: string, p: Payload) returns (at: nat)
    requires start <= log && Told(log, id) == Told(start, id) + [p]
    ensures |start| <= at < |log| && Settles(log[at].kind, id)
    ensures p == Answer <==> log[at].kind.ToolCompleted?
    ensures p.Error? <==> log[at].kind == ToolFailed(id, if p.Error? then p.code else ProviderError)
    ensures forall i :: |start| <= i < |log| && i != at ==> !Settles(log[i].kind, id)
    decreases |log|
  {
    var front, last := log[..|log| - 1], log[|log| - 1].kind;
    assert log == start ==> Told(log, id) == Told(start, id);
    assert start <= front;
    if Settles(last, id) {
      at := |log| - 1;
      SameEnds(Told(front, id), PayloadOf(last), Told(start, id), p);
      NothingTold(start, front, id);
    } else {
      at := ToldOnce(start, front, id, p);
    }
  }

  lemma SameEnds(a: seq<Payload>, x: Payload, b: seq<Payload>, y: Payload)
    requires a + [x] == b + [y]
    ensures a == b && x == y
  {
    assert |a + [x]| == |b + [y]|;
    assert (a + [x])[|a|] == x && (b + [y])[|b|] == y;
    assert (a + [x])[..|a|] == a && (b + [y])[..|b|] == b;
  }

  lemma {:induction false} ToldGrows(start: seq<Event>, log: seq<Event>, id: string)
    requires start <= log
    ensures Told(start, id) <= Told(log, id)
    decreases |log|
  {
    if |start| < |log| {
      ToldGrows(start, log[..|log| - 1], id);
    } else {
      assert start == log;
    }
  }

  lemma {:induction false} NothingTold(start: seq<Event>, log: seq<Event>, id: string)
    requires start <= log && Told(log, id) == Told(start, id)
    ensures forall i :: |start| <= i < |log| ==> !Settles(log[i].kind, id)
    decreases |log|
  {
    if |start| < |log| {
      var front := log[..|log| - 1];
      ToldGrows(start, front, id);
      NothingTold(start, front, id);
    }
  }

  lemma ApprovalsGrown(a: seq<Event>, b: seq<Event>)
    requires ApprovalsClose(a) && Grown(a, b)
    ensures ApprovalsClose(b)
  {
    forall i | 0 <= i < |b| && b[i].kind.ApprovalRequested?
      ensures i + 1 < |b| && b[i + 1].kind == RunCompleted(ToolCalls) {
      assert i < |a|;
      assert a[i] == b[i] && a[i + 1] == b[i + 1];
    }
  }

  lemma ApprovalsPush(a: seq<Event>, e: Event)
    requires ApprovalsClose(a) && !e.kind.ApprovalRequested?
    ensures ApprovalsClose(a + [e])
  {
    forall i | 0 <= i < |a + [e]| && (a + [e])[i].kind.ApprovalRequested?
      ensures i + 1 < |a + [e]| && (a + [e])[i + 1].kind == RunCompleted(ToolCalls)
    {
      assert (a + [e])[i] == a[i];
    }
  }

  /** The first approval request, and the end of the run after it. */
  lemma ApprovalCloses(a: seq<Event>, b: seq<Event>, accepted: bool)
    requires ApprovalsClose(a) && forall i :: 0 <= i < |a| ==> !Terminal(a[i].kind)
    requires |b| == |a| + 2 && a <= b && b[|a|].kind == ApprovalRequested(accepted)
        && b[|a| + 1].kind == RunCompleted(ToolCalls)
    ensures ApprovalsClose(b)
  {
    NoApprovalYet(a);
    assert forall i :: 0 <= i < |a| ==> b[i] == a[i];
  }

  lemma NoApprovalYet(a: seq<Event>)
    requires ApprovalsClose(a) && forall i :: 0 <= i < |a| ==> !Terminal(a[i].kind)
    ensures forall i :: 0 <= i < |a| ==> !a[i].kind.ApprovalRequested?
  {
    forall i | 0 <= i < |a| ensures !a[i].kind.ApprovalRequested? {
      assert i + 1 < |a| ==> !Terminal(a[i + 1].kind);
    }
  }

  /** The code a consult's end is reported with, if it is a failure. */
  function ErrorOf(end: C.End, reported: Code): Option<Code> {
    match end
    case InvalidArguments => Some(ProviderError)
    case AccessDenied => Some(StoryAccessDenied)
    case StoryDown => Some(InternalError)
    case Failed(Timeout) => Some(ProviderUnavailable)
    case Failed(Provider) => Some(reported)
    case Failed(Unexpected) => Some(InternalError)
    case StreamFailed => Some(reported)
    case Unfinished => Some(ProviderUnavailable)
    case InvalidSubmission => Some(ProviderError)
    case Unusable => Some(ProviderError)
    case _ => None
  }

  /** What the model is told of a consult that ended so. */
  function ConsultPayload(end: C.End, reported: Code): Payload {
    match ErrorOf(end, reported) case Some(code) => Error(code) case None => Answer
  }

  class Run {
    const config: Config
    const events: RunEvents
    const room: C.Room
    var messages: seq<Message>
    var prompts: seq<seq<Message>>        // the messages of each model call made
    var toolCallsUsed: nat
    var snapshotRead: bool
    var nudged: bool
    var findings: nat
    var settled: map<string, Payload>     // of the current step
    var accessDenied: bool

    constructor (config: Config, runId: string)
      ensures this.config == config && fresh(events) && fresh(room) && fresh(room.budget)
      ensures events.Valid() && events.log == [] && !events.terminated && events.runId == runId
      ensures room.Good() && room.budget.limits == B.Limits(config.modelCalls, config.consults, 1)
          && room.S().director == 0
      ensures messages == [] && prompts == [] && toolCallsUsed == 0 && settled == map[] && !nudged
    {
      this.config := config;
      events := new RunEvents(runId);
      room := new C.Room(B.Limits(config.modelCalls, config.consults, 1));
      messages, prompts, toolCallsUsed, snapshotRead, nudged, findings := [], [], 0, false, false, 0;
      settled, accessDenied := map[], false;
    }

    ghost predicate Sound()
      reads events, room, room.budget
    {
      events.Valid() && room.Good() && ApprovalsClose(events.log)
    }

    ghost predicate Ready()
      reads events, room, room.budget
    {
      Sound() && !events.terminated
    }

    /** After a stretch that can end the run: it ended exactly if the terminal event is out. */
    ghost predicate Done(flow: Flow)
      reads events, room, room.budget
    {
      Sound() && (events.terminated <==> flow == Return)
    }

    /** The event sent last. */
    ghost predicate EndsWith(kind: Kind)
      reads events
    {
      events.log != [] && events.log[|events.log| - 1].kind == kind
    }

    // ----------------------------------------------------------------
    // Emitting
    // ----------------------------------------------------------------

    /** Any event that is neither terminal nor a request for approval. */
    method Say(kind: Kind) returns (flow: Flow)
      requires Ready() && !Terminal(kind) && !kind.ApprovalRequested?
      modifies events
      ensures Ready() && flow == if Accepts(kind) then Next else Raise(Invalid)
      ensures flow == Next ==> forall id :: Told(events.log, id) == old(Told(events.log, id)) + if Settles(kind, id)
          then [PayloadOf(kind)] else []
      ensures flow != Next ==> events.log == old(events.log)
      ensures flow != Next || !Denial(kind) ==> Undenied(old(events.log), events.log)
      ensures flow == Next ==> events.log == old(events.log) + [Event(events.runId, |old(events.log)|, kind)]
    {
      hide ApprovalsClose, Told, Denial, Denied;
      ghost var log := events.log;
      NothingDenied(log);
      var raised := events.Emit(kind);
      if raised.Some? { return Raise(raised.value); }
      ApprovalsPush(log, Event(events.runId, |log|, kind));
      DeniedPush(log, log, Event(events.runId, |log|, kind));
      forall id ensures Told(events.log, id) == Told(log, id) + if Settles(kind, id) then [PayloadOf(kind)] else [] {
        ToldPush(log, Event(events.runId, |log|, kind), id);
      }
      return Next;
    }

    /** The terminal event. */
    method End(kind: Kind)
      requires Ready() && Terminal(kind)
      modifies events
      ensures Done(Return) && events.log == old(events.log) + [Event(events.runId, |old(events.log)|, kind)]
    {
      hide ApprovalsClose;
      ghost var log := events.log;
      var raised := events.Emit(kind);
      ApprovalsPush(log, Event(events.runId, |log|, kind));
    }

    /** An approval request, and the end of the run with it. */
    method RequestApproval() returns (flow: Flow)
      requires Ready()
      modifies events
      ensures Done(flow) && flow != Next && (flow == Return ==> EndsWith(RunCompleted(ToolCalls)))
      ensures flow == Return ==> Requested(old(events.log), events.log)
    {
      var accepted: bool :| true;
      ghost var log := events.log;
      var raised := events.Emit(ApprovalRequested(accepted));
      if raised.Some? { return Raise(raised.value); }
      raised := events.Emit(RunCompleted(ToolCalls));
      ApprovalCloses(log, events.log, accepted);
      return Return;
    }

    /** A point where the program waits: the run's time may be up, or what it waits for may fail. */
    method Await() returns (flow: Flow)
      ensures flow != Return
    {
      var raised: Option<Exc> :| true;
      flow := if raised.Some? then Raise(raised.value) else Next;
    }

    // ----------------------------------------------------------------
    // Settling
    // ----------------------------------------------------------------

    /** Since a point in the log, exactly the settled calls have their one completed-or-failed event. */
    ghost predicate Ledger(start: seq<Event>)
      reads this`settled, events
    {
      forall id :: Told(events.log, id) == Told(start, id) + if id in settled then [settled[id]] else []
    }

    /** Since a point in the log, the flag says whether a consult found the story denied. */
    ghost predicate Tidy(start: seq<Event>)
      reads this`accessDenied, events
    {
      start <= events.log && (accessDenied <==> Denied(start, events.log))
    }

    /** Except for some ids, what was settled is settled as before. */
    ghost predicate Kept(before: map<string, Payload>, except: set<string>)
      reads this`settled
    {
      forall id :: id in before && id !in except ==> id in settled && settled[id] == before[id]
    }

    /** A call the step did not allow is settled as the provider's error. */
    ghost predicate Excluded(calls: seq<Call>, allowed: set<string>)
      reads this`settled
    {
      forall i :: 0 <= i < |calls| && calls[i].name !in allowed ==>
        calls[i].id in settled && settled[calls[i].id] == Error(ProviderError)
    }

    /** One call's outcome: its event, and what the model will be told. */
    method SettleWith(id: string, kind: Kind, payload: Payload, ghost start: seq<Event>) returns (flow: Flow)
      requires Ready() && (kind.ToolCompleted? || kind.ToolFailed?) && kind.id == id
      modifies this`settled, events
      ensures Ready() && flow != Return
      ensures flow == Next ==> settled == old(settled)[id := payload]
      ensures flow == Next && old(Ledger(start)) && id !in old(settled) && payload == PayloadOf(kind) ==> Ledger(start)
      ensures flow == Next && start <= old(events.log) ==>
          start <= events.log && (Denied(start, events.log) <==> Denied(start, old(events.log)) || Denial(kind))
    {
      hide Ready, Told, Denial, Denied, Undenied;
      ghost var log := events.log;
      flow := Say(kind);
      if flow == Next {
        settled := settled[id := payload];
        if start <= log { DeniedPush(start, log, Event(events.runId, |log|, kind)); }
      }
    }

    /** _settle */
    method SettleConsult(call: Call, outcome: C.Item, ghost start: seq<Event>) returns (flow: Flow)
      requires Ready() && outcome.Outcome?
      modifies this`settled, this`accessDenied, this`findings, events
      ensures Ready() && flow != Return
      ensures flow == Next ==> settled.Keys == old(settled).Keys + {call.id} && Kept(old(settled), {call.id})
      ensures flow == Next ==> exists reported :: settled[call.id] == ConsultPayload(outcome.end, reported)
      ensures flow == Next && old(Ledger(start)) && call.id !in old(settled) ==> Ledger(start)
      ensures flow == Next && old(Tidy(start)) ==> Tidy(start)
    {
      hide Ready, Told, Denied, Undenied;
      ghost var log := events.log;
      flow := BillUsage(outcome.usage, start);
      if flow != Next { return; }
      if start <= log { DeniedOn(start, log, events.log); }
      var reported: Code :| true;
      var error := ErrorOf(outcome.end, reported);
      if error.Some? {
        flow := SettleWith(call.id, ToolFailed(call.id, error.value), Error(error.value), start);
        accessDenied := accessDenied || error.value.StoryAccessDenied?;
      } else {
        flow := SettleWith(call.id, ToolCompleted(call.id, call.name), Answer, start);
        if flow == Next && outcome.end.Findings? { findings := findings + 1; }
      }
      assert flow == Next ==> settled[call.id] == ConsultPayload(outcome.end, reported);
    }

    /** Usage events, which settle nothing. */
    method BillUsage(count: nat, ghost start: seq<Event>) returns (flow: Flow)
      requires Ready()
      modifies events
      ensures Ready() && flow != Return
      ensures old(Ledger(start)) ==> Ledger(start)
      ensures forall id :: Told(events.log, id) == old(Told(events.log, id))
      ensures Undenied(old(events.log), events.log)
    {
      hide Ready, Told, Denied;
      flow := Next;
      NothingDenied(events.log);
      for i := 0 to count
        invariant Ready() && flow == Next && forall id :: Told(events.log, id) == old(Told(events.log, id))
        invariant Undenied(old(events.log), events.log)
      {
        var accepted: bool :| true;
        ghost var log := events.log;
        flow := Say(Usage(accepted));
        DeniedOn(old(events.log), log, events.log);
        if flow != Next { return; }
      }
    }

    /** Calls the step did not allow fail before anything else is done. */
    method RejectExcluded(calls: seq<Call>, allowed: set<string>) returns (flow: Flow)
      requires Ready() && settled == map[]
      modifies this`settled, events
      ensures Ready() && flow != Return
      ensures flow == Next ==> settled.Keys <= Ids(calls) && Excluded(calls, allowed)
      ensures flow == Next && DistinctIds(calls) ==> Ledger(old(events.log))
      ensures flow == Next ==> Undenied(old(events.log), events.log)
    {
      hide Ready, Told, Denied;
      ghost var start := events.log;
      flow := Next;
      NothingDenied(start);
      for k := 0 to |calls|
        invariant Ready() && flow == Next
        invariant forall id :: id in settled ==> exists i :: 0 <= i < k && calls[i].id == id
        invariant DistinctIds(calls) ==> Ledger(start)
        invariant Undenied(start, events.log)
        invariant forall id :: id in settled ==> settled[id] == Error(ProviderError)
        invariant forall i :: 0 <= i < k && calls[i].name !in allowed ==> calls[i].id in settled
      {
        if calls[k].name !in allowed {
          flow := SettleWith(calls[k].id, ToolFailed(calls[k].id, ProviderError), Error(ProviderError), start);
          if flow != Next { return; }
        }
      }
    }

    // ----------------------------------------------------------------
    // Consult waves
    // ----------------------------------------------------------------

    /** A consult that is not streamed: whatever asks for a specialist, but for drafts outside the room. */
    predicate Consultable(call: Call) {
      call.name == "consult_specialist" && (config.room || !Drafting(call))
    }

    predicate Drafting(call: Call) { config.ask(call.args).Some? && config.ask(call.args).value.draft }

    function Asked(call: Call): string {
      if config.ask(call.args).Some? then config.ask(call.args).value.who else ""
    }

    /** Of the calls that are not done, those to consult together, and the specialists they ask: the first call to
        each, and no draft. */
    function Chosen(calls: seq<Call>, done: set<string>): (seq<Call>, set<string>) {
      if calls == [] then ([], {})
      else
        var (chosen, asked) := Chosen(calls[..|calls| - 1], done);
        var call := calls[|calls| - 1];
        if Consultable(call) && call.id !in done && !Drafting(call) && Asked(call) !in asked
        then (chosen + [call], asked + {Asked(call)})
        else (chosen, asked)
    }

    /** Each consult that is not streamed is done, or chosen to be consulted. */
    ghost predicate Placed(keys: set<string>, calls: seq<Call>, chosen: seq<Call>) {
      forall i :: 0 <= i < |calls| && Consultable(calls[i]) ==> calls[i].id in keys || calls[i] in chosen
    }

    lemma {:induction false} ChosenAmong(calls: seq<Call>, done: set<string>)
      ensures forall c :: c in Chosen(calls, done).0 ==> c in calls && c.id !in done
      ensures DistinctIds(calls) ==> DistinctIds(Chosen(calls, done).0)
    {
      hide Consultable, Drafting, Asked, DistinctIds;
      if calls == [] {
        NoneDistinct();
      } else {
        var front, last := calls[..|calls| - 1], calls[|calls| - 1];
        ChosenAmong(front, done);
        assert calls == front + [last];
        DistinctParts(front, last);
        if DistinctIds(calls) { OneMoreDistinct(front, Chosen(front, done).0, last); }
      }
    }

    lemma NoneDistinct()
      ensures DistinctIds([])
    {
    }

    lemma DistinctParts(front: seq<Call>, last: Call)
      ensures DistinctIds(front + [last]) ==> DistinctIds(front) && forall c :: c in front ==> c.id != last.id
    {
      var all := front + [last];
      assert all[|front|] == last && forall i :: 0 <= i < |front| ==> all[i] == front[i];
    }

    lemma OneMoreDistinct(front: seq<Call>, chosen: seq<Call>, last: Call)
      requires DistinctIds(chosen) && (forall c :: c in chosen ==> c in front)
      requires forall c :: c in front ==> c.id != last.id
      ensures DistinctIds(chosen + [last])
    {
      var all := chosen + [last];
      forall i | 0 <= i < |chosen| ensures all[i].id != last.id { assert chosen[i] in chosen; }
    }

    /** After k calls, with these ids settled: what was chosen, who is asked, and what became of the others. */
    ghost predicate SortedOut(
      keys: set<string>, calls: seq<Call>, k: nat, selected: seq<Call>, asked: set<string>, done: set<string>)
      requires k <= |calls|
    {
      && done <= keys && (forall id :: id in keys ==> id in done || exists i :: 0 <= i < k && calls[i].id == id)
      && (forall c :: c in selected ==> c in calls[..k])
      && Placed(keys, calls[..k], selected)
      && (DistinctIds(calls) ==>
            (selected, asked) == Chosen(calls[..k], done) && forall c :: c in selected ==> c.id !in keys)
    }

    lemma NoneSorted(calls: seq<Call>, done: set<string>)
      ensures SortedOut(done, calls, 0, [], {}, done)
    {
    }

    lemma AllSorted(keys: set<string>, calls: seq<Call>, selected: seq<Call>, asked: set<string>, done: set<string>)
      requires SortedOut(keys, calls, |calls|, selected, asked, done) && done <= Ids(calls)
      ensures keys <= Ids(calls) && Ids(selected) <= Ids(calls) && Placed(keys, calls, selected)
      ensures DistinctIds(calls) ==> DistinctIds(selected) && keys !! Ids(selected) && selected == Chosen(calls, done).0
    {
      hide DistinctIds, Chosen, Placed;
      assert calls[..|calls|] == calls;
      ChosenAmong(calls, done);
      forall id | id in keys ensures id in Ids(calls) {}
      forall id | id in Ids(selected) ensures id in Ids(calls) && (DistinctIds(calls) ==> id !in keys) {
        var i :| 0 <= i < |selected| && selected[i].id == id;
        assert selected[i] in selected;
        var j :| 0 <= j < |calls| && calls[j] == selected[i];
        assert calls[j].id == id;
      }
    }

    /** Nothing is to be done with the call now. */
    lemma LeftAside(
      keys: set<string>, calls: seq<Call>, k: nat, selected: seq<Call>, asked: set<string>, done: set<string>)
      requires k < |calls| && SortedOut(keys, calls, k, selected, asked, done)
      requires !Consultable(calls[k]) || calls[k].id in keys
      ensures SortedOut(keys, calls, k + 1, selected, asked, done)
    {
      hide Consultable, Drafting, Asked;
      var call := calls[k];
      assert calls[..k + 1] == calls[..k] + [call] && calls[..k + 1][..k] == calls[..k];
      if DistinctIds(calls) && call.id in keys { NotYetSeen(keys, calls, k, done); }
    }

    lemma NotYetSeen(keys: set<string>, calls: seq<Call>, k: nat, done: set<string>)
      requires k < |calls| && DistinctIds(calls) && calls[k].id in keys
      requires forall id :: id in keys ==> id in done || exists i :: 0 <= i < k && calls[i].id == id
      ensures calls[k].id in done
    {
    }

    lemma NotChosenYet(
      keys: set<string>, calls: seq<Call>, k: nat, selected: seq<Call>, asked: set<string>, done: set<string>)
      requires k < |calls| && SortedOut(keys, calls, k, selected, asked, done) && DistinctIds(calls)
      ensures forall c :: c in selected ==> c.id != calls[k].id
    {
      hide Placed, Chosen;
    }

    lemma RefusedHere(
      keys: set<string>, calls: seq<Call>, k: nat, selected: seq<Call>, asked: set<string>, done: set<string>)
      requires k < |calls| && SortedOut(keys, calls, k, selected, asked, done)
      requires Drafting(calls[k]) || Asked(calls[k]) in asked
      ensures SortedOut(keys + {calls[k].id}, calls, k + 1, selected, asked, done)
    {
      hide Consultable, Drafting, Asked;
      var call := calls[k];
      assert calls[..k + 1] == calls[..k] + [call] && calls[..k + 1][..k] == calls[..k];
      if DistinctIds(calls) { NotChosenYet(keys, calls, k, selected, asked, done); }
    }

    lemma ChosenHere(
      keys: set<string>, calls: seq<Call>, k: nat, selected: seq<Call>, asked: set<string>, done: set<string>)
      requires k < |calls| && SortedOut(keys, calls, k, selected, asked, done)
      requires Consultable(calls[k]) && calls[k].id !in keys && !Drafting(calls[k]) && Asked(calls[k]) !in asked
      ensures SortedOut(keys, calls, k + 1, selected + [calls[k]], asked + {Asked(calls[k])}, done)
    {
      hide Consultable, Drafting, Asked;
      var call := calls[k];
      assert calls[..k + 1] == calls[..k] + [call] && calls[..k + 1][..k] == calls[..k];
    }

    /** The calls to consult together: one a specialist, drafts left aside; the rest are refused here. */
    method SelectConsults(calls: seq<Call>, ghost start: seq<Event>) returns (flow: Flow, selected: seq<Call>)
      requires Ready() && settled.Keys <= Ids(calls) && (DistinctIds(calls) ==> Ledger(start))
      requires Tidy(start)
      modifies this`settled, this`accessDenied, this`findings, events
      ensures Ready() && flow != Return && (flow == Next ==> Tidy(start))
      ensures flow == Next ==> settled.Keys <= Ids(calls) && Ids(selected) <= Ids(calls) && Kept(old(settled), {})
      ensures flow == Next && DistinctIds(calls) ==>
          Ledger(start) && DistinctIds(selected) && settled.Keys !! Ids(selected)
      ensures flow == Next ==> Placed(settled.Keys, calls, selected)
      ensures flow == Next && DistinctIds(calls) ==> selected == Chosen(calls, old(settled).Keys).0
    {
      hide Ready, Told, Ledger, Tidy, SortedOut, Ids, DistinctIds, Chosen, Placed;
      flow, selected := Next, [];
      var asked: set<string> := {};
      ghost var done := settled.Keys;
      NoneSorted(calls, done);
      for k := 0 to |calls|
        invariant Ready() && flow == Next && Kept(old(settled), {})
        invariant SortedOut(settled.Keys, calls, k, selected, asked, done)
        invariant Tidy(start) && (DistinctIds(calls) ==> Ledger(start))
      {
        flow, selected, asked := SortOut(calls, k, selected, asked, done, start);
        if flow != Next { return; }
      }
      AllSorted(settled.Keys, calls, selected, asked, done);
    }

    /** One call: left for later, refused, or chosen. */
    method SortOut(calls: seq<Call>, k: nat, selected: seq<Call>, asked: set<string>, ghost done: set<string>,
                   ghost start: seq<Event>)
      returns (flow: Flow, selected': seq<Call>, asked': set<string>)
      requires Ready() && k < |calls| && SortedOut(settled.Keys, calls, k, selected, asked, done)
      requires Tidy(start) && (DistinctIds(calls) ==> Ledger(start))
      modifies this`settled, this`accessDenied, this`findings, events
      ensures Ready() && flow != Return && (flow == Next ==> Tidy(start))
      ensures flow == Next ==> Kept(old(settled), {}) && SortedOut(settled.Keys, calls, k + 1, selected', asked', done)
      ensures flow == Next && DistinctIds(calls) ==> Ledger(start)
    {
      hide Ready, Told, Ledger, Tidy, SortedOut, Ids, DistinctIds, Chosen, Placed;
      flow, selected', asked' := Next, selected, asked;
      var call := calls[k];
      ghost var keys := settled.Keys;
      if call.name != "consult_specialist" || call.id in settled {
        LeftAside(keys, calls, k, selected, asked, done);
        return;
      }
      var ask := config.ask(call.args);
      var who := if ask.Some? then ask.value.who else "";
      var drafting := ask.Some? && ask.value.draft;
      if drafting && !config.room {
        // streamed when its turn comes
        LeftAside(keys, calls, k, selected, asked, done);
      } else if drafting || who in asked {
        RefusedHere(keys, calls, k, selected, asked, done);
        var refused := if ask.None? then C.Outcome(C.InvalidArguments, "", 0) else C.Outcome(C.Declined, "", 0);
        flow := SettleConsult(call, refused, start);
      } else {
        ChosenHere(keys, calls, k, selected, asked, done);
        asked' := asked + {who};
        selected' := selected + [call];
      }
    }

    predicate Reviews(call: Call)
    {
      config.wantsReview(call.args)
      || (config.room && config.ask(call.args).Some? && config.ask(call.args).value.who == "critic")
    }

    /** One wave: each consult settles as it finishes, in whatever order that is. */
    method Wave(wave: seq<Call>, ghost start: seq<Event>) returns (flow: Flow)
      requires Ready() && Tidy(start)
      modifies this`settled, this`accessDenied, this`findings, events, room, room.budget
      ensures Ready() && flow != Return && (flow == Next ==> Tidy(start)) && room.S().director == old(room.S().director)
      ensures flow == Next ==> settled.Keys == old(settled).Keys + Ids(wave) && Kept(old(settled), Ids(wave))
      ensures flow == Next && old(Ledger(start)) && DistinctIds(wave) && old(settled).Keys !! Ids(wave) ==>
          Ledger(start)
    {
      hide Ready, Told, Ledger, Tidy, Ids, DistinctIds;
      NoIds();
      var waiting := wave;
      flow := Next;
      while waiting != []
        invariant Ready() && flow == Next && Tidy(start) && room.S().director == old(room.S().director)
        invariant Ids(waiting) <= Ids(wave) && settled.Keys + Ids(waiting) == old(settled).Keys + Ids(wave)
        invariant Kept(old(settled), Ids(wave))
        invariant old(Ledger(start)) && DistinctIds(wave) && old(settled).Keys !! Ids(wave) ==>
                    Ledger(start) && DistinctIds(waiting) && settled.Keys !! Ids(waiting)
        decreases |waiting|
      {
        flow := Await();
        Concurrently();
        if flow != Next { return; }
        var i: nat :| i < |waiting|;
        var outcome: C.Item :| true;
        if !outcome.Outcome? { outcome := C.Outcome(C.Failed(C.Unexpected), "", 0); }
        RemoveCall(waiting, i);
        flow := SettleConsult(waiting[i], outcome, start);
        if flow != Next { return; }
        waiting := waiting[..i] + waiting[i + 1..];
      }
    }

    /** The consults of a wave take from and give back to the budget; the director makes no call meanwhile. */
    method Concurrently()
      requires Ready()
      modifies room, room.budget
      ensures Ready() && room.S().director == old(room.S().director)
    {
      OutsideExists(room.S().begun);
      ghost var pid :| Above(room.S().begun, pid);
      room.Interfere(pid);
    }

    /** Consults without a review first, so that those with one can see what they found. */
    method Waves(calls: seq<Call>, ghost start: seq<Event>) returns (flow: Flow)
      requires Ready() && settled.Keys <= Ids(calls) && (DistinctIds(calls) ==> Ledger(start))
      requires Tidy(start)
      modifies this`settled, this`accessDenied, this`findings, events, room, room.budget
      ensures Ready() && flow != Return && (flow == Next ==> Tidy(start)) && room.S().director == old(room.S().director)
      ensures flow == Next ==> settled.Keys <= Ids(calls)
      ensures flow == Next ==> forall i :: 0 <= i < |calls| && Consultable(calls[i]) ==> calls[i].id in settled
      ensures flow == Next && DistinctIds(calls) ==> Ledger(start) && Kept(old(settled), {})
    {
      hide Ready, Told, Ledger, Tidy, Placed, Consultable;
      var selected;
      flow, selected := SelectConsults(calls, start);
      if flow != Next { return; }
      ghost var keys := settled.Keys;
      var first, second := Partition(selected);
      flow := Wave(first, start);
      if flow != Next { return; }
      flow := Wave(second, start);
      if flow == Next { PlacedIsSettled(keys, calls, selected); }
    }

    lemma PlacedIsSettled(keys: set<string>, calls: seq<Call>, chosen: seq<Call>)
      requires Placed(keys, calls, chosen)
      ensures forall i :: 0 <= i < |calls| && Consultable(calls[i]) ==> calls[i].id in keys + Ids(chosen)
    {
      hide Consultable;
      forall i | 0 <= i < |calls| && Consultable(calls[i]) ensures calls[i].id in keys + Ids(chosen) {
        if calls[i] in chosen {
          var j :| 0 <= j < |chosen| && chosen[j] == calls[i];
          assert chosen[j].id == calls[i].id;
        }
      }
    }

    method Partition(selected: seq<Call>) returns (first: seq<Call>, second: seq<Call>)
      ensures Ids(first) + Ids(second) == Ids(selected)
      ensures DistinctIds(selected) ==> DistinctIds(first) && DistinctIds(second) && Ids(first) !! Ids(second)
      ensures forall c :: c in first ==> !Reviews(c)
      ensures forall c :: c in second ==> Reviews(c)
    {
      first, second := [], [];
      for k := 0 to |selected|
        invariant Ids(first) + Ids(second) == Ids(selected[..k])
        invariant DistinctIds(selected) ==> DistinctIds(first) && DistinctIds(second) && Ids(first) !! Ids(second)
        invariant forall c :: c in first ==> !Reviews(c)
        invariant forall c :: c in second ==> Reviews(c)
      {
        assert selected[..k + 1] == selected[..k] + [selected[k]];
        IdsPush(selected[..k], selected[k]);
        NewId(selected, k);
        if Reviews(selected[k]) {
          IdsPush(second, selected[k]);
          second := second + [selected[k]];
        } else {
          IdsPush(first, selected[k]);
          first := first + [selected[k]];
        }
      }
      assert selected[..|selected|] == selected;
    }

    // ----------------------------------------------------------------
    // Dispatch
    // ----------------------------------------------------------------

    /** One call that is not settled yet, and its tool message. */
    method Dispatch(call: Call, alone: bool, said: bool)
      returns (flow: Flow, payload: Payload)
      requires Ready()
      modifies this`messages, this`snapshotRead, events, room, room.budget
      ensures Done(flow) && room.S().director == old(room.S().director)
      ensures flow == Next ==> messages == old(messages) + [ToolMessage(call.id, payload)]
      ensures flow == Next ==>
                forall id :: Told(events.log, id) == old(Told(events.log, id)) + if id == call.id then [payload] else []
      ensures flow == Next ==> Undenied(old(events.log), events.log)
      ensures flow == Return ==> EndedByCall(old(events.log), events.log)
    {
      hide Ready, Done, Told, Denied, EndedByCall;
      ghost var start := events.log;
      var raised, effect := Execute(call, alone, said);
      ghost var log := events.log;
      payload := Answer;
      if raised.None? {
        flow := Complete(call, effect);
      } else {
        flow, payload := Report(call, raised.value);
      }
      if flow == Next {
        messages := messages + [ToolMessage(call.id, payload)];
        DeniedOn(start, log, events.log);
      }
      if flow == Return { EndedSince(start, log, events.log); }
    }

    /** What running a call came to. */
    method Execute(call: Call, alone: bool, said: bool) returns (raised: Option<Exc>, effect: Effect)
      requires Ready()
      modifies events, room, room.budget
      ensures Ready() && room.S().director == old(room.S().director)
      ensures forall id :: Told(events.log, id) == old(Told(events.log, id))
      ensures Undenied(old(events.log), events.log)
      ensures raised.None? ==>
                && (effect.EditorProposal? ==> call.name == "propose_editor_edit")
                && (effect.StoryProposal? ==> call.name == "propose_story_changes" && alone)
                && (effect.DraftDelivered? ==> call.name == "consult_specialist" && alone)
    {
      hide Ready, Told, Denied;
      NothingDenied(events.log);
      effect := Plain;
      raised :| true;
      if raised.Some? { return; }
      if call.name == "consult_specialist" {
        var ask := config.ask(call.args);
        if config.consults == 0 || ask.None? || !ask.value.draft { return Some(Invalid), Plain; }
        raised, effect := StreamDraft(alone, said);
      } else if call.name == "propose_story_changes" {
        if !config.entityProposals { return Some(Invalid), Plain; }
        var bound: bool :| true;
        if bound && alone { effect := StoryProposal; }
      } else if call.name == "propose_editor_edit" {
        effect := EditorProposal;
      }
    }

    /** A draft is shown as it is written, then settled; it is the reply if it was delivered. */
    method StreamDraft(alone: bool, said: bool) returns (raised: Option<Exc>, effect: Effect)
      requires Ready()
      modifies events, room, room.budget
      ensures Ready() && room.S().director == old(room.S().director)
      ensures forall id :: Told(events.log, id) == old(Told(events.log, id))
      ensures Undenied(old(events.log), events.log)
      ensures raised.None? ==> effect.Plain? || (effect.DraftDelivered? && alone)
    {
      hide Ready, Told, Denied, C.WellFormed;
      ghost var start := events.log;
      OutsideExists(room.S().begun);
      ghost var pid :| Above(room.S().begun, pid);
      var script: C.Script :| true;
      var review: bool :| true;
      effect := Plain;
      var items := Consult(pid, alone, review, script);
      var flow := ShowPieces(items[..|items| - 1], said);
      ghost var log := events.log;
      if flow != Next { return Some(flow.exc), Plain; }
      flow := Await();
      if flow != Next { return Some(flow.exc), Plain; }
      var outcome := items[|items| - 1];
      var delivered := outcome.draft != "" && (outcome.end.Delivered? || outcome.end.Declined?);
      if outcome.draft != "" {
        flow := Say(TextDone(if said then "\n\n" + outcome.draft else outcome.draft));
        DeniedOn(start, log, events.log);
        if flow != Next { return Some(flow.exc), Plain; }
      }
      log := events.log;
      flow := BillUsage(outcome.usage, events.log);
      DeniedOn(start, log, events.log);
      if flow != Next { return Some(flow.exc), Plain; }
      if outcome.end.InvalidArguments? { return Some(Invalid), Plain; }
      var reported: Code :| true;
      var error := ErrorOf(outcome.end, reported);
      if error.Some? { return Some(ToolError(error.value)), Plain; }
      if delivered { effect := DraftDelivered(outcome.end.Delivered? && outcome.end.truncated); }
      return None, effect;
    }

    /** The consult of a drafter, by itself. */
    method Consult(ghost pid: nat, alone: bool, review: bool, script: C.Script) returns (items: seq<C.Item>)
      requires Ready() && pid !in room.S().begun
      modifies room, room.budget
      ensures Ready() && room.S().director == old(room.S().director)
      ensures C.WellFormed(items) && |items| > 0 && items[|items| - 1].Outcome?
      ensures !alone ==> |items| == 1 && items[0] == C.Outcome(C.Declined, "", 0)
    {
      items := room.ConsultStream(pid, Some(C.Request(true, review)), alone, false, false, script);
    }

    /** The text of a draft as it arrives; the run's time may be up, or the draft fail, between any two pieces. */
    method ShowPieces(pieces: seq<C.Item>, said: bool) returns (flow: Flow)
      requires Ready()
      modifies events
      ensures Ready() && flow != Return
      ensures forall id :: Told(events.log, id) == old(Told(events.log, id))
      ensures Undenied(old(events.log), events.log)
    {
      hide Ready, Told, Denied;
      flow := Next;
      NothingDenied(events.log);
      for i := 0 to |pieces|
        invariant Ready() && flow == Next && forall id :: Told(events.log, id) == old(Told(events.log, id))
        invariant Undenied(old(events.log), events.log)
      {
        flow := Await();
        if flow != Next { return; }
        if pieces[i].Piece? {
          ghost var log := events.log;
          flow := Say(TextDelta(if said && i == 0 then "\n\n" + pieces[i].text else pieces[i].text));
          DeniedOn(old(events.log), log, events.log);
          if flow != Next { return; }
        }
      }
    }

    /** The except clauses: what is the model's fault is told to the model, a denial ends the run, and
        anything else goes on outwards. */
    method Report(call: Call, exc: Exc) returns (flow: Flow, payload: Payload)
      requires Ready()
      modifies events
      ensures Done(flow)
      ensures flow == Next ==> payload == Error(if exc.ToolError? then exc.code else ProviderError)
      ensures flow == Next ==>
                forall id :: Told(events.log, id) == old(Told(events.log, id)) + if id == call.id then [payload] else []
      ensures flow == Next ==> Undenied(old(events.log), events.log)
      ensures flow == Return ==> EndedByCall(old(events.log), events.log)
    {
      hide Told, ApprovalsClose, Denied, EndedByCall;
      ghost var start := events.log;
      payload := Error(ProviderError);
      if !exc.Invalid? && !exc.ToolError? { return Raise(exc), payload; }
      var code := if exc.ToolError? then exc.code else ProviderError;
      payload := Error(code);
      flow := Say(ToolFailed(call.id, code));
      if flow == Next {
        NothingDenied(start);
        DeniedPush(start, start, Event(events.runId, |start|, ToolFailed(call.id, code)));
      }
      if flow == Next && exc.ToolError? && code.StoryAccessDenied? {
        ghost var log := events.log;
        End(RunFailed(code));
        DeniedEnds(start, log, Event(events.runId, |log|, RunFailed(code)));
        flow := Return;
      }
    }

    /** The else clause: the completed event, references, and the effects that end the run. */
    method Complete(call: Call, effect: Effect) returns (flow: Flow)
      requires Ready()
      requires effect.DraftDelivered? ==> call.name == "consult_specialist"
      requires effect.EditorProposal? ==> call.name == "propose_editor_edit"
      requires effect.StoryProposal? ==> call.name == "propose_story_changes"
      modifies this`snapshotRead, events
      ensures Done(flow)
      ensures flow == Return ==> EndsWith(RunCompleted(EndOf(effect)))
      ensures flow == Next ==> effect.Plain?
      ensures flow == Next ==>
                forall id :: Told(events.log, id) == old(Told(events.log, id)) + if id == call.id then [Answer] else []
      ensures flow == Next ==> Undenied(old(events.log), events.log)
      ensures flow == Return ==> EndedByCall(old(events.log), events.log)
    {
      hide Told, ApprovalsClose, Denied, EndedByCall;
      ghost var start := events.log;
      flow := Say(ToolCompleted(call.id, call.name));
      if flow != Next { return; }
      ghost var log := events.log;
      assert log[|start|].kind == ToolCompleted(call.id, call.name);
      flow := References();
      if flow != Next { return; }
      DeniedOn(start, log, events.log);
      assert events.log[|start|].kind == ToolCompleted(call.id, call.name);
      match effect {
        case Plain =>
          if call.name == "read_current_editor" && config.editorCanPropose { snapshotRead := true; }
        case DraftDelivered(long) =>
          End(RunCompleted(if long then Length else Stop));
          flow := Return;
        case EditorProposal => flow := Propose("apply_editor_edit");
        case StoryProposal => flow := Propose("apply_story_changes");
      }
      if flow == Return { CompletedEnds(start, events.log, call.name); }
    }

    method References() returns (flow: Flow)
      requires Ready()
      modifies events
      ensures Ready() && flow != Return
      ensures forall id :: Told(events.log, id) == old(Told(events.log, id))
      ensures Undenied(old(events.log), events.log)
    {
      hide Ready, Told, Denied;
      NothingDenied(events.log);
      var count: nat :| true;
      flow := Next;
      for i := 0 to count
        invariant Ready() && flow == Next && forall id :: Told(events.log, id) == old(Told(events.log, id))
        invariant Undenied(old(events.log), events.log)
      {
        var accepted: bool :| true;
        ghost var log := events.log;
        flow := Say(Reference(accepted));
        DeniedOn(old(events.log), log, events.log);
        if flow != Next { return; }
      }
    }

    /** The call that would apply a proposal, and the request to approve it. */
    method Propose(name: string) returns (flow: Flow)
      requires Ready()
      modifies events
      ensures Done(flow) && flow != Next && (flow == Return ==> EndsWith(RunCompleted(ToolCalls)))
      ensures flow == Return ==> Requested(old(events.log), events.log)
    {
      hide ApprovalsClose, Denied;
      var applyId: string, arguments: string :| true;
      flow := Say(ToolStarted(applyId, name));
      if flow != Next { return; }
      flow := Say(ToolArgsDelta(applyId, 0, arguments));
      if flow != Next { return; }
      flow := RequestApproval();
    }

    /** The next call: if it is settled it gets its tool message, and otherwise it is run. */
    method DispatchNext(calls: seq<Call>, k: nat, said: bool, ghost start: seq<Event>, ghost added: seq<Message>)
      returns (flow: Flow, ghost m: Message)
      requires Ready() && k == |added| < |calls| && (DistinctIds(calls) ==> ToldTo(calls, added, start))
      modifies this`messages, this`snapshotRead, events, room, room.budget
      ensures Done(flow) && room.S().director == old(room.S().director)
      ensures flow == Next ==> messages == old(messages) + [m] && m.ToolMessage? && m.id == calls[k].id
      ensures flow == Next && calls[k].id in settled ==> m.payload == settled[calls[k].id]
      ensures flow == Next && DistinctIds(calls) ==> ToldTo(calls, added + [m], start)
      ensures flow == Next ==> Undenied(old(events.log), events.log)
      ensures flow == Return ==> EndedByCall(old(events.log), events.log)
    {
      hide Told, Sound, Denied, EndedByCall;
      NothingDenied(events.log);
      var call := calls[k];
      if call.id in settled {
        messages := messages + [ToolMessage(call.id, settled[call.id])];
        return Next, ToolMessage(call.id, settled[call.id]);
      }
      var payload;
      flow, payload := Dispatch(call, |calls| == 1, said);
      m := ToolMessage(call.id, payload);
    }

    /** Every call in turn. */
    method DispatchAll(calls: seq<Call>, said: bool, ghost start: seq<Event>)
      returns (flow: Flow, ghost added: seq<Message>)
      requires Ready() && settled.Keys <= Ids(calls) && (DistinctIds(calls) ==> Ledger(start))
      requires toolCallsUsed + |calls| <= config.toolCalls
      modifies this`messages, this`snapshotRead, this`toolCallsUsed, events, room, room.budget
      ensures Done(flow) && room.S().director == old(room.S().director)
      ensures flow == Next ==> messages == old(messages) + added && Answers(added, calls) && Reported(added, calls)
      ensures flow == Next ==> toolCallsUsed == old(toolCallsUsed) + |calls|
      ensures toolCallsUsed <= config.toolCalls
      ensures flow == Next && DistinctIds(calls) ==> ToldTo(calls, added, start)
      ensures flow == Next ==> Undenied(old(events.log), events.log)
      ensures flow == Return ==> EndedByCall(old(events.log), events.log)
    {
      hide Ready, Done, Told, Sound, ToldTo, Denied, EndedByCall;
      flow, added := Next, [];
      NothingDenied(events.log);
      ReadyIsDone();
      NoneDispatched(calls, start);
      for k := 0 to |calls|
        invariant flow == Next && Ready() && room.S().director == old(room.S().director)
        invariant messages == old(messages) + added && Answers(added, calls[..k]) && Reported(added, calls[..k])
        invariant toolCallsUsed == old(toolCallsUsed) + k
        invariant DistinctIds(calls) ==> ToldTo(calls, added, start)
        invariant Undenied(old(events.log), events.log)
      {
        toolCallsUsed := toolCallsUsed + 1;
        ghost var m;
        ghost var log := events.log;
        flow, m := DispatchNext(calls, k, said, start, added);
        if flow == Return { EndedSince(old(events.log), log, events.log); }
        if flow != Next { return; }
        DeniedOn(old(events.log), log, events.log);
        ReadyIsDone();
        added := added + [m];
      }
      assert calls[..|calls|] == calls;
      ReadyIsDone();
    }

    /** A call that was settled is reported to the model as it was settled. */
    ghost predicate Reported(added: seq<Message>, calls: seq<Call>)
      reads this`settled
    {
      && |added| == |calls|
      && forall i :: 0 <= i < |calls| && calls[i].id in settled ==>
        added[i] == ToolMessage(calls[i].id, settled[calls[i].id])
    }

    lemma NoneDispatched(calls: seq<Call>, start: seq<Event>)
      ensures DistinctIds(calls) && Ledger(start) ==> ToldTo(calls, [], start)
    {
    }

    lemma ReadyIsDone()
      ensures Ready() <==> Done(Next)
    {
    }

    /** The calls with a tool message have their one event, which says what the message says; the others have one
        only if they were settled before. */
    ghost predicate ToldTo(calls: seq<Call>, added: seq<Message>, start: seq<Event>)
      requires |added| <= |calls|
      reads this`settled, events
    {
      && (forall i :: 0 <= i < |added| ==>
            && added[i].ToolMessage?
            && Told(events.log, calls[i].id) == Told(start, calls[i].id) + [added[i].payload])
      && (forall i :: |added| <= i < |calls| ==>
            Told(events.log, calls[i].id)
              == Told(start, calls[i].id) + if calls[i].id in settled then [settled[calls[i].id]] else [])
    }

    // ----------------------------------------------------------------
    // A step
    // ----------------------------------------------------------------

    /** What is settled before the calls are taken in turn: the calls not allowed, and the consults. */
    method SettleFirst(calls: seq<Call>, allowed: set<string>) returns (flow: Flow)
      requires Ready() && settled == map[] && !accessDenied
      modifies this`settled, this`accessDenied, this`findings, events, room, room.budget
      ensures Done(flow) && room.S().director == old(room.S().director)
      ensures flow == Next ==> settled.Keys <= Ids(calls) && Undenied(old(events.log), events.log)
      ensures flow == Next && DistinctIds(calls) ==> Ledger(old(events.log)) && Excluded(calls, allowed)
      ensures flow == Return ==>
                EndsWith(RunFailed(StoryAccessDenied)) && EndedByCall(old(events.log), events.log)
    {
      hide Ready, Done, Told, Ledger, Denied, EndedByCall, DistinctIds, Consultable;
      ghost var start := events.log;
      flow := RejectExcluded(calls, allowed);
      if flow == Next && config.consults > 0 { flow := Waves(calls, start); }
      if flow != Next {
        StillRunning(flow);
        return;
      }
      ghost var log := events.log;
      if accessDenied {
        EndNow(RunFailed(StoryAccessDenied));
        DeniedEnds(start, log, events.log[|events.log| - 1]);
        assert events.log == log + [events.log[|events.log| - 1]];
        return Return;
      }
      ReadyIsDone();
    }

    /** The calls of one step.  If the run goes on to another model call, each call has its one event, and
        its one tool message in call order after the turn that asked for it; and a call the step did not
        allow was refused, whatever it asked for. */
    method RunCalls(calls: seq<Call>, allowed: set<string>, said: bool) returns (flow: Flow)
      requires Ready() && Answered(messages) && toolCallsUsed + |calls| <= config.toolCalls
      modifies this`messages, this`snapshotRead, this`toolCallsUsed, this`settled, this`accessDenied, this`findings,
               events, room, room.budget
      ensures Done(flow) && room.S().director == old(room.S().director) && toolCallsUsed <= config.toolCalls
      ensures flow == Next ==>
                && |messages| == |old(messages)| + 1 + |calls|
                && messages[..|old(messages)| + 1] == old(messages) + [AssistantTurn(IdList(calls))]
                && Answers(messages[|old(messages)| + 1..], calls)
                && Answered(messages)
      ensures flow == Next && DistinctIds(calls) ==>
                && (forall i :: 0 <= i < |calls| ==>
                      Told(events.log, calls[i].id)
                        == old(Told(events.log, calls[i].id)) + [messages[|old(messages)| + 1..][i].payload])
                && (forall i :: 0 <= i < |calls| && calls[i].name !in allowed ==>
                      messages[|old(messages)| + 1..][i] == ToolMessage(calls[i].id, Error(ProviderError)))
      ensures flow == Next ==> toolCallsUsed == old(toolCallsUsed) + |calls|
      ensures flow == Next ==> Undenied(old(events.log), events.log)
      ensures flow == Return ==> EndedByCall(old(events.log), events.log)
    {
      hide Ready, Done, Told, Ledger, Answered, Answers, Sound, Denied, EndedByCall;
      ghost var start, before := events.log, messages;
      messages := messages + [AssistantTurn(IdList(calls))];
      settled, accessDenied := map[], false;
      flow := SettleFirst(calls, allowed);
      if flow != Next { return; }
      ReadyIsDone();
      ghost var log := events.log;
      ghost var added;
      flow, added := DispatchAll(calls, said, start);
      if flow == Next { DeniedOn(start, log, events.log); }
      if flow == Return { EndedSince(start, log, events.log); }
      if flow == Next {
        assert |added| == |calls| by { AnswersLength(added, calls); }
        assert messages == before + [AssistantTurn(IdList(calls))] + added;
        AnswersKeep(before, calls, added);
        assert messages[|before| + 1..] == added;
      }
    }

    lemma StillRunning(flow: Flow)
      requires Ready() && flow != Return
      ensures Done(flow)
    {
    }

    method EndNow(kind: Kind)
      requires Ready() && Terminal(kind)
      modifies events
      ensures Done(Return) && EndsWith(kind)
      ensures events.log[..|events.log| - 1] == old(events.log)
    {
      End(kind);
    }

    /** A stream that asked for no calls is the reply, unless it is blank and the model can be asked once more. */
    method Reply(text: string, finish: string) returns (flow: Flow)
      requires Ready() && Answered(messages)
      modifies this`messages, this`nudged, events
      ensures Done(flow)
      ensures flow == Next ==> Answered(messages)
      ensures flow == Next ==> !old(nudged) && nudged && B.CanDirect(room.budget.limits, room.budget.used)
      ensures flow == Next ==> AllBlank(text) && toolCallsUsed > 0
      ensures flow == Return ==> EndsWith(RunCompleted(if finish == "length" then Length else Stop))
      ensures flow == Next ==> messages == old(messages) + [Nudge] && events.log == old(events.log)
      ensures AllBlank(text) && toolCallsUsed > 0 && !old(nudged) && B.CanDirect(room.budget.limits, room.budget.used)
              ==> flow == Next
      ensures flow == Return && AllBlank(text) && toolCallsUsed > 0 ==>
                |events.log| >= 2 && events.log[|events.log| - 2].kind == TextDone(FALLBACK)
      ensures flow == Return && !(AllBlank(text) && toolCallsUsed > 0) ==> |events.log| == |old(events.log)| + 1
    {
      hide Ready, Done, Answered;
      if AllBlank(text) && toolCallsUsed > 0 {
        if !nudged && room.budget.used.calls < room.budget.limits.modelCalls {
          nudged := true;
          PlainMessageKeeps(messages, Nudge);
          messages := messages + [Nudge];
          ReadyIsDone();
          return Next;
        }
        flow := Say(TextDone(FALLBACK));
        if flow != Next {
          StillRunning(flow);
          return;
        }
      }
      EndNow(RunCompleted(if finish == "length" then Length else Stop));
      return Return;
    }

    /** The calls that a stream asked for, unless they are none, not all started, crowded or too many. */
    method CallTools(pending: map<int, PendingCall>, allowed: set<string>, said: bool) returns (flow: Flow)
      requires Ready() && Answered(messages) && toolCallsUsed <= config.toolCalls
      modifies this`messages, this`snapshotRead, this`toolCallsUsed, this`settled, this`accessDenied, this`findings,
               events, room, room.budget
      ensures Done(flow) && room.S().director == old(room.S().director) && toolCallsUsed <= config.toolCalls
      ensures flow == Next ==> Answered(messages) && toolCallsUsed == old(toolCallsUsed) + |pending|
      ensures if pending == map[] || !AllStarted(pending) || Crowded(pending, allowed) then
                flow == Return && EndsWith(RunFailed(ProviderError))
              else if old(toolCallsUsed) + |pending| > config.toolCalls then
                flow == Return && EndsWith(RunCompleted(MaxSteps)) && toolCallsUsed == old(toolCallsUsed)
              else
                && (flow == Next ==> Undenied(old(events.log), events.log))
                && (flow == Return ==> EndedByCall(old(events.log), events.log))
    {
      hide Ready, Done, Answered, EndedByCall, AllStarted, Denied, Crowded, InIndexOrder, Told, Answers;
      var calls, started := Calls(pending);
      CrowdedIs(calls, pending, allowed);
      if calls == [] || !started
         || (|calls| != 1 && "propose_editor_edit" in allowed
             && exists i :: 0 <= i < |calls| && calls[i].name == "propose_editor_edit")
      {
        EndNow(RunFailed(ProviderError));
        return Return;
      }
      if toolCallsUsed + |calls| > config.toolCalls {
        EndNow(RunCompleted(MaxSteps));
        return Return;
      }
      flow := RunCalls(calls, allowed, said);
    }

    /** What a stream that ended well leads to. */
    method Act(text: string, pending: map<int, PendingCall>, finish: string, allowed: set<string>) returns (flow: Flow)
      requires Ready() && Answered(messages) && toolCallsUsed <= config.toolCalls
      modifies this`messages, this`nudged, this`snapshotRead, this`toolCallsUsed, this`settled, this`accessDenied,
               this`findings, events, room, room.budget
      ensures Done(flow) && room.S().director == old(room.S().director) && toolCallsUsed <= config.toolCalls
      ensures flow == Next ==>
                Answered(messages) && toolCallsUsed == old(toolCallsUsed) + if finish == "tool_calls" then |pending|
                  else 0
      ensures flow == Return ==> Justified(pending, finish, allowed, old(toolCallsUsed), old(events.log))
      ensures flow == Next && finish == "tool_calls" ==>
                && pending != map[] && AllStarted(pending) && !Crowded(pending, allowed)
                && toolCallsUsed <= config.toolCalls && Undenied(old(events.log), events.log)
    {
      hide Ready, Done, Answered, EndedByCall, AllStarted, Crowded, Denied;
      flow := Next;
      ghost var start := events.log;
      NothingDenied(start);
      if text != "" { flow := Say(TextDone(text)); }
      ghost var log := events.log;
      if flow != Next {
        StillRunning(flow);
        return;
      }
      if finish != "tool_calls" {
        flow := Reply(text, finish);
        return;
      }
      flow := CallTools(pending, allowed, text != "");
      if flow == Next { DeniedOn(start, log, events.log); }
      if flow == Return && EndedByCall(log, events.log) { EndedSince(start, log, events.log); }
    }

    /** Why a stream that ended well ends the run, and with what. */
    ghost predicate Justified(pending: map<int, PendingCall>, finish: string, allowed: set<string>, used: nat,
                              start: seq<Event>)
      reads events
    {
      if finish != "tool_calls" then EndsWith(RunCompleted(if finish == "length" then Length else Stop))
      else if pending == map[] || !AllStarted(pending) || Crowded(pending, allowed) then
        EndsWith(RunFailed(ProviderError))
      else if used + |pending| > config.toolCalls then EndsWith(RunCompleted(MaxSteps))
      else EndedByCall(start, events.log)
    }

    /** One model call and all that follows from it. */
    method Step(stream: Stream, allowed: set<string>) returns (flow: Flow, ghost got: map<int, PendingCall>)
      requires Ready() && Answered(messages) && toolCallsUsed <= config.toolCalls
      modifies this`messages, this`nudged, this`snapshotRead, this`toolCallsUsed, this`settled, this`accessDenied,
               this`findings, events, room, room.budget
      ensures Done(flow) && room.S().director == old(room.S().director) && toolCallsUsed <= config.toolCalls
      ensures flow == Next ==> Answered(messages) && Comes(stream) == Next
      ensures flow == Return && Comes(stream) != Next ==> EndsWith(RunFailed(CodeOf(stream)))
      ensures flow == Return && Comes(stream) == Next ==>
                Justified(got, FinishOf(stream), allowed, old(toolCallsUsed), old(events.log))
      ensures !flow.Raise? && Comes(stream) == Next ==>
                exists text, shown :: InStep(text, got, stream.events[..Heard(stream.events)], shown)
    {
      hide ApprovalsClose, Grown, Answered, InStep, Justified, Heard, EndedByCall, AllStarted, Crowded;
      ghost var log := events.log;
      var text, pending, finish;
      ghost var consumed;
      flow, text, pending, finish, consumed := ReadStream(events, stream);
      got := pending;
      ApprovalsGrown(log, events.log);
      ghost var mid := events.log;
      if flow == Next {
        flow := Act(text, pending, finish.value, allowed);
        if flow == Return { JustifiedSince(pending, finish.value, allowed, old(toolCallsUsed), log, mid); }
      }
    }

    lemma JustifiedSince(pending: map<int, PendingCall>, finish: string, allowed: set<string>, used: nat,
                         start: seq<Event>, mid: seq<Event>)
      requires Grown(start, mid) && Justified(pending, finish, allowed, used, mid)
      ensures Justified(pending, finish, allowed, used, start)
    {
      hide EndedByCall, AllStarted, Crowded;
      if EndedByCall(mid, events.log) { EndedSince(start, mid, events.log); }
    }

    // ----------------------------------------------------------------
    // The run
    // ----------------------------------------------------------------

    /** A continuation resolves an approval; unless it asks for a revision, that is the whole run. */
    method Resume(c: Continuation) returns (flow: Flow)
      requires Ready()
      modifies events
      ensures Done(flow)
    {
      hide Ready, Done;
      ReadyIsDone();
      var valid: bool :| true;
      if !(if c.isEntity then config.entityProposals else config.edits) || !valid {
        StillRunning(Raise(Invalid));
        return Raise(Invalid);
      }
      var accepted: bool :| true;
      flow := Say(ApprovalResolved(accepted));
      if flow == Next && !c.revision {
        flow := Say(TextDone(c.text));
        if flow == Next {
          EndNow(RunCompleted(Stop));
          return Return;
        }
      }
      StillRunning(flow);
    }

    /** The timed block. */
    method Body(continuation: Option<Continuation>, direct: bool, tools: set<string>) returns (flow: Flow)
      requires Ready() && messages == [] && prompts == [] && toolCallsUsed == 0
      requires room.S().director == 0 && room.budget.limits.modelCalls == config.modelCalls
      modifies this, events, room, room.budget
      ensures Done(flow) && flow != Next && toolCallsUsed <= config.toolCalls
      ensures |prompts| <= config.modelCalls && forall i :: 0 <= i < |prompts| ==> Answered(prompts[i])
    {
      hide Ready, Done, Answered;
      flow := Next;
      if continuation.Some? {
        flow := Resume(continuation.value);
        if flow != Next { return; }
        ReadyIsDone();
      }
      flow := Await();
      if flow != Next {
        StillRunning(flow);
        return;
      }
      messages := [Given];
      snapshotRead := direct;
      FirstMessage();
      ReadyIsDone();
      while true
        invariant Ready() && Answered(messages) && toolCallsUsed <= config.toolCalls && flow == Next
        invariant |prompts| == room.S().director <= config.modelCalls
        invariant forall i :: 0 <= i < |prompts| ==> Answered(prompts[i])
        decreases config.modelCalls - room.S().director
      {
        var ok := TakeDirectorCall();
        if !ok { break; }
        var required := if config.room && prompts == [] then Some("consult_specialist")
                        else if snapshotRead then Some("propose_editor_edit") else None;
        prompts := prompts + [messages];
        var allowed := if required.Some? then tools * {required.value} else tools;
        var stream: Stream :| true;
        ghost var got;
        flow, got := Step(stream, allowed);
        if flow != Next { return; }
        ReadyIsDone();
      }
      EndNow(RunCompleted(MaxSteps));
      return Return;
    }

    /** take_director_call */
    method TakeDirectorCall() returns (ok: bool)
      requires Ready()
      modifies room, room.budget
      ensures Ready() && ok == old(B.CanDirect(room.budget.limits, room.budget.used))
      ensures room.S().director == old(room.S().director) + if ok then 1 else 0
      ensures room.S().director <= room.budget.limits.modelCalls
    {
      hide ApprovalsClose;
      ghost var s := room.S();
      ok := room.budget.TakeDirectorCall();
      if ok { room.Advance(s, B.Direct); }
    }

    /** Every run, whatever the provider, the tools, the consults and the clock do, emits a sequence that the
        validator accepts, asks for approval only to end with it, and shows the model only conversations in
        which each call it made has one tool message, in call order. */
    method Assist(continuation: Option<Continuation>, direct: bool, tools: set<string>)
      requires events.Valid() && events.log == [] && !events.terminated && room.Good()
      requires messages == [] && prompts == [] && toolCallsUsed == 0
      requires room.S().director == 0 && room.budget.limits.modelCalls == config.modelCalls
      modifies this, events, room, room.budget
      ensures ValidRun(events.log) && ApprovalsClose(events.log)
      ensures |prompts| <= config.modelCalls && forall i :: 0 <= i < |prompts| ==> Answered(prompts[i])
      ensures toolCallsUsed <= config.toolCalls
    {
      hide Answered;
      var _ := events.Emit(RunStarted);
      var flow := Body(continuation, direct, tools);
      if flow.Raise? {
        // except TimeoutError, and except Exception
        End(if flow.exc.TimedOut? then RunCompleted(MaxSteps) else RunFailed(InternalError));
      }
      events.EndedIsValid();
    }
  }

  /** How the writer answered an approval request; text is the reply that reports it. */
  datatype Continuation = Continuation(isEntity: bool, revision: bool, text: string)

  const FALLBACK := "I gathered what is shown above but could not put a summary together. Ask "
                  + "me again, or ask about one of the points above."

  lemma FirstMessage()
    ensures Answered([Given])
  {
  }

  function ArgsText(c: PendingCall): string { if Join(c.chunks) == "" then "{}" else Join(c.chunks) }

  function CallOf(c: PendingCall): Call { Call(c.id, c.name, ArgsText(c)) }

  /** sorted(pending) */
  method SortedKeys(keys: set<int>) returns (order: seq<int>)
    ensures Ascending(order) && |order| == |keys| && forall k :: k in order <==> k in keys
  {
    var left := keys;
    order := [];
    while left != {}
      invariant left <= keys && Ascending(order) && |order| + |left| == |keys|
      invariant forall k :: k in order <==> k in keys && k !in left
      invariant forall k, j :: k in order && j in left ==> k < j
      decreases left
    {
      var k := Least(left);
      assert forall i :: 0 <= i < |order| ==> order[i] in order && order[i] < k;
      order := order + [k];
      left := left - {k};
    }
  }

  ghost predicate AllStarted(pending: map<int, PendingCall>) { forall k :: k in pending ==> pending[k].started }

  /** A proposal to edit is not the only call. */
  ghost predicate Crowded(pending: map<int, PendingCall>, allowed: set<string>) {
    && "propose_editor_edit" in allowed && |pending| != 1
    && exists k :: k in pending && pending[k].name == "propose_editor_edit"
  }

  /** The calls stand in the order of their indices. */
  ghost predicate InIndexOrder(order: seq<int>, calls: seq<Call>, pending: map<int, PendingCall>) {
    && Ascending(order) && |order| == |calls| && (forall k :: k in order <==> k in pending)
    && forall i :: 0 <= i < |calls| ==> order[i] in pending && calls[i] == CallOf(pending[order[i]])
  }

  lemma CalledIs(order: seq<int>, calls: seq<Call>, pending: map<int, PendingCall>, name: string)
    requires InIndexOrder(order, calls, pending)
    ensures (exists i :: 0 <= i < |calls| && calls[i].name == name)
       <==> exists k :: k in pending && pending[k].name == name
  {
    hide ArgsText;
    if k :| k in pending && pending[k].name == name {
      assert k in order;
      var i :| 0 <= i < |order| && order[i] == k;
      assert calls[i].name == name;
    }
    if i :| 0 <= i < |calls| && calls[i].name == name {
      assert pending[order[i]].name == name;
    }
  }

  lemma CrowdedIs(calls: seq<Call>, pending: map<int, PendingCall>, allowed: set<string>)
    requires |calls| == |pending| && exists order :: InIndexOrder(order, calls, pending)
    ensures Crowded(pending, allowed) <==>
            && |calls| != 1 && "propose_editor_edit" in allowed
            && exists i :: 0 <= i < |calls| && calls[i].name == "propose_editor_edit"
  {
    hide InIndexOrder;
    var order :| InIndexOrder(order, calls, pending);
    CalledIs(order, calls, pending, "propose_editor_edit");
  }

  /** The step's calls in the order of their indices, and whether all of them were started. */
  method Calls(pending: map<int, PendingCall>) returns (calls: seq<Call>, started: bool)
    ensures |calls| == |pending|
    ensures started <==> AllStarted(pending)
    ensures exists order :: InIndexOrder(order, calls, pending)
  {
    hide CallOf;
    var order := SortedKeys(pending.Keys);
    calls, started := [], true;
    for n := 0 to |order|
      invariant |calls| == n
      invariant forall i :: 0 <= i < n ==> order[i] in pending && calls[i] == CallOf(pending[order[i]])
      invariant started <==> forall i :: 0 <= i < n ==> order[i] in pending && pending[order[i]].started
    {
      assert order[n] in order;
      started := started && pending[order[n]].started;
      calls := calls + [CallOf(pending[order[n]])];
    }
    assert forall k :: k in pending ==> k in order;
    assert InIndexOrder(order, calls, pending);
  }

  ghost predicate Ascending(order: seq<int>) { forall i, j :: 0 <= i < j < |order| ==> order[i] < order[j] }

  lemma NotEmpty(s: set<int>)
    requires s != {}
    ensures exists k: int :: k in s
  {
    assert (forall k: int :: k !in s) ==> s == {};
  }

  method Least(s: set<int>) returns (k: int)
    requires s != {}
    ensures k in s && forall j :: j in s ==> k <= j
  {
    NotEmpty(s);
    k :| k in s;
    var left := s - {k};
    while left != {}
      invariant k in s && left <= s && forall j :: j in s && j !in left ==> k <= j
      decreases left
    {
      NotEmpty(left);
      var j :| j in left;
      if j < k { k := j; }
      left := left - {j};
    }
  }

  /** Why the run ends, when a call's effect ends it. */
  function EndOf(effect: Effect): Reason {
    match effect
    case DraftDelivered(long) => if long then Length else Stop
    case _ => ToolCalls
  }

  datatype Effect = Plain | EditorProposal | StoryProposal | DraftDelivered(long: bool)

  lemma AnswersLength(added: seq<Message>, calls: seq<Call>)
    requires Answers(added, calls)
    ensures |added| == |calls|
  {
  }

  lemma IdsPush(calls: seq<Call>, c: Call)
    ensures Ids(calls + [c]) == Ids(calls) + {c.id}
  {
    var all := calls + [c];
    assert all[|calls|] == c;
    forall x | x in Ids(calls) ensures x in Ids(all) {
      var i :| 0 <= i < |calls| && calls[i].id == x;
      assert all[i] == calls[i];
    }
  }

  lemma NoIds()
    ensures Ids([]) == {}
  {
  }

  lemma IdsConcat(a: seq<Call>, b: seq<Call>)
    ensures Ids(a + b) == Ids(a) + Ids(b)
  {
    var all := a + b;
    forall x | x in Ids(a) ensures x in Ids(all) {
      var i :| 0 <= i < |a| && a[i].id == x;
      assert all[i] == a[i];
    }
    forall x | x in Ids(b) ensures x in Ids(all) {
      var i :| 0 <= i < |b| && b[i].id == x;
      assert all[|a| + i] == b[i];
    }
  }

  /** One call out of some, which share no id. */
  lemma RemoveCall(calls: seq<Call>, i: nat)
    requires i < |calls|
    ensures var left := calls[..i] + calls[i + 1..];
            && Ids(calls) == Ids(left) + {calls[i].id}
            && (DistinctIds(calls) ==> DistinctIds(left) && calls[i].id !in Ids(left))
  {
    var a, b := calls[..i], calls[i + 1..];
    assert calls == a + [calls[i]] + b;
    IdsPush(a, calls[i]);
    IdsConcat(a + [calls[i]], b);
    IdsConcat(a, b);
    if DistinctIds(calls) {
      assert forall k :: 0 <= k < |b| ==> b[k] == calls[i + 1 + k];
      assert forall k :: 0 <= k < |a| ==> a[k] == calls[k];
    }
  }

  lemma NewId(calls: seq<Call>, k: nat)
    requires k < |calls|
    ensures DistinctIds(calls) ==> calls[k].id !in Ids(calls[..k])
  {
    if DistinctIds(calls) {
      forall i | 0 <= i < k ensures calls[..k][i].id != calls[k].id {}
    }
  }
}
