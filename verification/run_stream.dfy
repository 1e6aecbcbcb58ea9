/** One model call of the run: the provider's stream, passed on as events and put together into calls. */
module RunStream {
  import opened Prelude
  import opened EventLog

  /** An empty id, name or delta is one the provider left out. */
  datatype Fragment = Fragment(index: int, id: string, name: string, delta: string)

  datatype RawEvent =
    | RawText(text: string)
    | RawCall(fragment: Fragment)
    | RawUsage(accepted: bool)
    | RawError(code: Code)
    | RawDone(reason: string)
    | RawOther

  /** All a provider can do in one call: send events, and then stop or fail. */
  datatype Stream = Stream(events: seq<RawEvent>, fault: Option<Exc>)

  datatype PendingCall = PendingCall(id: string, name: string, chunks: seq<string>, emitted: nat, started: bool)

  const NEW_CALL := PendingCall("", "", [], 0, false)

  function Join(chunks: seq<string>): string {
    if chunks == [] then "" else Join(chunks[..|chunks| - 1]) + chunks[|chunks| - 1]
  }

  // What a stream comes to, read off its events.

  predicate EndsStream(e: RawEvent) { e.RawError? || e.RawDone? }

  /** How much of a stream is read: up to its first error or end. */
  function Heard(events: seq<RawEvent>): (n: nat)
    ensures n <= |events| && (n < |events| ==> n > 0 && EndsStream(events[n - 1]))
    ensures forall i :: 0 <= i < n - 1 ==> !EndsStream(events[i])
  {
    if events == [] then 0 else if EndsStream(events[0]) then 1 else 1 + Heard(events[1..])
  }

  /** Whether the events made of it keep to the lengths of their fields. */
  predicate Fits(e: RawEvent) {
    match e
    case RawText(text) => |text| <= MAX_CONTENT_CHARS
    case RawCall(f) => |f.id| <= MAX_ID_CHARS && |f.name| <= MAX_TOOL_NAME_CHARS && |f.delta| <= MAX_CONTENT_CHARS
    case RawUsage(accepted) => accepted
    case _ => true
  }

  ghost predicate AllFit(events: seq<RawEvent>) { forall i :: 0 <= i < |events| ==> Fits(events[i]) }

  /** The loop goes on exactly after a stream that is done before any error. */
  function Comes(stream: Stream): Flow {
    var n := Heard(stream.events);
    if n > 0 && stream.events[n - 1].RawDone? then Next
    else if n > 0 && stream.events[n - 1].RawError? then Return
    else if stream.fault.Some? && !stream.fault.value.ProviderFault? then Raise(stream.fault.value)
    else Return
  }

  /** The reason that a stream which is done gives for it. */
  function FinishOf(stream: Stream): string
    requires Comes(stream) == Next
  {
    stream.events[Heard(stream.events) - 1].reason
  }

  /** The code of a run that a stream ends. */
  function CodeOf(stream: Stream): Code {
    var n := Heard(stream.events);
    if n > 0 && stream.events[n - 1].RawError? then stream.events[n - 1].code
    else if stream.fault.Some? && stream.fault.value.ProviderFault? then stream.fault.value.code
    else ProviderUnavailable
  }

  lemma {:induction false} HeardAll(events: seq<RawEvent>, n: nat)
    requires n <= |events| && forall i :: 0 <= i < n - 1 ==> !EndsStream(events[i])
    requires n == |events| || (n > 0 && EndsStream(events[n - 1]))
    ensures Heard(events) == n
  {
    if events != [] && !EndsStream(events[0]) {
      assert forall i :: 0 <= i < |events[1..]| ==> events[1..][i] == events[i + 1];
      HeardAll(events[1..], n - 1);
    }
  }

  /** The argument text received for one call. */
  function Received(raw: seq<RawEvent>, index: int): string {
    if raw == [] then ""
    else
      var before, last := Received(raw[..|raw| - 1], index), raw[|raw| - 1];
      if last.RawCall? && last.fragment.index == index then before + last.fragment.delta else before
  }

  /** The argument text passed on for one call. */
  function PassedOn(events: seq<Event>, index: int): string {
    if events == [] then ""
    else
      var before, last := PassedOn(events[..|events| - 1], index), events[|events| - 1].kind;
      if last.ToolArgsDelta? && last.index == index then before + last.delta else before
  }

  /** The text received, and the text shown. */
  function TextReceived(raw: seq<RawEvent>): string {
    if raw == [] then ""
    else
      var before, last := TextReceived(raw[..|raw| - 1]), raw[|raw| - 1];
      if last.RawText? then before + last.text else before
  }

  function TextShown(events: seq<Event>): string {
    if events == [] then ""
    else
      var before, last := TextShown(events[..|events| - 1]), events[|events| - 1].kind;
      if last.TextDelta? then before + last.text else before
  }

  /** A call's state after some of the stream, and what was passed on for it. */
  ghost predicate CallHolds(c: PendingCall, received: string, passed: string) {
    && c.emitted <= |c.chunks|
    && Join(c.chunks) == received
    && (forall i :: 0 <= i < |c.chunks| ==> c.chunks[i] != "")
    && passed == Join(c.chunks[..c.emitted])
    && (c.started ==> c.emitted == |c.chunks|)
    && (!c.started ==> c.emitted == 0)
    && (c.started ==> c.id != "" && c.name != "")
  }

  ghost predicate PendingHolds(pending: map<int, PendingCall>, raw: seq<RawEvent>, shown: seq<Event>) {
    && (forall index :: index in pending ==> CallHolds(pending[index], Received(raw, index), PassedOn(shown, index)))
    && (forall index :: index !in pending ==> Received(raw, index) == "" && PassedOn(shown, index) == "")
  }

  lemma PassedOnPush(events: seq<Event>, e: Event, index: int)
    ensures PassedOn(events + [e], index)
         == PassedOn(events, index) + if e.kind.ToolArgsDelta? && e.kind.index == index then e.kind.delta else ""
    ensures TextShown(events + [e]) == TextShown(events) + if e.kind.TextDelta? then e.kind.text else ""
  {
    assert (events + [e])[..|events|] == events;
    assert PassedOn(events, index) + "" == PassedOn(events, index) && TextShown(events) + "" == TextShown(events);
  }

  lemma ReceivedPush(raw: seq<RawEvent>, n: nat, index: int)
    requires n < |raw|
    ensures Received(raw[..n + 1], index)
         == Received(raw[..n], index) + if raw[n].RawCall? && raw[n].fragment.index == index then raw[n].fragment.delta
           else ""
    ensures TextReceived(raw[..n + 1]) == TextReceived(raw[..n]) + if raw[n].RawText? then raw[n].text else ""
  {
    assert raw[..n + 1][..n] == raw[..n];
    assert Received(raw[..n], index) + "" == Received(raw[..n], index)
      && TextReceived(raw[..n]) + "" == TextReceived(raw[..n]);
  }

  lemma JoinPush(chunks: seq<string>, s: string)
    ensures Join(chunks + [s]) == Join(chunks) + s
  {
    assert (chunks + [s])[..|chunks|] == chunks;
  }

  /** A stream event that is no fragment leaves what was received as it was. */
  lemma QuietRaw(pending: map<int, PendingCall>, raw: seq<RawEvent>, n: nat, shown: seq<Event>)
    requires n < |raw| && !raw[n].RawCall? && PendingHolds(pending, raw[..n], shown)
    ensures PendingHolds(pending, raw[..n + 1], shown)
  {
    hide CallHolds;
    forall index ensures Received(raw[..n + 1], index) == Received(raw[..n], index) {
      ReceivedPush(raw, n, index);
      assert Received(raw[..n], index) + "" == Received(raw[..n], index);
    }
  }

  /** The fields of a call after one more fragment, before anything is emitted. */
  function Absorb(c: PendingCall, f: Fragment): PendingCall {
    var id := if f.id != "" then f.id else c.id;
    var name := if f.name != "" then f.name else c.name;
    PendingCall(id, name, if f.delta != "" then c.chunks + [f.delta] else c.chunks, c.emitted, c.started)
  }

  lemma Absorbed(c: PendingCall, f: Fragment, received: string, passed: string)
    requires CallHolds(c, received, passed)
    ensures var a := Absorb(c, f);
            && a.emitted <= |a.chunks| && Join(a.chunks) == received + f.delta
            && (forall i :: 0 <= i < |a.chunks| ==> a.chunks[i] != "")
            && passed == Join(a.chunks[..a.emitted]) && (!a.started ==> a.emitted == 0)
            && (a.started ==> a.id != "" && a.name != "")
  {
    var a := Absorb(c, f);
    assert a.chunks[..a.emitted] == c.chunks[..c.emitted];
    if f.delta != "" { JoinPush(c.chunks, f.delta); } else { assert received + f.delta == received; }
  }

  lemma NewCallHolds()
    ensures CallHolds(NEW_CALL, "", "")
  {
  }

  /** One call has moved on by a fragment; the others' fragments and events are not its. */
  lemma FragmentHolds(
    pending: map<int, PendingCall>, raw: seq<RawEvent>, n: nat, shown: seq<Event>, shown': seq<Event>, c: PendingCall)
    requires n < |raw| && raw[n].RawCall? && PendingHolds(pending, raw[..n], shown)
    requires var i := raw[n].fragment.index;
             && CallHolds(c, Received(raw[..n], i) + raw[n].fragment.delta, PassedOn(shown', i))
             && forall k :: k != i ==> PassedOn(shown', k) == PassedOn(shown, k)
    ensures PendingHolds(pending[raw[n].fragment.index := c], raw[..n + 1], shown')
  {
    hide CallHolds;
    var i := raw[n].fragment.index;
    ReceivedPush(raw, n, i);
    forall k | k != i ensures Received(raw[..n + 1], k) == Received(raw[..n], k) {
      ReceivedPush(raw, n, k);
      assert Received(raw[..n], k) + "" == Received(raw[..n], k);
    }
  }

  /** How a stretch of the loop ended: it runs on, the run is over, or an exception is under way. */
  datatype Flow = Next | Return | Raise(exc: Exc)

  predicate Quiet(k: Kind) { !k.ApprovalRequested? && !k.ToolCompleted? && !k.ToolFailed? }

  /** Only events that neither settle a call nor ask for approval have been added. */
  ghost predicate Grown(before: seq<Event>, after: seq<Event>) {
    before <= after && forall i :: |before| <= i < |after| ==> Quiet(after[i].kind)
  }

  lemma GrownOn(a: seq<Event>, b: seq<Event>, c: seq<Event>)
    requires Grown(a, b) && Grown(b, c)
    ensures Grown(a, c)
  {
  }

  lemma GrownSame(a: seq<Event>)
    ensures Grown(a, a)
  {
  }

  /** One more event was shown: of a text, of a call's arguments, or of neither. */
  ghost predicate ShowsOne(before: seq<Event>, after: seq<Event>, k: Kind) {
    && (forall i :: PassedOn(after, i) == if k.ToolArgsDelta? && k.index == i then PassedOn(before, i) + k.delta
      else PassedOn(before, i))
    && TextShown(after) == if k.TextDelta? then TextShown(before) + k.text else TextShown(before)
  }

  /** Emit one event of a kind that neither settles a call nor ends the run. */
  method Show(events: RunEvents, kind: Kind, ghost from: nat) returns (flow: Flow)
    requires events.Valid() && !events.terminated && !Terminal(kind) && Quiet(kind) && from <= |events.log|
    modifies events
    ensures events.Valid() && !events.terminated && Grown(old(events.log), events.log)
    ensures flow == if Accepts(kind) then Next else Raise(Invalid)
    ensures flow == Next ==> ShowsOne(old(events.log)[from..], events.log[from..], kind)
  {
    hide PassedOn, TextShown, ShowsOne;
    ghost var log := events.log;
    var raised := events.Emit(kind);
    flow := if raised.None? then Next else Raise(raised.value);
    if raised.None? {
      assert events.log[from..] == log[from..] + [Event(events.runId, |log|, kind)];
      Pushed(log[from..], Event(events.runId, |log|, kind));
    }
  }

  lemma Pushed(before: seq<Event>, e: Event)
    ensures ShowsOne(before, before + [e], e.kind)
  {
    PassedOnPush(before, e, 0);
    forall k ensures PassedOn(before + [e], k)
              == if e.kind.ToolArgsDelta? && e.kind.index == k then PassedOn(before, k) + e.kind.delta
                else PassedOn(before, k)
    {
      PassedOnPush(before, e, k);
      assert PassedOn(before, k) + "" == PassedOn(before, k);
    }
    assert TextShown(before) + "" == TextShown(before);
  }

  method Fail(events: RunEvents, code: Code)
    requires events.Valid() && !events.terminated
    modifies events
    ensures events.Valid() && events.terminated && Grown(old(events.log), events.log)
    ensures events.log == old(events.log) + [Event(events.runId, |old(events.log)|, RunFailed(code))]
  {
    var _ := events.Emit(RunFailed(code));
  }

  /** Only one call's arguments may have been added to what is shown. */
  ghost predicate ShowsOnly(before: seq<Event>, after: seq<Event>, index: int) {
    (forall k :: k != index ==> PassedOn(after, k) == PassedOn(before, k)) && TextShown(after) == TextShown(before)
  }

  ghost predicate CallFits(c: PendingCall) {
    && |c.id| <= MAX_ID_CHARS && |c.name| <= MAX_TOOL_NAME_CHARS
    && forall i :: 0 <= i < |c.chunks| ==> |c.chunks[i]| <= MAX_CONTENT_CHARS
  }

  ghost predicate PendingFits(pending: map<int, PendingCall>) {
    forall index :: index in pending ==> CallFits(pending[index])
  }

  /** The chunks a started call has not been given yet, in order. */
  method PassOn(events: RunEvents, c: PendingCall, index: int, ghost from: nat) returns (flow: Flow)
    requires events.Valid() && !events.terminated && from <= |events.log| && c.emitted <= |c.chunks|
    requires PassedOn(events.log[from..], index) == Join(c.chunks[..c.emitted])
    modifies events
    ensures events.Valid() && !events.terminated && Grown(old(events.log), events.log)
    ensures flow == Next || flow == Raise(Invalid)
    ensures CallFits(c) && c.id != "" && (forall i :: 0 <= i < |c.chunks| ==> c.chunks[i] != "") ==> flow == Next
    ensures flow == Next ==>
              PassedOn(events.log[from..], index) == Join(c.chunks)
                && ShowsOnly(old(events.log)[from..], events.log[from..], index)
  {
    hide PassedOn, TextShown, Grown, Join;
    flow := Next;
    GrownSame(events.log);
    for i := c.emitted to |c.chunks|
      invariant events.Valid() && !events.terminated && flow == Next
      invariant Grown(old(events.log), events.log) && from <= |events.log|
      invariant PassedOn(events.log[from..], index) == Join(c.chunks[..i])
      invariant ShowsOnly(old(events.log)[from..], events.log[from..], index)
    {
      ghost var log := events.log;
      flow := Show(events, ToolArgsDelta(c.id, index, c.chunks[i]), from);
      GrownOn(old(events.log), log, events.log);
      if flow.Raise? { return; }
      GrownLength(log, events.log);
      JoinNext(c.chunks, i);
    }
    assert c.chunks[..|c.chunks|] == c.chunks;
  }

  lemma JoinNext(chunks: seq<string>, i: nat)
    requires i < |chunks|
    ensures Join(chunks[..i + 1]) == Join(chunks[..i]) + chunks[i]
  {
    assert chunks[..i + 1] == chunks[..i] + [chunks[i]];
    JoinPush(chunks[..i], chunks[i]);
  }

  lemma GrownLength(a: seq<Event>, b: seq<Event>)
    requires Grown(a, b)
    ensures |a| <= |b|
  {
  }

  /** One fragment: the call is started once it has an id and a name, and is then given all its chunks. */
  method TakeFragment(events: RunEvents, c: PendingCall, f: Fragment, ghost from: nat, ghost received: string)
    returns (flow: Flow, call: PendingCall)
    requires events.Valid() && !events.terminated && from <= |events.log|
    requires CallHolds(c, received, PassedOn(events.log[from..], f.index))
    modifies events
    ensures events.Valid() && !events.terminated && Grown(old(events.log), events.log)
    ensures flow == Next || flow == Raise(Invalid)
    ensures CallFits(c) && Fits(RawCall(f)) ==> flow == Next && CallFits(call)
    ensures flow == Next ==>
              && CallHolds(call, received + f.delta, PassedOn(events.log[from..], f.index))
              && ShowsOnly(old(events.log)[from..], events.log[from..], f.index)
  {
    hide PassedOn, TextShown, Grown, Join;
    call := Absorb(c, f);
    Absorbed(c, f, received, PassedOn(events.log[from..], f.index));
    flow := Next;
    GrownSame(events.log);
    if !call.started && call.id != "" && call.name != "" {
      call := call.(started := true);
      flow := Show(events, ToolStarted(call.id, call.name), from);
      if flow.Raise? { return; }
      GrownLength(old(events.log), events.log);
    }
    if call.started {
      ghost var log := events.log;
      flow := PassOn(events, call, f.index, from);
      GrownOn(old(events.log), log, events.log);
      call := call.(emitted := |call.chunks|);
      assert call.chunks[..|call.chunks|] == call.chunks;
    }
  }

  /** Where the loop stands after some of the stream: nothing received is unaccounted for. */
  ghost predicate InStep(text: string, pending: map<int, PendingCall>, raw: seq<RawEvent>, shown: seq<Event>) {
    text == TextReceived(raw) == TextShown(shown) && PendingHolds(pending, raw, shown)
  }

  /** An event that carries no arguments leaves what was passed on as it was. */
  lemma QuietKeeps(pending: map<int, PendingCall>, raw: seq<RawEvent>, shown: seq<Event>, shown': seq<Event>)
    requires PendingHolds(pending, raw, shown) && forall k :: PassedOn(shown', k) == PassedOn(shown, k)
    ensures PendingHolds(pending, raw, shown')
  {
    hide CallHolds, PassedOn, Received;
  }

  lemma OtherRaw(text: string, pending: map<int, PendingCall>, raw: seq<RawEvent>, n: nat, shown: seq<Event>)
    requires n < |raw| && !raw[n].RawCall? && !raw[n].RawText? && InStep(text, pending, raw[..n], shown)
    ensures InStep(text, pending, raw[..n + 1], shown)
  {
    hide PendingHolds, Received, TextShown, PassedOn;
    QuietRaw(pending, raw, n, shown);
    ReceivedPush(raw, n, 0);
    assert TextReceived(raw[..n]) + "" == TextReceived(raw[..n]);
  }

  method TakeText(events: RunEvents, text: string, ghost pending: map<int, PendingCall>, raw: seq<RawEvent>, n: nat,
      ghost from: nat)
    returns (flow: Flow)
    requires n < |raw| && raw[n].RawText? && events.Valid() && !events.terminated && from <= |events.log|
    requires InStep(text, pending, raw[..n], events.log[from..])
    modifies events
    ensures events.Valid() && !events.terminated && Grown(old(events.log), events.log)
    ensures (flow == Next || flow == Raise(Invalid)) && (Fits(raw[n]) ==> flow == Next)
    ensures flow == Next ==> InStep(text + raw[n].text, pending, raw[..n + 1], events.log[from..])
  {
    hide PassedOn, TextShown, Received, TextReceived, PendingHolds, CallHolds, Grown;
    ReceivedPush(raw, n, 0);
    GrownSame(events.log);
    ghost var shown := events.log[from..];
    flow := Next;
    if raw[n].text != "" {
      flow := Show(events, TextDelta(raw[n].text), from);
      if flow.Raise? { return; }
      GrownLength(old(events.log), events.log);
    } else {
      assert text + raw[n].text == text;
    }
    QuietKeeps(pending, raw[..n], shown, events.log[from..]);
    QuietRaw(pending, raw, n, events.log[from..]);
  }

  method TakeUsage(events: RunEvents, ghost text: string, ghost pending: map<int, PendingCall>, raw: seq<RawEvent>,
      n: nat, ghost from: nat)
    returns (flow: Flow)
    requires n < |raw| && raw[n].RawUsage? && events.Valid() && !events.terminated && from <= |events.log|
    requires InStep(text, pending, raw[..n], events.log[from..])
    modifies events
    ensures events.Valid() && !events.terminated && Grown(old(events.log), events.log)
    ensures (flow == Next || flow == Raise(Invalid)) && (Fits(raw[n]) ==> flow == Next)
    ensures flow == Next ==> InStep(text, pending, raw[..n + 1], events.log[from..])
  {
    hide PassedOn, TextShown, Received, TextReceived, PendingHolds, CallHolds, Grown;
    ghost var shown := events.log[from..];
    flow := Show(events, Usage(raw[n].accepted), from);
    if flow.Raise? { return; }
    GrownLength(old(events.log), events.log);
    QuietKeeps(pending, raw[..n], shown, events.log[from..]);
    OtherRaw(text, pending, raw, n, events.log[from..]);
  }

  method TakeCall(events: RunEvents, ghost text: string, pending: map<int, PendingCall>, raw: seq<RawEvent>, n: nat,
      ghost from: nat)
    returns (flow: Flow, after: map<int, PendingCall>)
    requires n < |raw| && raw[n].RawCall? && events.Valid() && !events.terminated && from <= |events.log|
    requires InStep(text, pending, raw[..n], events.log[from..])
    modifies events
    ensures events.Valid() && !events.terminated && Grown(old(events.log), events.log)
    ensures (flow == Next || flow == Raise(Invalid))
        && (PendingFits(pending) && Fits(raw[n]) ==> flow == Next && PendingFits(after))
    ensures flow == Next ==> InStep(text, after, raw[..n + 1], events.log[from..])
  {
    hide PassedOn, TextShown, Received, TextReceived, PendingHolds, CallHolds, Grown;
    var f := raw[n].fragment;
    ghost var shown := events.log[from..];
    var call := if f.index in pending then pending[f.index] else NEW_CALL;
    CallSoFar(pending, raw[..n], shown, f.index);
    flow, call := TakeFragment(events, call, f, from, Received(raw[..n], f.index));
    after := pending[f.index := call];
    if flow.Raise? { return; }
    GrownLength(old(events.log), events.log);
    FragmentHolds(pending, raw, n, shown, events.log[from..], call);
    ReceivedPush(raw, n, 0);
    assert TextReceived(raw[..n]) + "" == TextReceived(raw[..n]);
  }

  /** One event of the stream.  It goes on, unless the event is an error, or a field of it is too long. */
  method TakeOne(events: RunEvents, text: string, pending: map<int, PendingCall>, raw: seq<RawEvent>, n: nat,
      ghost from: nat)
    returns (flow: Flow, text': string, pending': map<int, PendingCall>, finish: Option<string>)
    requires n < |raw| && events.Valid() && !events.terminated && from <= |events.log|
    requires InStep(text, pending, raw[..n], events.log[from..])
    modifies events
    ensures events.Valid() && Grown(old(events.log), events.log) && (events.terminated <==> flow == Return)
    ensures flow == Next ==> from <= |events.log| && InStep(text', pending', raw[..n + 1], events.log[from..])
    ensures PendingFits(pending) && Fits(raw[n]) ==> PendingFits(pending') && !flow.Raise?
    ensures flow.Raise? ==> flow == Raise(Invalid)
    ensures finish == if raw[n].RawDone? then Some(raw[n].reason) else None
    ensures flow == Return <==> raw[n].RawError?
    ensures flow == Return ==> events.log != [] && events.log[|events.log| - 1].kind == RunFailed(raw[n].code)
    ensures raw[n].RawDone? ==> flow == Next
  {
    hide InStep, PendingFits, Fits;
    flow, text', pending', finish := Next, text, pending, None;
    ghost var log := events.log;
    GrownSame(log);
    match raw[n] {
      case RawText(delta) =>
        flow := TakeText(events, text, pending, raw, n, from);
        text' := text + delta;
      case RawCall(_) => flow, pending' := TakeCall(events, text, pending, raw, n, from);
      case RawUsage(_) => flow := TakeUsage(events, text, pending, raw, n, from);
      case RawError(code) =>
        Fail(events, code);
        flow := Return;
      case RawDone(reason) =>
        finish := Some(reason);
        OtherRaw(text, pending, raw, n, events.log[from..]);
      case RawOther => OtherRaw(text, pending, raw, n, events.log[from..]);
    }
    GrownLength(log, events.log);
  }

  /** What the events up to the first that ends a stream say of it. */
  lemma EndsAt(stream: Stream, i: nat)
    requires i < |stream.events| && EndsStream(stream.events[i])
    requires forall k :: 0 <= k < i ==> !EndsStream(stream.events[k])
    ensures Heard(stream.events) == i + 1
    ensures Comes(stream) == if stream.events[i].RawDone? then Next else Return
    ensures stream.events[i].RawError? ==> CodeOf(stream) == stream.events[i].code
  {
    HeardAll(stream.events, i + 1);
  }

  lemma NeverEnds(stream: Stream)
    requires forall k :: 0 <= k < |stream.events| ==> !EndsStream(stream.events[k])
    ensures var fault := stream.fault;
            && Comes(stream) == (if fault.Some? && !fault.value.ProviderFault? then Raise(fault.value) else Return)
            && CodeOf(stream) == if fault.Some? && fault.value.ProviderFault? then fault.value.code
                                 else ProviderUnavailable
  {
    HeardAll(stream.events, |stream.events|);
  }

  /** The loop over one stream.  If it ends well, what was shown and passed on is what was received.  How it ends is
      told by the stream alone, unless some field of it is too long for an event. */
  method ReadStream(events: RunEvents, stream: Stream)
    returns (flow: Flow, text: string, pending: map<int, PendingCall>, finish: Option<string>, ghost consumed: nat)
    requires events.Valid() && !events.terminated
    modifies events
    ensures events.Valid() && Grown(old(events.log), events.log)
    ensures events.terminated <==> flow == Return
    ensures flow == Next ==>
              && finish.Some? && consumed <= |stream.events| && |old(events.log)| <= |events.log|
              && InStep(text, pending, stream.events[..consumed], events.log[|old(events.log)|..])
    ensures flow == Next ==> consumed == Heard(stream.events)
    ensures flow == Next ==> consumed > 0 && stream.events[consumed - 1] == RawDone(finish.value)
    ensures flow == Comes(stream) || (flow == Raise(Invalid) && !AllFit(stream.events[..Heard(stream.events)]))
    ensures flow == Return ==> events.log != [] && events.log[|events.log| - 1].kind == RunFailed(CodeOf(stream))
  {
    hide InStep, Grown, PendingFits, Fits, AllFit, Heard, Comes, CodeOf;
    text, pending, finish, consumed, flow := "", map[], None, 0, Next;
    ghost var from := |events.log|;
    NothingYet(stream.events, events.log);
    GrownSame(events.log);
    var i := 0;
    while i < |stream.events| && finish.None?
      invariant i <= |stream.events| && consumed == i && flow == Next
      invariant events.Valid() && !events.terminated && Grown(old(events.log), events.log) && from <= |events.log|
      invariant InStep(text, pending, stream.events[..i], events.log[from..])
      invariant AllFit(stream.events[..i]) ==> PendingFits(pending)
      invariant finish.None? ==> forall k :: 0 <= k < i ==> !EndsStream(stream.events[k])
      invariant finish.Some? ==> i > 0 && stream.events[i - 1] == RawDone(finish.value) && Comes(stream) == Next
      invariant finish.Some? ==> Heard(stream.events) == i
      decreases |stream.events| - i, finish.None?
    {
      ghost var log := events.log;
      OneMoreFits(stream.events, i);
      if EndsStream(stream.events[i]) { EndsAt(stream, i); }
      flow, text, pending, finish := TakeOne(events, text, pending, stream.events, i, from);
      GrownOn(old(events.log), log, events.log);
      if flow != Next {
        if flow.Raise? { HeardAtLeast(stream.events, i + 1); }
        return;
      }
      i := i + 1;
      consumed := i;
    }
    if finish.None? {
      NeverEnds(stream);
      ghost var log := events.log;
      flow := EndWithoutDone(events, stream.fault);
      GrownOn(old(events.log), log, events.log);
    }
  }

  lemma OneMoreFits(events: seq<RawEvent>, i: nat)
    requires i < |events|
    ensures AllFit(events[..i + 1]) <==> AllFit(events[..i]) && Fits(events[i])
  {
    assert events[..i + 1] == events[..i] + [events[i]];
  }

  /** What does not fit in the part read so far does not fit in all that is read. */
  lemma HeardAtLeast(events: seq<RawEvent>, n: nat)
    requires n <= |events| && forall i :: 0 <= i < n - 1 ==> !EndsStream(events[i])
    ensures n <= Heard(events) && (!AllFit(events[..n]) ==> !AllFit(events[..Heard(events)]))
  {
    hide Fits;
    var h := Heard(events);
    if AllFit(events[..h]) {
      forall i | 0 <= i < n ensures Fits(events[..n][i]) { assert events[..h][i] == events[..n][i]; }
    }
  }

  /** The stream failed, or just stopped. */
  method EndWithoutDone(events: RunEvents, fault: Option<Exc>) returns (flow: Flow)
    requires events.Valid() && !events.terminated
    modifies events
    ensures events.Valid() && Grown(old(events.log), events.log)
    ensures flow == if fault.Some? && !fault.value.ProviderFault? then Raise(fault.value) else Return
    ensures events.terminated <==> flow == Return
    ensures flow == Return ==>
              var code := if fault.Some? && fault.value.ProviderFault? then fault.value.code else ProviderUnavailable;
              events.log != [] && events.log[|events.log| - 1].kind == RunFailed(code)
  {
    if fault.Some? && !fault.value.ProviderFault? {
      GrownSame(events.log);
      return Raise(fault.value);
    }
    Fail(events, if fault.Some? then fault.value.code else ProviderUnavailable);
    return Return;
  }

  lemma NothingYet(raw: seq<RawEvent>, log: seq<Event>)
    ensures PendingFits(map[]) && AllFit(raw[..0])
    ensures InStep("", map[], raw[..0], log[|log|..])
  {
  }

  lemma CallSoFar(pending: map<int, PendingCall>, raw: seq<RawEvent>, shown: seq<Event>, index: int)
    requires PendingHolds(pending, raw, shown)
    ensures CallHolds(
        if index in pending then pending[index] else NEW_CALL, Received(raw, index), PassedOn(shown, index))
  {
    NewCallHolds();
  }

  /** For every call that was started, the argument text passed on is exactly the text received for it. */
  lemma ArgumentsArePassedOn(pending: map<int, PendingCall>, raw: seq<RawEvent>, shown: seq<Event>, index: int)
    requires PendingHolds(pending, raw, shown) && index in pending && pending[index].started
    ensures PassedOn(shown, index) == Received(raw, index) == Join(pending[index].chunks)
  {
    hide Received, PassedOn;
    var c := pending[index];
    assert CallHolds(c, Received(raw, index), PassedOn(shown, index));
    assert c.chunks[..c.emitted] == c.chunks;
  }
}
