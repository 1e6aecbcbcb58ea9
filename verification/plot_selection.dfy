/** Which plot material a generation prompt shows, and in what order. */
module PlotSelection {
  import opened Prelude
  import opened Ordering

  const ENTITY_CONTEXT_LIMIT: nat := 12

  /** An identifier, by its place in the order of their strings. */
  type Id = nat

  datatype Chapter = Chapter(id: Id, order: real)

  /** id and chapter are None when missing or empty; position is None when it is not a number. */
  datatype Event = Event(id: Option<Id>, chapter: Option<Id>, position: Option<real>, orderIndex: real)

  /** stamp is None when the plot line has no usable date, which is older than any date. */
  datatype Plot = Plot(id: Id, stamp: Option<real>, events: seq<Event>)

  /** A plot line by identity: which of the given plots it is. */
  datatype Line = Line(at: nat, id: Id, stamp: Option<real>)

  function LineAt(plots: seq<Plot>, i: nat): Line
    requires i < |plots|
  {
    Line(i, plots[i].id, plots[i].stamp)
  }

  function Lines(plots: seq<Plot>): (r: seq<Line>)
    ensures |r| == |plots| && forall i :: 0 <= i < |plots| ==> r[i] == LineAt(plots, i)
  {
    if plots == [] then [] else Lines(plots[..|plots| - 1]) + [LineAt(plots, |plots| - 1)]
  }

  // ------------------------------------------------------------------
  // Orders
  // ------------------------------------------------------------------

  predicate ChapterLess(a: Chapter, b: Chapter) { a.order < b.order || (a.order == b.order && a.id < b.id) }

  predicate PositionLess(a: Option<real>, b: Option<real>) { a.Some? && (b.None? || a.value < b.value) }

  function IdOf(e: Event): Id { if e.id.Some? then e.id.value else 0 }

  predicate EventLess(a: Event, b: Event) {
    || PositionLess(a.position, b.position)
    || (a.position == b.position
        && (a.orderIndex < b.orderIndex || (a.orderIndex == b.orderIndex && IdOf(a) < IdOf(b))))
  }

  predicate Newer(a: Option<real>, b: Option<real>) { a.Some? && (b.None? || a.value > b.value) }

  predicate KeyLess(a: (Id, Option<real>), b: (Id, Option<real>)) { Newer(a.1, b.1) || (a.1 == b.1 && a.0 < b.0) }

  function KeyOf(l: Line): (Id, Option<real>) { (l.id, l.stamp) }

  predicate LineLess(a: Line, b: Line) { KeyLess(KeyOf(a), KeyOf(b)) }

  lemma TheyOrder()
    ensures Orders(ChapterLess) && Orders(EventLess) && Orders(LineLess) && Orders(KeyLess)
  {
  }

  function RecentPlots(plots: seq<Plot>): seq<Line> { Sort(Lines(plots), LineLess) }

  function InChapterOrder(events: seq<Event>): seq<Event> { Sort(events, EventLess) }

  // ------------------------------------------------------------------
  // The specification
  // ------------------------------------------------------------------

  datatype Entry = Entry(event: Event, line: Line)

  function EntriesOf(events: seq<Event>, line: Line): seq<Entry> {
    if events == [] then []
    else
      var last := events[|events| - 1];
      EntriesOf(events[..|events| - 1], line) + if last.id.Some? then [Entry(last, line)] else []
  }

  /** Every event that has an id, with its plot line, in stored order. */
  function Entries(plots: seq<Plot>): seq<Entry> {
    if plots == [] then []
    else
      var k := |plots| - 1;
      Entries(plots[..k]) + EntriesOf(plots[k].events, LineAt(plots, k))
  }

  function InChapter(entries: seq<Entry>, chapter: Id): seq<Event> {
    if entries == [] then []
    else
      var last := entries[|entries| - 1].event;
      InChapter(entries[..|entries| - 1], chapter) + if last.chapter == Some(chapter) then [last] else []
  }

  /** The plot line an event id was last seen in. */
  function LineOf(entries: seq<Entry>, id: Id): Option<Line> {
    if entries == [] then None
    else
      var last := entries[|entries| - 1];
      if last.event.id == Some(id) then Some(last.line) else LineOf(entries[..|entries| - 1], id)
  }

  datatype Taken = Taken(picked: seq<Event>, shown: set<Id>)

  /** Events not shown yet, in order, up to a limit. */
  function Take(events: seq<Event>, limit: Option<nat>, so: Taken): Taken
    decreases events
  {
    if events == [] then so
    else if IdOf(events[0]) in so.shown then Take(events[1..], limit, so)
    else if limit.Some? && |so.picked| >= limit.value then so
    else Take(events[1..], limit, Taken(so.picked + [events[0]], so.shown + {IdOf(events[0])}))
  }

  datatype Role = ChapterPlan | PreviousChapter | NextChapter

  datatype Section =
    | Planned(role: Role, chapter: Chapter, events: seq<(Line, Event)>)
    | PlotLines(plots: seq<Line>, withEvents: bool, omitted: nat)

  function WithLine(entries: seq<Entry>, e: Event): (Line, Event) {
    (match LineOf(entries, IdOf(e)) case Some(l) => l case None => Line(0, 0, None), e)
  }

  function WithLines(entries: seq<Entry>, events: seq<Event>): (r: seq<(Line, Event)>)
    ensures |r| == |events| && forall i :: 0 <= i < |events| ==> r[i] == WithLine(entries, events[i])
  {
    if events == [] then []
    else WithLines(entries, events[..|events| - 1]) + [WithLine(entries, events[|events| - 1])]
  }

  /** First n of a list, or all of it. */
  function First<T>(xs: seq<T>, n: nat): seq<T> { if |xs| <= n then xs else xs[..n] }

  function Over(total: nat, limit: nat): nat { if total > limit then total - limit else 0 }

  function IndexOf(chapters: seq<Chapter>, id: Option<Id>): (r: Option<nat>)
    ensures r.Some? ==> r.value < |chapters| && Some(chapters[r.value].id) == id
  {
    if chapters == [] then None
    else match IndexOf(chapters[..|chapters| - 1], id)
      case Some(i) => Some(i)
      case None => if Some(chapters[|chapters| - 1].id) == id then Some(|chapters| - 1) else None
  }

  function Neighbour(role: Role, chapters: seq<Chapter>, i: int, entries: seq<Entry>, shown: set<Id>)
    : (seq<Section>, set<Id>)
  {
    if !(0 <= i < |chapters|) then ([], shown)
    else
      var taken := Take(InChapterOrder(InChapter(entries, chapters[i].id)), Some(ENTITY_CONTEXT_LIMIT),
        Taken([], shown));
      (if taken.picked == [] then [] else [Planned(role, chapters[i], WithLines(entries, taken.picked))], taken.shown)
  }

  /** The sections about the active chapter and its neighbours. */
  function EventSections(chapters: seq<Chapter>, i: nat, entries: seq<Entry>): seq<Section>
    requires i < |chapters|
  {
    var plan := Take(InChapterOrder(InChapter(entries, chapters[i].id)), None, Taken([], {}));
    var (before, shown) := Neighbour(PreviousChapter, chapters, i - 1, entries, plan.shown);
    var (after, _) := Neighbour(NextChapter, chapters, i + 1, entries, shown);
    [Planned(ChapterPlan, chapters[i], WithLines(entries, plan.picked))] + before + after
  }

  function Mentioned(events: seq<(Line, Event)>, seen: seq<Line>): seq<Line> {
    if events == [] then seen
    else
      var before, line := Mentioned(events[..|events| - 1], seen), events[|events| - 1].0;
      if line in before then before else before + [line]
  }

  /** The lines of the events shown, each once, in the order they first appear. */
  function SeenLines(sections: seq<Section>): seq<Line> {
    if sections == [] then []
    else
      var last := sections[|sections| - 1];
      Mentioned(if last.Planned? then last.events else [], SeenLines(sections[..|sections| - 1]))
  }

  function Without(lines: seq<Line>, seen: seq<Line>): seq<Line> {
    if lines == [] then []
    else
      var before, last := Without(lines[..|lines| - 1], seen), lines[|lines| - 1];
      if last in seen then before else before + [last]
  }

  function LineSection(lines: seq<Line>): seq<Section> {
    if lines == [] then []
    else [PlotLines(First(lines, ENTITY_CONTEXT_LIMIT), false, Over(|lines|, ENTITY_CONTEXT_LIMIT))]
  }

  function Select(plots: seq<Plot>, chapters: seq<Chapter>, active: Option<Id>): seq<Section> {
    var ordered := Sort(chapters, ChapterLess);
    match IndexOf(ordered, active)
    case None =>
      var lines := if |plots| <= ENTITY_CONTEXT_LIMIT then Lines(plots) else RecentPlots(plots);
      [PlotLines(First(lines, ENTITY_CONTEXT_LIMIT), true, Over(|lines|, ENTITY_CONTEXT_LIMIT))]
    case Some(i) =>
      var sections := EventSections(ordered, i, Entries(plots));
      var seen := SeenLines(sections);
      sections + LineSection(seen + Without(RecentPlots(plots), seen))
  }

  // ------------------------------------------------------------------
  // The program
  // ------------------------------------------------------------------

  /** One plot's events filed under their chapters, and each event's line noted. */
  method FilePlot(events: seq<Event>, line: Line, ghost before: seq<Entry>, lineOf: map<Id, Line>,
      byChapter: map<Id, seq<Event>>)
    returns (lines: map<Id, Line>, chapters: map<Id, seq<Event>>)
    requires Filed(lineOf, byChapter, before)
    ensures Filed(lines, chapters, before + EntriesOf(events, line))
  {
    lines, chapters := lineOf, byChapter;
    assert before + EntriesOf([], line) == before;
    assert events[..0] == [];
    for i := 0 to |events|
      invariant Filed(lines, chapters, before + EntriesOf(events[..i], line))
    {
      assert events[..i + 1][..i] == events[..i];
      var event := events[i];
      ghost var entries := before + EntriesOf(events[..i], line);
      if event.id.Some? {
        FileOne(lines, chapters, entries, Entry(event, line));
        lines := lines[event.id.value := line];
        if event.chapter.Some? {
          var c := event.chapter.value;
          chapters := chapters[c := (if c in chapters then chapters[c] else []) + [event]];
        }
        assert before + EntriesOf(events[..i + 1], line) == entries + [Entry(event, line)];
      } else {
        assert before + EntriesOf(events[..i + 1], line) == entries;
      }
    }
    assert events[..|events|] == events;
  }

  ghost predicate Filed(lineOf: map<Id, Line>, byChapter: map<Id, seq<Event>>, entries: seq<Entry>) {
    && (forall id :: LineOf(entries, id) == if id in lineOf then Some(lineOf[id]) else None)
    && (forall c :: InChapter(entries, c) == if c in byChapter then byChapter[c] else [])
  }

  lemma FileOne(lineOf: map<Id, Line>, byChapter: map<Id, seq<Event>>, entries: seq<Entry>, e: Entry)
    requires Filed(lineOf, byChapter, entries) && e.event.id.Some?
    ensures var lines := lineOf[e.event.id.value := e.line];
            var chapters := if e.event.chapter.None? then byChapter
                            else
                              var c := e.event.chapter.value;
                              byChapter[c := (if c in byChapter then byChapter[c] else []) + [e.event]];
            Filed(lines, chapters, entries + [e])
  {
    assert (entries + [e])[..|entries|] == entries;
    forall c: Id ensures InChapter(entries + [e], c) == InChapter(entries, c) + if e.event.chapter == Some(c)
      then [e.event] else [] {}
    assert forall c :: InChapter(entries, c) + [] == InChapter(entries, c);
  }

  method TakeEvents(events: seq<Event>, limit: Option<nat>, shown: set<Id>) returns (picked: seq<Event>, after: set<Id>)
    ensures Taken(picked, after) == Take(events, limit, Taken([], shown))
  {
    picked, after := [], shown;
    var i := 0;
    while i < |events|
      invariant i <= |events|
      invariant Take(events[i..], limit, Taken(picked, after)) == Take(events, limit, Taken([], shown))
    {
      assert events[i..][1..] == events[i + 1..];
      var id := IdOf(events[i]);
      if id !in after {
        if limit.Some? && |picked| >= limit.value { return; }
        after := after + {id};
        picked := picked + [events[i]];
      }
      i := i + 1;
    }
  }

  method NeighbourSection(
    role: Role, chapters: seq<Chapter>, i: int, byChapter: map<Id, seq<Event>>, lineOf: map<Id, Line>,
    shown: set<Id>, ghost entries: seq<Entry>)
    returns (sections: seq<Section>, after: set<Id>)
    requires Filed(lineOf, byChapter, entries)
    ensures (sections, after) == Neighbour(role, chapters, i, entries, shown)
  {
    if !(0 <= i < |chapters|) { return [], shown; }
    var c := chapters[i].id;
    var picked;
    picked, after := TakeEvents(InChapterOrder(if c in byChapter then byChapter[c] else []),
      Some(ENTITY_CONTEXT_LIMIT), shown);
    if picked == [] { return [], after; }
    var events := Pair(picked, lineOf, entries);
    sections := [Planned(role, chapters[i], events)];
  }

  method Pair(picked: seq<Event>, lineOf: map<Id, Line>, ghost entries: seq<Entry>) returns (events: seq<(Line, Event)>)
    requires forall id :: LineOf(entries, id) == if id in lineOf then Some(lineOf[id]) else None
    ensures events == WithLines(entries, picked)
  {
    events := [];
    for i := 0 to |picked|
      invariant events == WithLines(entries, picked[..i])
    {
      assert picked[..i + 1][..i] == picked[..i];
      var id := IdOf(picked[i]);
      events := events + [(if id in lineOf then lineOf[id] else Line(0, 0, None), picked[i])];
    }
    assert picked[..|picked|] == picked;
  }

  method CollectSeen(sections: seq<Section>) returns (seen: seq<Line>)
    ensures seen == SeenLines(sections)
  {
    seen := [];
    for k := 0 to |sections|
      invariant seen == SeenLines(sections[..k])
    {
      assert sections[..k + 1][..k] == sections[..k];
      var events := if sections[k].Planned? then sections[k].events else [];
      ghost var before := seen;
      for j := 0 to |events|
        invariant seen == Mentioned(events[..j], before)
      {
        assert events[..j + 1][..j] == events[..j];
        if events[j].0 !in seen { seen := seen + [events[j].0]; }
      }
      assert events[..|events|] == events;
    }
    assert sections[..|sections|] == sections;
  }

  method SelectPlotContext(plots: seq<Plot>, chapters: seq<Chapter>, active: Option<Id>)
    returns (sections: seq<Section>)
    ensures sections == Select(plots, chapters, active)
  {
    var ordered := Sort(chapters, ChapterLess);
    var index := IndexOf(ordered, active);
    if index.None? {
      var lines := if |plots| <= ENTITY_CONTEXT_LIMIT then Lines(plots) else RecentPlots(plots);
      return [PlotLines(First(lines, ENTITY_CONTEXT_LIMIT), true, Over(|lines|, ENTITY_CONTEXT_LIMIT))];
    }
    var lineOf: map<Id, Line>, byChapter: map<Id, seq<Event>> := map[], map[];
    for k := 0 to |plots|
      invariant Filed(lineOf, byChapter, Entries(plots[..k]))
    {
      assert plots[..k + 1][..k] == plots[..k] && LineAt(plots[..k + 1], k) == LineAt(plots, k);
      lineOf, byChapter := FilePlot(plots[k].events, LineAt(plots, k), Entries(plots[..k]), lineOf, byChapter);
    }
    assert plots[..|plots|] == plots;
    var i := index.value;
    sections := ActiveSections(ordered, i, byChapter, lineOf, Entries(plots));
    var seen := CollectSeen(sections);
    var lines := seen + Without(RecentPlots(plots), seen);
    sections := sections + LineSection(lines);
  }

  method ActiveSections(
    chapters: seq<Chapter>, i: nat, byChapter: map<Id, seq<Event>>, lineOf: map<Id, Line>, ghost entries: seq<Entry>)
    returns (sections: seq<Section>)
    requires i < |chapters| && Filed(lineOf, byChapter, entries)
    ensures sections == EventSections(chapters, i, entries)
  {
    hide Take, Neighbour, Filed;
    assert forall c :: InChapter(entries, c) == if c in byChapter then byChapter[c] else []
      by { FiledParts(lineOf, byChapter, entries); }
    assert forall id :: LineOf(entries, id) == if id in lineOf then Some(lineOf[id]) else None
      by { FiledParts(lineOf, byChapter, entries); }
    var c := chapters[i].id;
    var planned, shown := TakeEvents(InChapterOrder(if c in byChapter then byChapter[c] else []), None, {});
    var events := Pair(planned, lineOf, entries);
    sections := [Planned(ChapterPlan, chapters[i], events)];
    var more;
    more, shown := NeighbourSection(PreviousChapter, chapters, i - 1, byChapter, lineOf, shown, entries);
    sections := sections + more;
    more, shown := NeighbourSection(NextChapter, chapters, i + 1, byChapter, lineOf, shown, entries);
    sections := sections + more;
  }

  lemma FiledParts(lineOf: map<Id, Line>, byChapter: map<Id, seq<Event>>, entries: seq<Entry>)
    requires Filed(lineOf, byChapter, entries)
    ensures forall id :: LineOf(entries, id) == if id in lineOf then Some(lineOf[id]) else None
    ensures forall c :: InChapter(entries, c) == if c in byChapter then byChapter[c] else []
  {
  }
}
