/** The same story, listed in any order, gives the same sections. */
module SelectionOrder {
  import opened Prelude
  import opened Ordering
  import opened PlotSelection
  import opened SelectionLaws
  import opened SelectionSections

  /** A section as a reader sees it: plot lines by id, not by where they were listed. */
  datatype Shape =
    | PlannedShape(role: Role, chapter: Chapter, events: seq<(Id, Event)>)
    | LinesShape(plots: seq<Id>, withEvents: bool, omitted: nat)

  function PairShape(p: (Line, Event)): (Id, Event) { (p.0.id, p.1) }

  function PairShapes(pairs: seq<(Line, Event)>): (r: seq<(Id, Event)>)
    ensures |r| == |pairs| && forall i :: 0 <= i < |pairs| ==> r[i] == PairShape(pairs[i])
  {
    if pairs == [] then [] else PairShapes(pairs[..|pairs| - 1]) + [PairShape(pairs[|pairs| - 1])]
  }

  function LineIds(lines: seq<Line>): (r: seq<Id>)
    ensures |r| == |lines| && forall i :: 0 <= i < |lines| ==> r[i] == lines[i].id
  {
    if lines == [] then [] else LineIds(lines[..|lines| - 1]) + [lines[|lines| - 1].id]
  }

  function ShapeOf(s: Section): Shape {
    match s
    case Planned(role, chapter, events) => PlannedShape(role, chapter, PairShapes(events))
    case PlotLines(plots, withEvents, omitted) => LinesShape(LineIds(plots), withEvents, omitted)
  }

  function Shapes(sections: seq<Section>): (r: seq<Shape>)
    ensures |r| == |sections| && forall i :: 0 <= i < |sections| ==> r[i] == ShapeOf(sections[i])
  {
    seq(|sections|, i requires 0 <= i < |sections| => ShapeOf(sections[i]))
  }

  function PlotKeys(plots: seq<Plot>): (r: seq<(Id, Option<real>)>)
    ensures |r| == |plots| && forall i :: 0 <= i < |plots| ==> r[i] == (plots[i].id, plots[i].stamp)
  {
    seq(|plots|, i requires 0 <= i < |plots| => (plots[i].id, plots[i].stamp))
  }

  function EventKeys(plots: seq<Plot>): (r: seq<(Id, Event)>)
    ensures |r| == |Entries(plots)| && forall i :: 0 <= i < |r| ==>
        r[i] == (Entries(plots)[i].line.id, Entries(plots)[i].event)
  {
    var entries := Entries(plots);
    seq(|entries|, i requires 0 <= i < |entries| => (entries[i].line.id, entries[i].event))
  }

  /** The same chapters, the same plot lines, and the same events in the same plot lines: in any order. */
  ghost predicate SameStory(plots: seq<Plot>, chapters: seq<Chapter>, plots': seq<Plot>, chapters': seq<Chapter>) {
    && SameElements(chapters, chapters')
    && SameElements(PlotKeys(plots), PlotKeys(plots'))
    && SameElements(EventKeys(plots), EventKeys(plots'))
  }

  ghost predicate Tidy(plots: seq<Plot>, chapters: seq<Chapter>) {
    DistinctPlots(plots) && DistinctChapters(chapters) && DistinctEvents(Entries(plots))
  }

  ghost predicate Has(entries: seq<Entry>, id: Id, e: Event) {
    exists x :: x in entries && x.event == e && x.line.id == id
  }

  /** The entries of one listing are those of another, up to where their plots were listed. */
  ghost predicate SameEntries(a: seq<Entry>, b: seq<Entry>) { forall id, e :: Has(a, id, e) <==> Has(b, id, e) }

  lemma KeyHas(plots: seq<Plot>, id: Id, e: Event)
    ensures Has(Entries(plots), id, e) <==> (id, e) in EventKeys(plots)
  {
    hide Entries;
    var entries, keys := Entries(plots), EventKeys(plots);
    if Has(entries, id, e) {
      var x :| x in entries && x.event == e && x.line.id == id;
      var i :| 0 <= i < |entries| && entries[i] == x;
      assert keys[i] == (id, e);
    }
    if (id, e) in keys {
      var i :| 0 <= i < |keys| && keys[i] == (id, e);
      assert entries[i] in entries;
    }
  }

  lemma StoryEntries(plots: seq<Plot>, plots': seq<Plot>)
    requires SameElements(EventKeys(plots), EventKeys(plots'))
    ensures SameEntries(Entries(plots), Entries(plots'))
  {
    hide Entries, EventKeys, Has;
    forall id, e ensures Has(Entries(plots), id, e) <==> Has(Entries(plots'), id, e) {
      KeyHas(plots, id, e);
      KeyHas(plots', id, e);
    }
  }

  /** Events carry ids, and no two the same one. */
  ghost predicate Identified(entries: seq<Entry>) {
    DistinctEvents(entries) && forall e :: e in entries ==> e.event.id.Some?
  }

  lemma ChapterEventsSame(a: seq<Entry>, b: seq<Entry>, c: Id)
    requires SameEntries(a, b)
    ensures SameElements(InChapter(a, c), InChapter(b, c))
  {
    hide InChapter, Has;
    forall e ensures e in InChapter(a, c) <==> e in InChapter(b, c) {
      InChapterIff(a, c, e);
      InChapterIff(b, c, e);
    }
  }

  lemma InChapterIff(a: seq<Entry>, c: Id, e: Event)
    ensures e in InChapter(a, c) <==> e.chapter == Some(c) && exists id :: Has(a, id, e)
  {
    hide InChapter;
    InChapterHas(a, c);
    if x :| x in a && x.event == e { assert Has(a, x.line.id, e); }
  }

  lemma ChapterEventsAgree(a: seq<Entry>, b: seq<Entry>, c: Id)
    requires SameEntries(a, b) && Identified(a) && Identified(b)
    ensures InChapterOrder(InChapter(a, c)) == InChapterOrder(InChapter(b, c))
  {
    hide Sort, DistinctEvents, DistinctIds, EventLess, SameEntries, SameElements, InChapter, DistinctKeys, Orders;
    InChapterDistinct(a, c);
    InChapterDistinct(b, c);
    TheyOrder();
    ChapterEventsSame(a, b, c);
    SortForgetsOrder(InChapter(a, c), InChapter(b, c), EventLess);
  }

  lemma LinesAgree(a: seq<Entry>, b: seq<Entry>, e: Event)
    requires SameEntries(a, b) && Identified(a) && Identified(b)
    requires exists x :: x in a && x.event == e
    ensures PairShape(WithLine(a, e)) == PairShape(WithLine(b, e))
  {
    hide DistinctEvents, LineOf;
    var x :| x in a && x.event == e;
    assert Has(a, x.line.id, e);
    assert Has(b, x.line.id, e);
    var y :| y in b && y.event == e && y.line.id == x.line.id;
    LineOfEntry(a, x);
    LineOfEntry(b, y);
  }

  lemma PairsAgree(a: seq<Entry>, b: seq<Entry>, events: seq<Event>)
    requires SameEntries(a, b) && Identified(a) && Identified(b)
    requires forall e :: e in events ==> exists x :: x in a && x.event == e
    ensures PairShapes(WithLines(a, events)) == PairShapes(WithLines(b, events))
  {
    hide SameEntries, Identified, WithLine;
    forall i | 0 <= i < |events| ensures PairShapes(WithLines(a, events))[i] == PairShapes(WithLines(b, events))[i] {
      assert events[i] in events;
      LinesAgree(a, b, events[i]);
    }
  }

  /** The section of a neighbour, given what it takes. */
  function NearbySections(role: Role, chapter: Chapter, entries: seq<Entry>, picked: seq<Event>): seq<Section> {
    if picked == [] then [] else [Planned(role, chapter, WithLines(entries, picked))]
  }

  lemma NearbySectionsAgree(role: Role, chapter: Chapter, a: seq<Entry>, b: seq<Entry>, picked: seq<Event>)
    requires SameEntries(a, b) && Identified(a) && Identified(b)
    requires forall e :: e in picked ==> exists x :: x in a && x.event == e
    ensures Shapes(NearbySections(role, chapter, a, picked)) == Shapes(NearbySections(role, chapter, b, picked))
  {
    hide SameEntries, Identified, WithLines;
    PairsAgree(a, b, picked);
  }

  lemma NeighboursAgree(role: Role, chapters: seq<Chapter>, i: int, a: seq<Entry>, b: seq<Entry>, shown: set<Id>)
    requires SameEntries(a, b) && Identified(a) && Identified(b)
    ensures var (x, s) := Neighbour(role, chapters, i, a, shown);
            var (y, t) := Neighbour(role, chapters, i, b, shown);
            s == t && Shapes(x) == Shapes(y)
  {
    hide SameEntries, Identified, Take, InChapter, WithLines, Sort, DistinctIds, Shapes, Adds;
    if 0 <= i < |chapters| {
      ChapterEventsAgree(a, b, chapters[i].id);
      NearbySection(role, chapters, i, a, shown);
      NearbySectionsAgree(role, chapters[i], a, b, Nearby(chapters, i, a, shown).picked);
    }
  }

  lemma EventSectionsAgree(chapters: seq<Chapter>, i: nat, a: seq<Entry>, b: seq<Entry>)
    requires i < |chapters| && SameEntries(a, b) && Identified(a) && Identified(b)
    ensures Shapes(EventSections(chapters, i, a)) == Shapes(EventSections(chapters, i, b))
  {
    hide SameEntries, Identified, Take, InChapter, WithLines, Sort, Neighbour, ShapeOf, DistinctIds;
    var c := chapters[i].id;
    ChapterEventsAgree(a, b, c);
    var plan := Take(InChapterOrder(InChapter(a, c)), None, Taken([], {}));
    TakeAdds(InChapterOrder(InChapter(a, c)), None, {});
    SortHas(InChapter(a, c), EventLess);
    InChapterHas(a, c);
    PairsAgree(a, b, plan.picked);
    NeighboursAgree(PreviousChapter, chapters, i - 1, a, b, plan.shown);
    var before := Neighbour(PreviousChapter, chapters, i - 1, a, plan.shown);
    NeighboursAgree(NextChapter, chapters, i + 1, a, b, before.1);
    var before' := Neighbour(PreviousChapter, chapters, i - 1, b, plan.shown);
    var after, after' := Neighbour(NextChapter, chapters, i + 1, a, before.1),
      Neighbour(NextChapter, chapters, i + 1, b, before.1);
    var p, p' := Planned(ChapterPlan, chapters[i], WithLines(a, plan.picked)),
      Planned(ChapterPlan, chapters[i], WithLines(b, plan.picked));
    assert ShapeOf(p) == ShapeOf(p')
      by { PlanShape(chapters[i], WithLines(a, plan.picked), WithLines(b, plan.picked)); }
    ShapesConcat([p] + before.0, after.0);
    ShapesConcat([p], before.0);
    ShapesConcat([p'] + before'.0, after'.0);
    ShapesConcat([p'], before'.0);
    assert Shapes([p]) == Shapes([p']);
  }

  lemma PlanShape(chapter: Chapter, a: seq<(Line, Event)>, b: seq<(Line, Event)>)
    requires PairShapes(a) == PairShapes(b)
    ensures ShapeOf(Planned(ChapterPlan, chapter, a)) == ShapeOf(Planned(ChapterPlan, chapter, b))
  {
  }

  lemma ShapesConcat(a: seq<Section>, b: seq<Section>)
    ensures Shapes(a + b) == Shapes(a) + Shapes(b)
  {
  }

  // ------------------------------------------------------------------
  // Lines by id
  // ------------------------------------------------------------------

  /** Among these lines an id says which line it is. */
  ghost predicate OneLineAnId(lines: seq<Line>) { forall a, b :: a in lines && b in lines && a.id == b.id ==> a == b }

  lemma PlotsHaveOneLineAnId(plots: seq<Plot>)
    requires DistinctPlots(plots)
    ensures OneLineAnId(Lines(plots))
  {
    var lines := Lines(plots);
    forall a, b | a in lines && b in lines && a.id == b.id ensures a == b {
      var i :| 0 <= i < |lines| && lines[i] == a;
      var j :| 0 <= j < |lines| && lines[j] == b;
      assert plots[i].id == plots[j].id;
    }
  }

  function MentionedIds(events: seq<(Id, Event)>, seen: seq<Id>): seq<Id> {
    if events == [] then seen
    else
      var before, id := MentionedIds(events[..|events| - 1], seen), events[|events| - 1].0;
      if id in before then before else before + [id]
  }

  function SeenIds(shapes: seq<Shape>): seq<Id> {
    if shapes == [] then []
    else
      var last := shapes[|shapes| - 1];
      MentionedIds(if last.PlannedShape? then last.events else [], SeenIds(shapes[..|shapes| - 1]))
  }

  function WithoutIds(ids: seq<Id>, seen: seq<Id>): seq<Id> {
    if ids == [] then []
    else
      var before, last := WithoutIds(ids[..|ids| - 1], seen), ids[|ids| - 1];
      if last in seen then before else before + [last]
  }

  lemma IdIn(l: Line, lines: seq<Line>, all: seq<Line>)
    requires OneLineAnId(all) && l in all && forall x :: x in lines ==> x in all
    ensures l.id in LineIds(lines) <==> l in lines
  {
    if l in lines {
      var i :| 0 <= i < |lines| && lines[i] == l;
      assert LineIds(lines)[i] == l.id;
    }
    if l.id in LineIds(lines) {
      var i :| 0 <= i < |lines| && LineIds(lines)[i] == l.id;
      assert lines[i] in lines && lines[i].id == l.id;
    }
  }

  lemma LineIdsPush(lines: seq<Line>, l: Line)
    ensures LineIds(lines + [l]) == LineIds(lines) + [l.id]
  {
  }

  lemma {:induction false} MentionedById(events: seq<(Line, Event)>, seen: seq<Line>, all: seq<Line>)
    requires OneLineAnId(all) && (forall l :: l in seen ==> l in all) && (forall p :: p in events ==> p.0 in all)
    ensures LineIds(Mentioned(events, seen)) == MentionedIds(PairShapes(events), LineIds(seen))
    ensures forall l :: l in Mentioned(events, seen) ==> l in all
  {
    hide OneLineAnId;
    if events != [] {
      var front, last := events[..|events| - 1], events[|events| - 1];
      assert events == front + [last];
      MentionedById(front, seen, all);
      var before := Mentioned(front, seen);
      IdIn(last.0, before, all);
      LineIdsPush(before, last.0);
      assert PairShapes(events)[..|events| - 1] == PairShapes(front);
    }
  }

  lemma {:induction false} SeenById(sections: seq<Section>, all: seq<Line>)
    requires OneLineAnId(all) && forall p :: p in AllEvents(sections) ==> p.0 in all
    ensures LineIds(SeenLines(sections)) == SeenIds(Shapes(sections))
    ensures forall l :: l in SeenLines(sections) ==> l in all
  {
    hide OneLineAnId;
    if sections != [] {
      var front, last := sections[..|sections| - 1], sections[|sections| - 1];
      forall p | p in AllEvents(front) ensures p.0 in all { assert p in AllEvents(sections); }
      forall p | p in EventsIn(last) ensures p.0 in all { assert p in AllEvents(sections); }
      SeenById(front, all);
      MentionedById(EventsIn(last), SeenLines(front), all);
      assert Shapes(sections)[..|sections| - 1] == Shapes(front);
    }
  }

  lemma {:induction false} WithoutById(lines: seq<Line>, seen: seq<Line>, all: seq<Line>)
    requires OneLineAnId(all) && (forall l :: l in seen ==> l in all) && (forall l :: l in lines ==> l in all)
    ensures LineIds(Without(lines, seen)) == WithoutIds(LineIds(lines), LineIds(seen))
  {
    hide OneLineAnId;
    if lines != [] {
      var front, last := lines[..|lines| - 1], lines[|lines| - 1];
      assert lines == front + [last];
      WithoutById(front, seen, all);
      IdIn(last, seen, all);
      LineIdsPush(Without(front, seen), last);
      LineIdsPush(front, last);
      assert LineIds(lines)[..|lines| - 1] == LineIds(front);
    }
  }

  // ------------------------------------------------------------------
  // Recency by key
  // ------------------------------------------------------------------

  function KeysOf(lines: seq<Line>): (r: seq<(Id, Option<real>)>)
    ensures |r| == |lines| && forall i :: 0 <= i < |lines| ==> r[i] == KeyOf(lines[i])
  {
    seq(|lines|, i requires 0 <= i < |lines| => KeyOf(lines[i]))
  }

  lemma {:induction false} InsertByKey(x: Line, sorted: seq<Line>)
    ensures KeysOf(Insert(x, sorted, LineLess)) == Insert(KeyOf(x), KeysOf(sorted), KeyLess)
  {
    if sorted != [] && LineLess(sorted[0], x) {
      InsertByKey(x, sorted[1..]);
      assert KeysOf(sorted)[1..] == KeysOf(sorted[1..]);
    }
  }

  lemma {:induction false} SortByKey(lines: seq<Line>)
    ensures KeysOf(Sort(lines, LineLess)) == Sort(KeysOf(lines), KeyLess)
  {
    if lines != [] {
      SortByKey(lines[1..]);
      InsertByKey(lines[0], Sort(lines[1..], LineLess));
      assert KeysOf(lines)[1..] == KeysOf(lines[1..]);
    }
  }

  lemma RecencyAgrees(plots: seq<Plot>, plots': seq<Plot>)
    requires DistinctPlots(plots) && DistinctPlots(plots') && SameElements(PlotKeys(plots), PlotKeys(plots'))
    ensures LineIds(RecentPlots(plots)) == LineIds(RecentPlots(plots'))
  {
    hide Sort;
    assert KeysOf(Lines(plots)) == PlotKeys(plots) && KeysOf(Lines(plots')) == PlotKeys(plots');
    SortByKey(Lines(plots));
    SortByKey(Lines(plots'));
    TheyOrder();
    DistinctPlotKeys(plots);
    DistinctPlotKeys(plots');
    SortForgetsOrder(PlotKeys(plots), PlotKeys(plots'), KeyLess);
    var a, b := RecentPlots(plots), RecentPlots(plots');
    assert KeysOf(a) == KeysOf(b);
    forall i | 0 <= i < |a| ensures LineIds(a)[i] == LineIds(b)[i] { assert KeysOf(a)[i] == KeysOf(b)[i]; }
  }

  lemma DistinctPlotKeys(plots: seq<Plot>)
    requires DistinctPlots(plots)
    ensures DistinctKeys(PlotKeys(plots), KeyLess)
  {
    var keys := PlotKeys(plots);
    forall i, j | 0 <= i < j < |keys| ensures KeyLess(keys[i], keys[j]) || KeyLess(keys[j], keys[i]) {
      assert plots[i].id != plots[j].id;
    }
  }

  lemma ChaptersAgree(chapters: seq<Chapter>, chapters': seq<Chapter>)
    requires DistinctChapters(chapters) && DistinctChapters(chapters') && SameElements(chapters, chapters')
    ensures Sort(chapters, ChapterLess) == Sort(chapters', ChapterLess)
  {
    hide Sort;
    TheyOrder();
    DistinctChapterKeys(chapters);
    DistinctChapterKeys(chapters');
    SortForgetsOrder(chapters, chapters', ChapterLess);
  }

  lemma DistinctChapterKeys(chapters: seq<Chapter>)
    requires DistinctChapters(chapters)
    ensures DistinctKeys(chapters, ChapterLess)
  {
    forall i, j | 0 <= i < j < |chapters|
      ensures ChapterLess(chapters[i], chapters[j]) || ChapterLess(chapters[j], chapters[i]) {
      assert chapters[i].id != chapters[j].id;
    }
  }

  // ------------------------------------------------------------------
  // The result
  // ------------------------------------------------------------------

  /** The ids of the plot lines in the last section, in full. */
  lemma LineIdsAre(plots: seq<Plot>, sections: seq<Section>)
    requires DistinctPlots(plots) && forall p :: p in AllEvents(sections) ==> p.0 in Lines(plots)
    ensures var seen := SeenLines(sections);
            LineIds(seen + Without(RecentPlots(plots), seen))
              == SeenIds(Shapes(sections)) + WithoutIds(LineIds(RecentPlots(plots)), SeenIds(Shapes(sections)))
  {
    hide OneLineAnId, Lines, Sort, DistinctPlots, Without, NoRepeats, SeenLines;
    var all := Lines(plots);
    PlotsHaveOneLineAnId(plots);
    SeenById(sections, all);
    RecentHas(plots);
    var seen := SeenLines(sections);
    WithoutById(RecentPlots(plots), seen, all);
    LineIdsConcat(seen, Without(RecentPlots(plots), seen));
  }

  lemma LineIdsConcat(a: seq<Line>, b: seq<Line>)
    ensures LineIds(a + b) == LineIds(a) + LineIds(b)
  {
  }

  lemma LineSectionById(a: seq<Line>, b: seq<Line>)
    requires LineIds(a) == LineIds(b)
    ensures Shapes(LineSection(a)) == Shapes(LineSection(b))
  {
    assert |a| == |LineIds(a)| == |b|;
    var n := ENTITY_CONTEXT_LIMIT;
    forall i | 0 <= i < |First(a, n)| ensures LineIds(First(a, n))[i] == LineIds(First(b, n))[i] {
      assert LineIds(a)[i] == LineIds(b)[i];
    }
    assert LineIds(First(a, n)) == LineIds(First(b, n));
  }

  /** With an active chapter and distinct ids, the sections do not depend on the order in which plots,
      chapters and events are listed. */
  lemma SelectionForgetsOrder(plots: seq<Plot>, chapters: seq<Chapter>, plots': seq<Plot>, chapters': seq<Chapter>,
      active: Id)
    requires Tidy(plots, chapters) && Tidy(plots', chapters') && SameStory(plots, chapters, plots', chapters')
    requires exists c :: c in chapters && c.id == active
    ensures Shapes(Select(plots, chapters, Some(active))) == Shapes(Select(plots', chapters', Some(active)))
  {
    hide Sort, IndexOf, Entries, EventSections, SeenLines, Without, RecentPlots, DistinctEvents, DistinctPlots,
         DistinctChapters,
         SameEntries, Shapes, Lines, LineSection, PlotKeys, EventKeys;
    var a, b := Entries(plots), Entries(plots');
    StoryEntries(plots, plots');
    EntriesHave(plots);
    EntriesHave(plots');
    ChaptersAgree(chapters, chapters');
    var ordered := Sort(chapters, ChapterLess);
    ActiveIsFound(chapters, active);
    var i := IndexOf(ordered, Some(active)).value;
    EventSectionsAgree(ordered, i, a, b);
    var s, s' := EventSections(ordered, i, a), EventSections(ordered, i, b);
    EventLines(plots, ordered, i);
    EventLines(plots', ordered, i);
    LineIdsAre(plots, s);
    LineIdsAre(plots', s');
    RecencyAgrees(plots, plots');
    var seen, seen' := SeenLines(s), SeenLines(s');
    var lines, lines' := seen + Without(RecentPlots(plots), seen), seen' + Without(RecentPlots(plots'), seen');
    LineSectionById(lines, lines');
    ShapesConcat(s, LineSection(lines));
    ShapesConcat(s', LineSection(lines'));
  }

  lemma EventLines(plots: seq<Plot>, chapters: seq<Chapter>, i: nat)
    requires i < |chapters|
    ensures forall p :: p in AllEvents(EventSections(chapters, i, Entries(plots))) ==> p.0 in Lines(plots)
  {
    hide EventSections, Entries, Lines, SeenLines, NoRepeats;
    SeenAreLines(plots, chapters, i);
    SeenHas(EventSections(chapters, i, Entries(plots)));
  }

  lemma ActiveIsFound(chapters: seq<Chapter>, active: Id)
    requires exists c :: c in chapters && c.id == active
    ensures IndexOf(Sort(chapters, ChapterLess), Some(active)).Some?
  {
    hide Sort;
    SortHas(chapters, ChapterLess);
    FoundIfThere(Sort(chapters, ChapterLess), active);
  }

  lemma {:induction false} FoundIfThere(chapters: seq<Chapter>, active: Id)
    requires exists c :: c in chapters && c.id == active
    ensures IndexOf(chapters, Some(active)).Some?
  {
    var front, last := chapters[..|chapters| - 1], chapters[|chapters| - 1];
    assert chapters == front + [last];
    if last.id != active { FoundIfThere(front, active); }
  }
}
