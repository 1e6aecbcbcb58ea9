/** The sections spelled out: without an active chapter, and of the chapters beside it. */
module SelectionShown {
  import opened Prelude
  import opened Ordering
  import opened PlotSelection
  import opened SelectionLaws
  import opened SelectionSections

  // ------------------------------------------------------------------
  // Without an active chapter
  // ------------------------------------------------------------------

  lemma {:induction false} IndexFinds(chapters: seq<Chapter>, id: Option<Id>)
    ensures IndexOf(chapters, id).None? <==> forall c :: c in chapters ==> Some(c.id) != id
  {
    if chapters != [] {
      var front, last := chapters[..|chapters| - 1], chapters[|chapters| - 1];
      assert chapters == front + [last];
      IndexFinds(front, id);
    }
  }

  /** When no chapter of the story is named there is one section: the plot lines with all their events, at most
      twelve and the rest counted.  Up to twelve lines stand as they are stored; of more, the latest are shown,
      latest first. */
  lemma WithoutAChapter(plots: seq<Plot>, chapters: seq<Chapter>, active: Option<Id>)
    requires forall c :: c in chapters ==> Some(c.id) != active
    ensures var sections := Select(plots, chapters, active);
            && |sections| == 1 && sections[0].PlotLines? && sections[0].withEvents
            && |sections[0].plots| + sections[0].omitted == |plots|
            && (|plots| <= ENTITY_CONTEXT_LIMIT ==> sections[0].plots == Lines(plots))
            && (|plots| > ENTITY_CONTEXT_LIMIT ==>
                  exists lines :: && multiset(lines) == multiset(Lines(plots)) && Sorted(lines, LineLess)
                                  && sections[0].plots == First(lines, ENTITY_CONTEXT_LIMIT))
  {
    hide Sort, IndexOf, Lines, Sorted;
    SortHas(chapters, ChapterLess);
    IndexFinds(Sort(chapters, ChapterLess), active);
    RecentSorted(plots);
    SortPermutes(Lines(plots), LineLess);
  }

  /** Which is whenever no chapter has the id that is asked for. */
  lemma ChapterIsFoundIff(chapters: seq<Chapter>, active: Option<Id>)
    ensures IndexOf(Sort(chapters, ChapterLess), active).Some? <==> exists c :: c in chapters && Some(c.id) == active
  {
    hide Sort, IndexOf;
    SortHas(chapters, ChapterLess);
    IndexFinds(Sort(chapters, ChapterLess), active);
  }

  // ------------------------------------------------------------------
  // The chapters beside the active one
  // ------------------------------------------------------------------

  /** Of distinct events none of which was shown, the first so many are taken. */
  lemma {:induction false} TakeFirst(events: seq<Event>, limit: nat, so: Taken)
    requires DistinctIds(events) && |so.picked| <= limit && forall e :: e in events ==> IdOf(e) !in so.shown
    ensures Take(events, Some(limit), so).picked == so.picked + First(events, limit - |so.picked|)
    decreases events
  {
    hide DistinctIds, First;
    var room := limit - |so.picked|;
    if events == [] {
      NothingFirst<Event>(room);
      assert so.picked + [] == so.picked;
    } else if room > 0 {
      var next := Taken(so.picked + [events[0]], so.shown + {IdOf(events[0])});
      RestIsDistinct(events, so.shown);
      TakeFirst(events[1..], limit, next);
      FirstOfMore(events, room);
      var rest := First(events[1..], room - 1);
      assert so.picked + ([events[0]] + rest) == next.picked + rest;
      assert IdOf(events[0]) !in so.shown;
    } else {
      FirstNone(events);
      assert so.picked + [] == so.picked;
      assert IdOf(events[0]) !in so.shown;
    }
  }

  lemma NothingFirst<T>(n: nat)
    ensures First<T>([], n) == []
  {
  }

  lemma FirstNone<T>(xs: seq<T>)
    ensures First(xs, 0) == []
  {
  }

  lemma RestIsDistinct(events: seq<Event>, shown: set<Id>)
    requires events != [] && DistinctIds(events) && forall e :: e in events ==> IdOf(e) !in shown
    ensures DistinctIds(events[1..]) && forall e :: e in events[1..] ==> IdOf(e) !in shown + {IdOf(events[0])}
  {
    var rest := events[1..];
    forall i, j | 0 <= i < j < |rest| ensures IdOf(rest[i]) != IdOf(rest[j]) {
      assert rest[i] == events[i + 1] && rest[j] == events[j + 1];
    }
    forall e | e in rest ensures IdOf(e) !in shown + {IdOf(events[0])} {
      var i :| 0 <= i < |rest| && rest[i] == e;
      assert events[i + 1] == e && e in events;
    }
  }

  lemma FirstOfMore<T>(xs: seq<T>, n: nat)
    requires xs != [] && n > 0
    ensures First(xs, n) == [xs[0]] + First(xs[1..], n - 1)
  {
  }

  /** The events of one chapter, in chapter order. */
  function EventsOf(entries: seq<Entry>, c: Id): seq<Event> { InChapterOrder(InChapter(entries, c)) }

  /** What a neighbour shows: its first twelve events in chapter order, each with its plot line. */
  function Beside(role: Role, chapters: seq<Chapter>, k: int, entries: seq<Entry>): seq<Section> {
    if !(0 <= k < |chapters|) || EventsOf(entries, chapters[k].id) == [] then []
    else [Planned(role, chapters[k],
      WithLines(entries, First(EventsOf(entries, chapters[k].id), ENTITY_CONTEXT_LIMIT)))]
  }

  /** The ids shown so far belong to events of these chapters. */
  ghost predicate ShownOf(shown: set<Id>, entries: seq<Entry>, chapters: set<Id>) {
    forall id :: id in shown ==>
      exists x :: x in entries && IdOf(x.event) == id && x.event.chapter.Some? && x.event.chapter.value in chapters
  }

  lemma EventsAre(entries: seq<Entry>, c: Id)
    requires DistinctEvents(entries) && forall e :: e in entries ==> e.event.id.Some?
    ensures DistinctIds(EventsOf(entries, c))
    ensures forall e :: e in EventsOf(entries, c) ==> e.chapter == Some(c) && exists x :: x in entries && x.event == e
  {
    hide Sort, InChapter, DistinctIds;
    InChapterDistinct(entries, c);
    PlanIsOrdered(InChapter(entries, c));
    InChapterHas(entries, c);
  }

  /** Another chapter's events are not among those shown. */
  lemma NotShown(shown: set<Id>, entries: seq<Entry>, chapters: set<Id>, c: Id)
    requires DistinctEvents(entries) && (forall e :: e in entries ==> e.event.id.Some?)
    requires ShownOf(shown, entries, chapters) && c !in chapters
    ensures forall e :: e in EventsOf(entries, c) ==> IdOf(e) !in shown
  {
    hide EventsOf, DistinctIds;
    EventsAre(entries, c);
    forall e | e in EventsOf(entries, c) ensures IdOf(e) !in shown {
      var x :| x in entries && x.event == e;
      forall y | y in entries && IdOf(y.event) == IdOf(e) ensures y == x { SameEntry(entries, x, y); }
    }
  }

  lemma SameEntry(entries: seq<Entry>, x: Entry, y: Entry)
    requires DistinctEvents(entries) && (forall e :: e in entries ==> e.event.id.Some?)
    requires x in entries && y in entries && IdOf(x.event) == IdOf(y.event)
    ensures x == y
  {
    var i :| 0 <= i < |entries| && entries[i] == x;
    var j :| 0 <= j < |entries| && entries[j] == y;
    assert i == j;
  }

  /** After a chapter's events are taken, what is shown belongs to it or to the chapters before. */
  lemma TakenShown(entries: seq<Entry>, c: Id, limit: Option<nat>, shown: set<Id>, chapters: set<Id>)
    requires DistinctEvents(entries) && (forall e :: e in entries ==> e.event.id.Some?)
    requires ShownOf(shown, entries, chapters)
    ensures ShownOf(Take(EventsOf(entries, c), limit, Taken([], shown)).shown, entries, chapters + {c})
  {
    hide EventsOf, Take, DistinctIds;
    EventsAre(entries, c);
    NothingTaken(EventsOf(entries, c), limit, shown);
    TakeWell(EventsOf(entries, c), limit, shown, Taken([], shown));
    var t := Take(EventsOf(entries, c), limit, Taken([], shown));
    forall id | id in t.shown
      ensures exists x :: x in entries && IdOf(x.event) == id && x.event.chapter.Some?
                          && x.event.chapter.value in chapters + {c}
    {
      if id !in shown {
        var e :| e in t.picked && IdOf(e) == id;
        var x :| x in entries && x.event == e;
      }
    }
  }

  lemma NeighbourShows(role: Role, chapters: seq<Chapter>, k: int, entries: seq<Entry>, shown: set<Id>, from: set<Id>)
    requires DistinctEvents(entries) && (forall e :: e in entries ==> e.event.id.Some?) && ShownOf(shown, entries, from)
    requires 0 <= k < |chapters| ==> chapters[k].id !in from
    ensures Neighbour(role, chapters, k, entries, shown).0 == Beside(role, chapters, k, entries)
    ensures ShownOf(Neighbour(role, chapters, k, entries, shown).1, entries,
                    from + if 0 <= k < |chapters| then {chapters[k].id} else {})
  {
    hide Take, DistinctIds, InChapter, Sort, ShownOf;
    if 0 <= k < |chapters| {
      var c := chapters[k].id;
      EventsAre(entries, c);
      NotShown(shown, entries, from, c);
      TakeFirst(EventsOf(entries, c), ENTITY_CONTEXT_LIMIT, Taken([], shown));
      TakenShown(entries, c, Some(ENTITY_CONTEXT_LIMIT), shown, from);
      assert [] + First(EventsOf(entries, c), ENTITY_CONTEXT_LIMIT)
        == First(EventsOf(entries, c), ENTITY_CONTEXT_LIMIT);
    } else {
      assert from + {} == from;
    }
  }

  lemma NothingShown(entries: seq<Entry>)
    ensures ShownOf({}, entries, {})
  {
  }

  lemma DistinctAt(chapters: seq<Chapter>, i: nat, j: nat)
    requires DistinctChapters(chapters) && i < |chapters| && j < |chapters| && i != j
    ensures chapters[i].id != chapters[j].id
  {
    if i < j {} else {}
  }

  /** With distinct ids, the event sections are the plan of the active chapter, the chapter before it in reading
      order, and the chapter after it: every event of the first, and the first twelve of each of the others, in
      chapter order; a neighbour without events has no section. */
  lemma EventSectionsAre(chapters: seq<Chapter>, i: nat, entries: seq<Entry>)
    requires i < |chapters| && DistinctChapters(chapters) && DistinctEvents(entries)
    requires forall e :: e in entries ==> e.event.id.Some?
    ensures EventSections(chapters, i, entries)
         == [Planned(ChapterPlan, chapters[i], WithLines(entries, EventsOf(entries, chapters[i].id)))]
            + Beside(PreviousChapter, chapters, i - 1, entries) + Beside(NextChapter, chapters, i + 1, entries)
  {
    hide Take, InChapter, Sort, Neighbour, Beside, ShownOf, DistinctChapters, DistinctEvents;
    var c := chapters[i].id;
    EventsAre(entries, c);
    TakeAll(EventsOf(entries, c), Taken([], {}));
    assert [] + EventsOf(entries, c) == EventsOf(entries, c);
    NothingShown(entries);
    TakenShown(entries, c, None, {}, {});
    var plan := Take(EventsOf(entries, c), None, Taken([], {}));
    if 0 <= i - 1 { DistinctAt(chapters, i - 1, i); }
    if i + 1 < |chapters| { DistinctAt(chapters, i, i + 1); }
    if 0 <= i - 1 && i + 1 < |chapters| { DistinctAt(chapters, i - 1, i + 1); }
    NeighbourShows(PreviousChapter, chapters, i - 1, entries, plan.shown, {} + {c});
    var before := Neighbour(PreviousChapter, chapters, i - 1, entries, plan.shown);
    NeighbourShows(NextChapter, chapters, i + 1, entries, before.1,
      {} + {c} + if 0 <= i - 1 < |chapters| then {chapters[i - 1].id} else {});
  }
}
