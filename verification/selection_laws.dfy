/** What the selection shows, that it shows nothing twice, and that it forgets the order of its input. */
module SelectionLaws {
  import opened Prelude
  import opened Ordering
  import opened PlotSelection

  ghost predicate DistinctEvents(entries: seq<Entry>) {
    forall i, j :: 0 <= i < j < |entries| ==> entries[i].event.id != entries[j].event.id
  }

  ghost predicate DistinctPlots(plots: seq<Plot>) { forall i, j :: 0 <= i < j < |plots| ==> plots[i].id != plots[j].id }

  ghost predicate DistinctChapters(chapters: seq<Chapter>) {
    forall i, j :: 0 <= i < j < |chapters| ==> chapters[i].id != chapters[j].id
  }

  // ------------------------------------------------------------------
  // Entries
  // ------------------------------------------------------------------

  lemma {:induction false} EntriesOfHave(events: seq<Event>, line: Line)
    ensures forall e :: e in EntriesOf(events, line) ==> e.line == line && e.event.id.Some? && e.event in events
  {
    if events != [] { EntriesOfHave(events[..|events| - 1], line); }
  }

  lemma {:induction false} EntriesHave(plots: seq<Plot>)
    ensures forall e :: e in Entries(plots) ==> e.event.id.Some? && e.line in Lines(plots)
  {
    if plots != [] {
      var k := |plots| - 1;
      EntriesHave(plots[..k]);
      EntriesOfHave(plots[k].events, LineAt(plots, k));
      assert Lines(plots)[k] == LineAt(plots, k);
      assert Lines(plots) == Lines(plots[..k]) + [LineAt(plots, k)];
    }
  }

  lemma {:induction false} InChapterHas(entries: seq<Entry>, c: Id)
    ensures forall e :: e in InChapter(entries, c) <==> e.chapter == Some(c) && exists x :: x in entries && x.event == e
  {
    if entries != [] {
      var front, last := entries[..|entries| - 1], entries[|entries| - 1];
      InChapterHas(front, c);
      assert entries == front + [last];
      forall e ensures e in InChapter(entries, c) <==>
        e.chapter == Some(c) && exists x :: x in entries && x.event == e {
        if e == last.event { assert last in entries; }
        if x :| x in front && x.event == e { assert x in entries; }
      }
    }
  }

  lemma EventsCompare(a: Event, b: Event)
    requires a.id != b.id && a.id.Some? && b.id.Some?
    ensures EventLess(a, b) || EventLess(b, a)
  {
  }

  lemma {:induction false} InChapterDistinct(entries: seq<Entry>, c: Id)
    requires DistinctEvents(entries) && forall e :: e in entries ==> e.event.id.Some?
    ensures DistinctKeys(InChapter(entries, c), EventLess)
    ensures DistinctIds(InChapter(entries, c))
  {
    if entries != [] {
      var front, last := entries[..|entries| - 1], entries[|entries| - 1];
      InChapterDistinct(front, c);
      InChapterHas(front, c);
      forall e | e in InChapter(front, c)
        ensures e.id.Some? && e.id != last.event.id && (EventLess(e, last.event) || EventLess(last.event, e)) {
        var x :| x in front && x.event == e;
        var i :| 0 <= i < |front| && front[i] == x;
        assert entries[i] == x;
        EventsCompare(e, last.event);
      }
    }
  }

  ghost predicate DistinctIds(events: seq<Event>) {
    forall i, j :: 0 <= i < j < |events| ==> IdOf(events[i]) != IdOf(events[j])
  }

  lemma {:induction false} LineOfHas(entries: seq<Entry>, id: Id)
    ensures LineOf(entries, id).Some? ==>
        exists x :: x in entries && x.event.id == Some(id) && x.line == LineOf(entries, id).value
    ensures LineOf(entries, id).None? ==> forall x :: x in entries ==> x.event.id != Some(id)
  {
    if entries != [] {
      var front, last := entries[..|entries| - 1], entries[|entries| - 1];
      LineOfHas(front, id);
      assert entries == front + [last];
      if last.event.id == Some(id) { assert last in entries; }
    }
  }

  lemma LineOfEntry(entries: seq<Entry>, x: Entry)
    requires DistinctEvents(entries) && x in entries && x.event.id.Some?
    ensures LineOf(entries, x.event.id.value) == Some(x.line)
  {
    LineOfHas(entries, x.event.id.value);
    var y :| y in entries && y.event.id == x.event.id && y.line == LineOf(entries, x.event.id.value).value;
    var i :| 0 <= i < |entries| && entries[i] == x;
    var j :| 0 <= j < |entries| && entries[j] == y;
    assert i == j;
  }

  // ------------------------------------------------------------------
  // Taking
  // ------------------------------------------------------------------

  /** What has been picked is distinct, is what was added to what is shown, and was offered. */
  ghost predicate TakenWell(events: seq<Event>, limit: Option<nat>, from: set<Id>, t: Taken) {
    && DistinctIds(t.picked)
    && (forall e :: e in t.picked ==> IdOf(e) !in from && IdOf(e) in t.shown)
    && (forall id :: id in t.shown ==> id in from || exists e :: e in t.picked && IdOf(e) == id)
    && from <= t.shown
    && (limit.Some? ==> |t.picked| <= limit.value)
  }

  lemma {:induction false} TakeWell(events: seq<Event>, limit: Option<nat>, from: set<Id>, so: Taken)
    requires TakenWell(events, limit, from, so)
    ensures TakenWell(events, limit, from, Take(events, limit, so))
    ensures forall e :: e in Take(events, limit, so).picked ==> e in so.picked || e in events
    decreases events
  {
    if events != [] {
      var e, id := events[0], IdOf(events[0]);
      if id in so.shown {
        TakeWell(events[1..], limit, from, so);
      } else if !(limit.Some? && |so.picked| >= limit.value) {
        var next := Taken(so.picked + [e], so.shown + {id});
        forall x | x in next.picked ensures IdOf(x) !in from && IdOf(x) in next.shown {
          assert x in so.picked || x == e;
        }
        forall k | k in next.shown ensures k in from || exists x :: x in next.picked && IdOf(x) == k {
          if k == id { assert e in next.picked; }
          else if k !in from { var x :| x in so.picked && IdOf(x) == k; assert x in next.picked; }
        }
        TakeWell(events[1..], limit, from, next);
      }
    }
  }

  /** Without a limit and without repetitions, everything is taken. */
  lemma {:induction false} TakeAll(events: seq<Event>, so: Taken)
    requires DistinctIds(events) && forall e :: e in events ==> IdOf(e) !in so.shown
    ensures Take(events, None, so).picked == so.picked + events
    decreases events
  {
    if events == [] {
      assert so.picked + events == so.picked;
    } else {
      var next := Taken(so.picked + [events[0]], so.shown + {IdOf(events[0])});
      forall e | e in events[1..] ensures IdOf(e) !in next.shown {
        var i :| 0 <= i < |events[1..]| && events[1..][i] == e;
        assert events[i + 1] == e;
      }
      TakeAll(events[1..], next);
      assert so.picked + events == next.picked + events[1..];
    }
  }

  // ------------------------------------------------------------------
  // The chapter plan
  // ------------------------------------------------------------------

  /** The plan shows every event planned for the chapter, exactly once, in chapter order, each with the
      plot line it belongs to. */
  lemma PlanShowsTheChapter(plots: seq<Plot>, chapters: seq<Chapter>, active: Id)
    requires DistinctEvents(Entries(plots)) && IndexOf(Sort(chapters, ChapterLess), Some(active)).Some?
    ensures var plan := Select(plots, chapters, Some(active))[0];
            && plan.Planned? && plan.role == ChapterPlan && plan.chapter.id == active
            && (forall i, j :: 0 <= i < j < |plan.events| ==> EventLess(plan.events[i].1, plan.events[j].1))
            && (forall l, e :: (l, e) in plan.events <==> e.chapter == Some(active) && Entry(e, l) in Entries(plots))
  {
    hide Sort, IndexOf, Take, Entries, InChapter, Neighbour, SeenLines, LineSection, LineOf, Without, DistinctEvents;
    var entries := Entries(plots);
    var events := InChapter(entries, active);
    var ordered := InChapterOrder(events);
    EntriesHave(plots);
    InChapterDistinct(entries, active);
    PlanIsOrdered(events);
    TakeAll(ordered, Taken([], {}));
    assert [] + ordered == ordered;
    var plan := WithLines(entries, ordered);
    assert Select(plots, chapters, Some(active))[0].events == plan;
    forall i, j | 0 <= i < j < |plan| ensures EventLess(plan[i].1, plan[j].1) {
      assert plan[i].1 == ordered[i] && plan[j].1 == ordered[j];
    }
    forall l, e ensures (l, e) in plan <==> e.chapter == Some(active) && Entry(e, l) in entries {
      PlanHas(entries, events, ordered, active, l, e);
    }
  }

  lemma PlanHas(entries: seq<Entry>, events: seq<Event>, ordered: seq<Event>, active: Id, l: Line, e: Event)
    requires DistinctEvents(entries) && events == InChapter(entries, active) && SameElements(ordered, events)
    requires forall x :: x in entries ==> x.event.id.Some?
    ensures (l, e) in WithLines(entries, ordered) <==> e.chapter == Some(active) && Entry(e, l) in entries
  {
    hide InChapter, LineOf, DistinctEvents;
    InChapterHas(entries, active);
    var plan := WithLines(entries, ordered);
    if (l, e) in plan {
      var i :| 0 <= i < |plan| && plan[i] == (l, e);
      assert plan[i] == WithLine(entries, ordered[i]) && ordered[i] in ordered;
      var x :| x in entries && x.event == e;
      LineOfEntry(entries, x);
    }
    if e.chapter == Some(active) && Entry(e, l) in entries {
      LineOfEntry(entries, Entry(e, l));
      assert Entry(e, l).event == e;
      assert e in events && e in ordered;
      var i :| 0 <= i < |ordered| && ordered[i] == e;
      assert plan[i] == (l, e);
    }
  }

  lemma PlanIsOrdered(events: seq<Event>)
    requires DistinctKeys(events, EventLess) && DistinctIds(events)
    ensures var ordered := InChapterOrder(events);
            && SameElements(ordered, events) && DistinctIds(ordered)
            && (forall i, j :: 0 <= i < j < |ordered| ==> EventLess(ordered[i], ordered[j]))
  {
    hide Sort, DistinctIds;
    var ordered := InChapterOrder(events);
    TheyOrder();
    SortSorts(events, EventLess);
    DistinctSort(events, EventLess);
    SortHas(events, EventLess);
    SortPermutes(events, EventLess);
    SortedDistinctIds(events, ordered);
  }

  lemma SortedDistinctIds(a: seq<Event>, b: seq<Event>)
    requires DistinctIds(a) && SameElements(a, b) && DistinctKeys(b, EventLess)
    ensures DistinctIds(b)
  {
    hide EventLess;
    forall i, j | 0 <= i < j < |b| ensures IdOf(b[i]) != IdOf(b[j]) {
      assert EventLess(b[i], b[j]) || EventLess(b[j], b[i]);
      assert b[i] != b[j] by { TheyOrder(); }
      assert b[i] in a && b[j] in a;
      var p :| 0 <= p < |a| && a[p] == b[i];
      var q :| 0 <= q < |a| && a[q] == b[j];
      if p < q {} else {}
    }
  }
}
