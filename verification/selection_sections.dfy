/** Laws of all the sections together: nothing twice, bounded neighbours, every plot line accounted for. */
module SelectionSections {
  import opened Prelude
  import opened Ordering
  import opened PlotSelection
  import opened SelectionLaws

  function EventsIn(s: Section): seq<(Line, Event)> { if s.Planned? then s.events else [] }

  function AllEvents(sections: seq<Section>): seq<(Line, Event)> {
    if sections == [] then [] else AllEvents(sections[..|sections| - 1]) + EventsIn(sections[|sections| - 1])
  }

  function EventOf(pairs: seq<(Line, Event)>): (r: seq<Event>)
    ensures |r| == |pairs| && forall i :: 0 <= i < |pairs| ==> r[i] == pairs[i].1
  {
    seq(|pairs|, i requires 0 <= i < |pairs| => pairs[i].1)
  }

  /** What one section adds: events that were not shown, each once, and from what was offered. */
  ghost predicate Adds(picked: seq<Event>, from: set<Id>, shown: set<Id>) {
    && DistinctIds(picked) && from <= shown
    && (forall e :: e in picked ==> IdOf(e) !in from && IdOf(e) in shown)
  }

  lemma TakeAdds(events: seq<Event>, limit: Option<nat>, from: set<Id>)
    ensures var t := Take(events, limit, Taken([], from));
            && Adds(t.picked, from, t.shown)
            && (limit.Some? ==> |t.picked| <= limit.value)
            && (forall e :: e in t.picked ==> e in events)
  {
    hide Take, DistinctIds, IdOf;
    assert TakenWell(events, limit, from, Taken([], from)) by { NothingTaken(events, limit, from); }
    TakeWell(events, limit, from, Taken([], from));
  }

  lemma NothingTaken(events: seq<Event>, limit: Option<nat>, from: set<Id>)
    ensures TakenWell(events, limit, from, Taken([], from))
  {
  }

  lemma ThreeAdd(a: seq<Event>, b: seq<Event>, c: seq<Event>, s: set<Id>, t: set<Id>, u: set<Id>)
    requires Adds(a, {}, s) && Adds(b, s, t) && Adds(c, t, u)
    ensures DistinctIds(a + b + c)
  {
    hide IdOf;
    assert forall e :: e in a ==> IdOf(e) in s && IdOf(e) in t;
    assert forall e :: e in b ==> IdOf(e) in t && IdOf(e) !in s;
    assert forall e :: e in c ==> IdOf(e) !in t;
    var all := a + b + c;
    forall i, j | 0 <= i < j < |all| ensures IdOf(all[i]) != IdOf(all[j]) {
      assert i < |a| ==> all[i] in a;
      assert |a| <= i < |a| + |b| ==> all[i] in b;
      assert |a| <= j < |a| + |b| ==> all[j] in b;
      assert j >= |a| + |b| ==> all[j] in c;
    }
  }

  /** The events of one neighbour. */
  function Nearby(chapters: seq<Chapter>, i: int, entries: seq<Entry>, shown: set<Id>): Taken {
    if !(0 <= i < |chapters|) then Taken([], shown)
    else Take(InChapterOrder(InChapter(entries, chapters[i].id)), Some(ENTITY_CONTEXT_LIMIT), Taken([], shown))
  }

  lemma NearbySection(role: Role, chapters: seq<Chapter>, i: int, entries: seq<Entry>, shown: set<Id>)
    ensures var (sections, after) := Neighbour(role, chapters, i, entries, shown);
            var t := Nearby(chapters, i, entries, shown);
            && after == t.shown && AllEvents(sections) == WithLines(entries, t.picked)
            && Adds(t.picked, shown, t.shown) && |t.picked| <= ENTITY_CONTEXT_LIMIT
            && (forall e :: e in t.picked ==> exists x :: x in entries && x.event == e)
            && (forall s :: s in sections ==> s.Planned? && s.role == role)
  {
    hide Take, InChapter, DistinctIds, Sort, WithLines;
    var t := Nearby(chapters, i, entries, shown);
    WithNone(entries);
    if 0 <= i < |chapters| {
      var c := chapters[i].id;
      TakeAdds(InChapterOrder(InChapter(entries, c)), Some(ENTITY_CONTEXT_LIMIT), shown);
      SortHas(InChapter(entries, c), EventLess);
      InChapterHas(entries, c);
      if t.picked != [] { OneSection(Planned(role, chapters[i], WithLines(entries, t.picked))); }
    } else {
      assert Adds([], shown, shown) by { AddsNothing(shown); }
    }
  }

  lemma AddsNothing(shown: set<Id>)
    ensures Adds([], shown, shown)
  {
  }

  lemma WithNone(entries: seq<Entry>)
    ensures WithLines(entries, []) == []
  {
  }

  lemma OneSection(s: Section)
    ensures AllEvents([s]) == EventsIn(s)
  {
    assert [s][..0] == [];
  }

  lemma {:induction false} AllConcat(a: seq<Section>, b: seq<Section>)
    ensures AllEvents(a + b) == AllEvents(a) + AllEvents(b)
  {
    if b == [] {
      assert a + b == a;
    } else {
      assert (a + b)[..|a + b| - 1] == a + b[..|b| - 1];
      AllConcat(a, b[..|b| - 1]);
    }
  }

  lemma WithConcat(entries: seq<Entry>, a: seq<Event>, b: seq<Event>)
    ensures WithLines(entries, a + b) == WithLines(entries, a) + WithLines(entries, b)
  {
  }

  function PlanOf(chapters: seq<Chapter>, i: nat, entries: seq<Entry>): Taken
    requires i < |chapters|
  {
    Take(InChapterOrder(InChapter(entries, chapters[i].id)), None, Taken([], {}))
  }

  lemma PlanAdds(chapters: seq<Chapter>, i: nat, entries: seq<Entry>)
    requires i < |chapters|
    ensures var t := PlanOf(chapters, i, entries);
            Adds(t.picked, {}, t.shown) && forall e :: e in t.picked ==> exists x :: x in entries && x.event == e
  {
    hide Take, InChapter, DistinctIds, Sort;
    var c := chapters[i].id;
    TakeAdds(InChapterOrder(InChapter(entries, c)), None, {});
    SortHas(InChapter(entries, c), EventLess);
    InChapterHas(entries, c);
  }

  /** The event sections spelled out: the plan, then the chapter before, then the chapter after. */
  lemma ThreeParts(chapters: seq<Chapter>, i: nat, entries: seq<Entry>)
    requires i < |chapters|
    ensures var plan := PlanOf(chapters, i, entries);
            var before := Nearby(chapters, i - 1, entries, plan.shown);
            var after := Nearby(chapters, i + 1, entries, before.shown);
            && AllEvents(EventSections(chapters, i, entries))
              == WithLines(entries, plan.picked + before.picked + after.picked)
            && DistinctIds(plan.picked + before.picked + after.picked)
            && (forall e :: e in plan.picked + before.picked + after.picked ==>
              exists x :: x in entries && x.event == e)
            && |before.picked| <= ENTITY_CONTEXT_LIMIT && |after.picked| <= ENTITY_CONTEXT_LIMIT
  {
    hide Take, InChapter, DistinctIds, Sort, WithLines, Neighbour, Nearby, Adds, PlanOf, EventSections, AllEvents;
    var plan := PlanOf(chapters, i, entries);
    PlanAdds(chapters, i, entries);
    NearbySection(PreviousChapter, chapters, i - 1, entries, plan.shown);
    var before := Nearby(chapters, i - 1, entries, plan.shown);
    NearbySection(NextChapter, chapters, i + 1, entries, before.shown);
    var after := Nearby(chapters, i + 1, entries, before.shown);
    ThreeAdd(plan.picked, before.picked, after.picked, plan.shown, before.shown, after.shown);
    ThreeSections(chapters, i, entries);
    WithConcat(entries, plan.picked, before.picked);
    WithConcat(entries, plan.picked + before.picked, after.picked);
  }

  lemma ThreeSections(chapters: seq<Chapter>, i: nat, entries: seq<Entry>)
    requires i < |chapters|
    ensures var plan := PlanOf(chapters, i, entries);
            var (s2, shown) := Neighbour(PreviousChapter, chapters, i - 1, entries, plan.shown);
            var (s3, _) := Neighbour(NextChapter, chapters, i + 1, entries, shown);
            AllEvents(EventSections(chapters, i, entries)) == WithLines(entries, plan.picked) + AllEvents(s2)
              + AllEvents(s3)
  {
    hide Take, InChapter, Sort, WithLines, Neighbour, AllEvents;
    var plan := PlanOf(chapters, i, entries);
    var first := Planned(ChapterPlan, chapters[i], WithLines(entries, plan.picked));
    var (s2, shown) := Neighbour(PreviousChapter, chapters, i - 1, entries, plan.shown);
    var (s3, _) := Neighbour(NextChapter, chapters, i + 1, entries, shown);
    OneSection(first);
    AllConcat([first], s2);
    AllConcat([first] + s2, s3);
  }

  /** No event is in two sections, or twice in one, and a neighbour has at most twelve. */
  lemma NoEventTwice(plots: seq<Plot>, chapters: seq<Chapter>, active: Id)
    requires IndexOf(Sort(chapters, ChapterLess), Some(active)).Some?
    ensures var sections := Select(plots, chapters, Some(active));
            && DistinctIds(EventOf(AllEvents(sections)))
            && (forall s :: s in sections && s.Planned? && s.role != ChapterPlan ==> |s.events| <= ENTITY_CONTEXT_LIMIT)
  {
    hide Take, InChapter, DistinctIds, Sort, WithLines, IndexOf, EventSections, Without, RecentPlots, SeenLines,
         Entries, Nearby;
    var ordered := Sort(chapters, ChapterLess);
    var i, entries := IndexOf(ordered, Some(active)).value, Entries(plots);
    var sections := EventSections(ordered, i, entries);
    var seen := SeenLines(sections);
    var last := LineSection(seen + Without(RecentPlots(plots), seen));
    ThreeParts(ordered, i, entries);
    AllConcat(sections, last);
    assert AllEvents(last) == [] by { LinesHaveNoEvents(seen + Without(RecentPlots(plots), seen)); }
    var picked: seq<Event> :| AllEvents(sections) == WithLines(entries, picked) && DistinctIds(picked);
    assert AllEvents(sections + last) == WithLines(entries, picked);
    EventsOfLines(entries, picked);
    NeighboursAreBounded(ordered, i, entries);
  }

  lemma EventsOfLines(entries: seq<Entry>, picked: seq<Event>)
    ensures EventOf(WithLines(entries, picked)) == picked
  {
  }

  lemma LinesHaveNoEvents(lines: seq<Line>)
    ensures AllEvents(LineSection(lines)) == []
  {
    if lines != [] { OneSection(LineSection(lines)[0]); }
  }

  lemma NeighboursAreBounded(chapters: seq<Chapter>, i: nat, entries: seq<Entry>)
    requires i < |chapters|
    ensures forall s :: s in EventSections(chapters, i, entries) && s.role != ChapterPlan ==>
              s.Planned? && |s.events| <= ENTITY_CONTEXT_LIMIT
    ensures forall s :: s in EventSections(chapters, i, entries) ==> s.Planned?
  {
    hide Take, InChapter, Sort;
    forall role: Role, k: int, shown: set<Id>
      ensures forall s :: s in Neighbour(role, chapters, k, entries, shown).0 ==>
          s.Planned? && |s.events| <= ENTITY_CONTEXT_LIMIT
    {
      NearbySection(role, chapters, k, entries, shown);
    }
  }

  // ------------------------------------------------------------------
  // Plot lines
  // ------------------------------------------------------------------

  ghost predicate NoRepeats<T>(xs: seq<T>) { forall i, j :: 0 <= i < j < |xs| ==> xs[i] != xs[j] }

  lemma {:induction false} MentionedHas(events: seq<(Line, Event)>, seen: seq<Line>)
    requires NoRepeats(seen)
    ensures NoRepeats(Mentioned(events, seen)) && seen <= Mentioned(events, seen)
    ensures forall l :: l in Mentioned(events, seen) <==> l in seen || exists p :: p in events && p.0 == l
  {
    if events != [] {
      var front, last := events[..|events| - 1], events[|events| - 1];
      MentionedHas(front, seen);
      assert events == front + [last];
      forall l ensures l in Mentioned(events, seen) <==> l in seen || exists p :: p in events && p.0 == l {
        if l == last.0 { assert last in events; }
        if p :| p in front && p.0 == l { assert p in events; }
      }
    }
  }

  lemma {:induction false} SeenHas(sections: seq<Section>)
    ensures NoRepeats(SeenLines(sections))
    ensures forall l :: l in SeenLines(sections) <==> exists p :: p in AllEvents(sections) && p.0 == l
  {
    if sections != [] {
      var front, last := sections[..|sections| - 1], sections[|sections| - 1];
      SeenHas(front);
      MentionedHas(EventsIn(last), SeenLines(front));
      forall l ensures l in SeenLines(sections) <==> exists p :: p in AllEvents(sections) && p.0 == l {
        if p :| p in AllEvents(front) && p.0 == l { assert p in AllEvents(sections); }
        if p :| p in EventsIn(last) && p.0 == l { assert p in AllEvents(sections); }
      }
    }
  }

  /** Lines in the order in which events first mention them. */
  ghost predicate ByFirstMention(lines: seq<Line>, events: seq<(Line, Event)>) {
    forall i, j :: 0 <= i < j < |lines| ==> MentionedBefore(lines[i], lines[j], events)
  }

  ghost predicate MentionedBefore(a: Line, b: Line, events: seq<(Line, Event)>) {
    exists k :: 0 <= k < |events| && events[k].0 == a && forall m :: 0 <= m <= k ==> events[m].0 != b
  }

  lemma LongerMentions(lines: seq<Line>, events: seq<(Line, Event)>, more: seq<(Line, Event)>)
    requires ByFirstMention(lines, events)
    ensures ByFirstMention(lines, events + more)
  {
    forall i, j | 0 <= i < j < |lines| ensures MentionedBefore(lines[i], lines[j], events + more) {
      assert MentionedBefore(lines[i], lines[j], events);
      var k :| 0 <= k < |events| && events[k].0 == lines[i] && forall m :: 0 <= m <= k ==> events[m].0 != lines[j];
      assert (events + more)[k].0 == lines[i] && forall m :: 0 <= m <= k ==> (events + more)[m] == events[m];
    }
  }

  lemma NewMention(lines: seq<Line>, events: seq<(Line, Event)>, p: (Line, Event))
    requires ByFirstMention(lines, events) && p.0 !in lines
    requires forall l :: l in lines <==> exists q :: q in events && q.0 == l
    ensures ByFirstMention(lines + [p.0], events + [p])
  {
    LongerMentions(lines, events, [p]);
    var all := events + [p];
    forall i | 0 <= i < |lines| ensures MentionedBefore(lines[i], p.0, all) {
      assert lines[i] in lines;
      var q :| q in events && q.0 == lines[i];
      var k :| 0 <= k < |events| && events[k] == q;
      forall m | 0 <= m <= k ensures all[m].0 != p.0 { assert all[m] in events; }
      assert all[k].0 == lines[i];
    }
  }

  lemma {:induction false} MentionedInOrder(events: seq<(Line, Event)>, seen: seq<Line>, before: seq<(Line, Event)>)
    requires NoRepeats(seen) && ByFirstMention(seen, before)
    requires forall l :: l in seen <==> exists p :: p in before && p.0 == l
    ensures ByFirstMention(Mentioned(events, seen), before + events)
  {
    hide ByFirstMention, NoRepeats;
    if events == [] {
      assert before + events == before;
    } else {
      var front, last := events[..|events| - 1], events[|events| - 1];
      MentionedInOrder(front, seen, before);
      MentionedHas(front, seen);
      assert before + events == before + front + [last];
      if last.0 in Mentioned(front, seen) {
        LongerMentions(Mentioned(front, seen), before + front, [last]);
      } else {
        forall l ensures l in Mentioned(front, seen) <==> exists q :: q in before + front && q.0 == l {
          if q :| q in before && q.0 == l { assert q in before + front; }
          if q :| q in front && q.0 == l { assert q in before + front; }
        }
        NewMention(Mentioned(front, seen), before + front, last);
      }
    }
  }

  lemma {:induction false} SeenInOrder(sections: seq<Section>)
    ensures ByFirstMention(SeenLines(sections), AllEvents(sections))
  {
    hide ByFirstMention, NoRepeats, Mentioned;
    if sections == [] {
      NoMentions();
    } else {
      var front, last := sections[..|sections| - 1], sections[|sections| - 1];
      SeenInOrder(front);
      SeenHas(front);
      MentionedInOrder(EventsIn(last), SeenLines(front), AllEvents(front));
    }
  }

  lemma NoMentions()
    ensures ByFirstMention([], [])
  {
  }

  lemma {:induction false} WithoutHas(lines: seq<Line>, seen: seq<Line>)
    requires NoRepeats(lines)
    ensures NoRepeats(Without(lines, seen))
    ensures forall l :: l in Without(lines, seen) <==> l in lines && l !in seen
  {
    if lines != [] {
      var front, last := lines[..|lines| - 1], lines[|lines| - 1];
      assert lines == front + [last];
      WithoutHas(front, seen);
    }
  }

  lemma {:induction false} WithoutSorted(lines: seq<Line>, seen: seq<Line>)
    requires Sorted(lines, LineLess) && NoRepeats(lines)
    ensures Sorted(Without(lines, seen), LineLess)
  {
    hide LineLess;
    if lines != [] {
      var front, last := lines[..|lines| - 1], lines[|lines| - 1];
      assert forall i :: 0 <= i < |front| ==> front[i] == lines[i];
      WithoutSorted(front, seen);
      WithoutHas(front, seen);
      var kept := Without(front, seen);
      forall i | 0 <= i < |kept| ensures !LineLess(last, kept[i]) {
        assert kept[i] in front;
        var k :| 0 <= k < |front| && front[k] == kept[i];
        assert !LineLess(lines[|lines| - 1], lines[k]);
      }
    }
  }

  lemma RecentSorted(plots: seq<Plot>)
    ensures Sorted(RecentPlots(plots), LineLess)
  {
    TheyOrder();
    SortSorts(Lines(plots), LineLess);
  }

  lemma SameSize<T(!new)>(a: seq<T>, b: seq<T>)
    requires NoRepeats(a) && NoRepeats(b) && SameElements(a, b)
    ensures multiset(a) == multiset(b) && |a| == |b|
  {
    forall x ensures multiset(a)[x] == multiset(b)[x] {
      OnceOrNever(a, x);
      OnceOrNever(b, x);
    }
    assert |multiset(a)| == |a| && |multiset(b)| == |b|;
  }

  lemma {:induction false} OnceOrNever<T>(a: seq<T>, x: T)
    requires NoRepeats(a)
    ensures multiset(a)[x] == if x in a then 1 else 0
  {
    if a != [] {
      OnceOrNever(a[1..], x);
      assert a == [a[0]] + a[1..];
      if a[0] in a[1..] {
        var i :| 0 <= i < |a[1..]| && a[1..][i] == a[0];
        assert a[i + 1] == a[0];
      }
    }
  }

  lemma RecentHas(plots: seq<Plot>)
    ensures NoRepeats(RecentPlots(plots)) && SameElements(RecentPlots(plots), Lines(plots)) && NoRepeats(Lines(plots))
  {
    hide Sort;
    assert forall i :: 0 <= i < |plots| ==> Lines(plots)[i].at == i;
    SortPermutes(Lines(plots), LineLess);
    SortHas(Lines(plots), LineLess);
    PermutedNoRepeats(Lines(plots), RecentPlots(plots));
  }

  lemma PermutedNoRepeats(a: seq<Line>, b: seq<Line>)
    requires NoRepeats(a) && multiset(a) == multiset(b)
    ensures NoRepeats(b)
  {
    forall i, j | 0 <= i < j < |b| ensures b[i] != b[j] {
      OnceOrNever(a, b[i]);
      if b[i] == b[j] { TwiceCounted(b, i, j); }
    }
  }

  lemma TwiceCounted(b: seq<Line>, i: nat, j: nat)
    requires i < j < |b| && b[i] == b[j]
    ensures multiset(b)[b[i]] >= 2
  {
    assert b == b[..i] + [b[i]] + b[i + 1..j] + [b[j]] + b[j + 1..];
    assert multiset(b) == multiset(b[..i]) + multiset([b[i]]) + multiset(b[i + 1..j]) + multiset([b[j]])
      + multiset(b[j + 1..]);
  }

  /** Every plot line is shown or counted as omitted, each once; those of the events shown come first, in the
      order these first mention them, and the others follow by recency. */
  lemma EveryLineCounts(plots: seq<Plot>, chapters: seq<Chapter>, active: Id)
    requires IndexOf(Sort(chapters, ChapterLess), Some(active)).Some? && plots != []
    ensures var sections := Select(plots, chapters, Some(active));
            var last := sections[|sections| - 1];
            var seen := SeenLines(sections[..|sections| - 1]);
            && last.PlotLines? && !last.withEvents && |last.plots| + last.omitted == |plots|
            && NoRepeats(seen) && ByFirstMention(seen, AllEvents(sections[..|sections| - 1]))
            && (forall l :: l in seen <==> exists p :: p in AllEvents(sections[..|sections| - 1]) && p.0 == l)
            && exists lines :: && last.plots == First(lines, ENTITY_CONTEXT_LIMIT) && seen <= lines
                               && multiset(lines) == multiset(Lines(plots)) && Sorted(lines[|seen|..], LineLess)
  {
    hide Take, InChapter, Sort, IndexOf, EventSections, Without, RecentPlots, SeenLines, Entries, NoRepeats, Lines,
         LineOf,
         LineLess, Sorted, ByFirstMention, AllEvents;
    var ordered := Sort(chapters, ChapterLess);
    var i, entries := IndexOf(ordered, Some(active)).value, Entries(plots);
    var sections := EventSections(ordered, i, entries);
    var seen := SeenLines(sections);
    var rest := Without(RecentPlots(plots), seen);
    RecentHas(plots);
    WithoutHas(RecentPlots(plots), seen);
    RecentSorted(plots);
    WithoutSorted(RecentPlots(plots), seen);
    assert (seen + rest)[|seen|..] == rest;
    SeenHas(sections);
    SeenInOrder(sections);
    SeenAreLines(plots, ordered, i);
    Together(seen, rest);
    forall l ensures l in seen + rest <==> l in Lines(plots) {}
    SameSize(seen + rest, Lines(plots));
    assert Select(plots, chapters, Some(active)) == sections + LineSection(seen + rest);
    assert (sections + LineSection(seen + rest))[..|sections|] == sections;
  }

  lemma Together(a: seq<Line>, b: seq<Line>)
    requires NoRepeats(a) && NoRepeats(b) && forall l :: l in b ==> l !in a
    ensures NoRepeats(a + b)
  {
    forall i, j | 0 <= i < j < |a + b| ensures (a + b)[i] != (a + b)[j] {
      assert j >= |a| ==> (a + b)[j] in b;
      assert i < |a| ==> (a + b)[i] in a;
    }
  }

  lemma SeenAreLines(plots: seq<Plot>, chapters: seq<Chapter>, i: nat)
    requires i < |chapters|
    ensures forall l :: l in SeenLines(EventSections(chapters, i, Entries(plots))) ==> l in Lines(plots)
  {
    hide Take, InChapter, Sort, EventSections, Entries, NoRepeats, Lines, LineOf, DistinctIds, Nearby, WithLine;
    var entries := Entries(plots);
    var sections := EventSections(chapters, i, entries);
    EntriesHave(plots);
    ThreeParts(chapters, i, entries);
    SeenHas(sections);
    var picked: seq<Event> :| AllEvents(sections) == WithLines(entries, picked) && forall e :: e in picked ==>
      exists x :: x in entries && x.event == e;
    forall p | p in WithLines(entries, picked) ensures p.0 in Lines(plots) {
      var k :| 0 <= k < |picked| && WithLines(entries, picked)[k] == p;
      assert picked[k] in picked;
      var x :| x in entries && x.event == picked[k];
      LineIsOfPlots(plots, entries, x);
    }
  }

  lemma LineIsOfPlots(plots: seq<Plot>, entries: seq<Entry>, x: Entry)
    requires x in entries && forall e :: e in entries ==> e.event.id.Some? && e.line in Lines(plots)
    ensures WithLine(entries, x.event).0 in Lines(plots)
  {
    hide LineOf, Lines;
    LineOfHas(entries, IdOf(x.event));
  }
}
