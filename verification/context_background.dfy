/** What becomes of the background when the focus is fitted first: cut to the room that is left, key by key. */
module ContextBackground {
  import opened Prelude
  import opened JsonSize
  import opened Clipping
  import opened BoundedResults
  import opened ContextFit

  // ------------------------------------------------------------------
  // A fitted dictionary, key by key
  // ------------------------------------------------------------------

  lemma {:induction false} ShortenedGet(a: seq<Field>, b: seq<Field>, k: string)
    requires |a| == |b| && forall i :: 0 <= i < |a| ==> ShortenedField(a[i], b[i])
    ensures Get(a, k).Some? <==> Get(b, k).Some?
    ensures Get(a, k).Some? ==> ShortenedField(Field(k, Get(a, k).value), Field(k, Get(b, k).value))
  {
    hide ShortenedField;
    if a != [] {
      assert ShortenedField(a[0], b[0]);
      SameKey(a[0], b[0]);
      assert forall i :: 0 <= i < |a[1..]| ==> a[1..][i] == a[i + 1] && b[1..][i] == b[i + 1];
      ShortenedGet(a[1..], b[1..], k);
      assert a[0] == Field(a[0].key, a[0].value) && b[0] == Field(b[0].key, b[0].value);
    }
  }

  lemma SameKey(a: Field, b: Field)
    requires ShortenedField(a, b)
    ensures a.key == b.key
  {
  }

  lemma ShortenedFields(fields: seq<Field>, b: Json)
    requires Shortened(Obj(fields), b)
    ensures b.Obj? && |b.fields| == |fields| && forall i :: 0 <= i < |fields| ==> ShortenedField(fields[i], b.fields[i])
  {
  }

  /** Unless even its barest form overflows, a fitted dictionary has every key but the marker, its value
      shortened; and one that fits is whole. */
  lemma FittedGet(fields: seq<Field>, cap: nat, k: string)
    requires k != "truncated" && Get(fields, k).Some?
    requires Size(Obj(fields)) <= cap || Size(Barest(Obj(fields))) <= cap
    ensures var r := Fit(Obj(fields), cap).0;
            && r.Obj? && Get(r.fields, k).Some?
            && (Size(Obj(fields)) <= cap ==> r == Obj(fields))
            && (Size(Obj(fields)) > cap ==>
              ShortenedField(Field(k, Get(fields, k).value), Field(k, Get(r.fields, k).value)))
  {
    hide Fit, Size, Barest, Get, Shortened, ShortenedField;
    FitOutcome(Obj(fields), cap);
    if Size(Obj(fields)) > cap {
      var r := Fit(Obj(fields), cap).0;
      var i: nat, w: nat :| FittedAt(Obj(fields), cap, i, w, r);
      ClipShortens(Obj(fields), w, LADDER[i]);
      var b := Clip(Obj(fields), w, LADDER[i]);
      ShortenedFields(fields, b);
      ShortenedGet(fields, b.fields, k);
      PutGet(b.fields, "truncated", TRUE, k);
    }
  }

  // ------------------------------------------------------------------
  // What is background
  // ------------------------------------------------------------------

  lemma {:induction false} WithoutGet(fields: seq<Field>, key: string, k: string)
    ensures Get(Without(fields, key), k) == if k == key then None else Get(fields, k)
  {
    if fields != [] {
      WithoutGet(fields[1..], key, k);
      if fields[0].key != key { assert Without(fields, key)[1..] == Without(fields[1..], key); }
    }
  }

  /** The story is background under another name; every other key outside the focus keeps its own. */
  lemma BackgroundGet(context: seq<Field>, characterEditor: bool, k: string)
    requires IsContext(context)
    ensures Get(Background(context, characterEditor), k)
         == if k == "storyOverview" then Some(Story(context))
            else if k == "story" || InFocus(k, characterEditor) then None
            else Get(context, k)
  {
    hide Get, Put, Selected, ContextFit.Without;
    var rest := Selected(context, characterEditor, false);
    PutGet(Without(rest, "story"), "storyOverview", Story(context), k);
    WithoutGet(rest, "story", k);
    SelectedGet(context, characterEditor, false, k);
  }

  lemma NotInPrimary(context: seq<Field>, characterEditor: bool, k: string)
    requires IsContext(context) && !InFocus(k, characterEditor) && k != "story" && k != "truncated"
    ensures Get(Primary(context, characterEditor), k) == None
  {
    hide Get, Put, Selected;
    var chosen := Selected(context, characterEditor, true);
    var story := Obj([Field("title", Title(context))]);
    PutGet(Put(chosen, "story", story), "truncated", TRUE, k);
    PutGet(chosen, "story", story, k);
    SelectedGet(context, characterEditor, true, k);
  }

  // ------------------------------------------------------------------
  // What is built
  // ------------------------------------------------------------------

  /** What is left of the ceiling once the focus is shown. */
  function Room(context: seq<Field>, cap: nat, characterEditor: bool): nat
    requires IsContext(context) && ShownFocus(Primary(context, characterEditor), cap).Ok?
  {
    var primary := Primary(context, characterEditor);
    ShownFits(primary, cap);
    cap - Size(Obj(ShownFocus(primary, cap).value))
  }

  /** Beside a focus that leaves less than 128, nothing is shown but the focus. */
  lemma NoRoomNoBackground(context: seq<Field>, cap: nat, characterEditor: bool)
    requires IsContext(context) && Size(Obj(context)) > cap
    requires ShownFocus(Primary(context, characterEditor), cap).Ok?
    requires Room(context, cap, characterEditor) < LEAST_BACKGROUND
    ensures FitContext(context, cap, characterEditor)
        == Ok(Obj(ShownFocus(Primary(context, characterEditor), cap).value))
  {
    hide Size, Primary, Background, ShownFocus, Fit;
  }

  /** Where at least 128 are left, a key outside the focus is shown as the fitted background has it. */
  lemma BuiltGet(context: seq<Field>, cap: nat, characterEditor: bool, k: string)
    requires IsContext(context) && DistinctKeys(context) && Size(Obj(context)) > cap
    requires ShownFocus(Primary(context, characterEditor), cap).Ok?
    requires Room(context, cap, characterEditor) >= LEAST_BACKGROUND
    requires Get(Primary(context, characterEditor), k) == None
    ensures var r := FitContext(context, cap, characterEditor);
            var extra := Fit(Obj(Background(context, characterEditor)), Room(context, cap, characterEditor)).0;
            r.Ok? && r.value.Obj? && extra.Obj? && Get(r.value.fields, k) == Get(extra.fields, k)
  {
    hide Size, Get, DistinctKeys, Primary, Background, ShownFocus, Fit, Merge;
    var primary := Primary(context, characterEditor);
    PrimaryDistinct(context, characterEditor);
    ShownFits(primary, cap);
    ShownGet(primary, cap, k);
    var remaining := Room(context, cap, characterEditor);
    FittedObject(Background(context, characterEditor), remaining);
    MergeGet(Fit(Obj(Background(context, characterEditor)), remaining).0.fields, ShownFocus(primary, cap).value, k);
  }

  /** For every context above the ceiling whose focus leaves at least 128, every key of the background is shown,
      its value shortened, and whole if the background fits; except exactly when even the barest form of the
      background overflows what is left, when no key of it is shown but the fallback's own. */
  lemma BackgroundIsCarried(context: seq<Field>, cap: nat, characterEditor: bool, k: string)
    requires IsContext(context) && DistinctKeys(context) && Size(Obj(context)) > cap
    requires ShownFocus(Primary(context, characterEditor), cap).Ok?
    requires Room(context, cap, characterEditor) >= LEAST_BACKGROUND
    requires Get(Background(context, characterEditor), k).Some? && Get(Primary(context, characterEditor), k) == None
    ensures var r := FitContext(context, cap, characterEditor);
            var background, room := Background(context, characterEditor), Room(context, cap, characterEditor);
            && r.Ok? && r.value.Obj?
            && (Size(Obj(background)) <= room ==> Get(r.value.fields, k) == Get(background, k))
            && (Size(Obj(background)) > room && Size(Barest(Obj(background))) <= room ==>
                  && Get(r.value.fields, k).Some?
                  && ShortenedField(Field(k, Get(background, k).value), Field(k, Get(r.value.fields, k).value)))
            && (Size(Obj(background)) > room && Size(Barest(Obj(background))) > room ==>
                  Get(r.value.fields, k) == Get(FALLBACK.fields, k))
  {
    hide Size, Get, DistinctKeys, Primary, Background, ShownFocus, Fit, Barest, FitContext, ShortenedField, Room,
         FALLBACK;
    var background, room := Background(context, characterEditor), Room(context, cap, characterEditor);
    BuiltGet(context, cap, characterEditor, k);
    MarkerInPrimary(context, characterEditor);
    if Size(Obj(background)) <= room || Size(Barest(Obj(background))) <= room {
      FittedGet(background, room, k);
    } else {
      FitOutcome(Obj(background), room);
    }
  }

  lemma MarkerInPrimary(context: seq<Field>, characterEditor: bool)
    requires IsContext(context)
    ensures Get(Primary(context, characterEditor), "truncated").Some?
  {
    hide Get, Put, Selected;
    var titled := Put(Selected(context, characterEditor, true), "story", Obj([Field("title", Title(context))]));
    PutGet(titled, "truncated", TRUE, "truncated");
  }

  /** Above the ceiling the story itself is shown as its overview, whole or shortened, wherever there is room. */
  lemma OverviewIsCarried(context: seq<Field>, cap: nat, characterEditor: bool)
    requires IsContext(context) && DistinctKeys(context) && Size(Obj(context)) > cap
    requires ShownFocus(Primary(context, characterEditor), cap).Ok?
    requires var room := Room(context, cap, characterEditor);
             room >= LEAST_BACKGROUND && Size(Barest(Obj(Background(context, characterEditor)))) <= room
    ensures var r := FitContext(context, cap, characterEditor);
            && r.Ok? && r.value.Obj? && Get(r.value.fields, "storyOverview").Some?
            && var shown := Get(r.value.fields, "storyOverview").value;
               shown == Story(context) || Shortened(Story(context), shown)
  {
    hide Size, Get, DistinctKeys, Primary, Background, ShownFocus, Fit, Barest, FitContext, Room, Shortened;
    OverviewIsNotFocus(characterEditor);
    BackgroundGet(context, characterEditor, "storyOverview");
    NotInPrimary(context, characterEditor, "storyOverview");
    BackgroundIsCarried(context, cap, characterEditor, "storyOverview");
    OverviewIsItself();
  }

  lemma OverviewIsNotFocus(characterEditor: bool)
    ensures !InFocus("storyOverview", characterEditor)
  {
    forall k | k in FOCUS_KEYS ensures k != "storyOverview" { assert |"storyOverview"| == 13; }
  }

  lemma OverviewIsItself()
    ensures "storyOverview" != "story" && "storyOverview" != "truncated" && "storyOverview" != "chapter_id"
  {
    assert |"storyOverview"| == 13 && |"story"| == 5 && |"truncated"| == 9 && |"chapter_id"| == 10;
  }
}
