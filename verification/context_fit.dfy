/** Fitting what a specialist reads under its own ceiling: focus first, whole rows, then background. */
module ContextFit {
  import opened Prelude
  import opened JsonSize
  import opened Clipping
  import opened BoundedResults

  const FOCUS_KEYS: set<string> := {
    "focusCharacters", "focusPlotLines", "focusEvents", "chapters", "places", "events",
    "charactersInScene", "setting", "priorFindings", "focusNotFound", "storyVoice"}

  const LEAST_BACKGROUND: nat := 128

  predicate InFocus(key: string, characterEditor: bool) {
    key in FOCUS_KEYS || (characterEditor && key == "characters")
  }

  function Selected(fields: seq<Field>, characterEditor: bool, focus: bool): seq<Field> {
    if fields == [] then []
    else if InFocus(fields[0].key, characterEditor) == focus
      then [fields[0]] + Selected(fields[1..], characterEditor, focus)
    else Selected(fields[1..], characterEditor, focus)
  }

  function Without(fields: seq<Field>, key: string): seq<Field> {
    if fields == [] then []
    else if fields[0].key == key then Without(fields[1..], key)
    else [fields[0]] + Without(fields[1..], key)
  }

  /** A built context: a dictionary that has a story, itself a dictionary. */
  predicate IsContext(context: seq<Field>) {
    match Get(context, "story") case Some(Obj(_)) => true case _ => false
  }

  function Story(context: seq<Field>): Json
    requires IsContext(context)
  {
    Get(context, "story").value
  }

  function Title(context: seq<Field>): Json
    requires IsContext(context)
  {
    match Get(Story(context).fields, "title") case Some(t) => t case None => NULL
  }

  function Primary(context: seq<Field>, characterEditor: bool): seq<Field>
    requires IsContext(context)
  {
    var titled := Put(Selected(context, characterEditor, true), "story", Obj([Field("title", Title(context))]));
    Put(titled, "truncated", TRUE)
  }

  function Background(context: seq<Field>, characterEditor: bool): seq<Field>
    requires IsContext(context)
  {
    Put(Without(Selected(context, characterEditor, false), "story"), "storyOverview", Story(context))
  }

  datatype Rejection = FocusTooLarge

  /** The focus as it will be shown: whole if it fits, its prose clipped if not. */
  function ShownFocus(primary: seq<Field>, cap: nat): Result<seq<Field>, Rejection> {
    if Size(Obj(primary)) <= cap then Ok(primary)
    else match Search(Prose(Obj(primary)), cap, 0, cap, None)
      case Some(w) => Ok(ClipProseFields(primary, w))
      case None => Err(FocusTooLarge)
  }

  function WithBackground(shown: seq<Field>, background: seq<Field>, cap: nat): seq<Field>
    requires Size(Obj(shown)) <= cap
  {
    var remaining := cap - Size(Obj(shown));
    if remaining >= LEAST_BACKGROUND then
      var extra := Fit(Obj(background), remaining).0;
      FittedObject(background, remaining);
      Merge(extra.fields, shown)
    else shown
  }

  function FitContext(context: seq<Field>, cap: nat, characterEditor: bool): Result<Json, Rejection>
    requires IsContext(context)
  {
    if Size(Obj(context)) <= cap then Ok(Obj(context))
    else
      var primary := Primary(context, characterEditor);
      match ShownFocus(primary, cap)
      case Err(e) => Err(e)
      case Ok(shown) =>
        ShownFits(primary, cap);
        Ok(Obj(WithBackground(shown, Background(context, characterEditor), cap)))
  }

  /** The fit as the program runs it, with its own loop over widths. */
  method BuildFitting(context: seq<Field>, cap: nat, characterEditor: bool) returns (r: Result<Json, Rejection>)
    requires IsContext(context)
    ensures r == FitContext(context, cap, characterEditor)
  {
    hide Fit, Size, ClipProse, ClipProseFields, Put, Merge, Selected, Without;
    if Size(Obj(context)) <= cap { return Ok(Obj(context)); }
    var primary := Primary(context, characterEditor);
    var background := Background(context, characterEditor);
    ghost var whole := primary;
    if Size(Obj(primary)) > cap {
      var fitted := ShrinkFocus(primary, cap);
      if fitted.None? { return Err(FocusTooLarge); }
      primary := fitted.value;
    }
    ShownFits(whole, cap);
    var remaining := cap - Size(Obj(primary));
    if remaining >= LEAST_BACKGROUND {
      var extra, _ := FitResult(Obj(background), remaining);
      FittedObject(background, remaining);
      primary := Merge(extra.fields, primary);
    }
    return Ok(Obj(primary));
  }

  method ShrinkFocus(primary: seq<Field>, cap: nat) returns (fitted: Option<seq<Field>>)
    ensures match Search(Prose(Obj(primary)), cap, 0, cap, None)
            case Some(w) => fitted == Some(ClipProseFields(primary, w))
            case None => fitted == None
  {
    hide Size, ClipProseFields;
    var lo, hi: int := 0, cap;
    fitted := None;
    ghost var n, width: Option<nat> := Prose(Obj(primary)), None;
    while lo <= hi
      invariant 0 <= lo <= hi + 1 <= cap + 1
      invariant fitted == if width.Some? then Some(ClipProseFields(primary, width.value)) else None
      invariant Search(n, cap, lo, hi, width) == Search(n, cap, 0, cap, None)
      decreases hi - lo + 1
    {
      var mid := (lo + hi) / 2;
      var candidate := ClipProseFields(primary, mid);
      assert n.At(mid) == Obj(candidate);
      if Size(Obj(candidate)) <= cap {
        fitted, lo := Some(candidate), mid + 1;
        width := Some(mid);
      } else {
        hi := mid - 1;
      }
    }
  }

  lemma FittedObject(fields: seq<Field>, cap: nat)
    ensures Fit(Obj(fields), cap).0.Obj?
    ensures cap >= 72 ==> Size(Fit(Obj(fields), cap).0) <= cap
  {
    hide Fit, Size, Barest, Put;
    FitOutcome(Obj(fields), cap);
    FitBoundedIff(Obj(fields), cap);
  }

  lemma ShownFits(primary: seq<Field>, cap: nat)
    ensures match ShownFocus(primary, cap)
            case Ok(shown) => Size(Obj(shown)) <= cap
            case Err(_) => Size(Obj(ClipProseFields(primary, 0))) > cap
  {
    hide Size, ClipProseFields;
    SearchFinds(Prose(Obj(primary)), cap, 0, cap, None, cap);
    match Search(Prose(Obj(primary)), cap, 0, cap, None)
    case Some(w) => assert Prose(Obj(primary)).At(w) == Obj(ClipProseFields(primary, w));
    case None => assert Prose(Obj(primary)).At(0) == Obj(ClipProseFields(primary, 0));
  }

  // ------------------------------------------------------------------
  // The bound
  // ------------------------------------------------------------------

  /** Whatever is built encodes to no more than the ceiling, and a context is rejected only if its
      focus with every clippable string empty is still too large. */
  lemma ContextIsBounded(context: seq<Field>, cap: nat, characterEditor: bool)
    requires IsContext(context)
    ensures match FitContext(context, cap, characterEditor)
            case Ok(r) => Size(r) <= cap
            case Err(_) => Size(Obj(ClipProseFields(Primary(context, characterEditor), 0))) > cap
  {
    hide Size, ClipProseFields, Primary, Background, ShownFocus;
    var primary := Primary(context, characterEditor);
    ShownFits(primary, cap);
    if Size(Obj(context)) > cap && ShownFocus(primary, cap).Ok? {
      var shown := ShownFocus(primary, cap).value;
      BackgroundIsBounded(shown, Background(context, characterEditor), cap);
    }
  }

  lemma BackgroundIsBounded(shown: seq<Field>, background: seq<Field>, cap: nat)
    requires Size(Obj(shown)) <= cap
    ensures Size(Obj(WithBackground(shown, background, cap))) <= cap
  {
    hide Size, Fit, Merge, DistinctKeys, Get;
    var remaining := cap - Size(Obj(shown));
    if remaining >= LEAST_BACKGROUND {
      FittedObject(background, remaining);
      MergeSize(Fit(Obj(background), remaining).0.fields, shown);
    }
  }

  // ------------------------------------------------------------------
  // What survives
  // ------------------------------------------------------------------

  lemma {:induction false} SelectedGet(fields: seq<Field>, characterEditor: bool, focus: bool, k: string)
    ensures Get(Selected(fields, characterEditor, focus), k)
         == if InFocus(k, characterEditor) == focus then Get(fields, k) else None
  {
    if fields != [] {
      SelectedGet(fields[1..], characterEditor, focus, k);
      if InFocus(fields[0].key, characterEditor) == focus {
        assert Selected(fields, characterEditor, focus)[1..] == Selected(fields[1..], characterEditor, focus);
      }
    }
  }

  lemma {:induction false} SelectedDistinct(fields: seq<Field>, characterEditor: bool, focus: bool)
    requires DistinctKeys(fields)
    ensures DistinctKeys(Selected(fields, characterEditor, focus))
  {
    if fields != [] {
      assert DistinctKeys(fields[1..]);
      SelectedDistinct(fields[1..], characterEditor, focus);
      GetAmong(fields[1..], fields[0].key);
      SelectedGet(fields[1..], characterEditor, focus, fields[0].key);
      GetAmong(Selected(fields[1..], characterEditor, focus), fields[0].key);
    }
  }

  lemma {:induction false} PutDistinct(fields: seq<Field>, k: string, v: Json)
    requires DistinctKeys(fields)
    ensures DistinctKeys(Put(fields, k, v))
  {
    if fields != [] && fields[0].key != k {
      assert DistinctKeys(fields[1..]);
      PutDistinct(fields[1..], k, v);
      GetAmong(fields[1..], fields[0].key);
      PutGet(fields[1..], k, v, fields[0].key);
      GetAmong(Put(fields[1..], k, v), fields[0].key);
    }
  }

  lemma PrimaryGet(context: seq<Field>, characterEditor: bool, k: string)
    requires IsContext(context) && InFocus(k, characterEditor)
    ensures Get(Primary(context, characterEditor), k) == Get(context, k)
  {
    hide Put, Get;
    NotFocus(characterEditor);
    var chosen := Selected(context, characterEditor, true);
    var story := Obj([Field("title", Title(context))]);
    PutGet(Put(chosen, "story", story), "truncated", TRUE, k);
    PutGet(chosen, "story", story, k);
    SelectedGet(context, characterEditor, true, k);
  }

  lemma NotFocus(characterEditor: bool)
    ensures !InFocus("story", characterEditor) && !InFocus("truncated", characterEditor)
  {
    forall k | k in FOCUS_KEYS ensures |k| != |"story"| && |k| != |"truncated"| {}
  }

  lemma PrimaryDistinct(context: seq<Field>, characterEditor: bool)
    requires IsContext(context) && DistinctKeys(context)
    ensures DistinctKeys(Primary(context, characterEditor))
  {
    hide Put, Get, DistinctKeys;
    var chosen := Selected(context, characterEditor, true);
    var story := Obj([Field("title", Title(context))]);
    SelectedDistinct(context, characterEditor, true);
    PutDistinct(chosen, "story", story);
    PutDistinct(Put(chosen, "story", story), "truncated", TRUE);
  }

  lemma {:induction false} ClipProseGet(fields: seq<Field>, w: nat, k: string)
    ensures Get(ClipProseFields(fields, w), k)
         == match Get(fields, k) case Some(v) => Some(ClipProse(v, w, k)) case None => None
  {
    if fields != [] {
      ClipProseGet(fields[1..], w, k);
      assert ClipProseFields(fields, w)[1..] == ClipProseFields(fields[1..], w);
    }
  }

  lemma ClipProseDistinct(fields: seq<Field>, w: nat)
    requires DistinctKeys(fields)
    ensures DistinctKeys(ClipProseFields(fields, w))
  {
    var r := ClipProseFields(fields, w);
    forall i, j | 0 <= i < j < |r| ensures r[i].key != r[j].key {
      ClipProseFieldAt(fields, w, i);
      ClipProseFieldAt(fields, w, j);
    }
  }

  /** What is shown of the focus: every key, with its value whole, or clipped only if the whole overflows. */
  lemma ShownGet(primary: seq<Field>, cap: nat, k: string)
    requires DistinctKeys(primary) && ShownFocus(primary, cap).Ok?
    ensures var shown := ShownFocus(primary, cap).value;
            && DistinctKeys(shown)
            && (Size(Obj(primary)) <= cap ==> Get(shown, k) == Get(primary, k))
            && match Get(primary, k)
               case Some(v) => Get(shown, k).Some? && Focused(v, Get(shown, k).value, k)
               case None => Get(shown, k) == None
  {
    hide Size, Get, DistinctKeys, ClipProseFields, Focused, Search;
    var v := Get(primary, k);
    if Size(Obj(primary)) <= cap {
      if v.Some? { FocusedItself(v.value, k); }
    } else {
      var w := Search(Prose(Obj(primary)), cap, 0, cap, None).value;
      ClipProseDistinct(primary, w);
      ClipProseGet(primary, w, k);
      if v.Some? { ClipProseKeepsFocus(v.value, w, k); }
    }
  }

  /** Every focused row is in what is built, with its identifiers and names uncut; and if the focus
      fits by itself, with its prose uncut as well. */
  lemma FocusSurvives(context: seq<Field>, cap: nat, characterEditor: bool, k: string)
    requires IsContext(context) && DistinctKeys(context)
    requires InFocus(k, characterEditor) && Get(context, k).Some?
    requires FitContext(context, cap, characterEditor).Ok?
    ensures var r := FitContext(context, cap, characterEditor).value;
            && r.Obj?
            && Get(r.fields, k).Some?
            && Focused(Get(context, k).value, Get(r.fields, k).value, k)
            && (Size(Obj(Primary(context, characterEditor))) <= cap ==> Get(r.fields, k) == Get(context, k))
  {
    hide Size, Get, DistinctKeys, Focused, Primary, Background, ShownFocus, Fit, Merge;
    FocusedItself(Get(context, k).value, k);
    if Size(Obj(context)) > cap {
      var primary := Primary(context, characterEditor);
      var background := Background(context, characterEditor);
      PrimaryGet(context, characterEditor, k);
      PrimaryDistinct(context, characterEditor);
      ShownFits(primary, cap);
      ShownGet(primary, cap, k);
      var shown := ShownFocus(primary, cap).value;
      var remaining := cap - Size(Obj(shown));
      if remaining >= LEAST_BACKGROUND {
        FittedObject(background, remaining);
        MergeGet(Fit(Obj(background), remaining).0.fields, shown, k);
      }
    }
  }

  /** Background that fits in what the focus leaves, when that is at least 128, is carried whole. */
  lemma BackgroundRidesAlong(context: seq<Field>, cap: nat, characterEditor: bool, k: string)
    requires IsContext(context) && DistinctKeys(context) && Size(Obj(context)) > cap
    requires Get(Background(context, characterEditor), k).Some? && Get(Primary(context, characterEditor), k) == None
    requires Size(Obj(Primary(context, characterEditor))) + LEAST_BACKGROUND <= cap
    requires Size(Obj(Primary(context, characterEditor))) + Size(Obj(Background(context, characterEditor))) <= cap
    ensures var r := FitContext(context, cap, characterEditor);
            r.Ok? && r.value.Obj? && Get(r.value.fields, k) == Get(Background(context, characterEditor), k)
  {
    hide Size, Get, DistinctKeys, Primary, Background, Merge;
    var primary := Primary(context, characterEditor);
    PrimaryDistinct(context, characterEditor);
    MergeGet(Background(context, characterEditor), primary, k);
  }
}
