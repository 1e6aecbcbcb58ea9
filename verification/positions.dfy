/**
 Choosing a new chapter's position from a list that may be stale.  The machine has any
 number of concurrent appends to one story; positions are unique in the store.
 */
module Positions {
  import opened Prelude

  type Pid = nat

  const MAX_CLAIM_ATTEMPTS: nat := 3

  function Max(a: real, b: real): real { if a >= b then a else b }

  function Highest(positions: seq<real>): real {
    if positions == [] then 0.0 else Max(Highest(positions[..|positions| - 1]), positions[|positions| - 1])
  }

  function NextPosition(positions: seq<real>): real { Highest(positions) + 1.0 }

  method ComputeNextPosition(chapters: seq<real>) returns (next: real)
    ensures next == NextPosition(chapters)
    ensures forall i :: 0 <= i < |chapters| ==> chapters[i] < next
  {
    var highest := 0.0;
    for i := 0 to |chapters|
      invariant highest == Highest(chapters[..i])
    {
      assert chapters[..i + 1][..i] == chapters[..i];
      highest := Max(highest, chapters[i]);
    }
    assert chapters[..|chapters|] == chapters;
    HighestBounds(chapters);
    return highest + 1.0;
  }

  lemma {:induction false} HighestBounds(positions: seq<real>)
    ensures forall i :: 0 <= i < |positions| ==> positions[i] <= Highest(positions)
  {
    if positions != [] { HighestBounds(positions[..|positions| - 1]); }
  }

  /** Where an append stands.  attempts counts those begun; start is how many chapters there were at first. */
  datatype Phase = Listing(attempts: nat, start: nat) | Creating(attempts: nat, start: nat, seen: seq<real>)

  /** Positions of the chapters, the appended ones after the initial ones and in the order they committed. */
  datatype Sys = Sys(chapters: seq<real>, initial: nat, calls: map<Pid, Phase>)

  datatype Act = Begin(pid: Pid) | List(pid: Pid) | Create(pid: Pid) | Conflict(pid: Pid) | GiveUp(pid: Pid)

  predicate Enabled(s: Sys, a: Act) {
    match a
    case Begin(pid) => pid !in s.calls
    case List(pid) => pid in s.calls && s.calls[pid].Listing? && s.calls[pid].attempts < MAX_CLAIM_ATTEMPTS
    case Create(pid) => pid in s.calls && s.calls[pid].Creating? && NextPosition(s.calls[pid].seen) !in s.chapters
    case Conflict(pid) => pid in s.calls && s.calls[pid].Creating? && NextPosition(s.calls[pid].seen) in s.chapters
    case GiveUp(pid) => pid in s.calls
  }

  function Effect(s: Sys, a: Act): Sys
    requires Enabled(s, a)
  {
    match a
    case Begin(pid) => s.(calls := s.calls[pid := Listing(0, |s.chapters|)])
    case List(pid) =>
      s.(calls := s.calls[pid := Creating(s.calls[pid].attempts + 1, s.calls[pid].start, s.chapters)])
    case Create(pid) =>
      s.(chapters := s.chapters + [NextPosition(s.calls[pid].seen)], calls := s.calls - {pid})
    case Conflict(pid) => s.(calls := s.calls[pid := Listing(s.calls[pid].attempts, s.calls[pid].start)])
    case GiveUp(pid) => s.(calls := s.calls - {pid})
  }

  predicate Step(s: Sys, a: Act, s': Sys) { Enabled(s, a) && s' == Effect(s, a) }

  ghost predicate Distinct(positions: seq<real>) {
    forall i, j :: 0 <= i < j < |positions| ==> positions[i] != positions[j]
  }

  ghost predicate Init(s: Sys) { s.initial == |s.chapters| && Distinct(s.chapters) && s.calls == map[] }

  // ------------------------------------------------------------------
  // The invariant
  // ------------------------------------------------------------------

  /** Every appended chapter took exactly the position that followed the chapters then there. */
  ghost predicate AppendedNext(chapters: seq<real>, initial: nat) {
    && initial <= |chapters|
    && forall k :: initial <= k < |chapters| ==> chapters[k] == NextPosition(chapters[..k])
  }

  /** What a call saw is what the list began with then; each of its lost attempts, and the one now running
      if the list has grown since, is another chapter. */
  ghost predicate CallHolds(chapters: seq<real>, initial: nat, c: Phase) {
    && (c.Listing? ==> c.start + c.attempts <= |chapters|)
    && (c.Creating? ==>
        c.seen <= chapters && initial <= |c.seen| && 1 <= c.attempts && c.start + c.attempts - 1 <= |c.seen|)
    && c.attempts <= MAX_CLAIM_ATTEMPTS
  }

  ghost predicate Inv(s: Sys) {
    && AppendedNext(s.chapters, s.initial) && Distinct(s.chapters[..s.initial])
    && forall p :: p in s.calls ==> CallHolds(s.chapters, s.initial, s.calls[p])
  }

  /** A create succeeds exactly when no chapter was added since the list was read. */
  lemma CreateIff(chapters: seq<real>, initial: nat, seen: seq<real>)
    requires AppendedNext(chapters, initial) && seen <= chapters && initial <= |seen|
    ensures NextPosition(seen) !in chapters <==> seen == chapters
  {
    if seen == chapters {
      HighestBounds(chapters);
    } else {
      assert chapters[..|seen|] == seen;
      assert chapters[|seen|] == NextPosition(seen);
    }
  }

  lemma AppendKeeps(s: Sys, pid: Pid, s': Sys)
    requires Inv(s) && Step(s, Create(pid), s')
    ensures Inv(s')
  {
    hide NextPosition;
    var seen := s.calls[pid].seen;
    assert CallHolds(s.chapters, s.initial, s.calls[pid]);
    CreateIff(s.chapters, s.initial, seen);
    forall k | s.initial <= k < |s'.chapters| ensures s'.chapters[k] == NextPosition(s'.chapters[..k]) {
      assert s'.chapters[..k] == s.chapters[..k];
      assert s.chapters[..|s.chapters|] == s.chapters;
    }
    assert s'.chapters[..s.initial] == s.chapters[..s.initial];
    forall p | p in s'.calls ensures CallHolds(s'.chapters, s'.initial, s'.calls[p]) {
      assert CallHolds(s.chapters, s.initial, s.calls[p]);
    }
  }

  lemma ConflictKeeps(s: Sys, pid: Pid, s': Sys)
    requires Inv(s) && Step(s, Conflict(pid), s')
    ensures Inv(s')
  {
    hide NextPosition;
    assert CallHolds(s.chapters, s.initial, s.calls[pid]);
    CreateIff(s.chapters, s.initial, s.calls[pid].seen);
    assert |s.calls[pid].seen| < |s.chapters|;
  }

  lemma StepInv(s: Sys, a: Act, s': Sys)
    requires Inv(s) && Step(s, a, s')
    ensures Inv(s') && s.chapters <= s'.chapters && s'.initial == s.initial
  {
    hide NextPosition;
    match a
    case Create(pid) => AppendKeeps(s, pid, s');
    case Conflict(pid) => ConflictKeeps(s, pid, s');
    case List(pid) => assert CallHolds(s.chapters, s.initial, s.calls[pid]);
    case _ =>
  }

  // ------------------------------------------------------------------
  // Over whole runs
  // ------------------------------------------------------------------

  ghost predicate Run(tr: seq<Sys>, acts: seq<Act>) {
    |tr| == |acts| + 1 && Init(tr[0]) && forall i {:trigger acts[i]} :: 0 <= i < |acts| ==>
      Step(tr[i], acts[i], tr[i + 1])
  }

  lemma {:induction false} RunInv(tr: seq<Sys>, acts: seq<Act>, n: nat)
    requires Run(tr, acts) && n < |tr|
    ensures Inv(tr[n]) && tr[0].chapters <= tr[n].chapters && tr[n].initial == |tr[0].chapters|
  {
    hide Inv, Step;
    if n == 0 {
      InitInv(tr[0]);
    } else {
      RunInv(tr, acts, n - 1);
      StepInv(tr[n - 1], acts[n - 1], tr[n]);
    }
  }

  lemma InitInv(s: Sys)
    requires Init(s)
    ensures Inv(s)
  {
    assert s.chapters[..s.initial] == s.chapters;
  }

  /** Reading order is commit order: each appended chapter sorts after every chapter there before it. */
  lemma AppendsSortLast(tr: seq<Sys>, acts: seq<Act>, n: nat, i: nat, j: nat)
    requires Run(tr, acts) && n < |tr| && |tr[0].chapters| <= j < |tr[n].chapters| && i < j
    ensures tr[n].chapters[i] < tr[n].chapters[j]
  {
    RunInv(tr, acts, n);
    var chapters := tr[n].chapters;
    HighestBounds(chapters[..j]);
    assert chapters[..j][i] == chapters[i];
  }

  /** Positions stay distinct. */
  lemma PositionsStayDistinct(tr: seq<Sys>, acts: seq<Act>, n: nat)
    requires Run(tr, acts) && n < |tr|
    ensures Distinct(tr[n].chapters)
  {
    RunInv(tr, acts, n);
    var chapters := tr[n].chapters;
    forall i, j | 0 <= i < j < |chapters| ensures chapters[i] != chapters[j] {
      if j < tr[n].initial {
        assert chapters[..tr[n].initial][i] == chapters[i] && chapters[..tr[n].initial][j] == chapters[j];
      } else {
        AppendsSortLast(tr, acts, n, i, j);
      }
    }
  }

  /** A call out of attempts has seen at least three other chapters committed since it began. */
  lemma ConflictNeedsThreeOthers(tr: seq<Sys>, acts: seq<Act>, n: nat, pid: Pid)
    requires Run(tr, acts) && n < |tr|
    requires pid in tr[n].calls && tr[n].calls[pid].Listing? && tr[n].calls[pid].attempts == MAX_CLAIM_ATTEMPTS
    ensures tr[n].calls[pid].start + 3 <= |tr[n].chapters|
  {
    RunInv(tr, acts, n);
  }

  // ------------------------------------------------------------------
  // The operation
  // ------------------------------------------------------------------

  ghost predicate SameCall(s: Sys, s': Sys, pid: Pid) {
    (pid in s.calls <==> pid in s'.calls) && (pid in s.calls ==> s'.calls[pid] == s.calls[pid])
  }

  ghost predicate Rely(s: Sys, s': Sys, pid: Pid) {
    Inv(s') && SameCall(s, s', pid) && s.chapters <= s'.chapters && s'.initial == s.initial
  }

  /** Interfere's contract covers every sequence of other appends' steps. */
  lemma {:induction false} OthersRely(tr: seq<Sys>, acts: seq<Act>, pid: Pid)
    requires |tr| == |acts| + 1 && Inv(tr[0])
    requires forall i {:trigger acts[i]} :: 0 <= i < |acts| ==> Step(tr[i], acts[i], tr[i + 1]) && acts[i].pid != pid
    ensures Rely(tr[0], tr[|acts|], pid)
  {
    hide Inv, Step;
    if acts != [] {
      var n := |acts| - 1;
      OthersRely(tr[..n + 1], acts[..n], pid);
      StepInv(tr[n], acts[n], tr[n + 1]);
      OthersKeepCall(tr[n], acts[n], tr[n + 1], pid);
    }
  }

  lemma OthersKeepCall(s: Sys, a: Act, s': Sys, pid: Pid)
    requires Step(s, a, s') && a.pid != pid
    ensures SameCall(s, s', pid)
  {
  }

  class Story {
    var chapters: seq<real>
    ghost var w: Sys        // the appends and the initial count; its chapters are not used

    ghost function S(): Sys reads this { w.(chapters := chapters) }

    method Interfere(ghost pid: Pid)
      requires Inv(S())
      modifies this
      ensures Rely(old(S()), S(), pid)
    {
    }

    ghost method Advance(before: Sys, a: Act)
      requires Inv(before) && Enabled(before, a) && Effect(before, a).chapters == chapters
      modifies this`w
      ensures S() == Effect(before, a) && Inv(S())
    {
      hide Inv, Enabled, Effect;
      StepInv(before, a, Effect(before, a));
      w := Effect(before, a);
    }

    /** The chapter's position, after every position there was; or a conflict, which three others caused. */
    method AppendChapter(ghost pid: Pid) returns (r: Option<real>)
      requires Inv(S()) && pid !in S().calls
      modifies this
      ensures Inv(S()) && pid !in S().calls && old(chapters) <= chapters
      ensures r.Some? ==>
                && |chapters| > |old(chapters)| && chapters[|chapters| - 1] == r.value
                && forall i :: 0 <= i < |chapters| - 1 ==> chapters[i] < r.value
      ensures r.None? ==> |chapters| >= |old(chapters)| + 3
    {
      hide Inv, NextPosition;
      Advance(S(), Begin(pid));
      ghost var start := |chapters|;
      var attempts := 0;
      while attempts < MAX_CLAIM_ATTEMPTS
        invariant attempts <= MAX_CLAIM_ATTEMPTS && Inv(S()) && old(chapters) <= chapters
        invariant pid in S().calls && S().calls[pid] == Listing(attempts, start)
      {
        attempts := attempts + 1;
        Interfere(pid);
        Advance(S(), List(pid));
        var position := ComputeNextPosition(chapters);
        ghost var seen := chapters;
        Interfere(pid);
        ghost var s := S();
        if position !in chapters {
          SucceedsAlone(s, pid);
          chapters := chapters + [position];
          Advance(s, Create(pid));
          return Some(position);
        }
        Advance(s, Conflict(pid));
      }
      ThreeOthers(S(), pid);
      Advance(S(), GiveUp(pid));
      return None;
    }
  }

  lemma SucceedsAlone(s: Sys, pid: Pid)
    requires Inv(s) && pid in s.calls && s.calls[pid].Creating? && NextPosition(s.calls[pid].seen) !in s.chapters
    ensures s.calls[pid].seen == s.chapters
  {
    CreateIff(s.chapters, s.initial, s.calls[pid].seen);
  }

  lemma ThreeOthers(s: Sys, pid: Pid)
    requires Inv(s) && pid in s.calls && s.calls[pid].Listing?
    ensures s.calls[pid].start + s.calls[pid].attempts <= |s.chapters|
  {
  }
}
