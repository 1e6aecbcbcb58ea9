/**
 Write reservations: one stored document a logical call, claimed before the work and
 holding its result after.  The machine is one key, with any number of identical calls.
 */
module Reservations {
  import opened Prelude

  type Pid = nat
  type Outcome = nat      // stands for a recorded result

  const TTL := 120

  /** owner is which call wrote the round; the program does not store it. */
  datatype Rec = Rec(owner: Pid, expires: Option<int>, result: Option<Outcome>)
  datatype Doc = Doc(version: nat, data: Rec)

  /** Where a call stands.  Each carries the expiry it fixed when it began. */
  datatype Phase =
    | Calling(expires: int)
    | Collided(expires: int)
    | Looking(expires: int, snap: Doc)
    | TakingOver(expires: int, snap: Doc)
    | Vacant(expires: int)
    | InFlight(expires: int)

  datatype Sys = Sys(
    now: int, doc: Option<Doc>, next: nat, calls: map<Pid, Phase>, begun: set<Pid>, recorded: map<Pid, Outcome>)

  predicate Expired(r: Rec, now: int) { r.expires.Some? && r.expires.value <= now }

  datatype Act =
    | Tick(to: int)
    | Collect
    | Begin(pid: Pid)
    | Create(pid: Pid)
    | Collide(pid: Pid)
    | Look(pid: Pid)
    | LookVacant(pid: Pid)
    | JudgeExpired(pid: Pid)
    | Replay(pid: Pid)
    | Duplicate(pid: Pid)
    | TakeOver(pid: Pid)
    | TakeOverVacant(pid: Pid)
    | TakeOverLost(pid: Pid)
    | CreateVacant(pid: Pid)
    | CreateVacantLost(pid: Pid)
    | Record(pid: Pid, result: Outcome)
    | Release(pid: Pid)
    | Die(pid: Pid)

  function Claimed(s: Sys, pid: Pid): Sys
    requires pid in s.calls
  {
    var e := s.calls[pid].expires;
    s.(doc := Some(Doc(s.next, Rec(pid, Some(e), None))), next := s.next + 1, calls := s.calls[pid := InFlight(e)])
  }

  function Recorded(s: Sys, pid: Pid, r: Outcome): Sys {
    var data := if s.doc.Some? then s.doc.value.data.(result := Some(r)) else Rec(pid, None, Some(r));
    s.(doc := Some(Doc(s.next, data)), next := s.next + 1, calls := s.calls - {pid}, recorded := s.recorded[pid := r])
  }

  /** What the environment may do, and what one store operation or decision of a call waits for. */
  predicate Enabled(s: Sys, a: Act) {
    match a
    case Tick(to) => s.now <= to
    case Collect => s.doc.Some? && Expired(s.doc.value.data, s.now)
    case Begin(pid) => pid !in s.begun
    case _ =>
      && a.pid in s.calls
      && var c := s.calls[a.pid];
         match a
         case Create(_) => c.Calling? && s.doc.None?
         case Collide(_) => c.Calling? && s.doc.Some?
         case Look(_) => c.Collided? && s.doc.Some?
         case LookVacant(_) => c.Collided? && s.doc.None?
         case JudgeExpired(_) => c.Looking? && Expired(c.snap.data, s.now)
         case Replay(_) => c.Looking? && !Expired(c.snap.data, s.now) && c.snap.data.result.Some?
         case Duplicate(_) => c.Looking? && !Expired(c.snap.data, s.now) && c.snap.data.result.None?
         case TakeOver(_) => c.TakingOver? && s.doc.Some? && s.doc.value.version == c.snap.version
         case TakeOverVacant(_) => c.TakingOver? && s.doc.None?
         case TakeOverLost(_) => c.TakingOver? && s.doc.Some? && s.doc.value.version != c.snap.version
         case CreateVacant(_) => c.Vacant? && s.doc.None?
         case CreateVacantLost(_) => c.Vacant? && s.doc.Some?
         case Record(_, _) => c.InFlight?
         case Release(_) => c.InFlight?
         case _ => true
  }

  function Moved(s: Sys, pid: Pid, c: Phase): Sys { s.(calls := s.calls[pid := c]) }
  function Ended(s: Sys, pid: Pid): Sys { s.(calls := s.calls - {pid}) }

  function Effect(s: Sys, a: Act): Sys
    requires Enabled(s, a)
  {
    match a
    case Tick(to) => s.(now := to)
    case Collect => s.(doc := None)
    case Begin(pid) => Moved(s, pid, Calling(s.now + TTL)).(begun := s.begun + {pid})
    case Create(pid) => Claimed(s, pid)
    case TakeOver(pid) => Claimed(s, pid)
    case CreateVacant(pid) => Claimed(s, pid)
    case Collide(pid) => Moved(s, pid, Collided(s.calls[pid].expires))
    case Look(pid) => Moved(s, pid, Looking(s.calls[pid].expires, s.doc.value))
    case LookVacant(pid) => Moved(s, pid, Vacant(s.calls[pid].expires))
    case TakeOverVacant(pid) => Moved(s, pid, Vacant(s.calls[pid].expires))
    case JudgeExpired(pid) => Moved(s, pid, TakingOver(s.calls[pid].expires, s.calls[pid].snap))
    case Record(pid, r) => Recorded(s, pid, r)
    case Release(pid) => Ended(s, pid).(doc := None)
    case _ => Ended(s, a.pid)
  }

  predicate Step(s: Sys, a: Act, s': Sys) { Enabled(s, a) && s' == Effect(s, a) }

  ghost predicate Init(s: Sys) { s.doc == None && s.calls == map[] && s.begun == {} && s.recorded == map[] }

  /** The premise: no owner is still at work when its reservation runs out. */
  ghost predicate Timely(s: Sys) { forall p :: p in s.calls && s.calls[p].InFlight? ==> s.now < s.calls[p].expires }

  // ------------------------------------------------------------------
  // The invariant
  // ------------------------------------------------------------------

  /** Whoever is in flight owns the document, which has no result yet. */
  ghost predicate OwnersHold(s: Sys) {
    forall p :: p in s.calls && s.calls[p].InFlight? ==>
      s.doc.Some? && s.doc.value.data == Rec(p, Some(s.calls[p].expires), None)
  }

  /** A stored result is the one its round's owner recorded, and that owner is done. */
  ghost predicate ResultsRecorded(s: Sys) {
    s.doc.Some? ==>
      && s.doc.value.version < s.next
      && s.doc.value.data.owner in s.begun
      && s.doc.value.data.expires.Some?
      && (s.doc.value.data.result.Some? ==>
            && s.doc.value.data.owner in s.recorded
            && s.recorded[s.doc.value.data.owner] == s.doc.value.data.result.value
            && s.doc.value.data.owner !in s.calls)
  }

  /** A call that read the document has it still, or it was rewritten under a later version, or is gone;
      and one that read a result has it still unless it expired. */
  ghost predicate SnapHolds(doc: Option<Doc>, next: nat, now: int, snap: Doc) {
    && snap.version < next
    && (doc.Some? && doc.value.version == snap.version ==> doc.value == snap)
    && (snap.data.result.Some? && !Expired(snap.data, now) ==> doc == Some(snap))
  }

  ghost predicate SnapsHold(s: Sys) {
    && (forall p :: p in s.calls && s.calls[p].Looking? ==> SnapHolds(s.doc, s.next, s.now, s.calls[p].snap))
    && (forall p :: p in s.calls && s.calls[p].TakingOver? ==>
          SnapHolds(s.doc, s.next, s.now, s.calls[p].snap) && Expired(s.calls[p].snap.data, s.now))
  }

  ghost predicate Inv(s: Sys) {
    s.calls.Keys <= s.begun && s.recorded.Keys <= s.begun && OwnersHold(s) && ResultsRecorded(s) && SnapsHold(s)
    && forall p :: p in s.recorded ==> p !in s.calls
  }

  lemma InitInv(s: Sys)
    requires Init(s)
    ensures Inv(s) && Timely(s)
  {
  }

  /** A claim happens only while nobody is in flight. */
  lemma ClaimKeepsInv(s: Sys, pid: Pid, s': Sys)
    requires Inv(s) && Timely(s) && pid in s.calls && !s.calls[pid].InFlight? && s' == Claimed(s, pid)
    requires s.doc.None? || Expired(s.doc.value.data, s.now)
    ensures Inv(s')
  {
    assert forall p :: p in s.calls ==> !s.calls[p].InFlight?;
  }

  /** A call moves on, or ends, and writes nothing. */
  lemma MoveKeepsInv(s: Sys, s': Sys, pid: Pid)
    requires Inv(s) && pid in s.calls
    requires s' == s.(calls := s'.calls) && s'.calls.Keys <= s.calls.Keys
    requires forall p :: p in s.calls && p != pid ==> p in s'.calls && s'.calls[p] == s.calls[p]
    requires pid in s'.calls ==>
               && !s'.calls[pid].InFlight?
               && (s'.calls[pid].Looking? ==> s.doc == Some(s'.calls[pid].snap))
               && (s'.calls[pid].TakingOver? ==>
                     SnapHolds(s.doc, s.next, s.now, s'.calls[pid].snap) && Expired(s'.calls[pid].snap.data, s.now))
    ensures Inv(s')
  {
  }

  lemma RecordKeepsInv(s: Sys, pid: Pid, r: Outcome, s': Sys)
    requires Inv(s) && pid in s.calls && s.calls[pid].InFlight? && s' == Recorded(s, pid, r)
    ensures Inv(s')
  {
    assert s.doc.value.data.owner == pid;
    assert forall p :: p in s'.calls ==> !s.calls[p].InFlight? && s'.calls[p] == s.calls[p];
  }

  lemma DropKeepsInv(s: Sys, s': Sys)
    requires Inv(s) && s' == s.(doc := None, calls := s'.calls) && s'.calls.Keys <= s.calls.Keys
    requires forall p :: p in s'.calls ==> s'.calls[p] == s.calls[p] && !s.calls[p].InFlight?
    requires s.doc.Some? && (s.doc.value.data.result.None? || Expired(s.doc.value.data, s.now))
    ensures Inv(s')
  {
  }

  lemma TickKeepsInv(s: Sys, s': Sys)
    requires Inv(s) && s.now <= s'.now && s' == s.(now := s'.now)
    ensures Inv(s')
  {
  }

  lemma BeginKeepsInv(s: Sys, pid: Pid, s': Sys)
    requires Inv(s) && Step(s, Begin(pid), s')
    ensures Inv(s')
  {
  }

  predicate Writes(a: Act) {
    a.Tick? || a.Collect? || a.Begin? || a.Create? || a.TakeOver? || a.CreateVacant? || a.Record? || a.Release?
  }

  lemma WriteInv(s: Sys, a: Act, s': Sys)
    requires Inv(s) && Timely(s) && Step(s, a, s') && Writes(a)
    ensures Inv(s')
  {
    match a
    case Tick(_) => TickKeepsInv(s, s');
    case Collect => DropKeepsInv(s, s');
    case Begin(pid) => BeginKeepsInv(s, pid, s');
    case Create(pid) => ClaimKeepsInv(s, pid, s');
    case TakeOver(pid) => ClaimKeepsInv(s, pid, s');
    case CreateVacant(pid) => ClaimKeepsInv(s, pid, s');
    case Record(pid, r) => RecordKeepsInv(s, pid, r, s');
    case Release(pid) => DropKeepsInv(s, s');
    case _ =>
  }

  lemma DecideInv(s: Sys, a: Act, s': Sys)
    requires Inv(s) && Step(s, a, s') && !Writes(a)
    ensures Inv(s')
  {
    MoveKeepsInv(s, s', a.pid);
  }

  lemma StepInv(s: Sys, a: Act, s': Sys)
    requires Inv(s) && Timely(s) && Step(s, a, s')
    ensures Inv(s')
  {
    hide Inv, Timely, Step;
    if Writes(a) { WriteInv(s, a, s'); } else { DecideInv(s, a, s'); }
  }

  // ------------------------------------------------------------------
  // Over whole runs
  // ------------------------------------------------------------------

  ghost predicate Run(tr: seq<Sys>, acts: seq<Act>) {
    && |tr| == |acts| + 1 && Init(tr[0])
    && forall i {:trigger acts[i]} :: 0 <= i < |acts| ==> Step(tr[i], acts[i], tr[i + 1])
  }

  ghost predicate TimelyRun(tr: seq<Sys>) { forall i :: 0 <= i < |tr| ==> Timely(tr[i]) }

  lemma {:induction false} RunInv(tr: seq<Sys>, acts: seq<Act>, n: nat)
    requires Run(tr, acts) && TimelyRun(tr) && n < |tr|
    ensures Inv(tr[n])
  {
    hide Inv, Step, Timely;
    if n == 0 {
      InitInv(tr[0]);
    } else {
      RunInv(tr, acts, n - 1);
      StepInv(tr[n - 1], acts[n - 1], tr[n]);
    }
  }

  /** At most one call is ever at work on one key. */
  lemma AtMostOneInFlight(tr: seq<Sys>, acts: seq<Act>, n: nat, p: Pid, q: Pid)
    requires Run(tr, acts) && TimelyRun(tr) && n < |tr|
    requires Working(tr[n], p) && Working(tr[n], q)
    ensures p == q
  {
    hide Step, Timely;
    RunInv(tr, acts, n);
  }

  /** What a replay returns is the result in the document at that moment, and the one that the owner
      of the round it stands for recorded. */
  lemma ReplayIsTheRoundsResult(tr: seq<Sys>, acts: seq<Act>, n: nat)
    requires Run(tr, acts) && TimelyRun(tr) && n < |acts| && acts[n].Replay?
    ensures var s := tr[n];
            && acts[n].pid in s.calls && s.calls[acts[n].pid].Looking?
            && var replayed := s.calls[acts[n].pid].snap.data.result;
               && replayed.Some?
               && s.doc.Some? && s.doc.value.data.result == replayed
               && s.doc.value.data.owner in s.recorded && s.recorded[s.doc.value.data.owner] == replayed.value
  {
    RunInv(tr, acts, n);
    assert Step(tr[n], acts[n], tr[n + 1]);
  }

  predicate Working(s: Sys, p: Pid) { p in s.calls && s.calls[p].InFlight? }

  ghost predicate Reachable(s: Sys) { exists tr, acts :: Run(tr, acts) && tr[|acts|] == s }

  lemma Starts(s: Sys)
    requires Init(s)
    ensures Reachable(s)
  {
    var tr, acts: seq<Act> := [s], [];
    assert Run(tr, acts);
  }

  lemma Reaches(s: Sys, a: Act, s': Sys)
    requires Reachable(s) && Step(s, a, s')
    ensures Reachable(s')
  {
    hide Step;
    var tr, acts :| Run(tr, acts) && tr[|acts|] == s;
    assert Run(tr + [s'], acts + [a]);
  }

  /** Call 0 claimed at time 0 and is still at work when its reservation runs out. */
  const STALLED := Sys(
    TTL, Some(Doc(0, Rec(0, Some(TTL), None))), 1, map[0 := InFlight(TTL)], {0}, map[])

  lemma OwnerCanStall()
    ensures Reachable(STALLED)
  {
    hide Reachable;
    var s0 := Sys(0, None, 0, map[], {}, map[]);
    var s1 := s0.(begun := {0}, calls := map[0 := Calling(TTL)]);
    Starts(s0);
    Reaches(s0, Begin(0), s1);
    assert map[0 := Calling(TTL)][0 := InFlight(TTL)] == map[0 := InFlight(TTL)];
    Reaches(s1, Create(0), STALLED.(now := 0));
    Reaches(STALLED.(now := 0), Tick(TTL), STALLED);
  }

  /** Without the premise two calls can be at work at once: the first is slow, the second takes over. */
  lemma SlowOwnerIsOverlapped()
    ensures exists s :: Reachable(s) && Working(s, 0) && Working(s, 1)
  {
    hide Reachable;
    OwnerCanStall();
    var snap := STALLED.doc.value;
    var s0 := Moved(STALLED, 1, Calling(TTL + TTL)).(begun := {0, 1});
    var s1 := Moved(s0, 1, Collided(TTL + TTL));
    var s2 := Moved(s1, 1, Looking(TTL + TTL, snap));
    var s3 := Moved(s2, 1, TakingOver(TTL + TTL, snap));
    assert STALLED.begun + {1} == {0, 1};
    Reaches(STALLED, Begin(1), s0);
    Reaches(s0, Collide(1), s1);
    Reaches(s1, Look(1), s2);
    Reaches(s2, JudgeExpired(1), s3);
    Reaches(s3, TakeOver(1), Claimed(s3, 1));
    assert Working(Claimed(s3, 1), 0) && Working(Claimed(s3, 1), 1);
  }

  // ------------------------------------------------------------------
  // Exactly when a second call can come to work
  // ------------------------------------------------------------------

  predicate By(a: Act, q: Pid) { !a.Tick? && !a.Collect? && a.pid == q }

  /** q alone takes steps, from s on: nobody else moves, no time passes and nothing is collected. */
  ghost predicate Solo(tr: seq<Sys>, acts: seq<Act>, s: Sys, q: Pid) {
    && |tr| == |acts| + 1 && tr[0] == s
    && forall i {:trigger acts[i]} :: 0 <= i < |acts| ==> By(acts[i], q) && Step(tr[i], acts[i], tr[i + 1])
  }

  /** q, starting now and alone, can come to work while p is at work. */
  ghost predicate CanJoin(s: Sys, p: Pid, q: Pid) {
    exists tr, acts :: Solo(tr, acts, s, q) && Working(tr[|acts|], p) && Working(tr[|acts|], q)
  }

  /** The reservation no longer protects its owner: its document has expired or was collected. */
  predicate Lapsed(s: Sys) { s.doc.None? || Expired(s.doc.value.data, s.now) }

  lemma SoloGoesOn(tr: seq<Sys>, acts: seq<Act>, s: Sys, q: Pid, a: Act) returns (tr': seq<Sys>, acts': seq<Act>)
    requires Solo(tr, acts, s, q) && By(a, q) && Enabled(tr[|acts|], a)
    ensures Solo(tr', acts', s, q) && |acts'| == |acts| + 1 && tr'[|acts'|] == Effect(tr[|acts|], a)
  {
    hide Enabled, Effect;
    tr', acts' := tr + [Effect(tr[|acts|], a)], acts + [a];
    forall i | 0 <= i < |acts'| ensures By(acts'[i], q) && Step(tr'[i], acts'[i], tr'[i + 1]) {
      if i < |acts| { assert acts'[i] == acts[i]; }
    }
  }

  lemma LapsedLetsIn(s: Sys, p: Pid, q: Pid)
    requires Working(s, p) && q !in s.begun && p != q && Lapsed(s)
    ensures CanJoin(s, p, q)
  {
    hide Solo;
    var tr, acts := SoloGoesOn([s], [], s, q, Begin(q)) by { assert Solo([s], [], s, q) by { SoloStarts(s, q); } }
    if s.doc.None? {
      tr, acts := SoloGoesOn(tr, acts, s, q, Create(q));
    } else {
      tr, acts := SoloGoesOn(tr, acts, s, q, Collide(q));
      tr, acts := SoloGoesOn(tr, acts, s, q, Look(q));
      tr, acts := SoloGoesOn(tr, acts, s, q, JudgeExpired(q));
      tr, acts := SoloGoesOn(tr, acts, s, q, TakeOver(q));
    }
  }

  lemma SoloStarts(s: Sys, q: Pid)
    ensures Solo([s], [], s, q)
  {
  }

  /** While the document stands, a newcomer gets no further than reading it. */
  lemma {:induction false} StandingKeepsOut(tr: seq<Sys>, acts: seq<Act>, s: Sys, q: Pid, n: nat)
    requires Solo(tr, acts, s, q) && n <= |acts| && !Lapsed(s) && q !in s.calls
    ensures tr[n].doc == s.doc && tr[n].now == s.now
    ensures q in tr[n].calls ==>
              var c := tr[n].calls[q];
              c.Calling? || c.Collided? || (c.Looking? && s.doc == Some(c.snap))
  {
    if n > 0 {
      StandingKeepsOut(tr, acts, s, q, n - 1);
      assert By(acts[n - 1], q) && Step(tr[n - 1], acts[n - 1], tr[n]);
    }
  }

  /** At any state at all: another call can come to work beside p exactly if the reservation lapsed. */
  lemma CanJoinIff(s: Sys, p: Pid, q: Pid)
    requires Working(s, p) && q !in s.begun && q !in s.calls
    ensures CanJoin(s, p, q) <==> Lapsed(s)
  {
    hide Lapsed, Step;
    if Lapsed(s) { LapsedLetsIn(s, p, q); }
    if CanJoin(s, p, q) && !Lapsed(s) {
      var tr, acts :| Solo(tr, acts, s, q) && Working(tr[|acts|], p) && Working(tr[|acts|], q);
      StandingKeepsOut(tr, acts, s, q, |acts|);
    }
  }

  /** What a lone call reaches from a reachable state is reachable. */
  lemma {:induction false} SoloReaches(tr: seq<Sys>, acts: seq<Act>, s: Sys, q: Pid, n: nat)
    requires Reachable(s) && Solo(tr, acts, s, q) && n <= |acts|
    ensures Reachable(tr[n])
  {
    hide Reachable, Step;
    if n > 0 {
      SoloReaches(tr, acts, s, q, n - 1);
      assert Step(tr[n - 1], acts[n - 1], tr[n]);
      Reaches(tr[n - 1], acts[n - 1], tr[n]);
    }
  }

  /** The premise is exact.  In any run that kept to it so far, a newcomer can come to work beside p, in a
      reachable state, exactly if p is at work past its reservation. */
  lemma OverlapIffUntimely(tr: seq<Sys>, acts: seq<Act>, n: nat, p: Pid, q: Pid)
    requires Run(tr, acts) && n < |tr| && forall i :: 0 <= i < n ==> Timely(tr[i])
    requires Working(tr[n], p) && q !in tr[n].begun
    ensures CanJoin(tr[n], p, q) <==> !Timely(tr[n])
    ensures !Timely(tr[n]) <==> tr[n].calls[p].expires <= tr[n].now
    ensures !Timely(tr[n]) ==> exists s :: Reachable(s) && Working(s, p) && Working(s, q)
  {
    hide Step, CanJoin, Reachable, Solo;
    InvSoFar(tr, acts, n);
    CanJoinIff(tr[n], p, q);
    if !Timely(tr[n]) { JoinIsReached(tr, acts, n, p, q); }
  }

  lemma JoinIsReached(tr: seq<Sys>, acts: seq<Act>, n: nat, p: Pid, q: Pid)
    requires Run(tr, acts) && n < |tr| && CanJoin(tr[n], p, q)
    ensures exists s :: Reachable(s) && Working(s, p) && Working(s, q)
  {
    hide Step, Reachable, Working;
    PrefixReached(tr, acts, n);
    var solo, done :| Solo(solo, done, tr[n], q) && Working(solo[|done|], p) && Working(solo[|done|], q);
    SoloReaches(solo, done, tr[n], q, |done|);
  }

  lemma PrefixReached(tr: seq<Sys>, acts: seq<Act>, n: nat)
    requires Run(tr, acts) && n < |tr|
    ensures Reachable(tr[n])
  {
    hide Step;
    assert Run(tr[..n + 1], acts[..n]);
  }

  /** The invariant holds at the first untimely state too. */
  lemma InvSoFar(tr: seq<Sys>, acts: seq<Act>, n: nat)
    requires Run(tr, acts) && n < |tr| && forall i :: 0 <= i < n ==> Timely(tr[i])
    ensures Inv(tr[n])
  {
    hide Inv, Step, Timely;
    if n == 0 {
      InitInv(tr[0]);
    } else {
      assert TimelyRun(tr[..n]) && Run(tr[..n], acts[..n - 1]);
      RunInv(tr[..n], acts[..n - 1], n - 1);
      StepInv(tr[n - 1], acts[n - 1], tr[n]);
    }
  }
}
