/**
 One budget for a run, taken from by the director and by any number of concurrent
 consults.  The machine interleaves their takes and refunds one at a time.
 */
module RunBudgets {
  type Pid = nat

  datatype Limits = Limits(modelCalls: nat, consults: nat, reviews: nat)

  /** The three counters. */
  datatype Used = Used(calls: nat, consults: nat, reviews: nat)

  function Less(n: nat): nat { if n == 0 then 0 else n - 1 }   // max(0, n - 1)

  predicate CanDirect(l: Limits, u: Used) { u.calls < l.modelCalls }
  predicate CanConsult(l: Limits, u: Used) { u.consults < l.consults && u.calls < l.modelCalls - 1 }
  predicate CanReview(l: Limits, u: Used) { u.reviews < l.reviews }

  class RunBudget {
    const limits: Limits
    var used: Used

    constructor (limits: Limits)
      ensures this.limits == limits && used == Used(0, 0, 0)
    {
      this.limits, used := limits, Used(0, 0, 0);
    }

    method TakeDirectorCall() returns (ok: bool)
      modifies this`used
      ensures ok == CanDirect(limits, old(used))
      ensures used == if ok then old(used).(calls := old(used).calls + 1) else old(used)
    {
      if used.calls >= limits.modelCalls { return false; }
      used := used.(calls := used.calls + 1);
      return true;
    }

    method TakeConsult() returns (ok: bool)
      modifies this`used
      ensures ok == CanConsult(limits, old(used))
      ensures used == if ok then old(used).(calls := old(used).calls + 1, consults := old(used).consults + 1)
          else old(used)
      ensures ok ==> CanDirect(limits, used)
    {
      if used.consults >= limits.consults { return false; }
      if used.calls >= limits.modelCalls - 1 { return false; }
      used := used.(calls := used.calls + 1, consults := used.consults + 1);
      return true;
    }

    method TakeCritique() returns (ok: bool)
      modifies this`used
      ensures ok == CanReview(limits, old(used))
      ensures used == if ok then old(used).(reviews := old(used).reviews + 1) else old(used)
    {
      if used.reviews >= limits.reviews { return false; }
      used := used.(reviews := used.reviews + 1);
      return true;
    }

    method RefundCritique()
      modifies this`used
      ensures used == old(used).(reviews := Less(old(used).reviews))
    {
      used := used.(reviews := if used.reviews > 0 then used.reviews - 1 else 0);
    }

    method RefundConsult()
      modifies this`used
      ensures used == old(used).(calls := Less(old(used).calls), consults := Less(old(used).consults))
    {
      used := used.(calls := if used.calls > 0 then used.calls - 1 else 0,
                    consults := if used.consults > 0 then used.consults - 1 else 0);
    }
  }

  // ------------------------------------------------------------------
  // The machine
  // ------------------------------------------------------------------

  /** A consult that has asked for nothing yet, holds a consult, holds a review too, or reached the model. */
  datatype Phase = Ready(review: bool) | Held(review: bool) | Reviewing | Modelling

  /** director counts the director's model calls, and called the consults that reached the model; granted
      and reviewing are who holds a take that was not refunded; stepGranted, whether any consult was
      granted since the director's last call. */
  datatype Sys = Sys(
    used: Used, director: nat, live: map<Pid, Phase>, begun: set<Pid>,
    granted: set<Pid>, reviewing: set<Pid>, called: set<Pid>, stepGranted: bool)

  datatype Act =
    | Direct
    | Begin(pid: Pid, review: bool)
    | Take(pid: Pid)
    | Refuse(pid: Pid)
    | TakeReview(pid: Pid)
    | RefuseReview(pid: Pid)
    | CallModel(pid: Pid)
    | Refund(pid: Pid)
    | Finish(pid: Pid)

  predicate Enabled(l: Limits, s: Sys, a: Act) {
    match a
    case Direct => CanDirect(l, s.used)
    case Begin(pid, _) => pid !in s.begun
    case _ =>
      && a.pid in s.live
      && var c := s.live[a.pid];
         match a
         case Take(_) => c.Ready? && CanConsult(l, s.used)
         case Refuse(_) => c.Ready? && !CanConsult(l, s.used)
         case TakeReview(_) => c.Held? && c.review && CanReview(l, s.used)
         case RefuseReview(_) => c.Held? && c.review && !CanReview(l, s.used)
         case CallModel(_) => c.Reviewing? || (c.Held? && !c.review)
         case Refund(_) => c.Reviewing? || (c.Held? && !c.review)
         case _ => c.Modelling?
  }

  /** Taking moves the counters up by one; refunding moves them down by one, stopping at zero. */
  function Effect(l: Limits, s: Sys, a: Act): Sys
    requires Enabled(l, s, a)
  {
    match a
    case Direct => s.(used := s.used.(calls := s.used.calls + 1), director := s.director + 1, stepGranted := false)
    case Begin(pid, review) => s.(begun := s.begun + {pid}, live := s.live[pid := Ready(review)])
    case Take(pid) =>
      s.(used := s.used.(calls := s.used.calls + 1, consults := s.used.consults + 1),
         granted := s.granted + {pid}, live := s.live[pid := Held(s.live[pid].review)], stepGranted := true)
    case Refuse(pid) => s.(live := s.live - {pid})
    case TakeReview(pid) =>
      s.(used := s.used.(reviews := s.used.reviews + 1), reviewing := s.reviewing + {pid},
        live := s.live[pid := Reviewing])
    case RefuseReview(pid) => Refunded(s, pid, false)
    case CallModel(pid) => s.(called := s.called + {pid}, live := s.live[pid := Modelling])
    case Refund(pid) => Refunded(s, pid, s.live[pid].Reviewing?)
    case Finish(pid) => s.(live := s.live - {pid})
  }

  function Refunded(s: Sys, pid: Pid, review: bool): Sys {
    s.(used := Used(Less(s.used.calls), Less(s.used.consults), if review then Less(s.used.reviews) else s.used.reviews),
       granted := s.granted - {pid}, reviewing := s.reviewing - {pid}, live := s.live - {pid})
  }

  predicate Step(l: Limits, s: Sys, a: Act, s': Sys) { Enabled(l, s, a) && s' == Effect(l, s, a) }

  ghost predicate Init(s: Sys) { s == Sys(Used(0, 0, 0), 0, map[], {}, {}, {}, {}, false) }

  /** The counters count exactly the takes that were not refunded. */
  ghost predicate Counts(s: Sys) {
    && s.used.calls == s.director + |s.granted|
    && s.used.consults == |s.granted|
    && s.used.reviews == |s.reviewing|
  }

  ghost predicate Within(l: Limits, s: Sys) {
    && s.used.calls <= l.modelCalls && s.used.consults <= l.consults && s.used.reviews <= l.reviews
    && (s.stepGranted ==> s.used.calls < l.modelCalls)
  }

  ghost predicate Holders(s: Sys) {
    && s.live.Keys <= s.begun && s.granted <= s.begun && s.reviewing <= s.granted && s.called <= s.granted
    && forall p :: p in s.live ==>
         match s.live[p]
         case Ready(_) => p !in s.granted
         case Held(_) => p in s.granted && p !in s.reviewing && p !in s.called
         case Reviewing => p in s.reviewing && p !in s.called
         case Modelling => p in s.called
  }

  ghost predicate Inv(l: Limits, s: Sys) { Counts(s) && Within(l, s) && Holders(s) }

  lemma Remove(a: set<Pid>, p: Pid)
    ensures |a - {p}| == if p in a then |a| - 1 else |a|
    ensures p in a ==> |a| > 0
    ensures p !in a ==> |a + {p}| == |a| + 1
  {
    if p in a {
      assert a == (a - {p}) + {p};
    } else {
      assert a - {p} == a;
    }
  }

  lemma RefundKeeps(l: Limits, s: Sys, pid: Pid, review: bool, s': Sys)
    requires Inv(l, s) && s' == Refunded(s, pid, review)
    requires pid in s.live && (s.live[pid].Held? || s.live[pid].Reviewing?) && (review <==> s.live[pid].Reviewing?)
    ensures Inv(l, s')
    ensures s.used.calls >= 1 && s.used.consults >= 1 && (review ==> s.used.reviews >= 1)
  {
    Remove(s.granted, pid);
    Remove(s.reviewing, pid);
    assert s.reviewing - {pid} <= s.granted - {pid} && s.called <= s.granted - {pid};
  }

  lemma TakeKeeps(l: Limits, s: Sys, a: Act, s': Sys)
    requires Inv(l, s) && Step(l, s, a, s') && (a.Take? || a.TakeReview?)
    ensures Inv(l, s')
  {
    Remove(s.granted, a.pid);
    Remove(s.reviewing, a.pid);
  }

  lemma StepInv(l: Limits, s: Sys, a: Act, s': Sys)
    requires Inv(l, s) && Step(l, s, a, s')
    ensures Inv(l, s')
  {
    match a
    case Take(_) => TakeKeeps(l, s, a, s');
    case TakeReview(_) => TakeKeeps(l, s, a, s');
    case RefuseReview(pid) => RefundKeeps(l, s, pid, false, s');
    case Refund(pid) => RefundKeeps(l, s, pid, s.live[pid].Reviewing?, s');
    case _ =>
  }

  // ------------------------------------------------------------------
  // Over whole runs
  // ------------------------------------------------------------------

  ghost predicate Run(l: Limits, tr: seq<Sys>, acts: seq<Act>) {
    |tr| == |acts| + 1 && Init(tr[0]) && forall i {:trigger acts[i]} :: 0 <= i < |acts| ==>
      Step(l, tr[i], acts[i], tr[i + 1])
  }

  lemma InitInv(l: Limits, s: Sys)
    requires Init(s)
    ensures Inv(l, s)
  {
  }

  lemma {:induction false} RunInv(l: Limits, tr: seq<Sys>, acts: seq<Act>, n: nat)
    requires Run(l, tr, acts) && n < |tr|
    ensures Inv(l, tr[n])
  {
    hide Inv, Step;
    if n == 0 {
      InitInv(l, tr[0]);
    } else {
      RunInv(l, tr, acts, n - 1);
      StepInv(l, tr[n - 1], acts[n - 1], tr[n]);
    }
  }

  /** No ceiling is passed: not by the calls the models actually received, nor by what is granted. */
  lemma CeilingsHold(l: Limits, tr: seq<Sys>, acts: seq<Act>, n: nat)
    requires Run(l, tr, acts) && n < |tr|
    ensures var s := tr[n];
            && s.director + |s.called| <= l.modelCalls
            && |s.called| <= |s.granted| <= l.consults
            && |s.reviewing| <= l.reviews
  {
    RunInv(l, tr, acts, n);
    SubsetSize(tr[n].called, tr[n].granted);
  }

  lemma {:induction false} SubsetSize(a: set<Pid>, b: set<Pid>)
    requires a <= b
    ensures |a| <= |b|
  {
    if a != {} {
      var p :| p in a;
      Remove(a, p);
      Remove(b, p);
      SubsetSize(a - {p}, b - {p});
    }
  }

  /** A refund undoes its own take exactly: no clamp at zero ever takes effect. */
  lemma RefundsAreExact(l: Limits, tr: seq<Sys>, acts: seq<Act>, n: nat)
    requires Run(l, tr, acts) && n < |acts| && (acts[n].Refund? || acts[n].RefuseReview?)
    ensures var s, s', pid := tr[n], tr[n + 1], acts[n].pid;
            && pid in s.granted && s'.granted == s.granted - {pid}
            && s'.used.calls == s.used.calls - 1 && s'.used.consults == s.used.consults - 1
            && s'.used.reviews == s.used.reviews - (if pid in s.reviewing then 1 else 0)
  {
    RunInv(l, tr, acts, n);
    var s, pid := tr[n], acts[n].pid;
    assert Step(l, s, acts[n], tr[n + 1]);
    RefundKeeps(l, s, pid, s.live[pid].Reviewing?, tr[n + 1]);
  }

  /** After a consult is granted, the director can still make its next call, whatever else is granted. */
  lemma DirectorCanAnswer(l: Limits, tr: seq<Sys>, acts: seq<Act>, i: nat, j: nat)
    requires Run(l, tr, acts) && i < j < |tr| && acts[i].Take?
    requires forall k :: i < k < j ==> !acts[k].Direct?
    ensures CanDirect(l, tr[j].used)
    ensures Step(l, tr[j], Direct, Effect(l, tr[j], Direct))
  {
    GrantStands(l, tr, acts, i, j);
    RunInv(l, tr, acts, j);
  }

  lemma {:induction false} GrantStands(l: Limits, tr: seq<Sys>, acts: seq<Act>, i: nat, j: nat)
    requires Run(l, tr, acts) && i < j < |tr| && acts[i].Take?
    requires forall k :: i < k < j ==> !acts[k].Direct?
    ensures tr[j].stepGranted
    decreases j
  {
    assert Step(l, tr[j - 1], acts[j - 1], tr[j]);
    if i < j - 1 { GrantStands(l, tr, acts, i, j - 1); }
  }
}
