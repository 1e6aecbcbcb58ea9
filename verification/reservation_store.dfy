/**
 Claiming, recording and releasing a reservation as code.  Between its store operations
 a call is interrupted by Interfere, which stands for any steps of other calls and of time.
 */
module ReservationStore {
  import opened Prelude
  import opened Reservations

  function Actor(a: Act): Option<Pid> {
    match a case Tick(_) => None case Collect => None case _ => Some(a.pid)
  }

  /** The premise for one call: it does not outlive the expiry it fixed when it began. */
  ghost predicate Prompt(s: Sys, pid: Pid) { pid in s.calls ==> s.now < s.calls[pid].expires }

  ghost predicate SameCall(s: Sys, s': Sys, pid: Pid) {
    && (pid in s.calls <==> pid in s'.calls) && (pid in s.calls ==> s'.calls[pid] == s.calls[pid])
    && (pid in s.begun <==> pid in s'.begun)
  }

  /** Time passes, and a document that was not there before is one that was written since. */
  predicate Ahead(s: Sys, s': Sys) {
    && s.now <= s'.now && s.next <= s'.next
    && (s'.doc.Some? ==> s'.doc == s.doc || s'.doc.value.version >= s.next)
  }

  /** What a call may count on across the steps of others, given the premise. */
  ghost predicate Rely(s: Sys, s': Sys, pid: Pid) {
    Inv(s') && Timely(s') && Prompt(s', pid) && SameCall(s, s', pid) && Ahead(s, s')
  }

  lemma OthersKeepCall(s: Sys, a: Act, s': Sys, pid: Pid)
    requires Step(s, a, s') && Actor(a) != Some(pid)
    ensures SameCall(s, s', pid)
  {
  }

  lemma StepAhead(s: Sys, a: Act, s': Sys)
    requires Step(s, a, s')
    ensures Ahead(s, s')
  {
  }

  /** Interfere's contract covers every timely sequence of steps that are not the call's own. */
  lemma {:induction false} OthersRely(tr: seq<Sys>, acts: seq<Act>, pid: Pid)
    requires |tr| == |acts| + 1 && Inv(tr[0]) && forall i :: 0 <= i < |tr| ==> Timely(tr[i]) && Prompt(tr[i], pid)
    requires forall i {:trigger acts[i]} :: 0 <= i < |acts| ==>
        Step(tr[i], acts[i], tr[i + 1]) && Actor(acts[i]) != Some(pid)
    ensures Rely(tr[0], tr[|acts|], pid)
  {
    hide Inv, Timely, Prompt, Step, Actor;
    if acts != [] {
      var n := |acts| - 1;
      OthersRely(tr[..n + 1], acts[..n], pid);
      StepInv(tr[n], acts[n], tr[n + 1]);
      OthersKeepCall(tr[n], acts[n], tr[n + 1], pid);
      StepAhead(tr[n], acts[n], tr[n + 1]);
    }
  }

  datatype Verdict = Proceed | Replayed(result: Outcome) | AlreadyInFlight

  /** What a claim's answer means at the moment it is given. */
  ghost predicate Means(s: Sys, pid: Pid, v: Verdict) {
    match v
    case Proceed => Working(s, pid) && forall q :: Working(s, q) ==> q == pid
    case Replayed(r) =>
      && pid !in s.calls && s.doc.Some? && s.doc.value.data.result == Some(r)
      && s.doc.value.data.owner in s.recorded && s.recorded[s.doc.value.data.owner] == r
      && !Expired(s.doc.value.data, s.now)
    case AlreadyInFlight => pid !in s.calls
  }

  /** Another call holds the key: its round stands without a result, or was begun since a moment. */
  ghost predicate Taken(since: nat, at: Sys) {
    && at.doc.Some?
    && (|| at.doc.value.version >= since
        || (at.doc.value.data.result.None? && !Expired(at.doc.value.data, at.now)))
  }

  lemma SoleOwner(s: Sys, pid: Pid)
    requires Inv(s) && Working(s, pid)
    ensures s.doc.Some? && s.doc.value.data == Rec(pid, Some(s.calls[pid].expires), None)
    ensures forall q :: Working(s, q) ==> q == pid
  {
  }

  lemma SnapIsCurrent(s: Sys, pid: Pid)
    requires Inv(s) && pid in s.calls && s.calls[pid].Looking?
    ensures var snap := s.calls[pid].snap;
            snap.data.result.Some? && !Expired(snap.data, s.now) ==>
              && s.doc == Some(snap) && snap.data.owner in s.recorded
              && s.recorded[snap.data.owner] == snap.data.result.value
  {
  }

  lemma StillTimely(s: Sys, a: Act, s': Sys, pid: Pid)
    requires Timely(s) && Prompt(s, pid) && Step(s, a, s') && Actor(a) == Some(pid) && !a.Begin?
    ensures Timely(s') && Prompt(s', pid)
  {
  }

  class Keeper {
    var now: int
    var doc: Option<Doc>
    var next: nat           // the store's next document version
    ghost var w: Sys        // which calls wait where; its now, doc and next are not used

    ghost function S(): Sys reads this { w.(now := now, doc := doc, next := next) }

    ghost predicate Good(pid: Pid) reads this { Inv(S()) && Timely(S()) && Prompt(S(), pid) }

    /** Other calls, the collector and the clock. */
    method Interfere(ghost pid: Pid)
      requires Good(pid)
      modifies this
      ensures Rely(old(S()), S(), pid)
    {
    }

    /** Account for a write or a decision as a step of the machine, taken by this call. */
    ghost method Advance(pid: Pid, before: Sys, a: Act)
      requires Inv(before) && Timely(before) && Prompt(before, pid)
      requires Enabled(before, a) && Actor(a) == Some(pid) && !a.Begin?
      requires Effect(before, a) == S().(calls := Effect(before, a).calls, begun := before.begun,
          recorded := Effect(before, a).recorded)
      modifies this`w
      ensures Good(pid) && S() == Effect(before, a) && Ahead(before, S())
    {
      hide Inv, Timely, Prompt, Enabled, Effect;
      StepAhead(before, a, Effect(before, a));
      StepInv(before, a, Effect(before, a));
      StillTimely(before, a, Effect(before, a), pid);
      w := Effect(before, a);
    }

    /** ref.create, which the caller has found will succeed. */
    method Write(pid: Pid, expires: int, ghost a: Act)
      requires Good(pid) && Actor(a) == Some(pid) && !a.Begin?
      requires pid in S().calls && S().calls[pid].expires == expires
      requires Enabled(S(), a) && Effect(S(), a) == Claimed(S(), pid)
      modifies this
      ensures Good(pid) && Means(S(), pid, Proceed) && Ahead(old(S()), S())
    {
      hide Inv, Timely, Prompt;
      ghost var before := S();
      doc := Some(Doc(next, Rec(pid, Some(expires), None)));
      next := next + 1;
      Advance(pid, before, a);
      SoleOwner(S(), pid);
    }

    /** _claim: proceed alone, replay the round's result, or be told that the call is in flight, which
        it is only told if another call held the key at some moment since it began. */
    method Claim(pid: Pid) returns (v: Verdict, ghost at: Sys)
      requires Inv(S()) && Timely(S()) && pid !in S().begun
      modifies this
      ensures Good(pid) && Means(S(), pid, v) && Ahead(old(S()), at) && Ahead(at, S())
      ensures v.AlreadyInFlight? ==> Taken(old(next), at)
    {
      hide Inv, Timely, Prompt, Expired;
      var expires := now + TTL;
      Start(pid, expires);
      Interfere(pid);
      ghost var s := S();
      if doc.None? {
        Write(pid, expires, Create(pid));
        return Proceed, S();
      }
      Advance(pid, s, Collide(pid));
      Interfere(pid);
      s := S();
      if doc.None? {
        Advance(pid, s, LookVacant(pid));
        v := ClaimVacant(pid, expires, s);
        at := S();
        return;
      }
      var snap := doc.value;
      Advance(pid, s, Look(pid));
      Interfere(pid);
      v, at := Judge(pid, expires, snap, s);
    }

    ghost method Start(pid: Pid, expires: int)
      requires Inv(S()) && Timely(S()) && pid !in S().begun && expires == now + TTL
      modifies this`w
      ensures Good(pid) && pid in S().calls && S().calls[pid] == Calling(expires)
      ensures S().now == now && S().doc == doc
    {
      var s := S();
      w := s.(begun := s.begun + {pid}, calls := s.calls[pid := Calling(expires)]);
      StepInv(s, Begin(pid), S());
    }

    method Judge(pid: Pid, expires: int, snap: Doc, ghost seen: Sys) returns (v: Verdict, ghost at: Sys)
      requires Good(pid) && pid in S().calls && S().calls[pid] == Looking(expires, snap)
      requires seen.doc == Some(snap) && Ahead(seen, S())
      modifies this
      ensures Good(pid) && Means(S(), pid, v) && Ahead(seen, at) && Ahead(at, S())
      ensures v.AlreadyInFlight? ==> Taken(seen.next, at)
    {
      hide Inv, Timely, Prompt;
      ghost var s := S();
      SnapIsCurrent(s, pid);
      at := seen;
      if Expired(snap.data, now) {
        Advance(pid, s, JudgeExpired(pid));
        Interfere(pid);
        v := TakeOverExpired(pid, expires, snap, seen);
        at := S();
      } else if snap.data.result.Some? {
        Advance(pid, s, Replay(pid));
        v := Replayed(snap.data.result.value);
      } else {
        Advance(pid, s, Duplicate(pid));
        v := AlreadyInFlight;
      }
    }

    /** The conditional update of an expired reservation, lost only to a write since it was seen. */
    method TakeOverExpired(pid: Pid, expires: int, snap: Doc, ghost seen: Sys) returns (v: Verdict)
      requires Good(pid) && pid in S().calls && S().calls[pid] == TakingOver(expires, snap)
      requires seen.doc == Some(snap) && Ahead(seen, S())
      modifies this
      ensures Good(pid) && Means(S(), pid, v) && Ahead(seen, S())
      ensures v.AlreadyInFlight? ==> Taken(seen.next, S())
    {
      hide Inv, Timely, Prompt, Expired;
      ghost var s := S();
      if doc.None? {
        Advance(pid, s, TakeOverVacant(pid));
        v := ClaimVacant(pid, expires, s);
      } else if doc.value.version == snap.version {
        Write(pid, expires, TakeOver(pid));
        v := Proceed;
      } else {
        Advance(pid, s, TakeOverLost(pid));
        v := AlreadyInFlight;
      }
    }

    /** _claim_vacant: claim a key whose document was gone, losing only to a write since. */
    method ClaimVacant(pid: Pid, expires: int, ghost seen: Sys) returns (v: Verdict)
      requires Good(pid) && pid in S().calls && S().calls[pid] == Vacant(expires)
      requires seen.doc.None? && Ahead(seen, S())
      modifies this
      ensures Good(pid) && Means(S(), pid, v) && Ahead(seen, S())
      ensures v.AlreadyInFlight? ==> Taken(seen.next, S())
    {
      hide Inv, Timely, Prompt, Expired;
      Interfere(pid);
      ghost var s := S();
      if doc.None? {
        Write(pid, expires, CreateVacant(pid));
        v := Proceed;
      } else {
        Advance(pid, s, CreateVacantLost(pid));
        v := AlreadyInFlight;
      }
    }

    /** _record: the merge lands on this call's own round, whatever ran meanwhile. */
    method RecordResult(pid: Pid, result: Outcome)
      requires Good(pid) && Working(S(), pid)
      modifies this
      ensures Good(pid) && pid !in S().calls
      ensures doc.Some? && doc.value.data == Rec(pid, Some(old(S()).calls[pid].expires), Some(result))
    {
      hide Inv, Timely, Prompt, Expired;
      Interfere(pid);
      ghost var s := S();
      SoleOwner(s, pid);
      var data := if doc.Some? then doc.value.data.(result := Some(result)) else Rec(pid, None, Some(result));
      doc := Some(Doc(next, data));
      next := next + 1;
      Advance(pid, s, Record(pid, result));
    }

    /** _release: the key is free again, and nobody else's reservation is lost with it. */
    method Drop(pid: Pid)
      requires Good(pid) && Working(S(), pid)
      modifies this
      ensures Good(pid) && doc.None? && pid !in S().calls && forall q :: !Working(S(), q)
    {
      hide Inv, Timely, Prompt, Expired;
      Interfere(pid);
      ghost var s := S();
      SoleOwner(s, pid);
      doc := None;
      Advance(pid, s, Release(pid));
      forall q ensures !Working(S(), q) { assert Working(S(), q) ==> Working(s, q); }
    }
  }
}
