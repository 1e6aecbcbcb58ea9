/**
 Edits of one chapter under the revision its caller read.  The machine has any number of
 such calls, and any number of other writers that replace the row and raise its revision.
 */
module ChapterWrites {
  import opened Prelude
  import EditOps

  type Pid = nat
  datatype Row = Row(revision: nat, title: string, content: string, position: real)

  /** What a call makes of the content it is based on, or why it refuses. */
  datatype Refusal = TooLong | Unapplicable(fault: EditOps.EditError)
  type Edit = string -> Result<string, Refusal>

  datatype Phase = Asking(base: nat, edit: Edit) | Holding(base: nat, edit: Edit, cur: Row)
  datatype Write = Write(base: nat, edit: Edit)

  /** row is the stored chapter; top, log and accepted are history: the last revision, the row at each
      revision, and which call's write was accepted. */
  datatype Sys = Sys(
    row: Option<Row>, top: nat, calls: map<Pid, Phase>, log: map<nat, Row>, accepted: map<Pid, Write>)

  datatype Act =
    | Ask(pid: Pid, base: nat, edit: Edit)
    | Read(pid: Pid)
    | Accept(pid: Pid)
    | End(pid: Pid)
    | OtherWrite(row: Row)
    | Delete

  /** The row a call would store: its edit of what it read, with everything else carried over. */
  function Edited(c: Phase): Row
    requires c.Holding? && c.edit(c.cur.content).Ok?
  {
    Row(c.base + 1, c.cur.title, c.edit(c.cur.content).value, c.cur.position)
  }

  ghost predicate Enabled(s: Sys, a: Act) {
    match a
    case Ask(pid, _, _) => pid !in s.calls && pid !in s.accepted
    case Read(pid) => pid in s.calls && s.calls[pid].Asking? && s.row.Some? && s.row.value.revision == s.calls[pid].base
    case Accept(pid) =>
      && pid in s.calls && s.calls[pid].Holding? && s.calls[pid].edit(s.calls[pid].cur.content).Ok?
      && s.row.Some? && s.row.value.revision == s.calls[pid].base
    case End(pid) => pid in s.calls
    case OtherWrite(row) => s.row.Some? && row.revision == s.row.value.revision + 1
    case Delete => s.row.Some?
  }

  function Stored(s: Sys, row: Row): Sys {
    s.(row := Some(row), top := row.revision, log := s.log[row.revision := row])
  }

  ghost function Effect(s: Sys, a: Act): Sys
    requires Enabled(s, a)
  {
    match a
    case Ask(pid, base, edit) => s.(calls := s.calls[pid := Asking(base, edit)])
    case Read(pid) => s.(calls := s.calls[pid := Holding(s.calls[pid].base, s.calls[pid].edit, s.row.value)])
    case Accept(pid) =>
      Stored(s, Edited(s.calls[pid])).(calls := s.calls - {pid},
        accepted := s.accepted[pid := Write(s.calls[pid].base, s.calls[pid].edit)])
    case End(pid) => s.(calls := s.calls - {pid})
    case OtherWrite(row) => Stored(s, row)
    case Delete => s.(row := None)
  }

  ghost predicate Step(s: Sys, a: Act, s': Sys) { Enabled(s, a) && s' == Effect(s, a) }

  ghost predicate Init(s: Sys) {
    && s.calls == map[] && s.accepted == map[]
    && s.row.Some? && s.top == s.row.value.revision && s.log == map[s.top := s.row.value]
  }

  // ------------------------------------------------------------------
  // The invariant
  // ------------------------------------------------------------------

  /** The log is the row's history: one row a revision, the newest being the stored one. */
  ghost predicate LogHolds(s: Sys) {
    && s.top in s.log
    && (s.row.Some? ==> s.row.value.revision == s.top && s.log[s.top] == s.row.value)
    && (forall r :: r in s.log ==> s.log[r].revision == r <= s.top)
  }

  ghost predicate CallsHold(s: Sys) {
    forall p :: p in s.calls && s.calls[p].Holding? ==>
      s.calls[p].base in s.log && s.log[s.calls[p].base] == s.calls[p].cur
  }

  /** One accepted write: its edit of the row at its base is the row at the next revision. */
  ghost predicate Succeeds(log: map<nat, Row>, w: Write) {
    && w.base in log && w.base + 1 in log
    && var cur := log[w.base];
       w.edit(cur.content).Ok? && log[w.base + 1] == Row(w.base + 1, cur.title, w.edit(cur.content).value, cur.position)
  }

  ghost predicate AcceptedHold(s: Sys) {
    && (forall p :: p in s.accepted ==> p !in s.calls && s.accepted[p].base < s.top && Succeeds(s.log, s.accepted[p]))
    && (forall p, q :: p in s.accepted && q in s.accepted && s.accepted[p].base == s.accepted[q].base ==> p == q)
  }

  ghost predicate Inv(s: Sys) { LogHolds(s) && CallsHold(s) && AcceptedHold(s) }

  /** History is only ever added to. */
  ghost predicate Later(s: Sys, s': Sys) {
    && s.top <= s'.top
    && (forall r :: r in s.log ==> r in s'.log && s'.log[r] == s.log[r])
    && (forall p :: p in s.accepted ==> p in s'.accepted && s'.accepted[p] == s.accepted[p])
  }

  lemma StoredKeeps(s: Sys, row: Row, s': Sys)
    requires LogHolds(s) && CallsHold(s) && AcceptedHold(s) && row.revision == s.top + 1
    requires s' == Stored(s, row)
    ensures LogHolds(s') && CallsHold(s') && AcceptedHold(s') && Later(s, s')
  {
  }

  /** One more accepted write, of a base that none was accepted for. */
  lemma OneMoreAccepted(t: Sys, pid: Pid, w: Write, s': Sys)
    requires LogHolds(t) && CallsHold(t) && AcceptedHold(t) && Succeeds(t.log, w) && w.base < t.top
    requires pid !in t.accepted && forall p :: p in t.accepted ==> t.accepted[p].base < w.base
    requires s' == t.(calls := t.calls - {pid}, accepted := t.accepted[pid := w])
    ensures Inv(s') && Later(t, s')
  {
    hide Succeeds;
  }

  lemma AcceptKeeps(s: Sys, pid: Pid, s': Sys)
    requires Inv(s) && Step(s, Accept(pid), s')
    ensures Inv(s') && Later(s, s')
  {
    hide LogHolds, CallsHold, AcceptedHold, Later, Succeeds;
    var c := s.calls[pid];
    var t := Stored(s, Edited(c));
    AcceptsItsBase(s, pid);
    StoredKeeps(s, Edited(c), t);
    OneMoreAccepted(t, pid, Write(c.base, c.edit), s');
    LaterOn(s, t, s');
  }

  lemma LaterOn(s: Sys, t: Sys, u: Sys)
    requires Later(s, t) && Later(t, u)
    ensures Later(s, u)
  {
  }

  /** What the store accepts is based on the newest row, and no earlier write was. */
  lemma AcceptsItsBase(s: Sys, pid: Pid)
    requires Inv(s) && Enabled(s, Accept(pid))
    ensures var c := s.calls[pid];
            && c.base == s.top && Succeeds(Stored(s, Edited(c)).log, Write(c.base, c.edit))
            && pid !in s.accepted && forall p :: p in s.accepted ==> s.accepted[p].base < c.base
  {
  }

  lemma StepKeeps(s: Sys, a: Act, s': Sys)
    requires Inv(s) && Step(s, a, s')
    ensures Inv(s') && Later(s, s')
  {
    hide Succeeds;
    match a
    case Accept(pid) => AcceptKeeps(s, pid, s');
    case OtherWrite(row) => StoredKeeps(s, row, s');
    case _ =>
  }

  // ------------------------------------------------------------------
  // Over whole runs
  // ------------------------------------------------------------------

  ghost predicate Run(tr: seq<Sys>, acts: seq<Act>) {
    |tr| == |acts| + 1 && Init(tr[0]) && forall i {:trigger acts[i]} :: 0 <= i < |acts| ==>
      Step(tr[i], acts[i], tr[i + 1])
  }

  /** The n-th step of a run is a write that the store accepts. */
  ghost predicate AcceptsAt(tr: seq<Sys>, acts: seq<Act>, n: nat) {
    && Run(tr, acts) && n < |acts| && acts[n].Accept?
    && acts[n].pid in tr[n].calls && tr[n].calls[acts[n].pid].Holding?
  }

  ghost function CallAt(tr: seq<Sys>, acts: seq<Act>, n: nat): Phase
    requires AcceptsAt(tr, acts, n)
  {
    tr[n].calls[acts[n].pid]
  }

  lemma InitInv(s: Sys)
    requires Init(s)
    ensures Inv(s)
  {
  }

  lemma {:induction false} RunInv(tr: seq<Sys>, acts: seq<Act>, n: nat)
    requires Run(tr, acts) && n < |tr|
    ensures Inv(tr[n])
  {
    hide Inv, Step;
    if n == 0 {
      InitInv(tr[0]);
    } else {
      RunInv(tr, acts, n - 1);
      StepKeeps(tr[n - 1], acts[n - 1], tr[n]);
    }
  }

  lemma {:induction false} RunLater(tr: seq<Sys>, acts: seq<Act>, i: nat, j: nat)
    requires Run(tr, acts) && i <= j < |tr|
    ensures Later(tr[i], tr[j])
  {
    hide Inv, Step;
    if i < j {
      RunLater(tr, acts, i, j - 1);
      RunInv(tr, acts, j - 1);
      StepKeeps(tr[j - 1], acts[j - 1], tr[j]);
    }
  }

  /** A revision names one row for ever. */
  lemma RevisionNamesOneRow(tr: seq<Sys>, acts: seq<Act>, i: nat, j: nat)
    requires Run(tr, acts) && i <= j < |tr|
    requires tr[i].row.Some? && tr[j].row.Some? && tr[i].row.value.revision == tr[j].row.value.revision
    ensures tr[i].row == tr[j].row
  {
    hide Step;
    RunInv(tr, acts, i);
    RunInv(tr, acts, j);
    RunLater(tr, acts, i, j);
  }

  /** An accepted write stores the edit of exactly the content at the caller's revision, which is the
      content stored until that moment, and leaves title and position as they were. */
  lemma AcceptedStoresTheEdit(tr: seq<Sys>, acts: seq<Act>, n: nat)
    requires AcceptsAt(tr, acts, n)
    ensures var c := CallAt(tr, acts, n);
            && tr[n].row == Some(c.cur) && c.cur.revision == c.base
            && var now := tr[n + 1].row;
               && now.Some? && now.value.revision == c.base + 1
               && Ok(now.value.content) == c.edit(tr[n].row.value.content)
               && now.value.title == tr[n].row.value.title && now.value.position == tr[n].row.value.position
  {
    RunInv(tr, acts, n);
    assert Step(tr[n], acts[n], tr[n + 1]);
  }

  /** Of all the calls based on one revision at most one is ever accepted: among them every repetition of
      one call, whose base is the same, whatever became of its reservation. */
  lemma OneSuccessorPerRevision(tr: seq<Sys>, acts: seq<Act>, i: nat, j: nat)
    requires AcceptsAt(tr, acts, i) && AcceptsAt(tr, acts, j)
    requires CallAt(tr, acts, i).base == CallAt(tr, acts, j).base
    ensures i == j
  {
    hide Step, Inv;
    if i < j { AcceptedPast(tr, acts, i, j); }
    if j < i { AcceptedPast(tr, acts, j, i); }
  }

  lemma AcceptedPast(tr: seq<Sys>, acts: seq<Act>, i: nat, j: nat)
    requires AcceptsAt(tr, acts, i) && AcceptsAt(tr, acts, j) && i < j
    ensures CallAt(tr, acts, i).base < CallAt(tr, acts, j).base
  {
    assert Step(tr[i], acts[i], tr[i + 1]) && Step(tr[j], acts[j], tr[j + 1]);
    RunInv(tr, acts, i);
    RunInv(tr, acts, j);
    RunLater(tr, acts, i + 1, j);
  }

  /** No update is lost: at the end of any run every accepted write is still in the chapter's history, as
      the one successor of the row it was based on. */
  lemma NoUpdateIsLost(tr: seq<Sys>, acts: seq<Act>, n: nat)
    requires AcceptsAt(tr, acts, n)
    ensures var pid, end := acts[n].pid, tr[|acts|];
            && pid in end.accepted && Succeeds(end.log, end.accepted[pid])
            && end.accepted[pid] == Write(CallAt(tr, acts, n).base, CallAt(tr, acts, n).edit)
            && (tr[n].row.Some? && end.log[end.accepted[pid].base] == tr[n].row.value)
            && (tr[n + 1].row.Some? && end.log[end.accepted[pid].base + 1] == tr[n + 1].row.value)
  {
    assert Step(tr[n], acts[n], tr[n + 1]);
    RunInv(tr, acts, n);
    RunInv(tr, acts, n + 1);
    RunLater(tr, acts, n, |acts|);
    RunLater(tr, acts, n + 1, |acts|);
    RunInv(tr, acts, |acts|);
  }
}
