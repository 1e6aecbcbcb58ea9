/**
 An edit together with the reservation around it: the calls of one key reserve, edit, and record what they did.
 A call edits only while it works under its reservation, and records only a write that was accepted; other
 writers of the chapter come and go.
 */
module RepeatedEdits {
  import opened Prelude
  import R = Reservations
  import W = ChapterWrites

  type Pid = nat

  /** The key: the revision it was made for, the edit, and which calls carry it. */
  datatype Key = Key(base: nat, edit: W.Edit, ours: Pid -> bool)

  datatype Sys = Sys(reserved: R.Sys, chapter: W.Sys)

  datatype Act =
    | Reserve(a: R.Act)
    | Note(pid: Pid)
    | Edit(e: W.Act)

  /** The recorded result names the revision that the write produced. */
  function ResultOf(k: Key): R.Outcome { k.base + 1 }

  predicate Claims(k: Key, a: R.Act) { !a.Record? && (a.Tick? || a.Collect? || k.ours(a.pid)) }

  /** A call of the key edits only while it works, and only with the key's own edit. */
  ghost predicate May(k: Key, s: Sys, a: W.Act) {
    match a
    case OtherWrite(_) => true
    case Delete => true
    case _ => k.ours(a.pid) ==> R.Working(s.reserved, a.pid) && (a.Ask? ==> a.base == k.base && a.edit == k.edit)
  }

  ghost predicate Step(k: Key, s: Sys, a: Act, s': Sys) {
    match a
    case Reserve(r) => Claims(k, r) && R.Step(s.reserved, r, s'.reserved) && s'.chapter == s.chapter
    case Note(pid) =>
      && k.ours(pid) && pid in s.chapter.accepted
      && R.Step(s.reserved, R.Record(pid, ResultOf(k)), s'.reserved) && s'.chapter == s.chapter
    case Edit(w) => May(k, s, w) && W.Step(s.chapter, w, s'.chapter) && s'.reserved == s.reserved
  }

  ghost predicate Init(s: Sys) { R.Init(s.reserved) && W.Init(s.chapter) }

  ghost predicate Run(k: Key, tr: seq<Sys>, acts: seq<Act>) {
    && |tr| == |acts| + 1 && Init(tr[0])
    && forall i {:trigger acts[i]} :: 0 <= i < |acts| ==> Step(k, tr[i], acts[i], tr[i + 1])
  }

  // ------------------------------------------------------------------
  // The invariant, which does not ask anyone to be in time
  // ------------------------------------------------------------------

  /** Whatever calls of the key do to the chapter is the key's edit of the key's revision. */
  ghost predicate OneEdit(k: Key, c: W.Sys) {
    && (forall p :: p in c.calls && k.ours(p) ==> c.calls[p].base == k.base && c.calls[p].edit == k.edit)
    && (forall p :: p in c.accepted && k.ours(p) ==> c.accepted[p] == W.Write(k.base, k.edit))
  }

  ghost predicate Written(k: Key, c: W.Sys) { exists p :: p in c.accepted && k.ours(p) }

  /** A result in sight is that of a write of the key which was accepted. */
  ghost predicate Sees(k: Key, c: W.Sys, doc: R.Doc) {
    doc.data.result.Some? ==> doc.data.result.value == ResultOf(k) && Written(k, c)
  }

  ghost predicate Told(k: Key, s: Sys) {
    && (s.reserved.doc.Some? ==> Sees(k, s.chapter, s.reserved.doc.value))
    && (forall p :: p in s.reserved.calls && s.reserved.calls[p].Looking? ==>
          Sees(k, s.chapter, s.reserved.calls[p].snap))
  }

  /** A call whose write was accepted had begun, and is at work or done. */
  ghost predicate Entered(k: Key, s: Sys) {
    && s.reserved.calls.Keys <= s.reserved.begun
    && forall p :: p in s.chapter.accepted && k.ours(p) ==>
         p in s.reserved.begun && (p in s.reserved.calls ==> s.reserved.calls[p].InFlight?)
  }

  ghost predicate Inv(k: Key, s: Sys) { W.Inv(s.chapter) && OneEdit(k, s.chapter) && Told(k, s) && Entered(k, s) }

  lemma InitInv(k: Key, s: Sys)
    requires Init(s)
    ensures Inv(k, s)
  {
  }

  lemma ReserveKeeps(k: Key, s: Sys, a: R.Act, s': Sys)
    requires Told(k, s) && Claims(k, a) && R.Step(s.reserved, a, s'.reserved) && s'.chapter == s.chapter
    ensures Told(k, s')
  {
    hide Written;
  }

  lemma NoteKeeps(k: Key, s: Sys, pid: Pid, s': Sys)
    requires Told(k, s) && Step(k, s, Note(pid), s')
    ensures Told(k, s')
  {
    assert Written(k, s.chapter);
  }

  lemma ReserveKeepsEntered(k: Key, s: Sys, a: R.Act, s': Sys)
    requires Entered(k, s) && R.Step(s.reserved, a, s'.reserved) && s'.chapter == s.chapter
    ensures Entered(k, s')
  {
  }

  lemma EditKeepsEntered(k: Key, s: Sys, a: W.Act, s': Sys)
    requires Entered(k, s) && May(k, s, a) && W.Step(s.chapter, a, s'.chapter) && s'.reserved == s.reserved
    ensures Entered(k, s')
  {
  }

  lemma EditKeepsOneEdit(k: Key, s: Sys, a: W.Act, s': Sys)
    requires OneEdit(k, s.chapter) && May(k, s, a) && W.Step(s.chapter, a, s'.chapter)
    ensures OneEdit(k, s'.chapter)
  {
  }

  lemma EditKeepsTold(k: Key, s: Sys, s': Sys)
    requires Told(k, s) && W.Later(s.chapter, s'.chapter) && s'.reserved == s.reserved
    ensures Told(k, s')
  {
    if p :| p in s.chapter.accepted && k.ours(p) { assert p in s'.chapter.accepted; }
  }

  lemma StepInv(k: Key, s: Sys, a: Act, s': Sys)
    requires Inv(k, s) && Step(k, s, a, s')
    ensures Inv(k, s')
  {
    hide W.Inv, W.Step, R.Step, OneEdit, Told, Entered, Claims, May, W.Later;
    match a
    case Reserve(r) =>
      ReserveKeeps(k, s, r, s');
      ReserveKeepsEntered(k, s, r, s');
    case Note(pid) =>
      NoteKeeps(k, s, pid, s');
      ReserveKeepsEntered(k, s, R.Record(pid, ResultOf(k)), s');
    case Edit(w) =>
      W.StepKeeps(s.chapter, w, s'.chapter);
      EditKeepsOneEdit(k, s, w, s');
      EditKeepsTold(k, s, s');
      EditKeepsEntered(k, s, w, s');
  }

  lemma {:induction false} RunInv(k: Key, tr: seq<Sys>, acts: seq<Act>, n: nat)
    requires Run(k, tr, acts) && n < |tr|
    ensures Inv(k, tr[n])
  {
    hide Inv, Step;
    if n == 0 {
      InitInv(k, tr[0]);
    } else {
      RunInv(k, tr, acts, n - 1);
      StepInv(k, tr[n - 1], acts[n - 1], tr[n]);
    }
  }

  // ------------------------------------------------------------------
  // What a repeated call is told
  // ------------------------------------------------------------------

  /** p's write is the only one of the key that was ever accepted, and it is the key's edit of the content at
      the key's revision, in the chapter's history as the one successor of that row. */
  ghost predicate TheWrite(k: Key, c: W.Sys, p: Pid) {
    && p in c.accepted && k.ours(p) && c.accepted[p] == W.Write(k.base, k.edit) && W.Succeeds(c.log, c.accepted[p])
    && forall q :: q in c.accepted && c.accepted[q].base == k.base ==> q == p
  }

  /** In every run, even one in which reservations expire under their owners, are collected or are released after
      the write: at any moment at most one call of the key has taken effect. */
  lemma TakesEffectAtMostOnce(k: Key, tr: seq<Sys>, acts: seq<Act>, n: nat, p: Pid)
    requires Run(k, tr, acts) && n < |tr| && p in tr[n].chapter.accepted && k.ours(p)
    ensures TheWrite(k, tr[n].chapter, p)
  {
    RunInv(k, tr, acts, n);
  }

  /** In every such run a replay is told the result of the one write that took effect. */
  lemma ReplayTellsTheWrite(k: Key, tr: seq<Sys>, acts: seq<Act>, n: nat)
    requires Run(k, tr, acts) && n < |acts| && acts[n].Reserve? && acts[n].a.Replay?
    ensures var s, q := tr[n], acts[n].a.pid;
            && q in s.reserved.calls && s.reserved.calls[q].Looking?
            && s.reserved.calls[q].snap.data.result == Some(k.base + 1)
            && k.base + 1 in s.chapter.log
            && exists p :: p != q && TheWrite(k, s.chapter, p)
  {
    hide TheWrite, W.Inv, OneEdit;
    var s, q := tr[n], acts[n].a.pid;
    RunInv(k, tr, acts, n);
    assert Step(k, s, acts[n], tr[n + 1]);
    var p :| p in s.chapter.accepted && k.ours(p);
    TakesEffectAtMostOnce(k, tr, acts, n, p);
    WriteIsLogged(k, s.chapter, p);
  }

  lemma WriteIsLogged(k: Key, c: W.Sys, p: Pid)
    requires TheWrite(k, c, p)
    ensures k.base + 1 in c.log
  {
  }
}
