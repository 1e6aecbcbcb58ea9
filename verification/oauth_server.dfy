/**
 The authorization server's operations as code over the stored documents.  Every
 store operation is preceded by Interfere, which lets any number of other requests
 and the environment take any number of steps of the lineage machine; every write
 of the operation itself is a step of that machine.
 */
module OAuthServer {
  import opened Prelude
  import opened OAuthLineage
  import opened OAuthEffects

  datatype Refusal = InvalidGrant | RevokedGrant

  function Actor(a: Act): Option<Pid> {
    match a
    case DoTick(_) => None
    case DoCollectTxn(_) => None
    case DoCollectCode(_) => None
    case DoCollectToken(_) => None
    case DoAuthorize(_, _) => None
    case _ => Some(a.pid)
  }

  ghost predicate SameAt<T(!new)>(m: map<Pid, T>, m': map<Pid, T>, pid: Pid) {
    (pid in m <==> pid in m') && (pid in m ==> m'[pid] == m[pid])
  }

  /** Nobody else moves a request. */
  ghost predicate KeepsOwn(s: Sys, s': Sys, pid: Pid) {
    && SameAt(s.finishing, s'.finishing, pid) && SameAt(s.saving, s'.saving, pid)
    && SameAt(s.redeeming, s'.redeeming, pid) && SameAt(s.refreshing, s'.refreshing, pid)
    && SameAt(s.minting, s'.minting, pid) && SameAt(s.revoking, s'.revoking, pid)
    && SameAt(s.marking, s'.marking, pid) && SameAt(s.querying, s'.querying, pid)
  }

  ghost predicate Idle(s: Sys, pid: Pid) {
    && pid !in s.finishing && pid !in s.saving && pid !in s.redeeming && pid !in s.refreshing
    && pid !in s.minting && pid !in s.revoking && pid !in s.marking && pid !in s.querying
  }

  /** What a request may count on across other requests' steps. */
  ghost predicate Rely(s: Sys, s': Sys, pid: Pid) { Inv(s') && Later(s, s') && KeepsOwn(s, s', pid) }

  lemma TxnStepKeepsOwn(s: Sys, a: Act, s': Sys, pid: Pid)
    requires Step(s, a, s') && Actor(a) != Some(pid) && IsTxnStep(a)
    ensures KeepsOwn(s, s', pid)
  {
    hide CollectCode, SaveCode, BeginRedeem, SpoilCode, RedeemCode, Rotate, RevokePair, ReadFamily,
         CommitMint, RetryMint, BeginRevoke, RevokeOne, BeginReuse, MarkFamily, ListFamily, Tick,
         CollectToken, BeginRefresh, Misuse, Vanish;
  }

  lemma CodeStepKeepsOwn(s: Sys, a: Act, s': Sys, pid: Pid)
    requires Step(s, a, s') && Actor(a) != Some(pid) && IsCodeStep(a)
    ensures KeepsOwn(s, s', pid)
  {
    hide CollectTxn, Authorize, BeginFinish, Approve, Deny, RedeemCode, Rotate, RevokePair, ReadFamily,
         CommitMint, RetryMint, BeginRevoke, RevokeOne, BeginReuse, MarkFamily, ListFamily, Tick,
         CollectToken, BeginRefresh, Misuse, Vanish;
  }

  lemma GrantStepKeepsOwn(s: Sys, a: Act, s': Sys, pid: Pid)
    requires Step(s, a, s') && Actor(a) != Some(pid) && IsGrantStep(a)
    ensures KeepsOwn(s, s', pid)
  {
    hide CollectTxn, Authorize, BeginFinish, Approve, Deny, CollectCode, SaveCode, BeginRedeem,
         SpoilCode, RevokePair, ReadFamily, CommitMint, RetryMint, BeginRevoke, RevokeOne, BeginReuse,
         MarkFamily, ListFamily, Tick, CollectToken, BeginRefresh, Misuse, Vanish;
  }

  lemma MintStepKeepsOwn(s: Sys, a: Act, s': Sys, pid: Pid)
    requires Step(s, a, s') && Actor(a) != Some(pid) && IsMintStep(a)
    ensures KeepsOwn(s, s', pid)
  {
    hide CollectTxn, Authorize, BeginFinish, Approve, Deny, CollectCode, SaveCode, BeginRedeem,
         SpoilCode, RedeemCode, Rotate, BeginRevoke, RevokeOne, BeginReuse, MarkFamily, ListFamily, Tick,
         CollectToken, BeginRefresh, Misuse, Vanish;
  }

  lemma RevokeStepKeepsOwn(s: Sys, a: Act, s': Sys, pid: Pid)
    requires Step(s, a, s') && Actor(a) != Some(pid) && IsRevokeStep(a)
    ensures KeepsOwn(s, s', pid)
  {
    hide CollectTxn, Authorize, BeginFinish, Approve, Deny, CollectCode, SaveCode, BeginRedeem,
         SpoilCode, RedeemCode, Rotate, RevokePair, ReadFamily, CommitMint, RetryMint, Tick,
         CollectToken, BeginRefresh, Misuse, Vanish;
  }

  lemma OtherStepKeepsOwn(s: Sys, a: Act, s': Sys, pid: Pid)
    requires Step(s, a, s') && Actor(a) != Some(pid) && IsOtherStep(a)
    ensures KeepsOwn(s, s', pid)
  {
    hide CollectTxn, Authorize, BeginFinish, Approve, Deny, CollectCode, SaveCode, BeginRedeem,
         SpoilCode, RedeemCode, Rotate, RevokePair, ReadFamily, CommitMint, RetryMint, BeginRevoke,
         RevokeOne, BeginReuse, MarkFamily, ListFamily;
  }

  lemma OthersKeepOwn(s: Sys, a: Act, s': Sys, pid: Pid)
    requires Step(s, a, s') && Actor(a) != Some(pid)
    ensures KeepsOwn(s, s', pid)
  {
    hide Step, KeepsOwn;
    if IsTxnStep(a) { TxnStepKeepsOwn(s, a, s', pid); }
    else if IsCodeStep(a) { CodeStepKeepsOwn(s, a, s', pid); }
    else if IsGrantStep(a) { GrantStepKeepsOwn(s, a, s', pid); }
    else if IsMintStep(a) { MintStepKeepsOwn(s, a, s', pid); }
    else if IsRevokeStep(a) { RevokeStepKeepsOwn(s, a, s', pid); }
    else { OtherStepKeepsOwn(s, a, s', pid); }
  }

  /** Interfere's contract covers every sequence of steps of the environment and of other requests. */
  lemma {:induction false} OthersRely(tr: seq<Sys>, acts: seq<Act>, pid: Pid)
    requires |tr| == |acts| + 1 && Inv(tr[0])
    requires forall i {:trigger acts[i]} :: 0 <= i < |acts| ==>
        Step(tr[i], acts[i], tr[i + 1]) && Actor(acts[i]) != Some(pid)
    ensures Rely(tr[0], tr[|acts|], pid)
  {
    if acts == [] {
      LaterReflexive(tr[0]);
    } else {
      var n := |acts| - 1;
      OthersRely(tr[..n + 1], acts[..n], pid);
      OneMoreRely(tr[0], tr[n], acts[n], tr[n + 1], pid);
    }
  }

  lemma OneMoreRely(s: Sys, t: Sys, a: Act, u: Sys, pid: Pid)
    requires Rely(s, t, pid) && Step(t, a, u) && Actor(a) != Some(pid)
    ensures Rely(s, u, pid)
  {
    hide Inv, Later, Step;
    StepInv(t, a, u);
    StepLater(t, a, u);
    LaterTransitive(s, t, u);
    OthersKeepOwn(t, a, u, pid);
  }

  // What a request may read off the invariant at its own guarded writes.

  lemma FinishSnap(s: Sys, pid: Pid)
    requires Inv(s) && pid in s.finishing && Unmoved(s.db.txns, s.finishing[pid].txn, s.finishing[pid].snap)
    ensures s.db.txns[s.finishing[pid].txn] == s.finishing[pid].snap
  {
  }

  lemma SavingFresh(s: Sys, pid: Pid)
    requires Inv(s) && pid in s.saving
    ensures forall c :: c in s.log.issued ==> s.log.issued[c].txn != s.saving[pid].txn
    ensures s.saving[pid].txn in s.log.txns && AskedIn(s.saving[pid].consent, s.log.txns[s.saving[pid].txn])
  {
  }

  lemma RedeemSnap(s: Sys, pid: Pid)
    requires Inv(s) && pid in s.redeeming && Unmoved(s.db.codes, s.redeeming[pid].code, s.redeeming[pid].snap)
    ensures var c, d := s.redeeming[pid].code, s.redeeming[pid].snap.data;
            && s.db.codes[c] == s.redeeming[pid].snap && c in s.log.issued
            && Consent(d.client, d.subject, d.scopes) == s.log.issued[c].consent
            && forall f :: f in s.log.born ==> s.log.born[f].origin != FromCode(c)
  {
  }

  lemma RefreshSnap(s: Sys, pid: Pid)
    requires Inv(s) && pid in s.refreshing && Unmoved(s.db.tokens, s.refreshing[pid].token, s.refreshing[pid].snap)
    ensures s.db.tokens[s.refreshing[pid].token] == s.refreshing[pid].snap
  {
  }

  lemma LostCommit(s: Sys, pid: Pid)
    requires Inv(s) && pid in s.minting && s.minting[pid].phase.Committing?
    requires !CommitAccepted(s.db, s.minting[pid].grant.family, s.minting[pid].phase.snap)
    ensures RevokedFamily(s.db, s.minting[pid].grant.family)
  {
    LostMeansMarked(s.db, s.minting, pid);
  }

  lemma WonCommit(s: Sys, pid: Pid)
    requires Inv(s) && pid in s.minting && s.minting[pid].phase.Committing?
    requires CommitAccepted(s.db, s.minting[pid].grant.family, s.minting[pid].phase.snap)
    ensures !RevokedFamily(s.db, s.minting[pid].grant.family)
    ensures s.minting[pid].grant.access != s.minting[pid].grant.refresh
  {
    CommitNeedsUnrevoked(s, pid);
  }

  lemma LaterFamily(s: Sys, s': Sys, f: Id)
    requires Later(s, s') && RevokedFamily(s.db, f)
    ensures RevokedFamily(s'.db, f)
    ensures forall h :: LiveToken(s'.db, f, h) ==> LiveToken(s.db, f, h)
  {
  }

  lemma LaterToken(s: Sys, s': Sys, h: Id)
    requires Later(s, s') && h in s.db.tokens
    ensures h in s'.db.tokens ==> SameButRevoked(s.db.tokens[h].data, s'.db.tokens[h].data)
    ensures h !in s'.db.tokens ==> Gone(s', h) && Expired(s.db.tokens[h].data.expires, s'.db.now)
  {
  }

  lemma RevokedIsDead(s: Sys, h: Id)
    requires Inv(s) && h in s.db.tokens && s.db.tokens[h].data.revoked
    ensures Dead(s, h)
  {
    StoredHolds(s);
  }

  lemma DeadStays(s: Sys, s': Sys, h: Id)
    requires Later(s, s') && Dead(s, h)
    ensures Dead(s', h)
  {
  }

  /** A code that could be redeemed by this client. */
  predicate Redeemable(db: Db, code: Id, client: Id) {
    code in db.codes && RedeemUsable(db, client, db.codes[code].data)
  }

  /** A refresh token that this client could spend. */
  predicate Spendable(db: Db, h: Id, client: Id) {
    h in db.tokens && RefreshUsable(db, db.tokens[h].data) && db.tokens[h].data.client == client
  }

  /** A transaction that could be finished. */
  predicate Finishable(db: Db, id: Id) { id in db.txns && FinishUsable(db, db.txns[id]) }

  lemma LostTxn(s: Sys, s': Sys, id: Id)
    requires Later(s, s') && id in s.db.txns && !Unmoved(s'.db.txns, id, s.db.txns[id])
    ensures !Finishable(s'.db, id)
  {
    hide Ahead, CodesLast, TokensLast;
  }

  lemma LostCode(s: Sys, s': Sys, code: Id)
    requires Later(s, s') && code in s.db.codes && !Unmoved(s'.db.codes, code, s.db.codes[code])
    ensures code !in s'.db.codes
  {
    hide Ahead, TxnsLast, TokensLast;
  }

  lemma LostToken(s: Sys, s': Sys, h: Id, client: Id)
    requires Later(s, s') && h in s.db.tokens && !Unmoved(s'.db.tokens, h, s.db.tokens[h])
    ensures !Spendable(s'.db, h, client)
  {
    hide Ahead, TxnsLast, CodesLast;
  }

  /** A stored, unexpired refresh token of this client that was already spent or revoked. */
  predicate Reveals(db: Db, h: Id, client: Id, now: int) {
    && h in db.tokens
    && var t := db.tokens[h].data;
       t.kind == Refresh && t.client == client && t.revoked && !Expired(t.expires, now)
  }

  function FamilyIn(db: Db, h: Id): Option<Id> { if h in db.tokens then db.tokens[h].data.family else None }

  /** The family is marked, and none of its tokens is live. */
  ghost predicate LineageDead(db: Db, f: Id) { RevokedFamily(db, f) && forall h :: !LiveToken(db, f, h) }

  lemma LaterClock(s: Sys, s': Sys)
    requires Later(s, s')
    ensures s.db.now <= s'.db.now && Grows(s.log.issued, s'.log.issued) && Grows(s.log.born, s'.log.born)
  {
  }

  /** The pair of a grant is stored and unrevoked. */
  ghost predicate Stores(db: Db, g: Grant, accessExpires: int, refreshExpires: int) {
    && g.access in db.tokens && db.tokens[g.access].data == Minted(g, Access, accessExpires)
    && g.refresh in db.tokens && db.tokens[g.refresh].data == Minted(g, Refresh, refreshExpires)
  }

  lemma OneBirth(s: Sys, code: Id, f: Id)
    requires Inv(s) && f in s.log.born && s.log.born[f].origin == FromCode(code)
    ensures code !in s.db.codes
    ensures forall g :: g in s.log.born && s.log.born[g].origin == FromCode(code) ==> g == f
  {
  }

  /** The grant carries the code's consent, and its family is the only one founded on the code. */
  ghost predicate SoleFounder(log: Log, code: Id, g: Grant) {
    && code in log.issued && Consent(g.client, g.uid, g.scopes) == log.issued[code].consent
    && g.family in log.born && log.born[g.family].origin == FromCode(code)
    && (forall f :: f in log.born && log.born[f].origin == FromCode(code) ==> f == g.family)
  }

  lemma StaysFounder(s: Sys, s': Sys, code: Id, g: Grant)
    requires Later(s, s') && Inv(s') && SoleFounder(s.log, code, g)
    ensures SoleFounder(s'.log, code, g) && code !in s'.db.codes
  {
    hide Inv, Later;
    LaterClock(s, s');
    OneBirth(s', code, g.family);
  }

  lemma FounderIsNew(s: Sys, s': Sys, code: Id, g: Grant)
    requires Later(s, s') && SoleFounder(s'.log, code, g)
    requires forall f :: f in s.log.born ==> s.log.born[f].origin != FromCode(code)
    ensures g.family in s'.log.born && g.family !in s.log.born
  {
    hide Later;
    LaterClock(s, s');
  }

  datatype Attempt = Saved | Refused | Lost

  datatype LoadRefusal = Missing | Replayed(family: Option<Id>)

  /** Of tokens, only one and its pair are revoked, and nothing else is touched. */
  ghost predicate OnlyItsPair(e: set<Effect>, db: Db, h: Id) {
    forall x :: x in e ==> x == Revokes(h) || (x.Revokes? && (h in db.tokens ==> x.token == db.tokens[h].data.pair))
  }

  /** Only a family is marked and its tokens revoked. */
  ghost predicate OnlyFamily(e: set<Effect>, db: Db, f: Id) {
    forall x :: x in e ==>
      x == Marks(f) || (x.Revokes? && (x.token in db.tokens ==> db.tokens[x.token].data.family == Some(f)))
  }

  lemma NothingTaken(e: set<Effect>, db: Db, h: Id)
    requires e == {}
    ensures OnlyItsPair(e, db, h)
  {
  }

  lemma PairTaken(e: set<Effect>, db: Db, h: Id, pair: Id)
    requires e <= {Revokes(h), Revokes(pair)} && (h in db.tokens ==> db.tokens[h].data.pair == pair)
    ensures OnlyItsPair(e, db, h)
  {
  }

  lemma StaysInFamily(s: Sys, s': Sys, f: Id, listed: set<Id>)
    requires Later(s, s') && forall h :: h in listed ==> h in s.db.tokens && s.db.tokens[h].data.family == Some(f)
    ensures forall h :: h in listed && h in s'.db.tokens ==> s'.db.tokens[h].data.family == Some(f)
  {
    forall h | h in listed && h in s'.db.tokens ensures s'.db.tokens[h].data.family == Some(f) { LaterToken(s, s', h); }
  }

  class Server {
    var db: Db
    var log: Log            // which identifiers were drawn: stands for randomness that never repeats
    ghost var w: Sys        // which requests wait where; its db and log are not used
    ghost var done: set<Effect>     // what the requests served by this object's methods took away

    ghost function S(): Sys reads this { w.(db := db, log := log) }

    /** Other requests and the environment run. */
    method Interfere(ghost pid: Pid, ghost start: Sys)
      requires Inv(S()) && Later(start, S())
      modifies this
      ensures done == old(done)
      ensures Rely(old(S()), S(), pid) && Later(start, S())
    {
      LaterReflexive(S());
    }

    /** Account for an operation as a step of the machine taken by this request. */
    ghost method Advance(pid: Pid, start: Sys, before: Sys, a: Act, after: Sys)
      requires Inv(before) && Later(start, before) && Step(before, a, after) && Actor(a) == Some(pid)
      requires after.db == db && after.log == log
      modifies this`w, this`done
      ensures done == old(done) + EffectsOf(before, a)
      ensures S() == after && Inv(S()) && Later(before, S()) && Later(start, S())
    {
      hide Inv, Later, Step;
      StepInv(before, a, after);
      StepLater(before, a, after);
      LaterTransitive(start, before, after);
      done := done + EffectsOf(before, a);
      w := after;
    }

    /** The request ends without a further write. */
    ghost method Quit(pid: Pid, start: Sys)
      requires Inv(S()) && Later(start, S())
      modifies this`w, this`done
      ensures done == old(done)
      ensures Inv(S()) && Later(start, S()) && Idle(S(), pid)
    {
      hide Inv, Later;
      var s := S();
      Advance(pid, start, s, DoVanish(pid),
              s.(finishing := s.finishing - {pid}, saving := s.saving - {pid}, redeeming := s.redeeming - {pid},
                 refreshing := s.refreshing - {pid}, minting := s.minting - {pid}, revoking := s.revoking - {pid},
                 marking := s.marking - {pid}, querying := s.querying - {pid}));
    }

    /** new_secret and new_family_id. */
    method Draw() returns (family: Id, access: Id, refresh: Id)
      ensures FreshGrant(log, family, access, refresh)
    {
      OutsideExists(log.born.Keys);
      OutsideExists(log.secrets);
      family :| Above(log.born.Keys, family);
      access :| Above(log.secrets, access);
      refresh := access + 1;
    }

    method DrawCode() returns (code: Id)
      ensures code !in log.issued
    {
      OutsideExists(log.issued.Keys);
      code :| Above(log.issued.Keys, code);
    }

    /** finish_txn: a pending, unexpired transaction is finished by exactly one caller. */
    method FinishTxn(ghost pid: Pid, id: Id, status: Status, uid: Id) returns (r: Option<Txn>)
      requires Inv(S()) && Idle(S(), pid) && status != Pending
      modifies this
      ensures done == old(done) + if r.Some? then {Finishes(id)} else {}
      ensures Inv(S()) && Later(old(S()), S())
      ensures r.None? || status == Denied ==> Idle(S(), pid)
      ensures r.None? ==> !Finishable(db, id)
      ensures r.Some? ==> r.value.status == Pending && id in db.txns && db.txns[id].data == r.value.(status := status)
      ensures r.Some? && status == Completed ==>
                && pid in S().saving && S().saving[pid] == Saving(id, Consent(r.value.client, uid, r.value.scopes))
    {
      hide Inv, Later;
      ghost var start := S();
      LaterReflexive(start);
      Interfere(pid, start);
      if id !in db.txns || !FinishUsable(db, db.txns[id]) { return None; }
      var snap := db.txns[id];
      ghost var s := S();
      Advance(pid, start, s, DoBeginFinish(pid, id, status, uid),
              s.(finishing := s.finishing[pid := Finishing(id, status, uid, snap)]));
      r := WinTxn(pid, start, id, status, uid, snap);
    }

    /** The guarded update. */
    method WinTxn(ghost pid: Pid, ghost start: Sys, id: Id, status: Status, ghost uid: Id, snap: Doc<Txn>)
      returns (r: Option<Txn>)
      requires Inv(S()) && Later(start, S()) && status != Pending && id in db.txns && db.txns[id] == snap
      requires pid in S().finishing && S().finishing[pid] == Finishing(id, status, uid, snap)
      requires Idle(S().(finishing := S().finishing - {pid}), pid) && snap.data.status == Pending
      modifies this
      ensures done == old(done) + if r.Some? then {Finishes(id)} else {}
      ensures Inv(S()) && Later(start, S())
      ensures r.None? || status == Denied ==> Idle(S(), pid)
      ensures r.None? ==> !Finishable(db, id)
      ensures r.Some? ==> r.value.status == Pending && id in db.txns && db.txns[id].data == r.value.(status := status)
      ensures r.Some? && status == Completed ==>
                && pid in S().saving && S().saving[pid] == Saving(id, Consent(r.value.client, uid, r.value.scopes))
    {
      hide Inv, Later;
      ghost var asked := S();
      Interfere(pid, start);
      ghost var s := S();
      if !Unmoved(db.txns, id, snap) {
        LostTxn(asked, s, id);
        Quit(pid, start);
        return None;
      }
      FinishSnap(s, pid);
      db := FinishDb(db, id, status);
      r := Some(snap.data);
      if status == Completed {
        Advance(pid, start, s, DoApprove(pid),
                s.(finishing := s.finishing - {pid}, saving := s.saving[pid := SavingAfter(s.finishing[pid])],
                  db := db));
      } else {
        Advance(pid, start, s, DoDeny(pid), s.(finishing := s.finishing - {pid}, db := db));
      }
    }

    /** The user approves: the code that comes back is the first and only one of this transaction. */
    method CompleteAuthorization(ghost pid: Pid, id: Id, uid: Id, expires: int) returns (r: Option<Id>)
      requires Inv(S()) && Idle(S(), pid)
      modifies this
      ensures done == old(done) + if r.Some? then {Finishes(id)} else {}
      ensures Inv(S()) && Later(old(S()), S()) && Idle(S(), pid)
      ensures r.Some? ==>
                && r.value in db.codes && r.value in log.issued && log.issued[r.value].txn == id && id in log.txns
                && var t := log.txns[id];
                   db.codes[r.value].data == Code(t.client, uid, t.scopes, expires)
      ensures r.Some? ==> forall c :: c in log.issued && log.issued[c].txn == id ==> c == r.value
      ensures r.Some? ==> forall c :: c in old(log.issued) ==> old(log.issued)[c].txn != id
      ensures r.None? ==> !Finishable(db, id)
    {
      hide Inv, Later;
      ghost var start := S();
      var txn := FinishTxn(pid, id, Completed, uid);
      if txn == None { return None; }
      Interfere(pid, start);
      var code := DrawCode();
      ghost var s := S();
      SavingFresh(s, pid);
      LaterClock(start, s);
      var consent := Consent(txn.value.client, uid, txn.value.scopes);
      db := SaveCodeDb(db, code, consent, expires);
      log := log.(issued := log.issued[code := Issue(id, consent)]);
      Advance(pid, start, s, DoSaveCode(pid, code, expires), s.(saving := s.saving - {pid}, db := db, log := log));
      Quit(pid, start);
      r := Some(code);
    }

    /** One round of save_token_pair: read the family, then commit the batch under what was read. */
    method MintAttempt(ghost pid: Pid, ghost start: Sys, g: Grant, tries: nat, accessExpires: int, refreshExpires: int)
      returns (a: Attempt)
      requires Inv(S()) && Later(start, S()) && tries < MINT_ATTEMPTS
      requires pid in S().minting && S().minting[pid] == Mint(g, Reading, tries)
      modifies this
      ensures done == old(done)
      ensures Inv(S()) && Later(start, S())
      ensures a == Saved ==> Stores(db, g, accessExpires, refreshExpires) && !RevokedFamily(db, g.family)
                             && !RevokedFamily(start.db, g.family)
      ensures a != Saved ==> RevokedFamily(db, g.family)
      ensures if a == Lost && tries + 1 < MINT_ATTEMPTS
              then pid in S().minting && S().minting[pid] == Mint(g, Reading, tries + 1)
              else Idle(S(), pid)
    {
      hide Inv, Later;
      Interfere(pid, start);
      if RevokedFamily(db, g.family) {
        Quit(pid, start);
        return Refused;
      }
      var snap := Lookup(db.fams, g.family);
      ghost var s := S();
      Advance(pid, start, s, DoReadFamily(pid), s.(minting := s.minting[pid := Mint(g, Committing(snap), tries)]));
      a := CommitAttempt(pid, start, g, tries, snap, accessExpires, refreshExpires);
    }

    method CommitAttempt(ghost pid: Pid, ghost start: Sys, g: Grant, tries: nat, snap: Option<Doc<Family>>,
                         accessExpires: int, refreshExpires: int)
      returns (a: Attempt)
      requires Inv(S()) && Later(start, S()) && tries < MINT_ATTEMPTS
      requires pid in S().minting && S().minting[pid] == Mint(g, Committing(snap), tries)
      modifies this
      ensures done == old(done)
      ensures Inv(S()) && Later(start, S())
      ensures a == Saved ==> Stores(db, g, accessExpires, refreshExpires) && !RevokedFamily(db, g.family)
                             && !RevokedFamily(start.db, g.family)
      ensures a != Saved ==> RevokedFamily(db, g.family)
      ensures if a == Lost && tries + 1 < MINT_ATTEMPTS
              then pid in S().minting && S().minting[pid] == Mint(g, Reading, tries + 1)
              else Idle(S(), pid)
    {
      hide Inv, Later;
      Interfere(pid, start);
      if CommitAccepted(db, g.family, snap) {
        CommitBatch(pid, start, g, tries, snap, accessExpires, refreshExpires);
        return Saved;
      }
      LostCommit(S(), pid);
      if tries + 1 < MINT_ATTEMPTS {
        ghost var s := S();
        Advance(pid, start, s, DoRetryMint(pid), s.(minting := s.minting[pid := Mint(g, Reading, tries + 1)]));
      } else {
        Quit(pid, start);
      }
      return Lost;
    }

    /** The batch, which the store accepts. */
    method CommitBatch(ghost pid: Pid, ghost start: Sys, g: Grant, ghost tries: nat, ghost snap: Option<Doc<Family>>,
                       accessExpires: int, refreshExpires: int)
      requires Inv(S()) && Later(start, S()) && CommitAccepted(db, g.family, snap)
      requires pid in S().minting && S().minting[pid] == Mint(g, Committing(snap), tries)
      modifies this
      ensures done == old(done)
      ensures Inv(S()) && Later(start, S()) && Idle(S(), pid)
      ensures Stores(db, g, accessExpires, refreshExpires)
      ensures !RevokedFamily(db, g.family) && !RevokedFamily(start.db, g.family)
    {
      hide Inv, Later;
      ghost var s := S();
      WonCommit(s, pid);
      if RevokedFamily(start.db, g.family) { LaterFamily(start, s, g.family); }
      db := CommitDb(db, g, accessExpires, refreshExpires);
      Advance(pid, start, s, DoCommitMint(pid, accessExpires, refreshExpires),
        s.(minting := s.minting - {pid}, db := db));
      Quit(pid, start);
    }

    /** save_token_pair: it fails only in a revoked family, and always fails in one that was revoked before. */
    method SaveTokenPair(ghost pid: Pid, g: Grant, accessExpires: int, refreshExpires: int) returns (saved: bool)
      requires Inv(S()) && pid in S().minting && S().minting[pid] == Mint(g, Reading, 0)
      modifies this
      ensures done == old(done)
      ensures Inv(S()) && Later(old(S()), S()) && Idle(S(), pid)
      ensures saved ==> Stores(db, g, accessExpires, refreshExpires) && !RevokedFamily(db, g.family)
      ensures !saved ==> RevokedFamily(db, g.family)
      ensures old(RevokedFamily(db, g.family)) ==> !saved
    {
      hide Inv, Later;
      ghost var start := S();
      LaterReflexive(start);
      var tries := 0;
      while tries < MINT_ATTEMPTS
        invariant tries <= MINT_ATTEMPTS && Inv(S()) && Later(start, S()) && done == old(done)
        invariant if tries < MINT_ATTEMPTS then pid in S().minting && S().minting[pid] == Mint(g, Reading, tries)
                  else Idle(S(), pid)
        invariant tries > 0 ==> RevokedFamily(db, g.family)
      {
        var a := MintAttempt(pid, start, g, tries, accessExpires, refreshExpires);
        if a != Lost { return a == Saved; }
        tries := tries + 1;
      }
      return false;
    }

    /** Redeeming a code: whoever gets tokens is the only one ever to found a family on it. */
    method ExchangeAuthorizationCode(ghost pid: Pid, code: Id, client: Id, accessExpires: int, refreshExpires: int)
      returns (r: Result<Grant, Refusal>, ghost at: Sys)
      requires Inv(S()) && Idle(S(), pid)
      modifies this
      ensures done <= old(done) + {Deletes(code)}
      ensures Inv(S()) && Later(old(S()), S()) && Idle(S(), pid)
      ensures r == Err(InvalidGrant) ==> code !in db.codes
      ensures r == Err(InvalidGrant) ==> Later(old(S()), at) && Later(at, S()) && !Redeemable(at.db, code, client)
      ensures r == Err(RevokedGrant) ==> exists f :: RevokedFamily(db, f) && f in log.born && f !in old(log.born)
      ensures r.Ok? ==> Stores(db, r.value, accessExpires, refreshExpires) && r.value.client == client
      ensures r.Ok? ==> code !in db.codes && SoleFounder(log, code, r.value)
      ensures r.Ok? ==> forall f :: f in old(log.born) ==> old(log.born)[f].origin != FromCode(code)
    {
      hide Inv, Later, SoleFounder;
      ghost var start := S();
      LaterReflexive(start);
      var g;
      g, at := ConsumeCode(pid, code, client);
      if g == None { return Err(InvalidGrant), at; }
      ghost var s := S();
      var saved := SaveTokenPair(pid, g.value, accessExpires, refreshExpires);
      LaterTransitive(start, s, S());
      StaysFounder(s, S(), code, g.value);
      FounderIsNew(start, S(), code, g.value);
      r := if saved then Ok(g.value) else Err(RevokedGrant);
    }

    /** consume_code: the code is deleted by exactly one caller, who drew the family that is founded on it. */
    method ConsumeCode(ghost pid: Pid, code: Id, client: Id) returns (r: Option<Grant>, ghost at: Sys)
      requires Inv(S()) && Idle(S(), pid)
      modifies this
      ensures done <= old(done) + {Deletes(code)}
      ensures Inv(S()) && Later(old(S()), S())
      ensures r.None? ==> Idle(S(), pid) && code !in db.codes
      ensures r.None? ==> Later(old(S()), at) && Later(at, S()) && !Redeemable(at.db, code, client)
      ensures r.Some? ==>
                pid in S().minting && S().minting[pid] == Mint(r.value, Reading, 0) && r.value.client == client
      ensures r.Some? ==> SoleFounder(log, code, r.value)
      ensures r.Some? ==> forall f :: f in old(log.born) ==> old(log.born)[f].origin != FromCode(code)
    {
      hide Inv, Later;
      ghost var start := S();
      LaterReflexive(start);
      Interfere(pid, start);
      at := S();
      LaterReflexive(at);
      if code !in db.codes { return None, at; }
      var snap := db.codes[code];
      ghost var s := S();
      Advance(pid, start, s, DoBeginRedeem(pid, code, client),
        s.(redeeming := s.redeeming[pid := Redeeming(code, client, snap)]));
      r, at := SpendCode(pid, start, at, code, client, snap);
    }

    /** The guarded delete.  at is the moment it is tried. */
    method SpendCode(ghost pid: Pid, ghost start: Sys, ghost read: Sys, code: Id, client: Id, snap: Doc<Code>)
      returns (r: Option<Grant>, ghost at: Sys)
      requires Inv(S()) && Later(start, S()) && Later(read, S()) && code in read.db.codes && read.db.codes[code] == snap
      requires pid in S().redeeming && S().redeeming[pid] == Redeeming(code, client, snap)
      requires Idle(S().(redeeming := S().redeeming - {pid}), pid)
      modifies this
      ensures done <= old(done) + {Deletes(code)}
      ensures Inv(S()) && Later(start, S())
      ensures r.None? ==> Idle(S(), pid) && code !in db.codes
      ensures r.None? ==> Later(start, at) && Later(at, S()) && !Redeemable(at.db, code, client)
      ensures r.Some? ==>
                pid in S().minting && S().minting[pid] == Mint(r.value, Reading, 0) && r.value.client == client
      ensures r.Some? ==> SoleFounder(log, code, r.value)
      ensures r.Some? ==> forall f :: f in start.log.born ==> start.log.born[f].origin != FromCode(code)
    {
      hide Inv, Later;
      ghost var asked := S();
      Interfere(pid, start);
      ghost var s := S();
      at := s;
      LaterReflexive(at);
      LaterTransitive(read, asked, s);
      if !Unmoved(db.codes, code, snap) {
        LostCode(read, s, code);
        Quit(pid, at);
        LaterTransitive(start, at, S());
        return None, at;
      }
      RedeemSnap(s, pid);
      LaterClock(start, s);
      if !RedeemUsable(db, client, snap.data) {
        Spoil(pid, at, code);
        LaterTransitive(start, at, S());
        return None, at;
      }
      var family, access, refresh := Draw();
      var g := CodeGrant(snap.data, family, access, refresh);
      db := DeleteCode(db, code);
      log := BornFromCode(log, code, g);
      Advance(pid, start, s, DoRedeemCode(pid, family, access, refresh),
              s.(redeeming := s.redeeming - {pid}, db := db, minting := s.minting[pid := Mint(g, Reading, 0)],
                log := log));
      r := Some(g);
    }

    /** A code of another client, or an expired one, is deleted all the same. */
    method Spoil(ghost pid: Pid, ghost start: Sys, code: Id)
      requires Inv(S()) && Later(start, S()) && pid in S().redeeming && S().redeeming[pid].code == code
      requires SpoilCode(S(), pid, S().(redeeming := S().redeeming - {pid}, db := DeleteCode(db, code)))
      modifies this
      ensures done <= old(done) + {Deletes(code)}
      ensures Inv(S()) && Later(start, S()) && Idle(S(), pid) && code !in db.codes
    {
      hide Inv, Later;
      ghost var s := S();
      db := DeleteCode(db, code);
      Advance(pid, start, s, DoSpoilCode(pid), s.(redeeming := s.redeeming - {pid}, db := db));
      Quit(pid, start);
    }

    /** consume_refresh_token, then _mint_token_pair in the same lineage. */
    method ExchangeRefreshToken(ghost pid: Pid, h: Id, client: Id, asked: seq<Id>, accessExpires: int,
        refreshExpires: int)
      returns (r: Result<Grant, Refusal>)
      requires Inv(S()) && Idle(S(), pid)
      modifies this
      ensures OnlyItsPair(done - old(done), old(db), h)
      ensures Inv(S()) && Later(old(S()), S()) && Idle(S(), pid)
      ensures r.Ok? ==>
                Stores(db, r.value, accessExpires, refreshExpires) && (h in db.tokens ==> db.tokens[h].data.revoked)
      ensures r.Ok? && h in old(db.tokens) ==>
                var t := old(db.tokens)[h].data;
                && !t.revoked && t.kind == Refresh && t.client == client
                && r.value.uid == t.uid && r.value.client == t.client && r.value.scopes == Narrow(asked, t.scopes)
                && (t.family.Some? ==> r.value.family == t.family.value && !old(RevokedFamily(db, t.family.value)))
      ensures r == Err(InvalidGrant) ==> !Spendable(db, h, client)
      ensures r == Err(RevokedGrant) && h in old(db.tokens) && old(db.tokens)[h].data.family.Some? ==>
                RevokedFamily(db, old(db.tokens)[h].data.family.value)
    {
      hide Inv, Later;
      ghost var start := S();
      LaterReflexive(start);
      var g := ConsumeRefreshToken(pid, h, client, asked);
      if g == None { return Err(InvalidGrant); }
      ghost var s := S();
      if RevokedFamily(start.db, g.value.family) { LaterFamily(start, s, g.value.family); }
      var saved := SaveTokenPair(pid, g.value, accessExpires, refreshExpires);
      LaterTransitive(start, s, S());
      DeadStays(s, S(), h);
      r := if saved then Ok(g.value) else Err(RevokedGrant);
    }

    /** consume_refresh_token: the token is spent by exactly one caller, and its access token with it. */
    method ConsumeRefreshToken(ghost pid: Pid, h: Id, client: Id, asked: seq<Id>) returns (r: Option<Grant>)
      requires Inv(S()) && Idle(S(), pid)
      modifies this
      ensures OnlyItsPair(done - old(done), old(db), h)
      ensures Inv(S()) && Later(old(S()), S())
      ensures r.None? ==> Idle(S(), pid) && !Spendable(db, h, client)
      ensures r.Some? ==> pid in S().minting && S().minting[pid] == Mint(r.value, Reading, 0) && Dead(S(), h)
      ensures r.Some? && h in old(db.tokens) ==>
                var t := old(db.tokens)[h].data;
                && !t.revoked && t.kind == Refresh && t.client == client
                && r.value.uid == t.uid && r.value.client == t.client && r.value.scopes == Narrow(asked, t.scopes)
                && (t.family.Some? ==> r.value.family == t.family.value)
    {
      hide Inv, Later;
      ghost var start := S();
      LaterReflexive(start);
      Interfere(pid, start);
      if h !in db.tokens || !RefreshUsable(db, db.tokens[h].data) { return None; }
      var snap := db.tokens[h];
      var t := snap.data;
      ghost var s := S();
      if h in start.db.tokens { LaterToken(start, s, h); }
      Advance(pid, start, s, DoBeginRefresh(pid, h, client, asked),
              s.(refreshing := s.refreshing[pid := Refreshing(h, client, asked, snap)]));
      r := SpendRefreshToken(pid, start, s, h, client, asked, snap);
    }

    /** The guarded update, and what follows from winning it. */
    method SpendRefreshToken(ghost pid: Pid, ghost start: Sys, ghost read: Sys, h: Id, client: Id, asked: seq<Id>,
                             snap: Doc<Token>)
      returns (r: Option<Grant>)
      requires Inv(S()) && Later(start, S()) && Later(read, S()) && h in read.db.tokens && read.db.tokens[h] == snap
      requires pid in S().refreshing && S().refreshing[pid] == Refreshing(h, client, asked, snap)
      requires Idle(S().(refreshing := S().refreshing - {pid}), pid)
      modifies this
      ensures done <= old(done) + {Revokes(h), Revokes(snap.data.pair)}
      ensures Inv(S()) && Later(start, S())
      ensures r.None? ==> Idle(S(), pid) && !Spendable(db, h, client)
      ensures r.Some? ==>
                && pid in S().minting && S().minting[pid] == Mint(r.value, Reading, 0) && Dead(S(), h)
                && var t := snap.data;
                   && t.client == client && r.value.uid == t.uid && r.value.client == t.client
                   && r.value.scopes == Narrow(asked, t.scopes) && (t.family.Some? ==> r.value.family == t.family.value)
    {
      hide Inv, Later, Dead;
      ghost var waiting := S();
      Interfere(pid, start);
      ghost var s := S();
      if !Unmoved(db.tokens, h, snap) {
        LaterTransitive(read, waiting, s);
        LostToken(read, s, h, client);
        Quit(pid, start);
        return None;
      }
      RefreshSnap(s, pid);
      if snap.data.client != client {
        RefuseMisuse(pid, start, h, snap.data.pair);
        return None;
      }
      var family, access, refresh := Draw();
      var g := RefreshGrant(snap.data, asked, family, access, refresh);
      db := RevokeDoc(db, h);
      log := BornFromToken(log, h, snap.data, g);
      Advance(pid, start, s, DoRotate(pid, family, access, refresh),
              s.(refreshing := s.refreshing - {pid}, db := db,
                 minting := s.minting[pid := Mint(g, Unpairing(snap.data.pair), 0)], log := log));
      RevokedIsDead(S(), h);
      RevokeOldAccess(pid, start, h, snap.data.pair, g);
      r := Some(g);
    }

    /** Another client presented the token: it and its access token are revoked, and nothing is minted. */
    method RefuseMisuse(ghost pid: Pid, ghost start: Sys, h: Id, pair: Id)
      requires Inv(S()) && Later(start, S()) && pid in S().refreshing && pid !in S().revoking
      requires var r := S().refreshing[pid];
               r.token == h && r.snap.data.client != r.client && Unmoved(db.tokens, h, r.snap)
                 && r.snap.data.pair == pair
      modifies this
      ensures done <= old(done) + {Revokes(h), Revokes(pair)}
      ensures Inv(S()) && Later(start, S()) && Idle(S(), pid)
      ensures h in db.tokens ==> db.tokens[h].data.revoked
      ensures pair in db.tokens ==> db.tokens[pair].data.revoked
    {
      hide Inv, Later;
      ghost var s := S();
      db := RevokeDoc(db, h);
      Advance(pid, start, s, DoMisuse(pid),
              s.(refreshing := s.refreshing - {pid}, db := db, revoking := s.revoking[pid := {pair}]));
      ghost var refused := S();
      RevokedIsDead(refused, h);
      RevokeQuietly(pid, start, pair);
      DeadStays(refused, S(), h);
      Quit(pid, start);
    }

    method RevokeOldAccess(ghost pid: Pid, ghost start: Sys, ghost h: Id, pair: Id, g: Grant)
      requires Inv(S()) && Later(start, S()) && pid in S().minting && S().minting[pid] == Mint(g, Unpairing(pair), 0)
      requires Dead(S(), h)
      modifies this
      ensures done <= old(done) + {Revokes(pair)}
      ensures Inv(S()) && Later(start, S()) && pid in S().minting && S().minting[pid] == Mint(g, Reading, 0)
      ensures Dead(S(), h)
    {
      hide Inv, Later, Dead;
      ghost var s0 := S();
      Interfere(pid, start);
      ghost var s := S();
      DeadStays(s0, s, h);
      db := RevokeDoc(db, pair);
      Advance(pid, start, s, DoRevokePair(pid), s.(db := db, minting := s.minting[pid := Mint(g, Reading, 0)]));
      DeadStays(s, S(), h);
    }

    /** _revoke_quietly for one of the tokens this request set out to revoke. */
    method RevokeQuietly(ghost pid: Pid, ghost start: Sys, h: Id)
      requires Inv(S()) && Later(start, S()) && pid in S().revoking && h in S().revoking[pid]
      modifies this
      ensures done <= old(done) + {Revokes(h)}
      ensures Inv(S()) && Later(start, S()) && Later(old(S()), S())
      ensures h in db.tokens ==> db.tokens[h].data.revoked
      ensures pid in S().revoking && S().revoking[pid] == old(S().revoking[pid]) - {h}
    {
      hide Inv, Later;
      ghost var s0 := S();
      Interfere(pid, start);
      ghost var s := S();
      db := RevokeDoc(db, h);
      Advance(pid, start, s, DoRevokeOne(pid, h), s.(db := db, revoking := s.revoking[pid := s.revoking[pid] - {h}]));
      LaterTransitive(s0, s, S());
    }

    /** get_token.  What comes back is the stored token, unexpired when it was read; a token of a family revoked
        before the call is never returned, and one that is good at the end is. */
    method GetToken(ghost pid: Pid, h: Id, includeRevoked: bool) returns (r: Option<Token>, ghost at: Sys)
      requires Inv(S())
      modifies this
      ensures done == old(done)
      ensures Inv(S()) && Later(old(S()), S()) && Later(old(S()), at) && Later(at, S())
      ensures r.Some? ==> h in at.db.tokens && at.db.tokens[h].data == r.value && !Expired(r.value.expires, at.db.now)
      ensures r.Some? && !includeRevoked ==>
                !r.value.revoked && (r.value.family.Some? ==> !old(RevokedFamily(db, r.value.family.value)))
      ensures h in old(db.tokens) && h in db.tokens && !Expired(db.tokens[h].data.expires, db.now)
              && (includeRevoked || (!db.tokens[h].data.revoked
                    && (db.tokens[h].data.family.Some? ==> !RevokedFamily(db, db.tokens[h].data.family.value)))) ==>
                r.Some? && (if includeRevoked then SameButRevoked(old(db.tokens)[h].data, r.value)
                  else r.value == db.tokens[h].data)
    {
      hide Inv, Later;
      ghost var start := S();
      LaterReflexive(start);
      Interfere(pid, start);
      at := S();
      if h in start.db.tokens { LaterToken(start, at, h); }
      LaterReflexive(at);
      if h !in db.tokens { return None, at; }
      var t := db.tokens[h].data;
      if Expired(t.expires, db.now) { return None, at; }
      if includeRevoked { return Some(t), at; }
      if t.revoked { return None, at; }
      if t.family.None? { return Some(t), at; }
      Interfere(pid, at);
      LaterTransitive(start, at, S());
      LaterToken(at, S(), h);
      if RevokedFamily(start.db, t.family.value) { LaterFamily(start, S(), t.family.value); }
      if RevokedFamily(db, t.family.value) { return None, at; }
      return Some(t), at;
    }

    /** revoke_token_family: when it returns, the whole lineage is dead, whatever ran meanwhile. */
    method RevokeTokenFamily(ghost pid: Pid, f: Id) returns (revoked: nat)
      requires Inv(S()) && pid in S().marking && S().marking[pid] == f && pid !in S().querying && pid !in S().revoking
      requires Idle(S().(marking := S().marking - {pid}), pid)
      modifies this
      ensures OnlyFamily(done - old(done), db, f)
      ensures Inv(S()) && Later(old(S()), S()) && Idle(S(), pid)
      ensures LineageDead(db, f)
    {
      hide Inv, Later, LineageDead;
      ghost var start := S();
      LaterReflexive(start);
      MarkLineage(pid, start, f);
      ghost var s := S();
      var remaining := Listing(db, f);
      Advance(pid, start, s, DoListFamily(pid),
        s.(querying := s.querying - {pid}, revoking := s.revoking[pid := remaining]));
      ghost var listed := S();
      LaterReflexive(listed);
      revoked := RevokeListed(pid, listed, f, remaining);
      LaterTransitive(start, listed, S());
      StaysInFamily(listed, S(), f, remaining);
    }

    /** The mark, and then whatever runs before the query. */
    method MarkLineage(ghost pid: Pid, ghost start: Sys, f: Id)
      requires Inv(S()) && Later(start, S()) && pid in S().marking && S().marking[pid] == f
      requires Idle(S().(marking := S().marking - {pid}), pid)
      modifies this
      ensures done <= old(done) + {Marks(f)}
      ensures Inv(S()) && Later(start, S()) && RevokedFamily(db, f)
      ensures pid in S().querying && S().querying[pid] == f && Idle(S().(querying := S().querying - {pid}), pid)
    {
      hide Inv, Later;
      Interfere(pid, start);
      ghost var s := S();
      db := MarkDb(db, f);
      Advance(pid, start, s, DoMarkFamily(pid),
              s.(marking := s.marking - {pid}, db := db, querying := s.querying[pid := f]));
      ghost var marked := S();
      Interfere(pid, start);
      LaterFamily(marked, S(), f);
    }

    method RevokeListed(ghost pid: Pid, ghost start: Sys, f: Id, listed: set<Id>) returns (revoked: nat)
      requires Inv(S()) && Later(start, S()) && pid in S().revoking && S().revoking[pid] == listed
      requires RevokedFamily(db, f) && forall h :: LiveToken(db, f, h) ==> h in listed
      modifies this
      ensures forall x :: x in done ==> x in old(done) || (x.Revokes? && x.token in listed)
      ensures Inv(S()) && Later(start, S()) && Idle(S(), pid)
      ensures LineageDead(db, f)
      ensures revoked <= |listed|
    {
      hide Inv, Later;
      var remaining := listed;
      revoked := 0;
      while remaining != {}
        invariant Inv(S()) && Later(start, S()) && pid in S().revoking && S().revoking[pid] == remaining
        invariant RevokedFamily(db, f) && forall h :: LiveToken(db, f, h) ==> h in remaining
        invariant remaining <= listed && revoked <= |listed| - |remaining|
        invariant forall x :: x in done ==> x in old(done) || (x.Revokes? && x.token in listed)
        decreases remaining
      {
        var h :| h in remaining;
        ghost var s := S();
        RevokeQuietly(pid, start, h);
        LaterFamily(s, S(), f);
        if h in db.tokens { revoked := revoked + 1; }
        remaining := remaining - {h};
      }
      Quit(pid, start);
    }

    /** load_refresh_token: a token that was already rotated away kills its lineage. */
    method LoadRefreshToken(ghost pid: Pid, h: Id, client: Id)
      returns (r: Result<Token, LoadRefusal>, ghost at: Sys)
      requires Inv(S()) && Idle(S(), pid)
      modifies this
      ensures if r.Err? && r.error.Replayed? && r.error.family.Some?
          then OnlyFamily(done - old(done), db, r.error.family.value)
              else done == old(done)
      ensures Inv(S()) && Later(old(S()), S()) && Idle(S(), pid)
      ensures r.Ok? ==> r.value.kind == Refresh && r.value.client == client && !r.value.revoked
      ensures r.Err? && r.error.Replayed? && r.error.family.Some? ==> LineageDead(db, r.error.family.value)
      ensures Later(old(S()), at) && Later(at, S())
      ensures r.Err? && r.error.Replayed? ==>
                Reveals(at.db, h, client, at.db.now) && r.error.family == FamilyIn(at.db, h)
      ensures Reveals(old(db), h, client, db.now) ==> r == Err(Replayed(FamilyIn(old(db), h)))
      ensures r == Err(Missing) ==> !Spendable(db, h, client) && !Reveals(db, h, client, db.now)
      ensures r.Ok? ==> Spendable(db, h, client) && r.value == db.tokens[h].data
    {
      hide Inv, Later;
      ghost var start := S();
      LaterReflexive(start);
      Interfere(pid, start);
      ghost var s := S();
      LaterReflexive(s);
      at := s;
      if h in start.db.tokens { LaterToken(start, s, h); }
      if h !in db.tokens { return Err(Missing), at; }
      var t := db.tokens[h].data;
      if Expired(t.expires, db.now) || t.kind != Refresh || t.client != client { return Err(Missing), at; }
      if !t.revoked { return Ok(t), at; }
      r := Err(Replayed(t.family));
      if t.family.Some? {
        Advance(pid, start, s, DoBeginReuse(pid, h, client), s.(marking := s.marking[pid := t.family.value]));
        ghost var u := S();
        var _ := RevokeTokenFamily(pid, t.family.value);
        LaterTransitive(start, u, S());
        LaterTransitive(at, u, S());
      }
    }

    /** revoke_token: the token is dead when the call returns. */
    method RevokeToken(ghost pid: Pid, h: Id)
      requires Inv(S()) && Idle(S(), pid)
      modifies this
      ensures OnlyItsPair(done - old(done), old(db), h)
      ensures Inv(S()) && Later(old(S()), S()) && Idle(S(), pid)
      ensures h in old(db.tokens) ==> (h in db.tokens ==> db.tokens[h].data.revoked)
      ensures h in old(db.tokens) && !Expired(old(db.tokens)[h].data.expires, db.now) ==>
                var p := old(db.tokens)[h].data.pair; (p in db.tokens ==> db.tokens[p].data.revoked)
    {
      hide Inv, Later, OnlyItsPair, Dead;
      ghost var start := S();
      LaterReflexive(start);
      Interfere(pid, start);
      ghost var s := S();
      if h in start.db.tokens { LaterToken(start, s, h); }
      if h !in db.tokens {
        NothingTaken(done - old(done), start.db, h);
        return;
      }
      var pair := db.tokens[h].data.pair;
      Advance(pid, start, s, DoBeginRevoke(pid, h), s.(revoking := s.revoking[pid := {h, pair}]));
      RevokeBoth(pid, start, h, pair);
      PairTaken(done - old(done), start.db, h, pair);
    }

    /** The token, and then its pair. */
    method RevokeBoth(ghost pid: Pid, ghost start: Sys, h: Id, pair: Id)
      requires Inv(S()) && Later(start, S()) && pid in S().revoking && S().revoking[pid] == {h, pair}
      requires Idle(S().(revoking := S().revoking - {pid}), pid) && h in db.tokens && db.tokens[h].data.pair == pair
      modifies this
      ensures done <= old(done) + {Revokes(h), Revokes(pair)}
      ensures Inv(S()) && Later(start, S()) && Idle(S(), pid)
      ensures h in db.tokens ==> db.tokens[h].data.revoked
      ensures pair in db.tokens ==> db.tokens[pair].data.revoked
    {
      hide Inv, Later;
      ghost var s := S();
      RevokeQuietly(pid, start, h);
      LaterToken(s, S(), h);
      s := S();
      if h in s.db.tokens { RevokedIsDead(s, h); }
      LaterReflexive(s);
      if pair != h { RevokeQuietly(pid, start, pair); }
      DeadStays(s, S(), h);
      Quit(pid, start);
    }
  }
}
