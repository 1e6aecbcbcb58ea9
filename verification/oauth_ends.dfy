/** When a lineage is over: whether any token of a family can still be, or come to be, unrevoked. */
module OAuthEnds {
  import opened OAuthLineage

  /** Some token of the family is unrevoked, or a grant in flight may still be minted in it. */
  ghost predicate Lives(s: Sys, f: Id) {
    || (exists h :: LiveToken(s.db, f, h))
    || (!RevokedFamily(s.db, f) && exists p :: Holds(s.minting, p, f))
  }

  ghost predicate From(tr: seq<Sys>, acts: seq<Act>, s: Sys) {
    && |tr| == |acts| + 1 && tr[0] == s
    && forall i {:trigger acts[i]} :: 0 <= i < |acts| ==> Step(tr[i], acts[i], tr[i + 1])
  }

  /** However the run goes on, or has already come to it, a token of the family is unrevoked. */
  ghost predicate CanLive(s: Sys, f: Id) {
    exists tr: seq<Sys>, acts: seq<Act>, h: Id :: From(tr, acts, s) && LiveToken(tr[|acts|].db, f, h)
  }

  // ------------------------------------------------------------------
  // Where new grants and new tokens come from
  // ------------------------------------------------------------------

  /** A grant of a known family is drawn from an unused refresh token of it, by a rotation. */
  lemma NewHolder(s: Sys, a: Act, s': Sys, p: Pid, f: Id)
    requires Inv(s) && Step(s, a, s') && f in s.log.born && Holds(s'.minting, p, f) && !Holds(s.minting, p, f)
    ensures a.DoRotate? && a.pid in s.refreshing && Live(s.db.tokens, Refresh, s.refreshing[a.pid].token, f)
  {
    hide Front, SlotInv, MintInv, Drawn, Bound, KnownInv, LegacyUnspent, CollectTxn, Authorize, BeginFinish, Approve,
         Deny,
         CollectCode, SaveCode, BeginRedeem, SpoilCode, BeginRevoke, RevokeOne, BeginReuse, MarkFamily, ListFamily,
           Tick,
         CollectToken, BeginRefresh, Misuse, Vanish, ReadFamily, RevokePair, CommitMint, RetryMint;
    if !IsGrantStep(a) { OldHolder(s, a, s', p, f); }
  }

  lemma OldHolder(s: Sys, a: Act, s': Sys, p: Pid, f: Id)
    requires Step(s, a, s') && !IsGrantStep(a) && Holds(s'.minting, p, f)
    ensures Holds(s.minting, p, f)
  {
    hide Step, Holds;
    if IsTxnStep(a) || IsCodeStep(a) { FrontKeepsBack(s, a, s'); }
    else if IsMintStep(a) { MintStepHolders(s, a, s', p, f); }
    else { LateStepHolders(s, a, s', p, f); }
  }

  lemma FrontKeepsBack(s: Sys, a: Act, s': Sys)
    requires Step(s, a, s') && (IsTxnStep(a) || IsCodeStep(a))
    ensures s'.minting == s.minting && s'.db.tokens == s.db.tokens
  {
    hide RedeemCode, Rotate, RevokePair, ReadFamily, CommitMint, RetryMint, BeginRevoke, RevokeOne, BeginReuse,
         MarkFamily,
         ListFamily, Tick, CollectToken, BeginRefresh, Misuse, Vanish;
  }

  lemma MintStepHolders(s: Sys, a: Act, s': Sys, p: Pid, f: Id)
    requires Step(s, a, s') && IsMintStep(a) && Holds(s'.minting, p, f)
    ensures Holds(s.minting, p, f)
  {
    hide CollectTxn, Authorize, BeginFinish, Approve, Deny, CollectCode, SaveCode, BeginRedeem, SpoilCode, RedeemCode,
         Rotate, BeginRevoke, RevokeOne, BeginReuse, MarkFamily, ListFamily, Tick, CollectToken, BeginRefresh, Misuse,
         Vanish, CommitDb, RevokeDoc, CommitAccepted;
  }

  lemma LateStepHolders(s: Sys, a: Act, s': Sys, p: Pid, f: Id)
    requires Step(s, a, s') && (IsRevokeStep(a) || IsOtherStep(a)) && Holds(s'.minting, p, f)
    ensures Holds(s.minting, p, f)
  {
    hide CollectTxn, Authorize, BeginFinish, Approve, Deny, CollectCode, SaveCode, BeginRedeem, SpoilCode, RedeemCode,
         Rotate, RevokePair, ReadFamily, CommitMint, RetryMint, RevokeDoc, Listing, MarkDb, Unmoved;
  }

  /** A token becomes live only by the mint of a grant that was in flight. */
  lemma NewLive(s: Sys, a: Act, s': Sys, f: Id, h: Id)
    requires Step(s, a, s') && LiveToken(s'.db, f, h) && !LiveToken(s.db, f, h)
    ensures a.DoCommitMint? && Holds(s.minting, a.pid, f)
  {
    hide CollectTxn, Authorize, BeginFinish, Approve, Deny, CollectCode, SaveCode, BeginRedeem, SpoilCode, RedeemCode,
         ReadFamily, RetryMint, BeginRevoke, BeginReuse, MarkFamily, ListFamily, Tick, BeginRefresh, Vanish;
    if !a.DoCommitMint? { OldLive(s, a, s', f, h); }
  }

  lemma OldLive(s: Sys, a: Act, s': Sys, f: Id, h: Id)
    requires Step(s, a, s') && !a.DoCommitMint? && LiveToken(s'.db, f, h)
    ensures LiveToken(s.db, f, h)
  {
    hide Step;
    if IsTxnStep(a) || IsCodeStep(a) { FrontKeepsBack(s, a, s'); }
    else if IsGrantStep(a) || IsMintStep(a) { GrantStepTokens(s, a, s', f, h); }
    else if IsRevokeStep(a) { RevokeStepTokens(s, a, s', f, h); }
    else { OtherStepTokens(s, a, s', f, h); }
  }

  lemma RevokedNotRevived(db: Db, id: Id, f: Id, h: Id)
    ensures LiveToken(RevokeDoc(db, id), f, h) ==> LiveToken(db, f, h)
  {
  }

  lemma GrantStepTokens(s: Sys, a: Act, s': Sys, f: Id, h: Id)
    requires Step(s, a, s') && (IsGrantStep(a) || IsMintStep(a)) && !a.DoCommitMint? && LiveToken(s'.db, f, h)
    ensures LiveToken(s.db, f, h)
  {
    hide CollectTxn, Authorize, BeginFinish, Approve, Deny, CollectCode, SaveCode, BeginRedeem, SpoilCode, CommitMint,
         BeginRevoke, RevokeOne, BeginReuse, MarkFamily, ListFamily, Tick, CollectToken, BeginRefresh, Misuse, Vanish,
         RevokeDoc, FreshGrant, RedeemUsable, Unmoved, CommitAccepted;
    match a
    case DoRotate(pid, _, _, _) => RevokedNotRevived(s.db, s.refreshing[pid].token, f, h);
    case DoRevokePair(pid) => RevokedNotRevived(s.db, s.minting[pid].phase.pair, f, h);
    case _ =>
  }

  lemma RevokeStepTokens(s: Sys, a: Act, s': Sys, f: Id, h: Id)
    requires Step(s, a, s') && IsRevokeStep(a) && LiveToken(s'.db, f, h)
    ensures LiveToken(s.db, f, h)
  {
    hide CollectTxn, Authorize, BeginFinish, Approve, Deny, CollectCode, SaveCode, BeginRedeem, SpoilCode, RedeemCode,
         Rotate, RevokePair, ReadFamily, CommitMint, RetryMint, Tick, CollectToken, BeginRefresh, Misuse, Vanish,
         RevokeDoc, Listing, Replayed;
    match a
    case DoRevokeOne(_, id) => RevokedNotRevived(s.db, id, f, h);
    case _ =>
  }

  lemma OtherStepTokens(s: Sys, a: Act, s': Sys, f: Id, h: Id)
    requires Step(s, a, s') && IsOtherStep(a) && LiveToken(s'.db, f, h)
    ensures LiveToken(s.db, f, h)
  {
    hide CollectTxn, Authorize, BeginFinish, Approve, Deny, CollectCode, SaveCode, BeginRedeem, SpoilCode, RedeemCode,
         Rotate, RevokePair, ReadFamily, CommitMint, RetryMint, BeginRevoke, RevokeOne, BeginReuse, MarkFamily,
           ListFamily,
         RevokeDoc, Unmoved, Listing;
    match a
    case DoMisuse(pid) => RevokedNotRevived(s.db, s.refreshing[pid].token, f, h);
    case _ =>
  }

  // ------------------------------------------------------------------
  // An end is final
  // ------------------------------------------------------------------

  lemma EndIsFinal(s: Sys, a: Act, s': Sys, f: Id)
    requires Inv(s) && Step(s, a, s') && f in s.log.born && !Lives(s, f)
    ensures f in s'.log.born && !Lives(s', f)
  {
    hide Inv, Step, LiveToken, Holds, Live;
    StepLater(s, a, s');
    LaterKeeps(s, s', f);
    if h :| LiveToken(s'.db, f, h) { NewLive(s, a, s', f, h); }
    if p :| Holds(s'.minting, p, f) && !RevokedFamily(s'.db, f) {
      NewHolder(s, a, s', p, f);
      LiveIsLive(s, s.refreshing[a.pid].token, f);
    }
  }

  lemma LaterKeeps(s: Sys, s': Sys, f: Id)
    requires Later(s, s') && f in s.log.born
    ensures f in s'.log.born && (RevokedFamily(s.db, f) ==> RevokedFamily(s'.db, f))
    ensures RevokedFamily(s.db, f) ==> forall h :: LiveToken(s'.db, f, h) ==> LiveToken(s.db, f, h)
  {
  }

  lemma LiveIsLive(s: Sys, h: Id, f: Id)
    requires Live(s.db.tokens, Refresh, h, f)
    ensures LiveToken(s.db, f, h)
  {
  }

  lemma {:induction false} EndedForGood(tr: seq<Sys>, acts: seq<Act>, s: Sys, f: Id, n: nat)
    requires From(tr, acts, s) && n <= |acts| && Inv(s) && f in s.log.born && !Lives(s, f)
    ensures Inv(tr[n]) && f in tr[n].log.born && !Lives(tr[n], f)
  {
    hide Inv, Step, Lives;
    if n > 0 {
      EndedForGood(tr, acts, s, f, n - 1);
      assert Step(tr[n - 1], acts[n - 1], tr[n]);
      StepInv(tr[n - 1], acts[n - 1], tr[n]);
      EndIsFinal(tr[n - 1], acts[n - 1], tr[n], f);
    }
  }

  // ------------------------------------------------------------------
  // A grant in flight can land
  // ------------------------------------------------------------------

  lemma OneMore(tr: seq<Sys>, acts: seq<Act>, s: Sys, a: Act, s': Sys)
    requires From(tr, acts, s') && Step(s, a, s')
    ensures From([s] + tr, [a] + acts, s)
  {
    hide Step;
    var all, done := [s] + tr, [a] + acts;
    forall i | 0 <= i < |done| ensures Step(all[i], done[i], all[i + 1]) {
      if i > 0 { assert done[i] == acts[i - 1]; }
    }
  }

  lemma CanLiveSooner(s: Sys, a: Act, s': Sys, f: Id)
    requires Step(s, a, s') && CanLive(s', f)
    ensures CanLive(s, f)
  {
    hide Step, LiveToken;
    var tr: seq<Sys>, acts: seq<Act>, h: Id :| From(tr, acts, s') && LiveToken(tr[|acts|].db, f, h);
    OneMore(tr, acts, s, a, s');
    assert ([s] + tr)[|[a] + acts|] == tr[|acts|];
  }

  lemma LiveNow(s: Sys, f: Id, h: Id)
    requires LiveToken(s.db, f, h)
    ensures CanLive(s, f)
  {
    assert From([s], [], s);
  }

  lemma CommitLands(s: Sys, p: Pid, f: Id)
    requires MintInv(s.db.fams, s.db.next, s.minting) && Holds(s.minting, p, f) && !RevokedFamily(s.db, f)
    requires s.minting[p].phase.Committing? && s.minting[p].grant.access != s.minting[p].grant.refresh
    ensures CanLive(s, f)
  {
    hide CanLive;
    var s' := s.(minting := s.minting - {p}, db := CommitDb(s.db, s.minting[p].grant, s.db.now, s.db.now));
    assert CommitMint(s, p, s.db.now, s.db.now, s');
    assert LiveToken(s'.db, f, s.minting[p].grant.refresh);
    LiveNow(s', f, s.minting[p].grant.refresh);
    CanLiveSooner(s, DoCommitMint(p, s.db.now, s.db.now), s', f);
  }

  lemma MintParts(s: Sys, p: Pid)
    requires Inv(s) && p in s.minting
    ensures MintInv(s.db.fams, s.db.next, s.minting) && s.minting[p].grant.access != s.minting[p].grant.refresh
  {
  }

  lemma ReadLands(s: Sys, p: Pid, f: Id)
    requires Inv(s) && Holds(s.minting, p, f) && !RevokedFamily(s.db, f) && s.minting[p].phase.Reading?
    ensures CanLive(s, f)
  {
    hide Inv, CanLive;
    var s' := s.(minting := s.minting[p := s.minting[p].(phase := Committing(Lookup(s.db.fams, f)))]);
    assert ReadFamily(s, p, s');
    assert Step(s, DoReadFamily(p), s');
    StepInv(s, DoReadFamily(p), s');
    MintParts(s', p);
    CommitLands(s', p, f);
    CanLiveSooner(s, DoReadFamily(p), s', f);
  }

  lemma UnpairLands(s: Sys, p: Pid, f: Id)
    requires Inv(s) && Holds(s.minting, p, f) && !RevokedFamily(s.db, f) && s.minting[p].phase.Unpairing?
    ensures CanLive(s, f)
  {
    hide Inv, CanLive;
    var s' := s.(db := RevokeDoc(s.db, s.minting[p].phase.pair),
      minting := s.minting[p := s.minting[p].(phase := Reading)]);
    assert RevokePair(s, p, s');
    assert Step(s, DoRevokePair(p), s');
    StepInv(s, DoRevokePair(p), s');
    ReadLands(s', p, f);
    CanLiveSooner(s, DoRevokePair(p), s', f);
  }

  /** A family that was founded can still come to have an unrevoked token exactly if it has one now, or a
      grant of it is in flight and the family is not marked. */
  lemma CanLiveIff(s: Sys, f: Id)
    requires Inv(s) && f in s.log.born
    ensures CanLive(s, f) <==> Lives(s, f)
  {
    hide Inv, CanLive, LiveToken, Holds;
    if Lives(s, f) { LivesCanLive(s, f); } else { EndedCannot(s, f); }
  }

  lemma LivesCanLive(s: Sys, f: Id)
    requires Inv(s) && Lives(s, f)
    ensures CanLive(s, f)
  {
    hide Inv, CanLive, LiveToken;
    if h :| LiveToken(s.db, f, h) {
      LiveNow(s, f, h);
    } else {
      var p :| Holds(s.minting, p, f);
      MintParts(s, p);
      match s.minting[p].phase
      case Unpairing(_) => UnpairLands(s, p, f);
      case Reading => ReadLands(s, p, f);
      case Committing(_) => CommitLands(s, p, f);
    }
  }

  lemma EndedCannot(s: Sys, f: Id)
    requires Inv(s) && f in s.log.born && !Lives(s, f)
    ensures !CanLive(s, f)
  {
    hide Inv, LiveToken, Step, Lives;
    if tr: seq<Sys>, acts: seq<Act>, h: Id :| From(tr, acts, s) && LiveToken(tr[|acts|].db, f, h) {
      LivesNow(tr[|acts|], f, h);
      EndedForGood(tr, acts, s, f, |acts|);
    }
  }

  lemma LivesNow(s: Sys, f: Id, h: Id)
    requires LiveToken(s.db, f, h)
    ensures Lives(s, f)
  {
  }

  // ------------------------------------------------------------------
  // What revoking one token ends
  // ------------------------------------------------------------------

  /** No grant in flight, no unused refresh token, and no live access token but a. */
  ghost predicate OnlyAccess(s: Sys, f: Id, a: Id) {
    && f in s.log.born
    && (forall p :: !Holds(s.minting, p, f))
    && (forall h :: LiveToken(s.db, f, h) ==> h == a && s.db.tokens[h].data.kind == Access)
  }

  lemma OnlyAccessStays(s: Sys, act: Act, s': Sys, f: Id, a: Id)
    requires Inv(s) && Step(s, act, s') && OnlyAccess(s, f, a)
    ensures OnlyAccess(s', f, a)
  {
    hide Inv, Step;
    StepLater(s, act, s');
    KindsKept(s, s');
    LaterKeeps(s, s', f);
    forall h | LiveToken(s'.db, f, h) ensures h == a && s'.db.tokens[h].data.kind == Access {
      if !LiveToken(s.db, f, h) { NewLive(s, act, s', f, h); }
    }
    forall p ensures !Holds(s'.minting, p, f) {
      if Holds(s'.minting, p, f) {
        NewHolder(s, act, s', p, f);
        LiveIsLive(s, s.refreshing[act.pid].token, f);
      }
    }
  }

  lemma KindsKept(s: Sys, s': Sys)
    requires Later(s, s')
    ensures forall h :: h in s.db.tokens && h in s'.db.tokens ==> s'.db.tokens[h].data.kind == s.db.tokens[h].data.kind
  {
  }

  /** Revoking the unused refresh token of a family empties its slot. */
  lemma SlotIsEmptied(s: Sys, pid: Pid, h: Id, s': Sys, f: Id)
    requires Inv(s) && RevokeOne(s, pid, h, s') && Live(s.db.tokens, Refresh, h, f)
    ensures OnlyAccess(s', f, s.db.tokens[h].data.pair)
  {
    hide Front, MintInv, Drawn, KnownInv, LegacyUnspent, TokenSnaps;
    assert TokenWithin(s.db.tokens[h].data, s.log.born);
    forall k | LiveToken(s'.db, f, k) ensures k == s.db.tokens[h].data.pair && s'.db.tokens[k].data.kind == Access {
      assert Live(s.db.tokens, s.db.tokens[k].data.kind, k, f);
    }
  }

  lemma {:induction false} OnlyAccessOnwards(tr: seq<Sys>, acts: seq<Act>, i: nat, j: nat, f: Id, a: Id)
    requires Run(tr, acts) && i <= j < |tr| && OnlyAccess(tr[i], f, a)
    ensures OnlyAccess(tr[j], f, a)
    decreases j - i
  {
    hide Inv, Step, OnlyAccess;
    if i < j {
      OnlyAccessOnwards(tr, acts, i, j - 1, f, a);
      RunInv(tr, acts, j - 1);
      assert Step(tr[j - 1], acts[j - 1], tr[j]);
      OnlyAccessStays(tr[j - 1], acts[j - 1], tr[j], f, a);
    }
  }

  /** Revoking a refresh token that is still unused, and then its access token, ends the lineage for good. */
  lemma RevokingUnusedTokenEnds(tr: seq<Sys>, acts: seq<Act>, i: nat, j: nat, k: nat, h: Id, f: Id)
    requires Run(tr, acts) && i < j < k < |tr| && acts[i].DoRevokeOne? && acts[i].id == h
    requires Live(tr[i].db.tokens, Refresh, h, f)
    requires acts[j].DoRevokeOne? && acts[j].id == tr[i].db.tokens[h].data.pair
    ensures !Lives(tr[k], f) && !CanLive(tr[k], f)
  {
    hide Inv, Step, OnlyAccess, RevokeOne, Live, CanLive, Lives;
    var a := tr[i].db.tokens[h].data.pair by { assert h in tr[i].db.tokens by { LiveStored(tr[i], h, f); } }
    RunInv(tr, acts, i);
    RevokeStep(tr[i], acts[i], tr[i + 1]);
    SlotIsEmptied(tr[i], acts[i].pid, h, tr[i + 1], f);
    OnlyAccessOnwards(tr, acts, i + 1, j, f, a);
    OnlyAccessOnwards(tr, acts, i + 1, j + 1, f, a);
    RevokeStep(tr[j], acts[j], tr[j + 1]);
    LastOneGone(tr[j], acts[j].pid, a, tr[j + 1], f);
    RunInv(tr, acts, j + 1);
    var later, done := tr[j + 1..], acts[j + 1..];
    assert From(later, done, tr[j + 1]) by { SuffixRuns(tr, acts, j + 1); }
    assert later[k - j - 1] == tr[k];
    EndedForGood(later, done, tr[j + 1], f, k - j - 1);
    EndedCannot(tr[k], f);
  }

  lemma LiveStored(s: Sys, h: Id, f: Id)
    requires Live(s.db.tokens, Refresh, h, f)
    ensures h in s.db.tokens
  {
  }

  lemma RevokeStep(s: Sys, a: Act, s': Sys)
    requires Step(s, a, s') && a.DoRevokeOne?
    ensures RevokeOne(s, a.pid, a.id, s')
  {
  }

  lemma LastOneGone(s: Sys, pid: Pid, a: Id, s': Sys, f: Id)
    requires RevokeOne(s, pid, a, s') && OnlyAccess(s', f, a)
    ensures f in s'.log.born && !Lives(s', f)
  {
  }

  lemma SuffixRuns(tr: seq<Sys>, acts: seq<Act>, n: nat)
    requires Run(tr, acts) && n <= |acts|
    ensures From(tr[n..], acts[n..], tr[n])
  {
    hide Step;
    forall i | 0 <= i < |acts[n..]| ensures Step(tr[n..][i], acts[n..][i], tr[n..][i + 1]) {
      assert acts[n..][i] == acts[n + i];
    }
  }

  /** Revoking a token that was already spent does not stop a grant in flight in its family: its pair can
      still be minted, and is live then. */
  lemma RevokingSpentTokenLeavesGrant(s: Sys, p: Pid, pid: Pid, h: Id, f: Id)
    requires Inv(s) && Holds(s.minting, p, f) && !RevokedFamily(s.db, f) && f in s.log.born
    requires h in s.db.tokens && s.db.tokens[h].data.pair != h && pid !in s.revoking
    ensures exists tr: seq<Sys>, acts: seq<Act> ::
              && From(tr, acts, s) && |acts| == 3 && acts[0] == DoBeginRevoke(pid, h) && acts[1] == DoRevokeOne(pid, h)
              && acts[2] == DoRevokeOne(pid, s.db.tokens[h].data.pair) && CanLive(tr[3], f)
  {
    hide Inv, CanLive, Lives, Step, RevokeDoc;
    var pair := s.db.tokens[h].data.pair;
    var a0, a1, a2 := DoBeginRevoke(pid, h), DoRevokeOne(pid, h), DoRevokeOne(pid, pair);
    var s1 := s.(revoking := s.revoking[pid := {h, pair}]);
    assert Step(s, a0, s1) by { BeginsRevoke(s, pid, h); }
    var s2 := RevokesOne(s1, pid, h);
    var s3 := RevokesOne(s2, pid, pair);
    StepInv(s, a0, s1);
    StepInv(s1, a1, s2);
    StepInv(s2, a2, s3);
    HolderLives(s3, p, f);
    LivesCanLive(s3, f);
    ThreeSteps(s, a0, s1, a1, s2, a2, s3);
    var tr, acts := [s, s1, s2, s3], [a0, a1, a2];
    assert tr[3] == s3 && From(tr, acts, s);
  }

  lemma BeginsRevoke(s: Sys, pid: Pid, h: Id)
    requires h in s.db.tokens && pid !in s.revoking
    ensures Step(s, DoBeginRevoke(pid, h), s.(revoking := s.revoking[pid := {h, s.db.tokens[h].data.pair}]))
  {
  }

  lemma RevokesOne(s: Sys, pid: Pid, id: Id) returns (s': Sys)
    requires pid in s.revoking && id in s.revoking[pid]
    ensures Step(s, DoRevokeOne(pid, id), s') && s'.minting == s.minting && s'.db.fams == s.db.fams
    ensures pid in s'.revoking && s'.revoking[pid] == s.revoking[pid] - {id}
  {
    s' := s.(db := RevokeDoc(s.db, id), revoking := s.revoking[pid := s.revoking[pid] - {id}]);
  }

  lemma ThreeSteps(s: Sys, a0: Act, s1: Sys, a1: Act, s2: Sys, a2: Act, s3: Sys)
    requires Step(s, a0, s1) && Step(s1, a1, s2) && Step(s2, a2, s3)
    ensures From([s, s1, s2, s3], [a0, a1, a2], s)
  {
    hide Step;
    assert [a0, a1, a2][0] == a0 && [a0, a1, a2][1] == a1 && [a0, a1, a2][2] == a2;
  }

  lemma HolderLives(s: Sys, p: Pid, f: Id)
    requires Holds(s.minting, p, f) && !RevokedFamily(s.db, f)
    ensures Lives(s, f)
  {
  }
}
