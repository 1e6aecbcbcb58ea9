/** What happens at most once in a run, whoever asks: a transaction is finished, a refresh token is spent. */
module OAuthOnce {
  import opened OAuthLineage

  // ------------------------------------------------------------------
  // Transactions
  // ------------------------------------------------------------------

  /** The step is the guarded update of finish_txn, for transaction t. */
  predicate Finishes(s: Sys, a: Act, t: Id) {
    && (a.DoApprove? || a.DoDeny?)
    && a.pid in s.finishing && s.finishing[a.pid].txn == t
  }

  /** t was stored once and will never be pending again. */
  ghost predicate Finished(s: Sys, t: Id) { t in s.log.txns && Settled(s.db.txns, t) }

  /** t is finished, and no code was issued for it or is about to be. */
  ghost predicate Barren(s: Sys, t: Id) {
    && Finished(s, t)
    && (forall p :: p in s.saving ==> s.saving[p].txn != t)
    && (forall c :: c in s.log.issued ==> s.log.issued[c].txn != t)
  }

  /** Transactions, and the codes issued and about to be, are as they were, but for requests that ended. */
  ghost predicate TxnsLeft(s: Sys, s': Sys) {
    && s'.db.txns == s.db.txns && s'.log.txns == s.log.txns && s'.log.issued == s.log.issued
    && s'.saving.Keys <= s.saving.Keys && forall p :: p in s'.saving ==> s'.saving[p] == s.saving[p]
  }

  lemma OthersLeaveTxns(s: Sys, a: Act, s': Sys)
    requires Step(s, a, s') && !IsTxnStep(a) && !a.DoSaveCode?
    ensures TxnsLeft(s, s')
  {
    hide CollectTxn, Authorize, BeginFinish, Approve, Deny, SaveCode;
    if IsMintStep(a) { MintStepsLeaveTxns(s, a, s'); }
    if IsRevokeStep(a) { RevokeStepsLeaveTxns(s, a, s'); }
  }

  lemma MintStepsLeaveTxns(s: Sys, a: Act, s': Sys)
    requires Step(s, a, s') && IsMintStep(a)
    ensures TxnsLeft(s, s')
  {
    hide CollectTxn, Authorize, BeginFinish, Approve, Deny, SaveCode, CollectCode, BeginRedeem, SpoilCode, RedeemCode,
         Rotate, Tick, CollectToken, BeginRefresh, Misuse, Vanish, BeginRevoke, RevokeOne, BeginReuse, MarkFamily,
           ListFamily,
         CommitAccepted, Minted, Lookup;
  }

  lemma RevokeStepsLeaveTxns(s: Sys, a: Act, s': Sys)
    requires Step(s, a, s') && IsRevokeStep(a)
    ensures TxnsLeft(s, s')
  {
    hide CollectTxn, Authorize, BeginFinish, Approve, Deny, SaveCode, CollectCode, BeginRedeem, SpoilCode, RedeemCode,
         Rotate, Tick, CollectToken, BeginRefresh, Misuse, Vanish, RevokePair, ReadFamily, CommitMint, RetryMint,
         Listing, Replayed;
  }

  lemma FinishedStays(s: Sys, a: Act, s': Sys, t: Id)
    requires Step(s, a, s') && Finished(s, t)
    ensures Finished(s', t)
  {
    hide CollectCode, BeginRedeem, SpoilCode, RedeemCode, Rotate, RevokePair, ReadFamily, CommitMint, RetryMint,
         BeginRevoke, RevokeOne, BeginReuse, MarkFamily, ListFamily, Tick, CollectToken, BeginRefresh, Misuse, Vanish;
    if !IsTxnStep(a) && !a.DoSaveCode? { OthersLeaveTxns(s, a, s'); }
  }

  /** A step that finishes t finds it pending, and leaves it finished. */
  lemma FinishesPending(s: Sys, a: Act, s': Sys, t: Id)
    requires Inv(s) && Step(s, a, s') && Finishes(s, a, t)
    ensures !Finished(s, t) && Finished(s', t)
    ensures a.DoDeny? ==> Barren(s', t)
  {
    assert s.db.txns[t] == s.finishing[a.pid].snap;
  }

  lemma BarrenStays(s: Sys, a: Act, s': Sys, t: Id)
    requires Inv(s) && Step(s, a, s') && Barren(s, t)
    ensures Barren(s', t)
  {
    hide Inv, CollectCode, BeginRedeem, SpoilCode, RedeemCode, Rotate, RevokePair, ReadFamily, CommitMint, RetryMint,
         BeginRevoke, RevokeOne, BeginReuse, MarkFamily, ListFamily, Tick, CollectToken, BeginRefresh, Misuse, Vanish;
    FinishedStays(s, a, s', t);
    if a.DoApprove? && s.finishing[a.pid].txn == t {
      FinishesPending(s, a, s', t);
    } else if !IsTxnStep(a) && !a.DoSaveCode? {
      OthersLeaveTxns(s, a, s');
    }
  }

  lemma {:induction false} FinishedForGood(tr: seq<Sys>, acts: seq<Act>, i: nat, j: nat, t: Id)
    requires Run(tr, acts) && i <= j < |tr| && Finished(tr[i], t)
    ensures Finished(tr[j], t)
    ensures Barren(tr[i], t) ==> Barren(tr[j], t)
    decreases j - i
  {
    hide Inv, Step, Finished, Barren;
    if i < j {
      FinishedForGood(tr, acts, i, j - 1, t);
      RunInv(tr, acts, j - 1);
      assert Step(tr[j - 1], acts[j - 1], tr[j]);
      FinishedStays(tr[j - 1], acts[j - 1], tr[j], t);
      if Barren(tr[j - 1], t) { BarrenStays(tr[j - 1], acts[j - 1], tr[j], t); }
    }
  }

  /** Of all the callers of a run, one at most finishes a given transaction: approved or denied, once. */
  lemma TransactionFinishedOnce(tr: seq<Sys>, acts: seq<Act>, i: nat, j: nat, t: Id)
    requires Run(tr, acts) && i < |acts| && j < |acts|
    requires Finishes(tr[i], acts[i], t) && Finishes(tr[j], acts[j], t)
    ensures i == j
  {
    hide Inv, Step, Finished, Barren, Finishes;
    if i != j {
      var first, second := if i < j then i else j, if i < j then j else i;
      RunInv(tr, acts, first);
      RunInv(tr, acts, second);
      assert Step(tr[first], acts[first], tr[first + 1]) && Step(tr[second], acts[second], tr[second + 1]);
      FinishesPending(tr[first], acts[first], tr[first + 1], t);
      FinishesPending(tr[second], acts[second], tr[second + 1], t);
      FinishedForGood(tr, acts, first + 1, second, t);
    }
  }

  /** A denied transaction never yields a code, before or after. */
  lemma DeniedYieldsNoCode(tr: seq<Sys>, acts: seq<Act>, i: nat, k: nat, t: Id)
    requires Run(tr, acts) && i < |acts| && k < |tr| && acts[i].DoDeny? && Finishes(tr[i], acts[i], t)
    ensures forall c :: c in tr[k].log.issued ==> tr[k].log.issued[c].txn != t
  {
    hide Inv, Step, Finished, Finishes, Later;
    RunInv(tr, acts, i);
    assert Step(tr[i], acts[i], tr[i + 1]);
    FinishesPending(tr[i], acts[i], tr[i + 1], t);
    var last := if k <= i then i + 1 else k;
    FinishedForGood(tr, acts, i + 1, last, t);
    RunLater(tr, acts, k, last);
    IssuedGrows(tr[k], tr[last]);
  }

  lemma IssuedGrows(s: Sys, s': Sys)
    requires Later(s, s')
    ensures forall c :: c in s.log.issued ==> c in s'.log.issued && s'.log.issued[c] == s.log.issued[c]
  {
  }

  // ------------------------------------------------------------------
  // Codes
  // ------------------------------------------------------------------

  /** The step is the guarded delete of a usable code in consume_code. */
  predicate Redeems(s: Sys, a: Act, c: Id) { a.DoRedeemCode? && a.pid in s.redeeming && s.redeeming[a.pid].code == c }

  lemma RedeemsUnspent(s: Sys, a: Act, s': Sys, c: Id)
    requires Inv(s) && Step(s, a, s') && Redeems(s, a, c)
    ensures forall f :: f in s.log.born ==> s.log.born[f].origin != FromCode(c)
    ensures exists f :: f in s'.log.born && s'.log.born[f].origin == FromCode(c)
  {
    assert s'.log.born[a.family].origin == FromCode(c);
  }

  lemma BornGrows(s: Sys, s': Sys)
    requires Later(s, s')
    ensures forall f :: f in s.log.born ==> f in s'.log.born && s'.log.born[f] == s.log.born[f]
  {
  }

  /** Of all the callers of a run, one at most redeems a given code. */
  lemma CodeRedeemedOnce(tr: seq<Sys>, acts: seq<Act>, i: nat, j: nat, c: Id)
    requires Run(tr, acts) && i < |acts| && j < |acts|
    requires Redeems(tr[i], acts[i], c) && Redeems(tr[j], acts[j], c)
    ensures i == j
  {
    hide Inv, Step, Redeems, Later;
    if i != j {
      var first, second := if i < j then i else j, if i < j then j else i;
      RunInv(tr, acts, first);
      RunInv(tr, acts, second);
      assert Step(tr[first], acts[first], tr[first + 1]) && Step(tr[second], acts[second], tr[second + 1]);
      RedeemsUnspent(tr[first], acts[first], tr[first + 1], c);
      RedeemsUnspent(tr[second], acts[second], tr[second + 1], c);
      RunLater(tr, acts, first + 1, second);
      BornGrows(tr[first + 1], tr[second]);
    }
  }

  // ------------------------------------------------------------------
  // Refresh tokens
  // ------------------------------------------------------------------

  /** The step is the guarded update of consume_refresh_token, for token h: it is rotated, or refused as misused. */
  predicate Spends(s: Sys, a: Act, h: Id) {
    && (a.DoRotate? || a.DoMisuse?)
    && a.pid in s.refreshing && s.refreshing[a.pid].token == h
  }

  lemma SpendsUnrevoked(s: Sys, a: Act, s': Sys, h: Id)
    requires Inv(s) && Step(s, a, s') && Spends(s, a, h)
    ensures h in s.db.tokens && !s.db.tokens[h].data.revoked
    ensures h in s'.db.tokens && s'.db.tokens[h].data.revoked
  {
    hide Front, SlotInv, MintInv, Drawn, Bound, KnownInv, LegacyUnspent, CollectTxn, Authorize, BeginFinish, Approve,
         Deny,
         CollectCode, SaveCode, BeginRedeem, SpoilCode, RedeemCode, RevokePair, ReadFamily, CommitMint, RetryMint,
         BeginRevoke, RevokeOne, BeginReuse, MarkFamily, ListFamily, Tick, CollectToken, BeginRefresh, Vanish;
  }

  /** Of all the callers of a run, one at most spends a given refresh token. */
  lemma RefreshTokenSpentOnce(tr: seq<Sys>, acts: seq<Act>, i: nat, j: nat, h: Id)
    requires Run(tr, acts) && i < |acts| && j < |acts|
    requires Spends(tr[i], acts[i], h) && Spends(tr[j], acts[j], h)
    ensures i == j
  {
    hide Inv, Step, Spends;
    if i != j {
      var first, second := if i < j then i else j, if i < j then j else i;
      RunInv(tr, acts, first);
      RunInv(tr, acts, second);
      assert Step(tr[first], acts[first], tr[first + 1]) && Step(tr[second], acts[second], tr[second + 1]);
      SpendsUnrevoked(tr[first], acts[first], tr[first + 1], h);
      SpendsUnrevoked(tr[second], acts[second], tr[second + 1], h);
      RevokedTokenStaysDead(tr, acts, first + 1, second, h);
    }
  }
}
