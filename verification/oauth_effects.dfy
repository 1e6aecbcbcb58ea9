/**
 What a request's own steps take from others: transactions finished, codes deleted, tokens revoked, families marked.
 Others run in between, so what a request leaves alone cannot be read off the state it returns in.
 */
module OAuthEffects {
  import opened OAuthLineage

  datatype Effect = Finishes(txn: Id) | Deletes(code: Id) | Revokes(token: Id) | Marks(family: Id)

  ghost function EffectsOf(s: Sys, a: Act): set<Effect> {
    match a
    case DoApprove(pid) => if pid in s.finishing then {Finishes(s.finishing[pid].txn)} else {}
    case DoDeny(pid) => if pid in s.finishing then {Finishes(s.finishing[pid].txn)} else {}
    case DoSpoilCode(pid) => if pid in s.redeeming then {Deletes(s.redeeming[pid].code)} else {}
    case DoRedeemCode(pid, _, _, _) => if pid in s.redeeming then {Deletes(s.redeeming[pid].code)} else {}
    case DoMisuse(pid) => if pid in s.refreshing then {Revokes(s.refreshing[pid].token)} else {}
    case DoRotate(pid, _, _, _) => if pid in s.refreshing then {Revokes(s.refreshing[pid].token)} else {}
    case DoRevokePair(pid) =>
      if pid in s.minting && s.minting[pid].phase.Unpairing? then {Revokes(s.minting[pid].phase.pair)} else {}
    case DoRevokeOne(_, id) => {Revokes(id)}
    case DoMarkFamily(pid) => if pid in s.marking then {Marks(s.marking[pid])} else {}
    case _ => {}
  }

  /** Whatever a step takes away is among its effects: what it finishes, deletes or revokes, and nothing else of what
      is stored is changed. */
  ghost predicate Accounts(db: Db, db': Db, e: set<Effect>) {
    && (forall t :: t in db.txns && Finishes(t) !in e ==> t in db'.txns && db'.txns[t].data == db.txns[t].data)
    && (forall c :: c in db.codes && Deletes(c) !in e ==> c in db'.codes && db'.codes[c].data == db.codes[c].data)
    && (forall h :: h in db.tokens && Revokes(h) !in e ==> h in db'.tokens && db'.tokens[h].data == db.tokens[h].data)
    && (forall f :: RevokedFamily(db', f) && Marks(f) !in e ==> RevokedFamily(db, f))
  }

  predicate Collects(a: Act) { a.DoCollectTxn? || a.DoCollectCode? || a.DoCollectToken? }

  lemma SameDocs(db: Db, db': Db, e: set<Effect>)
    requires db'.txns == db.txns && db'.codes == db.codes && db'.tokens == db.tokens && db'.fams == db.fams
    ensures Accounts(db, db', e)
  {
  }

  lemma RevokedDoc(db: Db, h: Id)
    ensures Accounts(db, RevokeDoc(db, h), {Revokes(h)})
  {
  }

  lemma DeletedCode(db: Db, c: Id)
    ensures Accounts(db, DeleteCode(db, c), {Deletes(c)})
  {
  }

  lemma MarkedFamily(db: Db, f: Id)
    ensures Accounts(db, MarkDb(db, f), {Marks(f)})
  {
  }

  lemma FinishedTxn(db: Db, id: Id, status: Status)
    requires id in db.txns
    ensures Accounts(db, FinishDb(db, id, status), {Finishes(id)})
  {
  }

  lemma NewTxn(s: Sys, a: Act, s': Sys)
    requires Inv(s) && Step(s, a, s') && a.DoAuthorize?
    ensures Accounts(s.db, s'.db, {})
  {
    hide CollectTxn, BeginFinish, Approve, Deny, CollectCode, SaveCode, BeginRedeem, SpoilCode, RedeemCode,
         Rotate, RevokePair, ReadFamily, CommitMint, RetryMint, BeginRevoke, RevokeOne, BeginReuse, MarkFamily,
         ListFamily, Tick, CollectToken, BeginRefresh, Misuse, Vanish, Inv;
    StepLater(s, a, s');
  }

  lemma NewCode(s: Sys, a: Act, s': Sys)
    requires Inv(s) && Step(s, a, s') && a.DoSaveCode?
    ensures Accounts(s.db, s'.db, {})
  {
    hide CollectTxn, Authorize, BeginFinish, Approve, Deny, CollectCode, BeginRedeem, SpoilCode, RedeemCode,
         Rotate, RevokePair, ReadFamily, CommitMint, RetryMint, BeginRevoke, RevokeOne, BeginReuse, MarkFamily,
         ListFamily, Tick, CollectToken, BeginRefresh, Misuse, Vanish, Inv;
    StepLater(s, a, s');
  }

  lemma Committed(s: Sys, a: Act, s': Sys)
    requires Inv(s) && Step(s, a, s') && a.DoCommitMint?
    ensures Accounts(s.db, s'.db, {})
  {
    hide CollectTxn, Authorize, BeginFinish, Approve, Deny, CollectCode, SaveCode, BeginRedeem, SpoilCode,
         RedeemCode, Rotate, RevokePair, ReadFamily, RetryMint, BeginRevoke, RevokeOne, BeginReuse, MarkFamily,
         ListFamily, Tick, CollectToken, BeginRefresh, Misuse, Vanish, Inv;
    StepLater(s, a, s');
  }

  lemma TxnStepAccounts(s: Sys, a: Act, s': Sys)
    requires Inv(s) && Step(s, a, s') && IsTxnStep(a) && !Collects(a)
    ensures Accounts(s.db, s'.db, EffectsOf(s, a))
  {
    hide CollectTxn, CollectCode, SaveCode, BeginRedeem, SpoilCode, RedeemCode, Rotate, RevokePair, ReadFamily,
         CommitMint, RetryMint, BeginRevoke, RevokeOne, BeginReuse, MarkFamily, ListFamily, Tick, CollectToken,
         BeginRefresh, Misuse, Vanish, Inv, Accounts, RevokeDoc, DeleteCode, MarkDb, CommitDb, FinishDb,
         SaveCodeDb;
    match a
    case DoAuthorize(id, _) => NewTxn(s, a, s');
    case DoApprove(pid) => FinishedTxn(s.db, s.finishing[pid].txn, Completed);
    case DoDeny(pid) => FinishedTxn(s.db, s.finishing[pid].txn, Denied);
    case _ => SameDocs(s.db, s'.db, {});
  }

  lemma CodeStepAccounts(s: Sys, a: Act, s': Sys)
    requires Inv(s) && Step(s, a, s') && IsCodeStep(a) && !Collects(a)
    ensures Accounts(s.db, s'.db, EffectsOf(s, a))
  {
    hide CollectTxn, Authorize, BeginFinish, Approve, Deny, CollectCode, RedeemCode, Rotate, RevokePair,
         ReadFamily, CommitMint, RetryMint, BeginRevoke, RevokeOne, BeginReuse, MarkFamily, ListFamily, Tick,
         CollectToken, BeginRefresh, Misuse, Vanish, Inv, Accounts, RevokeDoc, DeleteCode, MarkDb, CommitDb,
         FinishDb, SaveCodeDb;
    match a
    case DoSaveCode(_, _, _) => NewCode(s, a, s');
    case DoSpoilCode(pid) => DeletedCode(s.db, s.redeeming[pid].code);
    case _ => SameDocs(s.db, s'.db, {});
  }

  lemma GrantStepAccounts(s: Sys, a: Act, s': Sys)
    requires Inv(s) && Step(s, a, s') && IsGrantStep(a)
    ensures Accounts(s.db, s'.db, EffectsOf(s, a))
  {
    hide CollectTxn, Authorize, BeginFinish, Approve, Deny, CollectCode, SaveCode, BeginRedeem, SpoilCode,
         RevokePair, ReadFamily, CommitMint, RetryMint, BeginRevoke, RevokeOne, BeginReuse, MarkFamily,
         ListFamily, Tick, CollectToken, BeginRefresh, Misuse, Vanish, Inv, Accounts, RevokeDoc, DeleteCode,
         MarkDb, CommitDb, FinishDb, SaveCodeDb;
    match a
    case DoRedeemCode(pid, _, _, _) => DeletedCode(s.db, s.redeeming[pid].code);
    case DoRotate(pid, _, _, _) => RevokedDoc(s.db, s.refreshing[pid].token);
  }

  lemma MintStepAccounts(s: Sys, a: Act, s': Sys)
    requires Inv(s) && Step(s, a, s') && IsMintStep(a)
    ensures Accounts(s.db, s'.db, EffectsOf(s, a))
  {
    hide CollectTxn, Authorize, BeginFinish, Approve, Deny, CollectCode, SaveCode, BeginRedeem, SpoilCode,
         RedeemCode, Rotate, BeginRevoke, RevokeOne, BeginReuse, MarkFamily, ListFamily, Tick, CollectToken,
         BeginRefresh, Misuse, Vanish, Inv, Accounts, RevokeDoc, DeleteCode, MarkDb, CommitDb, FinishDb,
         SaveCodeDb;
    match a
    case DoRevokePair(pid) => RevokedDoc(s.db, s.minting[pid].phase.pair);
    case DoCommitMint(_, _, _) => Committed(s, a, s');
    case _ => SameDocs(s.db, s'.db, {});
  }

  lemma RevokeStepAccounts(s: Sys, a: Act, s': Sys)
    requires Inv(s) && Step(s, a, s') && IsRevokeStep(a)
    ensures Accounts(s.db, s'.db, EffectsOf(s, a))
  {
    hide CollectTxn, Authorize, BeginFinish, Approve, Deny, CollectCode, SaveCode, BeginRedeem, SpoilCode,
         RedeemCode, Rotate, RevokePair, ReadFamily, CommitMint, RetryMint, Tick, CollectToken, BeginRefresh,
         Misuse, Vanish, Inv, Accounts, RevokeDoc, DeleteCode, MarkDb, CommitDb, FinishDb, SaveCodeDb;
    match a
    case DoRevokeOne(_, id) => RevokedDoc(s.db, id);
    case DoMarkFamily(pid) => MarkedFamily(s.db, s.marking[pid]);
    case _ => SameDocs(s.db, s'.db, {});
  }

  lemma OtherStepAccounts(s: Sys, a: Act, s': Sys)
    requires Inv(s) && Step(s, a, s') && IsOtherStep(a) && !Collects(a)
    ensures Accounts(s.db, s'.db, EffectsOf(s, a))
  {
    hide CollectTxn, Authorize, BeginFinish, Approve, Deny, CollectCode, SaveCode, BeginRedeem, SpoilCode,
         RedeemCode, Rotate, RevokePair, ReadFamily, CommitMint, RetryMint, BeginRevoke, RevokeOne, BeginReuse,
         MarkFamily, ListFamily, CollectToken, Inv, Accounts, RevokeDoc, DeleteCode, MarkDb, CommitDb, FinishDb,
         SaveCodeDb;
    match a
    case DoMisuse(pid) => RevokedDoc(s.db, s.refreshing[pid].token);
    case _ => SameDocs(s.db, s'.db, {});
  }

  /** Only the collector's steps take away more. */
  lemma StepAccounts(s: Sys, a: Act, s': Sys)
    requires Inv(s) && Step(s, a, s') && !Collects(a)
    ensures Accounts(s.db, s'.db, EffectsOf(s, a))
  {
    hide Inv, Step, Accounts, EffectsOf;
    if IsTxnStep(a) { TxnStepAccounts(s, a, s'); }
    else if IsCodeStep(a) { CodeStepAccounts(s, a, s'); }
    else if IsGrantStep(a) { GrantStepAccounts(s, a, s'); }
    else if IsMintStep(a) { MintStepAccounts(s, a, s'); }
    else if IsRevokeStep(a) { RevokeStepAccounts(s, a, s'); }
    else { OtherStepAccounts(s, a, s'); }
  }
}
