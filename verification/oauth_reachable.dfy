/** A run of the lineage machine that goes from a consent to a live pair of tokens and on to its rotation. */
module OAuthReachable {
  import opened Prelude
  import opened OAuthLineage

  ghost predicate Reachable(s: Sys) { exists tr, acts :: Run(tr, acts) && tr[|acts|] == s }

  lemma Starts(s: Sys)
    requires Init(s)
    ensures Reachable(s)
  {
    hide Init;
    var tr, acts: seq<Act> := [s], [];
    assert Run(tr, acts);
  }

  lemma Reaches(s: Sys, a: Act, s': Sys)
    requires Reachable(s) && Step(s, a, s')
    ensures Reachable(s')
  {
    hide Step, Init;
    var tr, acts :| Run(tr, acts) && tr[|acts|] == s;
    var tr', acts' := tr + [s'], acts + [a];
    forall i | 0 <= i < |acts'| ensures Step(tr'[i], acts'[i], tr'[i + 1]) {
      if i < |acts| { assert acts'[i] == acts[i]; }
    }
    assert Run(tr', acts');
  }

  const ASKED := Txn(7, [1], Pending, 100)
  const GIVEN := Consent(7, 5, [1])
  const GRANT := Grant(5, 7, [1], 0, 1, 2)

  /** Nothing but a transaction has happened yet: no code, no family, no secret. */
  ghost predicate Untouched(s: Sys) {
    && s.db.now == 0 && s.db.codes == map[] && s.db.fams == map[] && s.db.tokens == map[]
    && s.log.issued == map[] && s.log.born == map[] && s.log.secrets == {}
    && s.redeeming == map[] && s.minting == map[] && s.refreshing == map[]
  }

  lemma ConsentIsReached() returns (s: Sys)
    ensures Reachable(s) && Untouched(s) && 0 in s.saving && s.saving[0] == Saving(0, GIVEN)
  {
    hide Reachable;
    var db := Db(0, 0, map[], map[], map[], map[]);
    var s0 := Sys(db, map[], map[], map[], map[], map[], map[], map[], map[], Log(map[], map[], map[], {}));
    Starts(s0);
    var s1 := s0.(db := db.(txns := map[0 := Doc(0, ASKED)], next := 1), log := s0.log.(txns := map[0 := ASKED]));
    assert Authorize(s0, 0, ASKED, s1);
    Reaches(s0, DoAuthorize(0, ASKED), s1);
    var s2 := s1.(finishing := map[0 := Finishing(0, Completed, 5, Doc(0, ASKED))]);
    assert BeginFinish(s1, 0, 0, Completed, 5, s2);
    Reaches(s1, DoBeginFinish(0, 0, Completed, 5), s2);
    s := s2.(finishing := s2.finishing - {0}, saving := s2.saving[0 := SavingAfter(s2.finishing[0])],
      db := FinishDb(s2.db, 0, Completed));
    assert Approve(s2, 0, s);
    Reaches(s2, DoApprove(0), s);
  }

  lemma CodeIsReached() returns (s: Sys)
    ensures Reachable(s) && s.db.now == 0 && 0 in s.db.codes && s.db.codes[0].data == Code(7, 5, [1], 100)
    ensures 0 in s.log.issued && s.log.issued[0] == Issue(0, GIVEN) && s.db.fams == map[] && s.db.tokens == map[]
    ensures s.log.born == map[] && s.log.secrets == {} && s.redeeming == map[] && s.minting == map[]
        && s.refreshing == map[]
  {
    hide Reachable;
    var t := ConsentIsReached();
    s := t.(saving := t.saving - {0}, db := SaveCodeDb(t.db, 0, GIVEN, 100),
            log := t.log.(issued := t.log.issued[0 := Issue(0, GIVEN)]));
    assert SaveCode(t, 0, 0, 100, s);
    Reaches(t, DoSaveCode(0, 0, 100), s);
  }

  lemma RedemptionIsReached() returns (s: Sys)
    ensures Reachable(s) && s.db.now == 0 && s.db.fams == map[] && s.db.tokens == map[] && s.refreshing == map[]
    ensures 0 in s.minting && s.minting[0] == Mint(GRANT, Reading, 0) && s.log.secrets == {1, 2} && 1 !in s.log.born
  {
    hide Reachable;
    var t := CodeIsReached();
    var u := t.(redeeming := t.redeeming[0 := Redeeming(0, 7, t.db.codes[0])]);
    assert BeginRedeem(t, 0, 0, 7, u);
    Reaches(t, DoBeginRedeem(0, 0, 7), u);
    s := u.(redeeming := u.redeeming - {0}, db := DeleteCode(u.db, 0),
            minting := u.minting[0 := Mint(GRANT, Reading, 0)], log := BornFromCode(u.log, 0, GRANT));
    assert RedeemCode(u, 0, 0, 1, 2, s);
    Reaches(u, DoRedeemCode(0, 0, 1, 2), s);
  }

  /** The code's family gets its first pair. */
  lemma PairIsReached() returns (s: Sys)
    ensures Reachable(s) && s.db.now == 0 && s.refreshing == map[] && 0 !in s.minting && s.log.secrets == {1, 2}
        && 1 !in s.log.born
    ensures 1 in s.db.tokens && s.db.tokens[1].data == Minted(GRANT, Access, 100)
    ensures 2 in s.db.tokens && s.db.tokens[2].data == Minted(GRANT, Refresh, 100) && !RevokedFamily(s.db, 0)
  {
    hide Reachable;
    var t := RedemptionIsReached();
    var u := t.(minting := t.minting[0 := Mint(GRANT, Committing(None), 0)]);
    assert ReadFamily(t, 0, u);
    Reaches(t, DoReadFamily(0), u);
    s := u.(minting := u.minting - {0}, db := CommitDb(u.db, GRANT, 100, 100));
    assert CommitMint(u, 0, 100, 100, s);
    Reaches(u, DoCommitMint(0, 100, 100), s);
  }

  lemma RefreshIsReached() returns (t: Sys, u: Sys)
    ensures Reachable(t) && Live(t.db.tokens, Refresh, 2, 0)
    ensures Reachable(u) && 2 in u.db.tokens && u.db.tokens[2].data == Minted(GRANT, Refresh, 100)
    ensures 0 in u.refreshing && u.refreshing[0] == Refreshing(2, 7, [], u.db.tokens[2])
    ensures 0 !in u.minting && u.log.secrets == {1, 2} && 1 !in u.log.born && !RevokedFamily(u.db, 0)
  {
    hide Reachable;
    t := PairIsReached();
    u := t.(refreshing := t.refreshing[0 := Refreshing(2, 7, [], t.db.tokens[2])]);
    assert BeginRefresh(t, 0, 2, 7, [], u);
    Reaches(t, DoBeginRefresh(0, 2, 7, []), u);
  }

  lemma RotatesTo(u: Sys, s: Sys)
    requires 0 in u.refreshing && 2 in u.db.tokens && u.refreshing[0] == Refreshing(2, 7, [], u.db.tokens[2])
    requires u.db.tokens[2].data == Minted(GRANT, Refresh, 100) && 0 !in u.minting && u.log.secrets == {1, 2}
        && 1 !in u.log.born
    requires var token := u.db.tokens[2].data;
             var g := RefreshGrant(token, [], 1, 3, 4);
             s == u.(refreshing := u.refreshing - {0}, db := RevokeDoc(u.db, 2),
                     minting := u.minting[0 := Mint(g, Unpairing(1), 0)], log := BornFromToken(u.log, 2, token, g))
    ensures Rotate(u, 0, 1, 3, 4, s)
  {
  }

  /** The machine really mints and rotates: a family's slot can pass from an unused refresh token to a
      grant in flight that was drawn from it. */
  lemma RotationIsReached()
    ensures exists s, h :: Reachable(s) && Live(s.db.tokens, Refresh, h, 0)
    ensures exists s, p, h ::
              && Reachable(s) && Holds(s.minting, p, 0) && s.minting[p].phase.Unpairing? && !RevokedFamily(s.db, 0)
              && h in s.db.tokens && s.db.tokens[h].data == Minted(GRANT, Refresh, 100).(revoked := true)
  {
    hide Reachable, Rotate;
    var t, u := RefreshIsReached();
    var token := u.db.tokens[2].data;
    var g := RefreshGrant(token, [], 1, 3, 4);
    var s := u.(refreshing := u.refreshing - {0}, db := RevokeDoc(u.db, 2),
                minting := u.minting[0 := Mint(g, Unpairing(1), 0)], log := BornFromToken(u.log, 2, token, g));
    RotatesTo(u, s);
    Reaches(u, DoRotate(0, 1, 3, 4), s);
    assert Holds(s.minting, 0, 0) && !RevokedFamily(s.db, 0) && 2 in s.db.tokens;
  }
}
