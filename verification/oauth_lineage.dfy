/**
 The OAuth grant lineage as a state machine: consent transaction, authorization
 code, token family, rotation, reuse detection.  A step is one operation on the
 document store (get, create, conditional update or delete, batch commit) by one
 of any number of requests in flight, or a change of the environment (the clock
 moves, an expired document is collected, a request dies).
 */
module OAuthLineage {
  import opened Prelude

  type Id = nat
  type Pid = nat

  /** A stored document and its update time, which every write renews. */
  datatype Doc<+T> = Doc(version: nat, data: T)

  datatype Status = Pending | Completed | Denied
  datatype Txn = Txn(client: Id, scopes: seq<Id>, status: Status, expires: int)
  datatype Code = Code(client: Id, subject: Id, scopes: seq<Id>, expires: int)
  datatype Kind = Access | Refresh
  datatype Token = Token(kind: Kind, uid: Id, client: Id, scopes: seq<Id>, family: Option<Id>,
                         pair: Id, revoked: bool, expires: int)
  datatype Family = Family(revoked: bool)

  datatype Db = Db(now: int, next: nat, txns: map<Id, Doc<Txn>>, codes: map<Id, Doc<Code>>,
                   tokens: map<Id, Doc<Token>>, fams: map<Id, Doc<Family>>)

  /** What the user approved: for whom, to which client, with which scopes. */
  datatype Consent = Consent(client: Id, uid: Id, scopes: seq<Id>)
  datatype Issue = Issue(txn: Id, consent: Consent)
  /** A lineage starts at a code, or at a token minted before families were tracked. */
  datatype Origin = FromCode(code: Id) | FromLegacy(token: Id)
  datatype Birth = Birth(origin: Origin, consent: Consent)

  /** History: every transaction, code, family id and token secret ever drawn. */
  datatype Log = Log(txns: map<Id, Txn>, issued: map<Id, Issue>, born: map<Id, Birth>, secrets: set<Id>)

  /** The right to mint one token pair, with the secrets drawn for it. */
  datatype Grant = Grant(uid: Id, client: Id, scopes: seq<Id>, family: Id, access: Id, refresh: Id)

  /** The points at which a request waits between two store operations, with what it has read. */
  datatype Finishing = Finishing(txn: Id, status: Status, uid: Id, snap: Doc<Txn>)
  datatype Saving = Saving(txn: Id, consent: Consent)
  datatype Redeeming = Redeeming(code: Id, client: Id, snap: Doc<Code>)
  datatype Refreshing = Refreshing(token: Id, client: Id, asked: seq<Id>, snap: Doc<Token>)
  datatype Phase = Unpairing(pair: Id) | Reading | Committing(snap: Option<Doc<Family>>)
  datatype Mint = Mint(grant: Grant, phase: Phase, tries: nat)

  /** The stored documents, the requests waiting at each point, and the history. */
  datatype Sys = Sys(db: Db,
                     finishing: map<Pid, Finishing>, saving: map<Pid, Saving>, redeeming: map<Pid, Redeeming>,
                     refreshing: map<Pid, Refreshing>, minting: map<Pid, Mint>,
                     revoking: map<Pid, set<Id>>, marking: map<Pid, Id>, querying: map<Pid, Id>,
                     log: Log)

  const MINT_ATTEMPTS := 3

  predicate Expired(expires: int, now: int) { expires <= now }

  // ------------------------------------------------------------------
  // Scopes on refresh
  // ------------------------------------------------------------------

  function Keep(asked: seq<Id>, granted: seq<Id>): seq<Id> {
    if asked == [] then []
    else if asked[0] in granted then [asked[0]] + Keep(asked[1..], granted)
    else Keep(asked[1..], granted)
  }

  /** The scopes of the next pair: what was asked within the grant, else the grant. */
  function Narrow(asked: seq<Id>, granted: seq<Id>): seq<Id> {
    var kept := Keep(if asked == [] then granted else asked, granted);
    if kept == [] then granted else kept
  }

  lemma {:induction false} KeepMembers(asked: seq<Id>, granted: seq<Id>)
    ensures forall x :: x in Keep(asked, granted) <==> x in asked && x in granted
  {
    if asked != [] {
      KeepMembers(asked[1..], granted);
      assert asked == [asked[0]] + asked[1..];
    }
  }

  /** A refresh never widens a grant, and honours every narrower request it can. */
  lemma NarrowNeverWidens(asked: seq<Id>, granted: seq<Id>)
    ensures forall x :: x in Narrow(asked, granted) ==> x in granted
    ensures (exists x :: x in asked && x in granted) ==>
              forall x :: x in Narrow(asked, granted) <==> x in asked && x in granted
    ensures !(exists x :: x in asked && x in granted) ==>
              forall x :: x in Narrow(asked, granted) <==> x in granted
  {
    KeepMembers(if asked == [] then granted else asked, granted);
    KeepMembers(asked, granted);
    var kept := Keep(if asked == [] then granted else asked, granted);
    if x :| x in asked && x in granted {
      assert x in kept;
    } else if kept != [] {
      assert kept[0] in kept;
      assert asked == [];
    }
  }

  // ------------------------------------------------------------------
  // Steps.  A request whose first read finds nothing usable leaves no trace.
  // ------------------------------------------------------------------

  /** The guard of a conditional write: the document still has the update time that was read. */
  predicate Unmoved<T>(m: map<Id, Doc<T>>, id: Id, snap: Doc<T>) {
    id in m && m[id].version == snap.version
  }

  function Lookup<T>(m: map<Id, Doc<T>>, id: Id): Option<Doc<T>> {
    if id in m then Some(m[id]) else None
  }

  ghost predicate Tick(s: Sys, to: int, s': Sys) {
    s.db.now <= to && s' == s.(db := s.db.(now := to))
  }

  ghost predicate CollectTxn(s: Sys, id: Id, s': Sys) {
    && id in s.db.txns && Expired(s.db.txns[id].data.expires, s.db.now)
    && s' == s.(db := s.db.(txns := s.db.txns - {id}))
  }

  ghost predicate CollectCode(s: Sys, id: Id, s': Sys) {
    && id in s.db.codes && Expired(s.db.codes[id].data.expires, s.db.now)
    && s' == s.(db := s.db.(codes := s.db.codes - {id}))
  }

  ghost predicate CollectToken(s: Sys, id: Id, s': Sys) {
    && id in s.db.tokens && Expired(s.db.tokens[id].data.expires, s.db.now)
    && s' == s.(db := s.db.(tokens := s.db.tokens - {id}))
  }

  ghost predicate Authorize(s: Sys, id: Id, txn: Txn, s': Sys) {
    && id !in s.log.txns && txn.status == Pending
    && s' == s.(db := s.db.(txns := s.db.txns[id := Doc(s.db.next, txn)], next := s.db.next + 1),
                log := s.log.(txns := s.log.txns[id := txn]))
  }

  /** finish_txn reads a usable pending transaction. */
  ghost predicate BeginFinish(s: Sys, pid: Pid, id: Id, status: Status, uid: Id, s': Sys) {
    && pid !in s.finishing && status != Pending
    && id in s.db.txns && FinishUsable(s.db, s.db.txns[id])
    && s' == s.(finishing := s.finishing[pid := Finishing(id, status, uid, s.db.txns[id])])
  }

  predicate FinishUsable(db: Db, snap: Doc<Txn>) {
    snap.data.status == Pending && !Expired(snap.data.expires, db.now)
  }

  function FinishDb(db: Db, id: Id, status: Status): Db
    requires id in db.txns
  {
    db.(txns := db.txns[id := Doc(db.next, db.txns[id].data.(status := status))], next := db.next + 1)
  }

  function SavingAfter(f: Finishing): Saving {
    Saving(f.txn, Consent(f.snap.data.client, f.uid, f.snap.data.scopes))
  }

  /** finish_txn's guarded update, for an approval: the caller goes on to save a code. */
  ghost predicate Approve(s: Sys, pid: Pid, s': Sys) {
    && pid in s.finishing && pid !in s.saving && s.finishing[pid].status == Completed
    && Unmoved(s.db.txns, s.finishing[pid].txn, s.finishing[pid].snap)
    && s' == s.(finishing := s.finishing - {pid}, saving := s.saving[pid := SavingAfter(s.finishing[pid])],
                db := FinishDb(s.db, s.finishing[pid].txn, Completed))
  }

  ghost predicate Deny(s: Sys, pid: Pid, s': Sys) {
    && pid in s.finishing && s.finishing[pid].status == Denied
    && Unmoved(s.db.txns, s.finishing[pid].txn, s.finishing[pid].snap)
    && s' == s.(finishing := s.finishing - {pid}, db := FinishDb(s.db, s.finishing[pid].txn, Denied))
  }

  function SaveCodeDb(db: Db, id: Id, consent: Consent, expires: int): Db {
    db.(codes := db.codes[id := Doc(db.next, Code(consent.client, consent.uid, consent.scopes, expires))],
        next := db.next + 1)
  }

  ghost predicate SaveCode(s: Sys, pid: Pid, id: Id, expires: int, s': Sys) {
    && pid in s.saving && id !in s.log.issued
    && s' == s.(saving := s.saving - {pid}, db := SaveCodeDb(s.db, id, s.saving[pid].consent, expires),
                log := s.log.(issued := s.log.issued[id := Issue(s.saving[pid].txn, s.saving[pid].consent)]))
  }

  ghost predicate BeginRedeem(s: Sys, pid: Pid, id: Id, client: Id, s': Sys) {
    && pid !in s.redeeming && id in s.db.codes
    && s' == s.(redeeming := s.redeeming[pid := Redeeming(id, client, s.db.codes[id])])
  }

  /** Secrets and family ids are random; they are taken never to repeat. */
  ghost predicate FreshGrant(log: Log, family: Id, access: Id, refresh: Id) {
    family !in log.born && access !in log.secrets && refresh !in log.secrets && access != refresh
  }

  predicate RedeemUsable(db: Db, client: Id, c: Code) { !Expired(c.expires, db.now) && c.client == client }

  function CodeGrant(c: Code, family: Id, access: Id, refresh: Id): Grant {
    Grant(c.subject, c.client, c.scopes, family, access, refresh)
  }

  function BornFromCode(log: Log, code: Id, g: Grant): Log
    requires code in log.issued
  {
    log.(born := log.born[g.family := Birth(FromCode(code), log.issued[code].consent)],
         secrets := log.secrets + {g.access, g.refresh})
  }

  function DeleteCode(db: Db, code: Id): Db { db.(codes := db.codes - {code}) }

  /** consume_code's guarded delete of a code that turns out expired or another client's. */
  ghost predicate SpoilCode(s: Sys, pid: Pid, s': Sys) {
    && pid in s.redeeming && Unmoved(s.db.codes, s.redeeming[pid].code, s.redeeming[pid].snap)
    && !RedeemUsable(s.db, s.redeeming[pid].client, s.redeeming[pid].snap.data)
    && s' == s.(redeeming := s.redeeming - {pid}, db := DeleteCode(s.db, s.redeeming[pid].code))
  }

  /** consume_code's guarded delete of a usable code: the caller goes on to mint in a new family. */
  ghost predicate RedeemCode(s: Sys, pid: Pid, family: Id, access: Id, refresh: Id, s': Sys) {
    && pid in s.redeeming && Unmoved(s.db.codes, s.redeeming[pid].code, s.redeeming[pid].snap)
    && RedeemUsable(s.db, s.redeeming[pid].client, s.redeeming[pid].snap.data)
    && pid !in s.minting && FreshGrant(s.log, family, access, refresh) && s.redeeming[pid].code in s.log.issued
    && var g := CodeGrant(s.redeeming[pid].snap.data, family, access, refresh);
       s' == s.(redeeming := s.redeeming - {pid}, db := DeleteCode(s.db, s.redeeming[pid].code),
                minting := s.minting[pid := Mint(g, Reading, 0)], log := BornFromCode(s.log, s.redeeming[pid].code, g))
  }

  predicate RefreshUsable(db: Db, t: Token) { t.kind == Refresh && !t.revoked && !Expired(t.expires, db.now) }

  ghost predicate BeginRefresh(s: Sys, pid: Pid, id: Id, client: Id, asked: seq<Id>, s': Sys) {
    && pid !in s.refreshing && id in s.db.tokens && RefreshUsable(s.db, s.db.tokens[id].data)
    && s' == s.(refreshing := s.refreshing[pid := Refreshing(id, client, asked, s.db.tokens[id])])
  }

  /** Revoke a token wherever it stands; a missing document is no error. */
  function RevokeDoc(db: Db, id: Id): Db {
    if id in db.tokens then
      db.(tokens := db.tokens[id := Doc(db.next, db.tokens[id].data.(revoked := true))], next := db.next + 1)
    else db
  }

  function RefreshGrant(t: Token, asked: seq<Id>, family: Id, access: Id, refresh: Id): Grant {
    Grant(t.uid, t.client, Narrow(asked, t.scopes), if t.family.Some? then t.family.value else family, access, refresh)
  }

  function BornFromToken(log: Log, id: Id, t: Token, g: Grant): Log {
    log.(born := if t.family.Some? then log.born
                 else log.born[g.family := Birth(FromLegacy(id), Consent(t.client, t.uid, t.scopes))],
         secrets := log.secrets + {g.access, g.refresh})
  }

  /** consume_refresh_token's guarded update for another client's token: it and its pair are revoked. */
  ghost predicate Misuse(s: Sys, pid: Pid, s': Sys) {
    && pid in s.refreshing && Unmoved(s.db.tokens, s.refreshing[pid].token, s.refreshing[pid].snap)
    && s.refreshing[pid].snap.data.client != s.refreshing[pid].client && pid !in s.revoking
    && s' == s.(refreshing := s.refreshing - {pid}, db := RevokeDoc(s.db, s.refreshing[pid].token),
                revoking := s.revoking[pid := {s.refreshing[pid].snap.data.pair}])
  }

  /** consume_refresh_token's guarded update: the paired access token is next, then the mint. */
  ghost predicate Rotate(s: Sys, pid: Pid, family: Id, access: Id, refresh: Id, s': Sys) {
    && pid in s.refreshing && Unmoved(s.db.tokens, s.refreshing[pid].token, s.refreshing[pid].snap)
    && s.refreshing[pid].snap.data.client == s.refreshing[pid].client
    && pid !in s.minting && FreshGrant(s.log, family, access, refresh)
    && var r := s.refreshing[pid];
       var g := RefreshGrant(r.snap.data, r.asked, family, access, refresh);
       s' == s.(refreshing := s.refreshing - {pid}, db := RevokeDoc(s.db, r.token),
                minting := s.minting[pid := Mint(g, Unpairing(r.snap.data.pair), 0)],
                log := BornFromToken(s.log, r.token, r.snap.data, g))
  }

  ghost predicate RevokePair(s: Sys, pid: Pid, s': Sys) {
    && pid in s.minting && s.minting[pid].phase.Unpairing?
    && s' == s.(db := RevokeDoc(s.db, s.minting[pid].phase.pair),
                minting := s.minting[pid := s.minting[pid].(phase := Reading)])
  }

  predicate RevokedFamily(db: Db, family: Id) { family in db.fams && db.fams[family].data.revoked }

  /** save_token_pair reads a family that is not revoked; seeing a revoked one it gives up. */
  ghost predicate ReadFamily(s: Sys, pid: Pid, s': Sys) {
    && pid in s.minting && s.minting[pid].phase.Reading? && !RevokedFamily(s.db, s.minting[pid].grant.family)
    && s' == s.(minting := s.minting[pid :=
      s.minting[pid].(phase := Committing(Lookup(s.db.fams, s.minting[pid].grant.family)))])
  }

  /** The batch's precondition: create wants no document, update wants the one that was read. */
  predicate CommitAccepted(db: Db, family: Id, snap: Option<Doc<Family>>) {
    match snap
    case None => family !in db.fams
    case Some(d) => Unmoved(db.fams, family, d)
  }

  function Minted(g: Grant, kind: Kind, expires: int): Token {
    var pair := if kind == Access then g.refresh else g.access;
    Token(kind, g.uid, g.client, g.scopes, Some(g.family), pair, false, expires)
  }

  function CommitDb(db: Db, g: Grant, accessExpires: int, refreshExpires: int): Db {
    db.(fams := db.fams[g.family := Doc(db.next, Family(false))],
        tokens := db.tokens[g.access := Doc(db.next + 1, Minted(g, Access, accessExpires))]
                           [g.refresh := Doc(db.next + 2, Minted(g, Refresh, refreshExpires))],
        next := db.next + 3)
  }

  ghost predicate CommitMint(s: Sys, pid: Pid, accessExpires: int, refreshExpires: int, s': Sys) {
    && pid in s.minting && s.minting[pid].phase.Committing?
    && CommitAccepted(s.db, s.minting[pid].grant.family, s.minting[pid].phase.snap)
    && s' == s.(minting := s.minting - {pid}, db := CommitDb(s.db, s.minting[pid].grant, accessExpires, refreshExpires))
  }

  ghost predicate RetryMint(s: Sys, pid: Pid, s': Sys) {
    && pid in s.minting && s.minting[pid].phase.Committing?
    && !CommitAccepted(s.db, s.minting[pid].grant.family, s.minting[pid].phase.snap)
    && s.minting[pid].tries + 1 < MINT_ATTEMPTS
    && s' == s.(minting := s.minting[pid := Mint(s.minting[pid].grant, Reading, s.minting[pid].tries + 1)])
  }

  ghost predicate BeginRevoke(s: Sys, pid: Pid, id: Id, s': Sys) {
    && pid !in s.revoking && id in s.db.tokens
    && s' == s.(revoking := s.revoking[pid := {id, s.db.tokens[id].data.pair}])
  }

  ghost predicate RevokeOne(s: Sys, pid: Pid, id: Id, s': Sys) {
    && pid in s.revoking && id in s.revoking[pid]
    && s' == s.(db := RevokeDoc(s.db, id), revoking := s.revoking[pid := s.revoking[pid] - {id}])
  }

  predicate Replayed(db: Db, t: Token, client: Id) {
    !Expired(t.expires, db.now) && t.kind == Refresh && t.client == client && t.revoked
  }

  /** load_refresh_token sees a refresh token that was already rotated away. */
  ghost predicate BeginReuse(s: Sys, pid: Pid, id: Id, client: Id, s': Sys) {
    && pid !in s.marking && id in s.db.tokens && Replayed(s.db, s.db.tokens[id].data, client)
    && s.db.tokens[id].data.family.Some?
    && s' == s.(marking := s.marking[pid := s.db.tokens[id].data.family.value])
  }

  function MarkDb(db: Db, family: Id): Db {
    db.(fams := db.fams[family := Doc(db.next, Family(true))], next := db.next + 1)
  }

  ghost predicate MarkFamily(s: Sys, pid: Pid, s': Sys) {
    && pid in s.marking && pid !in s.querying
    && s' == s.(marking := s.marking - {pid}, db := MarkDb(s.db, s.marking[pid]),
                querying := s.querying[pid := s.marking[pid]])
  }

  predicate LiveToken(db: Db, family: Id, h: Id) {
    h in db.tokens && db.tokens[h].data.family == Some(family) && !db.tokens[h].data.revoked
  }

  /** Exactly the tokens of the family that a query finds unrevoked. */
  function Listing(db: Db, family: Id): set<Id> {
    set h | h in db.tokens && LiveToken(db, family, h)
  }

  ghost predicate ListFamily(s: Sys, pid: Pid, s': Sys) {
    && pid in s.querying && pid !in s.revoking
    && s' == s.(querying := s.querying - {pid}, revoking := s.revoking[pid := Listing(s.db, s.querying[pid])])
  }

  /** A request ends: it lost the guard of its write, was refused, is done, or died. */
  ghost predicate Vanish(s: Sys, pid: Pid, s': Sys) {
    s' == s.(finishing := s.finishing - {pid}, saving := s.saving - {pid}, redeeming := s.redeeming - {pid},
             refreshing := s.refreshing - {pid}, minting := s.minting - {pid}, revoking := s.revoking - {pid},
             marking := s.marking - {pid}, querying := s.querying - {pid})
  }

  // ------------------------------------------------------------------
  // What every reachable state satisfies
  // ------------------------------------------------------------------

  /** At the start there are only tokens from before family tracking. */
  ghost predicate Init(s: Sys) {
    && s.db.txns == map[] && s.db.codes == map[] && s.db.fams == map[]
    && s.finishing == map[] && s.saving == map[] && s.redeeming == map[] && s.refreshing == map[]
    && s.minting == map[] && s.revoking == map[] && s.marking == map[] && s.querying == map[]
    && s.log.txns == map[] && s.log.issued == map[] && s.log.born == map[]
    && s.db.tokens.Keys <= s.log.secrets
    && Below(s.db.tokens, s.db.next)
    && (forall h :: h in s.db.tokens ==> s.db.tokens[h].data.family == None)
  }

  ghost predicate Below<T>(m: map<Id, Doc<T>>, next: nat) {
    forall k :: k in m ==> m[k].version < next
  }

  /** A snapshot whose update time still matches is the current document. */
  ghost predicate Faithful<T>(m: map<Id, Doc<T>>, next: nat, id: Id, snap: Doc<T>) {
    snap.version < next && (Unmoved(m, id, snap) ==> m[id] == snap)
  }

  ghost predicate TxnSnaps(txns: map<Id, Doc<Txn>>, next: nat, finishing: map<Pid, Finishing>) {
    && Below(txns, next)
    && forall p :: p in finishing ==>
         var f := finishing[p];
         f.status != Pending && f.snap.data.status == Pending && Faithful(txns, next, f.txn, f.snap)
  }

  ghost predicate CodeSnaps(codes: map<Id, Doc<Code>>, next: nat, redeeming: map<Pid, Redeeming>) {
    && Below(codes, next)
    && forall p :: p in redeeming ==> Faithful(codes, next, redeeming[p].code, redeeming[p].snap)
  }

  ghost predicate TokenSnaps(tokens: map<Id, Doc<Token>>, next: nat, refreshing: map<Pid, Refreshing>) {
    && Below(tokens, next)
    && forall p :: p in refreshing ==>
         var r := refreshing[p];
         r.snap.data.kind == Refresh && !r.snap.data.revoked && Faithful(tokens, next, r.token, r.snap)
  }

  ghost predicate Settled(txns: map<Id, Doc<Txn>>, t: Id) {
    t in txns ==> txns[t].data.status != Pending
  }

  /** A transaction yields its code only after leaving the pending state, and yields at most one. */
  ghost predicate TxnInv(txns: map<Id, Doc<Txn>>, finishing: map<Pid, Finishing>, saving: map<Pid, Saving>,
                         known: map<Id, Txn>, issued: map<Id, Issue>) {
    && txns.Keys <= known.Keys
    && (forall p :: p in finishing ==> finishing[p].txn in known)
    && (forall c :: c in issued ==> issued[c].txn in known && Settled(txns, issued[c].txn))
    && (forall c, d :: c in issued && d in issued && issued[c].txn == issued[d].txn ==> c == d)
    && (forall p :: p in saving ==> saving[p].txn in known && Settled(txns, saving[p].txn))
    && (forall p, c :: p in saving && c in issued ==> issued[c].txn != saving[p].txn)
    && (forall p, q :: p in saving && q in saving && saving[p].txn == saving[q].txn ==> p == q)
  }

  ghost predicate AskedIn(w: Consent, t: Txn) { w.client == t.client && w.scopes == t.scopes }

  /** What is approved is what the transaction asked for. */
  ghost predicate Asked(txns: map<Id, Doc<Txn>>, finishing: map<Pid, Finishing>, saving: map<Pid, Saving>,
                        known: map<Id, Txn>, issued: map<Id, Issue>) {
    && (forall t :: t in txns ==>
          t in known && txns[t].data.client == known[t].client && txns[t].data.scopes == known[t].scopes)
    && (forall p :: p in finishing ==>
          && finishing[p].txn in known && finishing[p].snap.data.client == known[finishing[p].txn].client
          && finishing[p].snap.data.scopes == known[finishing[p].txn].scopes)
    && (forall p :: p in saving ==> saving[p].txn in known && AskedIn(saving[p].consent, known[saving[p].txn]))
    && (forall c :: c in issued ==> issued[c].txn in known && AskedIn(issued[c].consent, known[issued[c].txn]))
  }

  ghost predicate CodeInv(codes: map<Id, Doc<Code>>, redeeming: map<Pid, Redeeming>, issued: map<Id, Issue>) {
    && (forall p :: p in redeeming ==> redeeming[p].code in issued)
    && (forall c :: c in codes ==>
          && c in issued
          && codes[c].data.client == issued[c].consent.client
          && codes[c].data.subject == issued[c].consent.uid
          && codes[c].data.scopes == issued[c].consent.scopes)
  }

  /** A code that is still stored has founded no family. */
  ghost predicate Unspent(codes: map<Id, Doc<Code>>, born: map<Id, Birth>) {
    forall c, f :: c in codes && f in born ==> born[f].origin != FromCode(c)
  }

  /** A usable token from before family tracking has founded no family. */
  ghost predicate LegacyUnspent(tokens: map<Id, Doc<Token>>, born: map<Id, Birth>) {
    forall h, f :: h in tokens && tokens[h].data.family == None && !tokens[h].data.revoked && f in born ==>
      born[f].origin != FromLegacy(h)
  }

  ghost predicate BirthInv(born: map<Id, Birth>, issued: map<Id, Issue>) {
    && (forall f, g :: f in born && g in born && born[f].origin == born[g].origin ==> f == g)
    && (forall f :: f in born && born[f].origin.FromCode? ==>
          born[f].origin.code in issued && born[f].consent == issued[born[f].origin.code].consent)
  }

  ghost predicate KnownInv(s: Sys) {
    && s.db.fams.Keys <= s.log.born.Keys
    && s.db.tokens.Keys <= s.log.secrets
    && (forall p :: p in s.refreshing ==> s.refreshing[p].token in s.log.secrets)
    && (forall p :: p in s.marking ==> s.marking[p] in s.log.born)
    && (forall p :: p in s.querying ==> RevokedFamily(s.db, s.querying[p]))
  }

  ghost predicate Within(uid: Id, client: Id, scopes: seq<Id>, w: Consent) {
    uid == w.uid && client == w.client && forall x :: x in scopes ==> x in w.scopes
  }

  ghost predicate TokenWithin(t: Token, born: map<Id, Birth>) {
    t.family.Some? ==>
      t.family.value in born && Within(t.uid, t.client, t.scopes, born[t.family.value].consent)
  }

  ghost predicate GrantWithin(g: Grant, born: map<Id, Birth>) {
    g.family in born && Within(g.uid, g.client, g.scopes, born[g.family].consent)
  }

  /** Every token and every pending mint stays within what its lineage was granted. */
  ghost predicate Bound(tokens: map<Id, Doc<Token>>, minting: map<Pid, Mint>, born: map<Id, Birth>) {
    && (forall h :: h in tokens ==> TokenWithin(tokens[h].data, born))
    && (forall p :: p in minting ==> GrantWithin(minting[p].grant, born))
  }

  /** The secrets of a pending mint belong to it alone and are not stored yet. */
  ghost predicate Drawn(tokens: map<Id, Doc<Token>>, minting: map<Pid, Mint>, secrets: set<Id>) {
    && (forall p :: p in minting ==>
          var g := minting[p].grant;
          g.access != g.refresh && g.access in secrets && g.refresh in secrets
          && g.access !in tokens && g.refresh !in tokens)
    && (forall p, q :: p in minting && q in minting && p != q ==>
          {minting[p].grant.access, minting[p].grant.refresh} !! {minting[q].grant.access, minting[q].grant.refresh})
  }

  ghost predicate Live(tokens: map<Id, Doc<Token>>, kind: Kind, h: Id, f: Id) {
    h in tokens && tokens[h].data.kind == kind && tokens[h].data.family == Some(f) && !tokens[h].data.revoked
  }

  ghost predicate Holds(minting: map<Pid, Mint>, p: Pid, f: Id) { p in minting && minting[p].grant.family == f }

  /** One slot per family: a pending mint, or an unrevoked refresh token, and one unrevoked access token. */
  ghost predicate SlotInv(tokens: map<Id, Doc<Token>>, minting: map<Pid, Mint>) {
    && (forall p, q, f :: Holds(minting, p, f) && Holds(minting, q, f) ==> p == q)
    && (forall p, h, f :: Holds(minting, p, f) ==> !Live(tokens, Refresh, h, f))
    && (forall h, k, f :: Live(tokens, Refresh, h, f) && Live(tokens, Refresh, k, f) ==> h == k)
    && (forall h, k, f :: Live(tokens, Access, h, f) && Live(tokens, Access, k, f) ==> h == k)
    && (forall a, r, f :: Live(tokens, Access, a, f) && Live(tokens, Refresh, r, f) ==> tokens[r].data.pair == a)
    && (forall p, a, f :: Holds(minting, p, f) && Live(tokens, Access, a, f) ==> minting[p].phase == Unpairing(a))
  }

  /** A mint that had to try again, or will have to, has lost to a revocation mark. */
  ghost predicate MintInv(fams: map<Id, Doc<Family>>, next: nat, minting: map<Pid, Mint>) {
    && Below(fams, next)
    && forall p :: p in minting ==>
         var m := minting[p];
         var marked := m.grant.family in fams && fams[m.grant.family].data.revoked;
         && m.tries < MINT_ATTEMPTS
         && (m.tries > 0 ==> marked)
         && (m.phase.Committing? ==> marked || m.phase.snap == Lookup(fams, m.grant.family))
         && (m.phase.Committing? && m.phase.snap.Some? ==> !m.phase.snap.value.data.revoked)
         && (m.phase.Committing? && m.phase.snap.Some? ==> Faithful(fams, next, m.grant.family, m.phase.snap.value))
  }

  /** The part about transactions and codes. */
  ghost predicate Front(s: Sys) {
    && TxnSnaps(s.db.txns, s.db.next, s.finishing)
    && TxnInv(s.db.txns, s.finishing, s.saving, s.log.txns, s.log.issued)
    && Asked(s.db.txns, s.finishing, s.saving, s.log.txns, s.log.issued)
    && CodeSnaps(s.db.codes, s.db.next, s.redeeming)
    && CodeInv(s.db.codes, s.redeeming, s.log.issued)
    && Unspent(s.db.codes, s.log.born)
    && BirthInv(s.log.born, s.log.issued)
  }

  /** The part about families and tokens. */
  ghost predicate Back(s: Sys) {
    && TokenSnaps(s.db.tokens, s.db.next, s.refreshing)
    && LegacyUnspent(s.db.tokens, s.log.born)
    && KnownInv(s)
    && Bound(s.db.tokens, s.minting, s.log.born)
    && Drawn(s.db.tokens, s.minting, s.log.secrets)
    && SlotInv(s.db.tokens, s.minting)
    && MintInv(s.db.fams, s.db.next, s.minting)
  }

  ghost predicate Inv(s: Sys) { Front(s) && Back(s) }

  lemma InitInv(s: Sys)
    requires Init(s)
    ensures Inv(s)
  {
  }

  // Two kinds of change cover most steps: tokens only go away or get revoked, and
  // pending mints only end or move on.

  ghost predicate Fewer(tokens: map<Id, Doc<Token>>, tokens': map<Id, Doc<Token>>) {
    forall h :: h in tokens' ==>
      && h in tokens
      && (tokens'[h].data == tokens[h].data || tokens'[h].data == tokens[h].data.(revoked := true))
  }

  ghost predicate MovedOn(minting: map<Pid, Mint>, minting': map<Pid, Mint>) {
    forall p :: p in minting' ==>
      && p in minting && minting'[p].grant == minting[p].grant
      && (minting[p].phase.Unpairing? ==> minting'[p].phase == minting[p].phase)
  }

  lemma FewerKeeps(tokens: map<Id, Doc<Token>>, tokens': map<Id, Doc<Token>>, minting: map<Pid, Mint>,
                   born: map<Id, Birth>, secrets: set<Id>)
    requires Fewer(tokens, tokens')
    requires Bound(tokens, minting, born) && Drawn(tokens, minting, secrets) && LegacyUnspent(tokens, born)
    ensures Bound(tokens', minting, born) && Drawn(tokens', minting, secrets) && LegacyUnspent(tokens', born)
  {
  }

  lemma FewerKeepsSlot(tokens: map<Id, Doc<Token>>, tokens': map<Id, Doc<Token>>, minting: map<Pid, Mint>)
    requires Fewer(tokens, tokens') && SlotInv(tokens, minting)
    ensures SlotInv(tokens', minting)
  {
    assert forall k, h, f :: Live(tokens', k, h, f) ==> Live(tokens, k, h, f);
  }

  lemma MovedOnMints(fams: map<Id, Doc<Family>>, next: nat, minting: map<Pid, Mint>, pid: Pid, m: Mint)
    requires MintInv(fams, next, minting) && pid in minting && m.grant == minting[pid].grant
    requires m.tries < MINT_ATTEMPTS
    requires m.phase == Reading || m.phase == Committing(Lookup(fams, m.grant.family))
    requires (m.tries == 0 && m.phase == Reading) || (m.tries == minting[pid].tries && m.phase.Committing?)
             || (m.grant.family in fams && fams[m.grant.family].data.revoked)
    requires m.phase.Committing? ==> !(m.grant.family in fams && fams[m.grant.family].data.revoked)
    ensures MintInv(fams, next, minting[pid := m])
  {
  }

  /** A commit is lost only to a revocation mark. */
  lemma LostMeansMarked(db: Db, minting: map<Pid, Mint>, pid: Pid)
    requires MintInv(db.fams, db.next, minting) && pid in minting && minting[pid].phase.Committing?
    requires !CommitAccepted(db, minting[pid].grant.family, minting[pid].phase.snap)
    ensures RevokedFamily(db, minting[pid].grant.family)
  {
  }

  lemma MovedOnGrants(tokens: map<Id, Doc<Token>>, minting: map<Pid, Mint>, minting': map<Pid, Mint>,
                      born: map<Id, Birth>, secrets: set<Id>)
    requires forall p :: p in minting' ==> p in minting && minting'[p].grant == minting[p].grant
    requires Bound(tokens, minting, born) && Drawn(tokens, minting, secrets)
    ensures Bound(tokens, minting', born) && Drawn(tokens, minting', secrets)
  {
  }

  lemma MovedOnKeeps(tokens: map<Id, Doc<Token>>, minting: map<Pid, Mint>, minting': map<Pid, Mint>,
                     born: map<Id, Birth>, secrets: set<Id>)
    requires MovedOn(minting, minting')
    requires Bound(tokens, minting, born) && Drawn(tokens, minting, secrets) && SlotInv(tokens, minting)
    ensures Bound(tokens, minting', born) && Drawn(tokens, minting', secrets) && SlotInv(tokens, minting')
  {
    assert forall p, f :: Holds(minting', p, f) ==> Holds(minting, p, f);
  }

  lemma RevokeDocKeeps(db: Db, id: Id, refreshing: map<Pid, Refreshing>)
    requires TokenSnaps(db.tokens, db.next, refreshing)
    ensures var db' := RevokeDoc(db, id);
            && Fewer(db.tokens, db'.tokens) && TokenSnaps(db'.tokens, db'.next, refreshing)
            && db'.tokens.Keys == db.tokens.Keys && db'.next >= db.next
            && db' == db.(tokens := db'.tokens, next := db'.next)
            && (id in db'.tokens ==> db'.tokens[id].data.revoked)
  {
  }

  lemma AuthorizeTxn(s: Sys, id: Id, txn: Txn)
    requires TxnSnaps(s.db.txns, s.db.next, s.finishing)
    requires TxnInv(s.db.txns, s.finishing, s.saving, s.log.txns, s.log.issued)
    requires id !in s.log.txns && txn.status == Pending
    ensures var txns' := s.db.txns[id := Doc(s.db.next, txn)];
            && TxnSnaps(txns', s.db.next + 1, s.finishing)
            && TxnInv(txns', s.finishing, s.saving, s.log.txns[id := txn], s.log.issued)
  {
  }

  lemma FinishTxn(s: Sys, pid: Pid)
    requires TxnSnaps(s.db.txns, s.db.next, s.finishing)
    requires TxnInv(s.db.txns, s.finishing, s.saving, s.log.txns, s.log.issued)
    requires pid in s.finishing && Unmoved(s.db.txns, s.finishing[pid].txn, s.finishing[pid].snap)
    ensures var f, db' := s.finishing[pid], FinishDb(s.db, s.finishing[pid].txn, s.finishing[pid].status);
            && TxnSnaps(db'.txns, db'.next, s.finishing - {pid})
            && TxnInv(db'.txns, s.finishing - {pid}, s.saving, s.log.txns, s.log.issued)
            && (pid !in s.saving ==>
                  TxnInv(db'.txns, s.finishing - {pid}, s.saving[pid := SavingAfter(f)], s.log.txns, s.log.issued))
  {
    var f := s.finishing[pid];
    assert s.db.txns[f.txn] == f.snap;
  }

  lemma FinishAsked(s: Sys, pid: Pid, status: Status)
    requires Asked(s.db.txns, s.finishing, s.saving, s.log.txns, s.log.issued)
    requires pid in s.finishing && s.finishing[pid].txn in s.db.txns
    ensures var db' := FinishDb(s.db, s.finishing[pid].txn, status);
            && Asked(db'.txns, s.finishing - {pid}, s.saving, s.log.txns, s.log.issued)
            && Asked(db'.txns, s.finishing - {pid}, s.saving[pid := SavingAfter(s.finishing[pid])], s.log.txns,
              s.log.issued)
  {
  }

  lemma SaveCodeTxn(s: Sys, pid: Pid, id: Id)
    requires TxnInv(s.db.txns, s.finishing, s.saving, s.log.txns, s.log.issued)
    requires pid in s.saving && id !in s.log.issued
    ensures TxnInv(s.db.txns, s.finishing, s.saving - {pid}, s.log.txns,
                   s.log.issued[id := Issue(s.saving[pid].txn, s.saving[pid].consent)])
  {
  }

  lemma SaveCodeCode(s: Sys, pid: Pid, id: Id, expires: int)
    requires CodeSnaps(s.db.codes, s.db.next, s.redeeming) && CodeInv(s.db.codes, s.redeeming, s.log.issued)
    requires Unspent(s.db.codes, s.log.born) && BirthInv(s.log.born, s.log.issued)
    requires pid in s.saving && id !in s.log.issued
    ensures var db' := SaveCodeDb(s.db, id, s.saving[pid].consent, expires);
            var issued' := s.log.issued[id := Issue(s.saving[pid].txn, s.saving[pid].consent)];
            && CodeSnaps(db'.codes, db'.next, s.redeeming) && CodeInv(db'.codes, s.redeeming, issued')
            && Unspent(db'.codes, s.log.born) && BirthInv(s.log.born, issued')
  {
  }

  lemma DropCode(s: Sys, pid: Pid)
    requires CodeSnaps(s.db.codes, s.db.next, s.redeeming) && CodeInv(s.db.codes, s.redeeming, s.log.issued)
    requires Unspent(s.db.codes, s.log.born) && pid in s.redeeming
    ensures var codes' := s.db.codes - {s.redeeming[pid].code};
            && CodeSnaps(codes', s.db.next, s.redeeming - {pid})
            && CodeInv(codes', s.redeeming - {pid}, s.log.issued)
            && Unspent(codes', s.log.born)
  {
  }

  lemma BirthFromCode(codes: map<Id, Doc<Code>>, tokens: map<Id, Doc<Token>>, log: Log, code: Id, g: Grant)
    requires BirthInv(log.born, log.issued) && Unspent(codes, log.born) && LegacyUnspent(tokens, log.born)
    requires code in codes && code in log.issued && g.family !in log.born
    ensures var born' := BornFromCode(log, code, g).born;
            && BirthInv(born', log.issued) && Unspent(codes - {code}, born') && LegacyUnspent(tokens, born')
  {
  }

  lemma BirthFromToken(codes: map<Id, Doc<Code>>, db: Db, log: Log, id: Id, g: Grant)
    requires BirthInv(log.born, log.issued) && Unspent(codes, log.born) && LegacyUnspent(db.tokens, log.born)
    requires id in db.tokens && !db.tokens[id].data.revoked
    requires db.tokens[id].data.family == None ==> g.family !in log.born
    ensures var born' := BornFromToken(log, id, db.tokens[id].data, g).born;
            && BirthInv(born', log.issued) && Unspent(codes, born') && LegacyUnspent(RevokeDoc(db, id).tokens, born')
  {
  }

  /** A code's mint enters a family that did not exist before. */
  lemma EnterFresh(tokens: map<Id, Doc<Token>>, minting: map<Pid, Mint>, pid: Pid, m: Mint,
                   born: map<Id, Birth>, b: Birth)
    requires Bound(tokens, minting, born) && SlotInv(tokens, minting)
    requires pid !in minting && m.grant.family !in born
    requires Within(m.grant.uid, m.grant.client, m.grant.scopes, b.consent)
    ensures Bound(tokens, minting[pid := m], born[m.grant.family := b])
    ensures SlotInv(tokens, minting[pid := m])
  {
    var minting' := minting[pid := m];
    assert forall h :: h in tokens ==> TokenWithin(tokens[h].data, born);
    assert forall h, k :: !Live(tokens, k, h, m.grant.family);
    assert forall p, f :: Holds(minting', p, f) ==>
      (p == pid && f == m.grant.family) || (Holds(minting, p, f) && p != pid);
    assert forall p :: Holds(minting, p, m.grant.family) ==> GrantWithin(minting[p].grant, born);
  }

  /** A rotation takes the slot over from the refresh token it consumed. */
  lemma EnterRotation(tokens: map<Id, Doc<Token>>, tokens': map<Id, Doc<Token>>, minting: map<Pid, Mint>, pid: Pid,
                      id: Id, m: Mint, born: map<Id, Birth>)
    requires Bound(tokens, minting, born) && SlotInv(tokens, minting)
    requires Fewer(tokens, tokens') && id in tokens && (id in tokens' ==> tokens'[id].data.revoked)
    requires pid !in minting && Live(tokens, Refresh, id, m.grant.family)
    requires m.phase == Unpairing(tokens[id].data.pair) && GrantWithin(m.grant, born)
    ensures Bound(tokens', minting[pid := m], born) && SlotInv(tokens', minting[pid := m])
  {
    var minting' := minting[pid := m];
    assert forall k, h, f :: Live(tokens', k, h, f) ==> Live(tokens, k, h, f);
    assert forall p, f :: Holds(minting', p, f) ==>
      (p == pid && f == m.grant.family) || (Holds(minting, p, f) && p != pid);
  }

  lemma EnterDrawn(tokens: map<Id, Doc<Token>>, minting: map<Pid, Mint>, pid: Pid, m: Mint, secrets: set<Id>)
    requires Drawn(tokens, minting, secrets) && tokens.Keys <= secrets && pid !in minting
    requires m.grant.access !in secrets && m.grant.refresh !in secrets && m.grant.access != m.grant.refresh
    ensures Drawn(tokens, minting[pid := m], secrets + {m.grant.access, m.grant.refresh})
  {
  }

  /** Once the old access token is revoked, the pending mint may go on. */
  lemma PairRevoked(tokens: map<Id, Doc<Token>>, minting: map<Pid, Mint>, pid: Pid)
    requires SlotInv(tokens, minting) && pid in minting && minting[pid].phase.Unpairing?
    requires var a := minting[pid].phase.pair; a in tokens ==> tokens[a].data.revoked
    ensures SlotInv(tokens, minting[pid := minting[pid].(phase := Reading)])
  {
    var minting' := minting[pid := minting[pid].(phase := Reading)];
    assert forall p, f :: Holds(minting', p, f) ==> Holds(minting, p, f);
  }

  /** The new pair fills the slot that its mint held. */
  lemma CommitTokens(db: Db, minting: map<Pid, Mint>, pid: Pid, x: int, y: int, born: map<Id, Birth>, secrets: set<Id>)
    requires Bound(db.tokens, minting, born) && Drawn(db.tokens, minting, secrets) && LegacyUnspent(db.tokens, born)
    requires pid in minting
    ensures var tokens' := CommitDb(db, minting[pid].grant, x, y).tokens;
            && Bound(tokens', minting - {pid}, born) && Drawn(tokens', minting - {pid}, secrets)
            && LegacyUnspent(tokens', born)
  {
    var g := minting[pid].grant;
    assert GrantWithin(g, born);
    assert TokenWithin(Minted(g, Access, x), born) && TokenWithin(Minted(g, Refresh, y), born);
    forall p | p in minting - {pid}
      ensures {minting[p].grant.access, minting[p].grant.refresh} !! {g.access, g.refresh}
      ensures minting[p].grant.access !in {g.access, g.refresh} && minting[p].grant.refresh !in {g.access, g.refresh}
    {
    }
  }

  lemma CommitSlot(db: Db, minting: map<Pid, Mint>, pid: Pid, x: int, y: int)
    requires SlotInv(db.tokens, minting) && pid in minting && minting[pid].phase.Committing?
    requires var g := minting[pid].grant; g.access != g.refresh && g.access !in db.tokens && g.refresh !in db.tokens
    ensures SlotInv(CommitDb(db, minting[pid].grant, x, y).tokens, minting - {pid})
  {
    var g := minting[pid].grant;
    var tokens' := CommitDb(db, g, x, y).tokens;
    assert Holds(minting, pid, g.family);
    assert forall h :: !Live(db.tokens, Access, h, g.family) && !Live(db.tokens, Refresh, h, g.family);
    assert forall h, k, f :: Live(tokens', k, h, f) <==>
      Live(db.tokens, k, h, f) || (f == g.family
        && ((k == Access && h == g.access) || (k == Refresh && h == g.refresh)));
    forall p, f | Holds(minting - {pid}, p, f) ensures Holds(minting, p, f) && p != pid && f != g.family {
      assert Holds(minting, p, f);
      assert Holds(minting, p, g.family) ==> p == pid;
    }
  }

  /** Only the slot holder and a revocation write the family document. */
  lemma CommitFamily(s: Sys, pid: Pid)
    requires MintInv(s.db.fams, s.db.next, s.minting) && SlotInv(s.db.tokens, s.minting)
    requires pid in s.minting
    ensures MintInv(s.db.fams[s.minting[pid].grant.family := Doc(s.db.next, Family(false))], s.db.next + 3,
        s.minting - {pid})
  {
    var f := s.minting[pid].grant.family;
    assert forall p :: p in s.minting - {pid} ==> s.minting[p].grant.family != f by {
      assert Holds(s.minting, pid, f);
      assert forall p :: Holds(s.minting, p, f) ==> p == pid;
      assert forall p :: p in s.minting && s.minting[p].grant.family == f ==> Holds(s.minting, p, f);
    }
  }

  lemma CommitKnown(s: Sys, pid: Pid, x: int, y: int)
    requires KnownInv(s) && Drawn(s.db.tokens, s.minting, s.log.secrets) && Bound(s.db.tokens, s.minting, s.log.born)
    requires MintInv(s.db.fams, s.db.next, s.minting) && pid in s.minting && s.minting[pid].phase.Committing?
    requires CommitAccepted(s.db, s.minting[pid].grant.family, s.minting[pid].phase.snap)
    requires TokenSnaps(s.db.tokens, s.db.next, s.refreshing)
    ensures var db' := CommitDb(s.db, s.minting[pid].grant, x, y);
            && KnownInv(s.(db := db', minting := s.minting - {pid}))
            && TokenSnaps(db'.tokens, db'.next, s.refreshing)
  {
    assert GrantWithin(s.minting[pid].grant, s.log.born);
  }

  lemma EnterMints(fams: map<Id, Doc<Family>>, next: nat, minting: map<Pid, Mint>, pid: Pid, m: Mint)
    requires MintInv(fams, next, minting) && m.tries == 0 && !m.phase.Committing?
    ensures MintInv(fams, next, minting[pid := m])
  {
  }

  lemma PairRevokedMints(fams: map<Id, Doc<Family>>, next: nat, minting: map<Pid, Mint>, pid: Pid)
    requires MintInv(fams, next, minting) && pid in minting && !minting[pid].phase.Committing?
    ensures MintInv(fams, next, minting[pid := minting[pid].(phase := Reading)])
  {
  }

  lemma MarkMints(fams: map<Id, Doc<Family>>, next: nat, minting: map<Pid, Mint>, f: Id)
    requires MintInv(fams, next, minting)
    ensures MintInv(fams[f := Doc(next, Family(true))], next + 1, minting)
  {
  }

  /** Update times only grow, so snapshots of documents that did not change stay faithful. */
  lemma FrontKept(s: Sys, s': Sys)
    requires Front(s) && s.db.next <= s'.db.next
    requires s'.db.txns == s.db.txns && s'.db.codes == s.db.codes && s'.finishing == s.finishing
    requires s'.saving == s.saving && s'.redeeming == s.redeeming
    requires s'.log.txns == s.log.txns && s'.log.issued == s.log.issued && s'.log.born == s.log.born
    ensures Front(s')
  {
  }

  lemma BackKept(s: Sys, s': Sys)
    requires Back(s) && s.db.next <= s'.db.next
    requires s'.db.tokens == s.db.tokens && s'.db.fams == s.db.fams && s'.refreshing == s.refreshing
    requires s'.minting == s.minting && s'.marking == s.marking && s'.querying == s.querying
    requires s'.log.born == s.log.born && s'.log.secrets == s.log.secrets
    ensures Back(s')
  {
  }

  lemma MintsKept(s: Sys, next: nat)
    requires MintInv(s.db.fams, s.db.next, s.minting) && s.db.next <= next
    ensures MintInv(s.db.fams, next, s.minting)
  {
  }

  lemma FrontCollectTxn(s: Sys, id: Id, s': Sys)
    requires Front(s) && CollectTxn(s, id, s')
    ensures Front(s')
  {
  }

  lemma FrontCollectCode(s: Sys, id: Id, s': Sys)
    requires Front(s) && CollectCode(s, id, s')
    ensures Front(s')
  {
  }

  lemma BackCollectToken(s: Sys, id: Id, s': Sys)
    requires Back(s) && CollectToken(s, id, s')
    ensures Back(s')
  {
    FewerKeeps(s.db.tokens, s'.db.tokens, s.minting, s.log.born, s.log.secrets);
    FewerKeepsSlot(s.db.tokens, s'.db.tokens, s.minting);
  }

  lemma FrontAuthorize(s: Sys, id: Id, txn: Txn, s': Sys)
    requires Front(s) && Authorize(s, id, txn, s')
    ensures Front(s')
  {
    AuthorizeTxn(s, id, txn);
  }

  lemma FrontBeginFinish(s: Sys, pid: Pid, id: Id, status: Status, uid: Id, s': Sys)
    requires Front(s) && BeginFinish(s, pid, id, status, uid, s')
    ensures Front(s')
  {
  }

  lemma FrontApprove(s: Sys, pid: Pid, s': Sys)
    requires Front(s) && Approve(s, pid, s')
    ensures Front(s')
  {
    FinishTxn(s, pid);
    FinishAsked(s, pid, s.finishing[pid].status);
  }

  lemma FrontDeny(s: Sys, pid: Pid, s': Sys)
    requires Front(s) && Deny(s, pid, s')
    ensures Front(s')
  {
    FinishTxn(s, pid);
    FinishAsked(s, pid, s.finishing[pid].status);
  }

  lemma FrontSaveCode(s: Sys, pid: Pid, id: Id, expires: int, s': Sys)
    requires Front(s) && SaveCode(s, pid, id, expires, s')
    ensures Front(s')
  {
    SaveCodeTxn(s, pid, id);
    SaveCodeCode(s, pid, id, expires);
  }

  lemma FrontBeginRedeem(s: Sys, pid: Pid, id: Id, client: Id, s': Sys)
    requires Front(s) && BeginRedeem(s, pid, id, client, s')
    ensures Front(s')
  {
  }

  lemma FrontSpoilCode(s: Sys, pid: Pid, s': Sys)
    requires Front(s) && SpoilCode(s, pid, s')
    ensures Front(s')
  {
    DropCode(s, pid);
  }

  lemma BackBeginRefresh(s: Sys, pid: Pid, id: Id, client: Id, asked: seq<Id>, s': Sys)
    requires Back(s) && BeginRefresh(s, pid, id, client, asked, s')
    ensures Back(s')
  {
  }

  /** Revoking one token, wherever it stands, keeps everything. */
  lemma RevokedBack(s: Sys, id: Id)
    requires Back(s)
    ensures Back(s.(db := RevokeDoc(s.db, id)))
  {
    var tokens' := RevokeDoc(s.db, id).tokens;
    MintsKept(s, RevokeDoc(s.db, id).next);
    RevokeDocKeeps(s.db, id, s.refreshing);
    FewerKeeps(s.db.tokens, tokens', s.minting, s.log.born, s.log.secrets);
    FewerKeepsSlot(s.db.tokens, tokens', s.minting);
  }

  lemma BackMisuse(s: Sys, pid: Pid, s': Sys)
    requires Back(s) && Misuse(s, pid, s')
    ensures Back(s')
  {
    RevokedBack(s, s.refreshing[pid].token);
  }

  lemma BackRevokePair(s: Sys, pid: Pid, s': Sys)
    requires Back(s) && RevokePair(s, pid, s')
    ensures Back(s')
  {
    var s1 := s.(db := s'.db);
    RevokedBack(s, s.minting[pid].phase.pair);
    MovedOnGrants(s1.db.tokens, s1.minting, s'.minting, s1.log.born, s1.log.secrets);
    PairRevoked(s1.db.tokens, s1.minting, pid);
    PairRevokedMints(s1.db.fams, s1.db.next, s1.minting, pid);
  }

  lemma BackReadFamily(s: Sys, pid: Pid, s': Sys)
    requires Back(s) && ReadFamily(s, pid, s')
    ensures Back(s')
  {
    MovedOnKeeps(s.db.tokens, s.minting, s'.minting, s.log.born, s.log.secrets);
    MovedOnMints(s.db.fams, s.db.next, s.minting, pid, s'.minting[pid]);
  }

  lemma BackCommitMint(s: Sys, pid: Pid, accessExpires: int, refreshExpires: int, s': Sys)
    requires Back(s) && CommitMint(s, pid, accessExpires, refreshExpires, s')
    ensures Back(s')
  {
    CommitTokens(s.db, s.minting, pid, accessExpires, refreshExpires, s.log.born, s.log.secrets);
    CommitSlot(s.db, s.minting, pid, accessExpires, refreshExpires);
    CommitFamily(s, pid);
    CommitKnown(s, pid, accessExpires, refreshExpires);
  }

  lemma BackRetryMint(s: Sys, pid: Pid, s': Sys)
    requires Back(s) && RetryMint(s, pid, s')
    ensures Back(s')
  {
    MovedOnKeeps(s.db.tokens, s.minting, s'.minting, s.log.born, s.log.secrets);
    LostMeansMarked(s.db, s.minting, pid);
    MovedOnMints(s.db.fams, s.db.next, s.minting, pid, s'.minting[pid]);
  }

  lemma BackRevokeOne(s: Sys, pid: Pid, id: Id, s': Sys)
    requires Back(s) && RevokeOne(s, pid, id, s')
    ensures Back(s')
  {
    RevokedBack(s, id);
    BackKept(s.(db := s'.db), s');
  }

  lemma BackBeginReuse(s: Sys, pid: Pid, id: Id, client: Id, s': Sys)
    requires Back(s) && BeginReuse(s, pid, id, client, s')
    ensures Back(s')
  {
  }

  lemma BackMarkFamily(s: Sys, pid: Pid, s': Sys)
    requires Back(s) && MarkFamily(s, pid, s')
    ensures Back(s')
  {
    MarkMints(s.db.fams, s.db.next, s.minting, s.marking[pid]);
  }

  lemma BackListFamily(s: Sys, pid: Pid, s': Sys)
    requires Back(s) && ListFamily(s, pid, s')
    ensures Back(s')
  {
  }

  lemma FrontVanish(s: Sys, pid: Pid, s': Sys)
    requires Front(s) && Vanish(s, pid, s')
    ensures Front(s')
  {
  }

  lemma BackVanish(s: Sys, pid: Pid, s': Sys)
    requires Back(s) && Vanish(s, pid, s')
    ensures Back(s')
  {
    MovedOnKeeps(s.db.tokens, s.minting, s'.minting, s.log.born, s.log.secrets);
  }

  lemma FrontRedeemCode(s: Sys, pid: Pid, family: Id, access: Id, refresh: Id, s': Sys)
    requires Front(s) && RedeemCode(s, pid, family, access, refresh, s') && LegacyUnspent(s.db.tokens, s.log.born)
    ensures Front(s') && LegacyUnspent(s'.db.tokens, s'.log.born)
  {
    var r := s.redeeming[pid];
    DropCode(s, pid);
    BirthFromCode(s.db.codes, s.db.tokens, s.log, r.code, CodeGrant(r.snap.data, family, access, refresh));
  }

  /** A mint with fresh secrets joins once its slot and its bounds are known to be in order. */
  lemma EnterBack(s: Sys, pid: Pid, m: Mint, born': map<Id, Birth>)
    requires TokenSnaps(s.db.tokens, s.db.next, s.refreshing) && KnownInv(s)
    requires Drawn(s.db.tokens, s.minting, s.log.secrets) && MintInv(s.db.fams, s.db.next, s.minting)
    requires pid !in s.minting && m.tries == 0 && !m.phase.Committing? && s.log.born.Keys <= born'.Keys
    requires m.grant.access !in s.log.secrets && m.grant.refresh !in s.log.secrets && m.grant.access != m.grant.refresh
    requires LegacyUnspent(s.db.tokens, born') && Bound(s.db.tokens, s.minting[pid := m], born')
    requires SlotInv(s.db.tokens, s.minting[pid := m])
    ensures Back(s.(minting := s.minting[pid := m],
                    log := s.log.(born := born', secrets := s.log.secrets + {m.grant.access, m.grant.refresh})))
  {
    EnterDrawn(s.db.tokens, s.minting, pid, m, s.log.secrets);
    EnterMints(s.db.fams, s.db.next, s.minting, pid, m);
  }

  lemma LeaveRefreshing(s: Sys, pid: Pid)
    requires Back(s)
    ensures Back(s.(refreshing := s.refreshing - {pid}))
  {
  }

  lemma BackRedeemCode(s: Sys, pid: Pid, family: Id, access: Id, refresh: Id, s': Sys)
    requires Back(s) && RedeemCode(s, pid, family, access, refresh, s') && LegacyUnspent(s'.db.tokens, s'.log.born)
    requires CodeSnaps(s.db.codes, s.db.next, s.redeeming) && CodeInv(s.db.codes, s.redeeming, s.log.issued)
    ensures Back(s')
  {
    var r := s.redeeming[pid];
    var m := Mint(CodeGrant(r.snap.data, family, access, refresh), Reading, 0);
    assert s.db.codes[r.code] == r.snap;
    EnterFresh(s.db.tokens, s.minting, pid, m, s.log.born, Birth(FromCode(r.code), s.log.issued[r.code].consent));
    EnterBack(s, pid, m, s'.log.born);
    var s1 := s.(minting := s'.minting, log := s'.log);
    BackKept(s1, s');
  }

  lemma FrontRotate(s: Sys, pid: Pid, family: Id, access: Id, refresh: Id, s': Sys)
    requires Front(s) && Rotate(s, pid, family, access, refresh, s')
    requires TokenSnaps(s.db.tokens, s.db.next, s.refreshing) && LegacyUnspent(s.db.tokens, s.log.born)
    ensures Front(s') && LegacyUnspent(s'.db.tokens, s'.log.born)
  {
    var r := s.refreshing[pid];
    assert s.db.tokens[r.token] == r.snap;
    BirthFromToken(s.db.codes, s.db, s.log, r.token, RefreshGrant(r.snap.data, r.asked, family, access, refresh));
    FrontKept(s, s'.(log := s'.log.(born := s.log.born)));
  }

  lemma RotateSlot(s: Sys, pid: Pid, family: Id, access: Id, refresh: Id, s': Sys)
    requires Rotate(s, pid, family, access, refresh, s') && TokenSnaps(s.db.tokens, s.db.next, s.refreshing)
    requires Bound(s.db.tokens, s.minting, s.log.born) && SlotInv(s.db.tokens, s.minting)
    ensures Bound(s'.db.tokens, s'.minting, s'.log.born) && SlotInv(s'.db.tokens, s'.minting)
  {
    var r := s.refreshing[pid];
    var t := r.snap.data;
    var m := s'.minting[pid];
    assert s.db.tokens[r.token] == r.snap;
    RevokeDocKeeps(s.db, r.token, s.refreshing);
    NarrowNeverWidens(r.asked, t.scopes);
    assert TokenWithin(t, s.log.born);
    if t.family.Some? {
      EnterRotation(s.db.tokens, s'.db.tokens, s.minting, pid, r.token, m, s.log.born);
    } else {
      FewerKeepsSlot(s.db.tokens, s'.db.tokens, s.minting);
      EnterFresh(s'.db.tokens, s.minting, pid, m, s.log.born, s'.log.born[family]);
    }
  }

  lemma BackRotate(s: Sys, pid: Pid, family: Id, access: Id, refresh: Id, s': Sys)
    requires Back(s) && Rotate(s, pid, family, access, refresh, s')
    requires LegacyUnspent(s'.db.tokens, s'.log.born)
    ensures Back(s')
  {
    RotateSlot(s, pid, family, access, refresh, s');
    var s1 := s.(db := s'.db);
    RevokedBack(s, s.refreshing[pid].token);
    EnterBack(s1, pid, s'.minting[pid], s'.log.born);
    LeaveRefreshing(s1.(minting := s'.minting, log := s'.log), pid);
  }

  // ------------------------------------------------------------------
  // Runs
  // ------------------------------------------------------------------

  datatype Act =
    | DoTick(to: int)
    | DoCollectTxn(id: Id)
    | DoCollectCode(id: Id)
    | DoCollectToken(id: Id)
    | DoAuthorize(id: Id, txn: Txn)
    | DoBeginFinish(pid: Pid, id: Id, status: Status, uid: Id)
    | DoApprove(pid: Pid)
    | DoDeny(pid: Pid)
    | DoSaveCode(pid: Pid, id: Id, expires: int)
    | DoBeginRedeem(pid: Pid, id: Id, client: Id)
    | DoSpoilCode(pid: Pid)
    | DoRedeemCode(pid: Pid, family: Id, access: Id, refresh: Id)
    | DoBeginRefresh(pid: Pid, id: Id, client: Id, asked: seq<Id>)
    | DoMisuse(pid: Pid)
    | DoRotate(pid: Pid, family: Id, access: Id, refresh: Id)
    | DoRevokePair(pid: Pid)
    | DoReadFamily(pid: Pid)
    | DoCommitMint(pid: Pid, accessExpires: int, refreshExpires: int)
    | DoRetryMint(pid: Pid)
    | DoBeginRevoke(pid: Pid, id: Id)
    | DoRevokeOne(pid: Pid, id: Id)
    | DoBeginReuse(pid: Pid, id: Id, client: Id)
    | DoMarkFamily(pid: Pid)
    | DoListFamily(pid: Pid)
    | DoVanish(pid: Pid)

  ghost predicate Step(s: Sys, a: Act, s': Sys) {
    match a
    case DoTick(to) => Tick(s, to, s')
    case DoCollectTxn(id) => CollectTxn(s, id, s')
    case DoCollectCode(id) => CollectCode(s, id, s')
    case DoCollectToken(id) => CollectToken(s, id, s')
    case DoAuthorize(id, txn) => Authorize(s, id, txn, s')
    case DoBeginFinish(pid, id, status, uid) => BeginFinish(s, pid, id, status, uid, s')
    case DoApprove(pid) => Approve(s, pid, s')
    case DoDeny(pid) => Deny(s, pid, s')
    case DoSaveCode(pid, id, expires) => SaveCode(s, pid, id, expires, s')
    case DoBeginRedeem(pid, id, client) => BeginRedeem(s, pid, id, client, s')
    case DoSpoilCode(pid) => SpoilCode(s, pid, s')
    case DoRedeemCode(pid, family, access, refresh) => RedeemCode(s, pid, family, access, refresh, s')
    case DoBeginRefresh(pid, id, client, asked) => BeginRefresh(s, pid, id, client, asked, s')
    case DoMisuse(pid) => Misuse(s, pid, s')
    case DoRotate(pid, family, access, refresh) => Rotate(s, pid, family, access, refresh, s')
    case DoRevokePair(pid) => RevokePair(s, pid, s')
    case DoReadFamily(pid) => ReadFamily(s, pid, s')
    case DoCommitMint(pid, accessExpires, refreshExpires) => CommitMint(s, pid, accessExpires, refreshExpires, s')
    case DoRetryMint(pid) => RetryMint(s, pid, s')
    case DoBeginRevoke(pid, id) => BeginRevoke(s, pid, id, s')
    case DoRevokeOne(pid, id) => RevokeOne(s, pid, id, s')
    case DoBeginReuse(pid, id, client) => BeginReuse(s, pid, id, client, s')
    case DoMarkFamily(pid) => MarkFamily(s, pid, s')
    case DoListFamily(pid) => ListFamily(s, pid, s')
    case DoVanish(pid) => Vanish(s, pid, s')
  }

  predicate IsTxnStep(a: Act) {
    a.DoCollectTxn? || a.DoAuthorize? || a.DoBeginFinish? || a.DoApprove? || a.DoDeny?
  }

  lemma TxnStepInv(s: Sys, a: Act, s': Sys)
    requires Inv(s) && Step(s, a, s') && IsTxnStep(a)
    ensures Inv(s')
  {
    hide Front, Back, CollectCode, SaveCode, BeginRedeem, SpoilCode, RedeemCode, Rotate, RevokePair,
         ReadFamily, CommitMint, RetryMint, BeginRevoke, RevokeOne, BeginReuse, MarkFamily, ListFamily,
         Tick, CollectToken, BeginRefresh, Misuse, Vanish;
    match a
    case DoCollectTxn(id) => FrontCollectTxn(s, id, s'); BackKept(s, s');
    case DoAuthorize(id, txn) => FrontAuthorize(s, id, txn, s'); BackKept(s, s');
    case DoBeginFinish(pid, id, status, uid) => FrontBeginFinish(s, pid, id, status, uid, s'); BackKept(s, s');
    case DoApprove(pid) => FrontApprove(s, pid, s'); BackKept(s, s');
    case DoDeny(pid) => FrontDeny(s, pid, s'); BackKept(s, s');
    case _ =>
  }

  predicate IsCodeStep(a: Act) { a.DoCollectCode? || a.DoSaveCode? || a.DoBeginRedeem? || a.DoSpoilCode? }

  lemma CodeStepInv(s: Sys, a: Act, s': Sys)
    requires Inv(s) && Step(s, a, s') && IsCodeStep(a)
    ensures Inv(s')
  {
    hide Front, Back, CollectTxn, Authorize, BeginFinish, Approve, Deny, RedeemCode, Rotate, RevokePair,
         ReadFamily, CommitMint, RetryMint, BeginRevoke, RevokeOne, BeginReuse, MarkFamily, ListFamily,
         Tick, CollectToken, BeginRefresh, Misuse, Vanish;
    match a
    case DoCollectCode(id) => FrontCollectCode(s, id, s'); BackKept(s, s');
    case DoSaveCode(pid, id, expires) => FrontSaveCode(s, pid, id, expires, s'); BackKept(s, s');
    case DoBeginRedeem(pid, id, client) => FrontBeginRedeem(s, pid, id, client, s'); BackKept(s, s');
    case DoSpoilCode(pid) => FrontSpoilCode(s, pid, s'); BackKept(s, s');
    case _ =>
  }

  predicate IsGrantStep(a: Act) { a.DoRedeemCode? || a.DoRotate? }

  lemma GrantStepInv(s: Sys, a: Act, s': Sys)
    requires Inv(s) && Step(s, a, s') && IsGrantStep(a)
    ensures Inv(s')
  {
    hide RedeemCode, Rotate;
    match a
    case DoRedeemCode(pid, family, access, refresh) => FrontRedeemCode(s, pid, family, access, refresh, s');
      BackRedeemCode(s, pid, family, access, refresh, s');
    case DoRotate(pid, family, access, refresh) => FrontRotate(s, pid, family, access, refresh, s');
      BackRotate(s, pid, family, access, refresh, s');
    case _ =>
  }

  predicate IsMintStep(a: Act) {
    a.DoRevokePair? || a.DoReadFamily? || a.DoCommitMint? || a.DoRetryMint?
  }

  lemma MintStepInv(s: Sys, a: Act, s': Sys)
    requires Inv(s) && Step(s, a, s') && IsMintStep(a)
    ensures Inv(s')
  {
    hide Front, Back, CollectTxn, Authorize, BeginFinish, Approve, Deny, CollectCode, SaveCode,
         BeginRedeem, SpoilCode, RedeemCode, Rotate, BeginRevoke, RevokeOne, BeginReuse, MarkFamily,
         ListFamily, Tick, CollectToken, BeginRefresh, Misuse, Vanish;
    match a
    case DoRevokePair(pid) => FrontKept(s, s'); BackRevokePair(s, pid, s');
    case DoReadFamily(pid) => FrontKept(s, s'); BackReadFamily(s, pid, s');
    case DoCommitMint(pid, accessExpires, refreshExpires) => FrontKept(s, s');
      BackCommitMint(s, pid, accessExpires, refreshExpires, s');
    case DoRetryMint(pid) => FrontKept(s, s'); BackRetryMint(s, pid, s');
    case _ =>
  }

  predicate IsRevokeStep(a: Act) {
    a.DoBeginRevoke? || a.DoRevokeOne? || a.DoBeginReuse? || a.DoMarkFamily? || a.DoListFamily?
  }

  lemma RevokeStepInv(s: Sys, a: Act, s': Sys)
    requires Inv(s) && Step(s, a, s') && IsRevokeStep(a)
    ensures Inv(s')
  {
    hide Front, Back, CollectTxn, Authorize, BeginFinish, Approve, Deny, CollectCode, SaveCode,
         BeginRedeem, SpoilCode, RedeemCode, Rotate, RevokePair, ReadFamily, CommitMint, RetryMint, Tick,
         CollectToken, BeginRefresh, Misuse, Vanish;
    match a
    case DoBeginRevoke(pid, id) => FrontKept(s, s'); BackKept(s, s');
    case DoRevokeOne(pid, id) => FrontKept(s, s'); BackRevokeOne(s, pid, id, s');
    case _ => ReuseStepInv(s, a, s');
  }

  lemma ReuseStepInv(s: Sys, a: Act, s': Sys)
    requires Inv(s) && Step(s, a, s') && (a.DoBeginReuse? || a.DoMarkFamily? || a.DoListFamily?)
    ensures Inv(s')
  {
    hide Front, Back, CollectTxn, Authorize, BeginFinish, Approve, Deny, CollectCode, SaveCode,
         BeginRedeem, SpoilCode, RedeemCode, Rotate, RevokePair, ReadFamily, CommitMint, RetryMint, Tick,
         CollectToken, BeginRefresh, Misuse, Vanish;
    match a
    case DoBeginReuse(pid, id, client) => FrontKept(s, s'); BackBeginReuse(s, pid, id, client, s');
    case DoMarkFamily(pid) => FrontKept(s, s'); BackMarkFamily(s, pid, s');
    case DoListFamily(pid) => FrontKept(s, s'); BackListFamily(s, pid, s');
    case _ =>
  }

  predicate IsOtherStep(a: Act) {
    a.DoTick? || a.DoCollectToken? || a.DoBeginRefresh? || a.DoMisuse? || a.DoVanish?
  }

  lemma OtherStepInv(s: Sys, a: Act, s': Sys)
    requires Inv(s) && Step(s, a, s') && IsOtherStep(a)
    ensures Inv(s')
  {
    hide Front, Back, CollectTxn, Authorize, BeginFinish, Approve, Deny, CollectCode, SaveCode,
         BeginRedeem, SpoilCode, RedeemCode, Rotate, RevokePair, ReadFamily, CommitMint, RetryMint,
         BeginRevoke, RevokeOne, BeginReuse, MarkFamily, ListFamily;
    match a
    case DoTick(to) => FrontKept(s, s'); BackKept(s, s');
    case DoCollectToken(id) => FrontKept(s, s'); BackCollectToken(s, id, s');
    case DoBeginRefresh(pid, id, client, asked) => FrontKept(s, s'); BackBeginRefresh(s, pid, id, client, asked, s');
    case DoMisuse(pid) => FrontKept(s, s'); BackMisuse(s, pid, s');
    case DoVanish(pid) => FrontVanish(s, pid, s'); BackVanish(s, pid, s');
    case _ =>
  }

  /** Every step of every request, and every change of the environment, keeps the invariant. */
  lemma StepInv(s: Sys, a: Act, s': Sys)
    requires Inv(s) && Step(s, a, s')
    ensures Inv(s')
  {
    hide Inv, Step;
    if IsTxnStep(a) { TxnStepInv(s, a, s'); }
    else if IsCodeStep(a) { CodeStepInv(s, a, s'); }
    else if IsGrantStep(a) { GrantStepInv(s, a, s'); }
    else if IsMintStep(a) { MintStepInv(s, a, s'); }
    else if IsRevokeStep(a) { RevokeStepInv(s, a, s'); }
    else { OtherStepInv(s, a, s'); }
  }

  // ------------------------------------------------------------------
  // What never comes undone
  // ------------------------------------------------------------------

  /** A secret that was drawn, is no pending mint's, and is stored revoked or not at all. */
  ghost predicate Dead(s: Sys, h: Id) {
    && h in s.log.secrets
    && (forall p :: p in s.minting ==> h != s.minting[p].grant.access && h != s.minting[p].grant.refresh)
    && (h in s.db.tokens ==> s.db.tokens[h].data.revoked)
  }

  ghost predicate Grows<K, V>(m: map<K, V>, m': map<K, V>) {
    forall k :: k in m ==> k in m' && m'[k] == m[k]
  }

  ghost predicate Gone(s: Sys, h: Id) { Dead(s, h) && h !in s.db.tokens }

  ghost predicate SameButRevoked(t: Token, t': Token) { t' == t || t' == t.(revoked := true) }

  /** A stored token changes only by being revoked, and goes away only once it has expired. */
  ghost predicate Lasting(s: Sys, s': Sys) {
    && (forall h :: Gone(s, h) ==> Gone(s', h))
    && (forall h :: h in s.db.tokens ==>
          if h in s'.db.tokens then SameButRevoked(s.db.tokens[h].data, s'.db.tokens[h].data)
          else Gone(s', h) && Expired(s.db.tokens[h].data.expires, s'.db.now))
  }

  /** Revocation of families and of single tokens is final, and history only grows. */
  ghost predicate Ahead(s: Sys, s': Sys) {
    && s.db.now <= s'.db.now
    && Lasting(s, s')
    && Grows(s.log.issued, s'.log.issued) && Grows(s.log.born, s'.log.born) && s.log.secrets <= s'.log.secrets
    && (forall f :: RevokedFamily(s.db, f) ==> RevokedFamily(s'.db, f))
    && (forall f, h :: RevokedFamily(s.db, f) && LiveToken(s'.db, f, h) ==> LiveToken(s.db, f, h))
    && (forall h :: Dead(s, h) ==> Dead(s', h))
  }

  ghost predicate TxnAfter(d: Doc<Txn>, d': Doc<Txn>) {
    d' == d || (d'.data.status != Pending && d'.data == d.data.(status := d'.data.status))
  }

  /** A transaction changes only by being finished, and goes away only once it has expired. */
  ghost predicate TxnsLast(s: Sys, s': Sys) {
    && (forall t :: t in s.log.txns && t !in s.db.txns ==> t in s'.log.txns && t !in s'.db.txns)
    && (forall t :: t in s.db.txns ==>
          && t in s'.log.txns
          && if t in s'.db.txns then TxnAfter(s.db.txns[t], s'.db.txns[t])
             else Expired(s.db.txns[t].data.expires, s'.db.now))
  }

  /** A code never changes, and does not come back. */
  ghost predicate CodesLast(s: Sys, s': Sys) {
    && (forall c :: c in s.log.issued && c !in s.db.codes ==> c in s'.log.issued && c !in s'.db.codes)
    && (forall c :: c in s.db.codes ==> c in s'.log.issued && (c in s'.db.codes ==> s'.db.codes[c] == s.db.codes[c]))
  }

  /** Only a revocation rewrites a stored token. */
  ghost predicate TokensLast(s: Sys, s': Sys) {
    forall h :: h in s.db.tokens && h in s'.db.tokens ==>
      s'.db.tokens[h] == s.db.tokens[h] || s'.db.tokens[h].data.revoked
  }

  ghost predicate Later(s: Sys, s': Sys) { Ahead(s, s') && TxnsLast(s, s') && CodesLast(s, s') && TokensLast(s, s') }

  lemma CommitNeedsUnrevoked(s: Sys, pid: Pid)
    requires MintInv(s.db.fams, s.db.next, s.minting) && pid in s.minting && s.minting[pid].phase.Committing?
    requires CommitAccepted(s.db, s.minting[pid].grant.family, s.minting[pid].phase.snap)
    ensures !RevokedFamily(s.db, s.minting[pid].grant.family)
  {
  }

  /** No pending mint holds the secret of a stored token. */
  ghost predicate Stored(s: Sys) {
    forall h :: h in s.db.tokens ==>
      && h in s.log.secrets
      && forall p :: p in s.minting ==> h != s.minting[p].grant.access && h != s.minting[p].grant.refresh
  }

  lemma StoredHolds(s: Sys)
    requires s.db.tokens.Keys <= s.log.secrets && Drawn(s.db.tokens, s.minting, s.log.secrets)
    ensures Stored(s)
  {
  }

  /** A step that touches neither tokens nor families, and starts no mint, undoes nothing. */
  lemma QuietLater(s: Sys, s': Sys)
    requires s'.db.tokens == s.db.tokens && s'.db.fams == s.db.fams && s.db.now <= s'.db.now
    requires Grows(s.log.issued, s'.log.issued) && s'.log.born == s.log.born && s'.log.secrets == s.log.secrets
    requires forall p :: p in s'.minting ==> p in s.minting && s'.minting[p].grant == s.minting[p].grant
    ensures Ahead(s, s')
  {
    forall h | Dead(s, h) ensures Dead(s', h) {}
  }

  lemma TxnStepLater(s: Sys, a: Act, s': Sys)
    requires Step(s, a, s') && IsTxnStep(a)
    ensures Ahead(s, s')
  {
    hide Ahead, CollectCode, SaveCode, BeginRedeem, SpoilCode, RedeemCode, Rotate, RevokePair,
         ReadFamily, CommitMint, RetryMint, BeginRevoke, RevokeOne, BeginReuse, MarkFamily, ListFamily,
         Tick, CollectToken, BeginRefresh, Misuse, Vanish;
    QuietLater(s, s');
  }

  lemma CodeStepLater(s: Sys, a: Act, s': Sys)
    requires Step(s, a, s') && IsCodeStep(a)
    ensures Ahead(s, s')
  {
    hide Ahead, CollectTxn, Authorize, BeginFinish, Approve, Deny, RedeemCode, Rotate, RevokePair,
         ReadFamily, CommitMint, RetryMint, BeginRevoke, RevokeOne, BeginReuse, MarkFamily, ListFamily,
         Tick, CollectToken, BeginRefresh, Misuse, Vanish;
    QuietLater(s, s');
  }

  lemma RedeemLater(s: Sys, pid: Pid, family: Id, access: Id, refresh: Id, s': Sys)
    requires RedeemCode(s, pid, family, access, refresh, s')
    ensures Ahead(s, s')
  {
  }

  lemma RotateLater(s: Sys, pid: Pid, family: Id, access: Id, refresh: Id, s': Sys)
    requires Rotate(s, pid, family, access, refresh, s')
    ensures Ahead(s, s')
  {
  }

  lemma MarkLater(s: Sys, pid: Pid, s': Sys)
    requires MarkFamily(s, pid, s')
    ensures Ahead(s, s')
  {
  }

  lemma RevokeOneLater(s: Sys, pid: Pid, id: Id, s': Sys)
    requires RevokeOne(s, pid, id, s')
    ensures Ahead(s, s')
  {
  }

  lemma CommitLater(s: Sys, pid: Pid, x: int, y: int, s': Sys)
    requires MintInv(s.db.fams, s.db.next, s.minting) && CommitMint(s, pid, x, y, s') && Stored(s)
    ensures Ahead(s, s')
  {
    CommitNeedsUnrevoked(s, pid);
  }

  lemma MintStepLater(s: Sys, a: Act, s': Sys)
    requires Step(s, a, s') && IsMintStep(a) && !a.DoCommitMint?
    ensures Ahead(s, s')
  {
    hide Ahead, CollectTxn, Authorize, BeginFinish, Approve, Deny, CollectCode, SaveCode, BeginRedeem,
         SpoilCode, RedeemCode, Rotate, BeginRevoke, RevokeOne, BeginReuse, MarkFamily, ListFamily, Tick,
         CollectToken, BeginRefresh, Misuse, Vanish;
    if a.DoRevokePair? { RevokePairLater(s, a.pid, s'); } else { QuietLater(s, s'); }
  }

  lemma RevokePairLater(s: Sys, pid: Pid, s': Sys)
    requires RevokePair(s, pid, s')
    ensures Ahead(s, s')
  {
  }

  lemma MisuseLater(s: Sys, pid: Pid, s': Sys)
    requires Misuse(s, pid, s')
    ensures Ahead(s, s')
  {
  }

  lemma CollectLater(s: Sys, id: Id, s': Sys)
    requires CollectToken(s, id, s') && Stored(s)
    ensures Ahead(s, s')
  {
  }

  lemma RevokeStepLater(s: Sys, a: Act, s': Sys)
    requires Step(s, a, s') && IsRevokeStep(a)
    ensures Ahead(s, s')
  {
    hide Ahead, MarkFamily, RevokeOne;
    match a
    case DoMarkFamily(pid) => MarkLater(s, pid, s');
    case DoRevokeOne(pid, id) => RevokeOneLater(s, pid, id, s');
    case _ => QuietRevokeLater(s, a, s');
  }

  lemma QuietRevokeLater(s: Sys, a: Act, s': Sys)
    requires Step(s, a, s') && (a.DoBeginRevoke? || a.DoBeginReuse? || a.DoListFamily?)
    ensures Ahead(s, s')
  {
    hide Ahead, CollectTxn, Authorize, BeginFinish, Approve, Deny, CollectCode, SaveCode, BeginRedeem,
         SpoilCode, RedeemCode, Rotate, RevokePair, ReadFamily, CommitMint, RetryMint, Tick,
         CollectToken, BeginRefresh, Misuse, Vanish;
    QuietLater(s, s');
  }

  lemma OtherStepLater(s: Sys, a: Act, s': Sys)
    requires Step(s, a, s') && IsOtherStep(a) && !a.DoCollectToken?
    ensures Ahead(s, s')
  {
    hide Ahead, CollectTxn, Authorize, BeginFinish, Approve, Deny, CollectCode, SaveCode, BeginRedeem,
         SpoilCode, RedeemCode, Rotate, RevokePair, ReadFamily, CommitMint, RetryMint, BeginRevoke,
         RevokeOne, BeginReuse, MarkFamily, ListFamily;
    if a.DoMisuse? { MisuseLater(s, a.pid, s'); } else { QuietLater(s, s'); }
  }

  lemma GrantStepLater(s: Sys, a: Act, s': Sys)
    requires Step(s, a, s') && IsGrantStep(a)
    ensures Ahead(s, s')
  {
    hide Ahead, RedeemCode, Rotate;
    match a
    case DoRedeemCode(pid, family, access, refresh) => RedeemLater(s, pid, family, access, refresh, s');
    case DoRotate(pid, family, access, refresh) => RotateLater(s, pid, family, access, refresh, s');
    case _ =>
  }

  lemma StoreStepLater(s: Sys, a: Act, s': Sys)
    requires Inv(s) && Step(s, a, s') && (a.DoCommitMint? || a.DoCollectToken?)
    ensures Ahead(s, s')
  {
    hide Ahead, CommitMint, CollectToken;
    StoredHolds(s);
    match a
    case DoCommitMint(pid, accessExpires, refreshExpires) => CommitLater(s, pid, accessExpires, refreshExpires, s');
    case DoCollectToken(id) => CollectLater(s, id, s');
    case _ =>
  }

  lemma StepAhead(s: Sys, a: Act, s': Sys)
    requires Inv(s) && Step(s, a, s')
    ensures Ahead(s, s')
  {
    hide Ahead, Inv, Step;
    if IsTxnStep(a) { TxnStepLater(s, a, s'); }
    else if IsCodeStep(a) { CodeStepLater(s, a, s'); }
    else if IsGrantStep(a) { GrantStepLater(s, a, s'); }
    else if a.DoCommitMint? || a.DoCollectToken? { StoreStepLater(s, a, s'); }
    else if IsMintStep(a) { MintStepLater(s, a, s'); }
    else if IsRevokeStep(a) { RevokeStepLater(s, a, s'); }
    else { OtherStepLater(s, a, s'); }
  }

  // What each kind of step leaves of the documents.

  lemma SameTxnsLast(s: Sys, s': Sys)
    requires s'.db.txns == s.db.txns && s.log.txns == s'.log.txns && s.db.txns.Keys <= s.log.txns.Keys
    ensures TxnsLast(s, s')
  {
  }

  lemma SameCodesLast(s: Sys, s': Sys)
    requires s'.db.codes.Keys <= s.db.codes.Keys && forall c :: c in s'.db.codes ==> s'.db.codes[c] == s.db.codes[c]
    requires s'.log.issued == s.log.issued && s.db.codes.Keys <= s.log.issued.Keys
    ensures CodesLast(s, s')
  {
  }

  lemma KnownKeys(s: Sys)
    requires Inv(s)
    ensures s.db.txns.Keys <= s.log.txns.Keys && s.db.codes.Keys <= s.log.issued.Keys && Stored(s)
  {
    StoredHolds(s);
  }

  lemma TxnStepDocs(s: Sys, a: Act, s': Sys)
    requires s.db.txns.Keys <= s.log.txns.Keys && s.db.codes.Keys <= s.log.issued.Keys
    requires Step(s, a, s') && IsTxnStep(a)
    ensures TxnsLast(s, s') && CodesLast(s, s') && TokensLast(s, s')
  {
    hide CollectCode, SaveCode, BeginRedeem, SpoilCode, RedeemCode, Rotate, RevokePair,
         ReadFamily, CommitMint, RetryMint, BeginRevoke, RevokeOne, BeginReuse, MarkFamily, ListFamily,
         Tick, CollectToken, BeginRefresh, Misuse, Vanish, CodesLast;
    SameCodesLast(s, s');
  }

  lemma CodeStepDocs(s: Sys, a: Act, s': Sys)
    requires s.db.txns.Keys <= s.log.txns.Keys && s.db.codes.Keys <= s.log.issued.Keys
    requires Step(s, a, s') && IsCodeStep(a)
    ensures TxnsLast(s, s') && CodesLast(s, s') && TokensLast(s, s')
  {
    hide CollectTxn, Authorize, BeginFinish, Approve, Deny, RedeemCode, Rotate, RevokePair,
         ReadFamily, CommitMint, RetryMint, BeginRevoke, RevokeOne, BeginReuse, MarkFamily, ListFamily,
         Tick, CollectToken, BeginRefresh, Misuse, Vanish, TxnsLast;
    SameTxnsLast(s, s');
  }

  lemma GrantStepDocs(s: Sys, a: Act, s': Sys)
    requires s.db.txns.Keys <= s.log.txns.Keys && s.db.codes.Keys <= s.log.issued.Keys
    requires Step(s, a, s') && IsGrantStep(a)
    ensures TxnsLast(s, s') && CodesLast(s, s') && TokensLast(s, s')
  {
    hide CollectTxn, Authorize, BeginFinish, Approve, Deny, CollectCode, SaveCode, BeginRedeem, SpoilCode, RevokePair,
         ReadFamily, CommitMint, RetryMint, BeginRevoke, RevokeOne, BeginReuse, MarkFamily, ListFamily,
         Tick, CollectToken, BeginRefresh, Misuse, Vanish, TxnsLast, CodesLast, FreshGrant, Unmoved;
    SameTxnsLast(s, s');
    SameCodesLast(s, s');
  }

  lemma MintStepDocs(s: Sys, a: Act, s': Sys)
    requires s.db.txns.Keys <= s.log.txns.Keys && s.db.codes.Keys <= s.log.issued.Keys && Stored(s)
    requires Step(s, a, s') && IsMintStep(a)
    ensures TxnsLast(s, s') && CodesLast(s, s') && TokensLast(s, s')
  {
    hide CollectTxn, Authorize, BeginFinish, Approve, Deny, CollectCode, SaveCode, BeginRedeem, SpoilCode, RedeemCode,
         Rotate, BeginRevoke, RevokeOne, BeginReuse, MarkFamily, ListFamily,
         Tick, CollectToken, BeginRefresh, Misuse, Vanish, TxnsLast, CodesLast, CommitAccepted;
    SameTxnsLast(s, s');
    SameCodesLast(s, s');
  }

  lemma RevokeStepDocs(s: Sys, a: Act, s': Sys)
    requires s.db.txns.Keys <= s.log.txns.Keys && s.db.codes.Keys <= s.log.issued.Keys
    requires Step(s, a, s') && IsRevokeStep(a)
    ensures TxnsLast(s, s') && CodesLast(s, s') && TokensLast(s, s')
  {
    hide CollectTxn, Authorize, BeginFinish, Approve, Deny, CollectCode, SaveCode, BeginRedeem, SpoilCode, RedeemCode,
         Rotate, RevokePair, ReadFamily, CommitMint, RetryMint, Tick, CollectToken, BeginRefresh, Misuse, Vanish,
         TxnsLast, CodesLast, Listing;
    SameTxnsLast(s, s');
    SameCodesLast(s, s');
  }

  lemma OtherStepDocs(s: Sys, a: Act, s': Sys)
    requires s.db.txns.Keys <= s.log.txns.Keys && s.db.codes.Keys <= s.log.issued.Keys
    requires Step(s, a, s') && IsOtherStep(a)
    ensures TxnsLast(s, s') && CodesLast(s, s') && TokensLast(s, s')
  {
    hide CollectTxn, Authorize, BeginFinish, Approve, Deny, CollectCode, SaveCode, BeginRedeem, SpoilCode, RedeemCode,
         Rotate, RevokePair, ReadFamily, CommitMint, RetryMint, BeginRevoke, RevokeOne, BeginReuse, MarkFamily,
         ListFamily, TxnsLast, CodesLast;
    SameTxnsLast(s, s');
    SameCodesLast(s, s');
  }

  lemma StepLater(s: Sys, a: Act, s': Sys)
    requires Inv(s) && Step(s, a, s')
    ensures Later(s, s')
  {
    hide Ahead, Inv, Step, TxnsLast, CodesLast, TokensLast;
    StepAhead(s, a, s');
    KnownKeys(s);
    if IsTxnStep(a) { TxnStepDocs(s, a, s'); }
    else if IsCodeStep(a) { CodeStepDocs(s, a, s'); }
    else if IsGrantStep(a) { GrantStepDocs(s, a, s'); }
    else if IsMintStep(a) { MintStepDocs(s, a, s'); }
    else if IsRevokeStep(a) { RevokeStepDocs(s, a, s'); }
    else { OtherStepDocs(s, a, s'); }
  }

  lemma LaterReflexive(s: Sys)
    requires Inv(s)
    ensures Later(s, s)
  {
    hide Inv;
    KnownKeys(s);
  }

  lemma DocsTransitive(s: Sys, t: Sys, u: Sys)
    requires TxnsLast(s, t) && TxnsLast(t, u) && CodesLast(s, t) && CodesLast(t, u) && t.db.now <= u.db.now
    ensures TxnsLast(s, u) && CodesLast(s, u)
  {
  }

  lemma LaterTransitive(s: Sys, t: Sys, u: Sys)
    requires Later(s, t) && Later(t, u)
    ensures Later(s, u)
  {
    hide TxnsLast, CodesLast;
    DocsTransitive(s, t, u);
  }

  // ------------------------------------------------------------------
  // Theorems over every run
  // ------------------------------------------------------------------

  ghost predicate Run(tr: seq<Sys>, acts: seq<Act>) {
    && |tr| == |acts| + 1 && Init(tr[0])
    && forall i {:trigger acts[i]} :: 0 <= i < |acts| ==> Step(tr[i], acts[i], tr[i + 1])
  }

  lemma {:induction false} RunInv(tr: seq<Sys>, acts: seq<Act>, i: nat)
    requires Run(tr, acts) && i < |tr|
    ensures Inv(tr[i])
  {
    hide Inv, Step;
    if i == 0 { InitInv(tr[0]); } else { RunInv(tr, acts, i - 1); StepInv(tr[i - 1], acts[i - 1], tr[i]); }
  }

  lemma RunStepLater(tr: seq<Sys>, acts: seq<Act>, i: nat)
    requires Run(tr, acts) && i < |acts|
    ensures Later(tr[i], tr[i + 1])
  {
    hide Later, Step, Inv;
    RunInv(tr, acts, i);
    StepLater(tr[i], acts[i], tr[i + 1]);
  }

  lemma {:induction false} RunLater(tr: seq<Sys>, acts: seq<Act>, i: nat, j: nat)
    requires Run(tr, acts) && i <= j < |tr|
    ensures Later(tr[i], tr[j])
    decreases j - i
  {
    hide Later, Step, Inv;
    if i < j {
      RunLater(tr, acts, i, j - 1);
      RunStepLater(tr, acts, j - 1);
      LaterTransitive(tr[i], tr[j - 1], tr[j]);
    } else {
      RunInv(tr, acts, i);
      LaterReflexive(tr[i]);
    }
  }

  /** The consent transaction a family goes back to, if it goes back to one. */
  ghost function ConsentOf(log: Log, f: Id): Option<Id> {
    if f in log.born && log.born[f].origin.FromCode? && log.born[f].origin.code in log.issued
    then Some(log.issued[log.born[f].origin.code].txn) else None
  }

  /** One consent transaction yields at most one code and at most one token family, ever. */
  lemma OneLineagePerConsent(tr: seq<Sys>, acts: seq<Act>, i: nat)
    requires Run(tr, acts) && i < |tr|
    ensures var log := tr[i].log;
            && tr[i].db.codes.Keys <= log.issued.Keys
            && (forall c, d :: c in log.issued && d in log.issued && log.issued[c].txn == log.issued[d].txn ==> c == d)
            && (forall f, g :: ConsentOf(log, f).Some? && ConsentOf(log, f) == ConsentOf(log, g) ==> f == g)
            && (forall h :: h in tr[i].db.tokens && tr[i].db.tokens[h].data.family.Some? ==>
                  tr[i].db.tokens[h].data.family.value in log.born)
    ensures forall k :: i <= k < |tr| ==>
        Grows(tr[i].log.issued, tr[k].log.issued) && Grows(tr[i].log.born, tr[k].log.born)
  {
    var s := tr[i];
    RunInv(tr, acts, i);
    assert forall h :: h in s.db.tokens ==> TokenWithin(s.db.tokens[h].data, s.log.born);
    forall k | i <= k < |tr| ensures Grows(tr[i].log.issued, tr[k].log.issued)
      && Grows(tr[i].log.born, tr[k].log.born) {
      RunLater(tr, acts, i, k);
    }
  }

  /** What can take a family's slot: a grant consumed but not minted yet, or an unrevoked refresh token. */
  datatype Occupant = InFlight(pid: Pid) | Unused(token: Id)

  ghost predicate Occupies(s: Sys, f: Id, o: Occupant) {
    match o
    case InFlight(p) => Holds(s.minting, p, f)
    case Unused(h) => Live(s.db.tokens, Refresh, h, f)
  }

  lemma OneSlotPerFamily(tr: seq<Sys>, acts: seq<Act>, i: nat, f: Id)
    requires Run(tr, acts) && i < |tr|
    ensures forall o, o' :: Occupies(tr[i], f, o) && Occupies(tr[i], f, o') ==> o == o'
    ensures forall a, b :: Live(tr[i].db.tokens, Access, a, f) && Live(tr[i].db.tokens, Access, b, f) ==> a == b
  {
    RunInv(tr, acts, i);
    forall o, o' | Occupies(tr[i], f, o) && Occupies(tr[i], f, o') ensures o == o' {
      match o case InFlight(_) => { match o' case InFlight(_) => case Unused(_) => }
              case Unused(_) => { match o' case InFlight(_) => case Unused(_) => }
    }
  }

  /** A revoked family stays revoked, gains no token, and no mint in it commits any more. */
  lemma RevocationIsFinal(tr: seq<Sys>, acts: seq<Act>, i: nat, j: nat, f: Id)
    requires Run(tr, acts) && i <= j < |tr| && RevokedFamily(tr[i].db, f)
    ensures RevokedFamily(tr[j].db, f)
    ensures forall h :: LiveToken(tr[j].db, f, h) ==> LiveToken(tr[i].db, f, h)
    ensures j < |acts| && acts[j].DoCommitMint? ==>
              acts[j].pid in tr[j].minting && tr[j].minting[acts[j].pid].grant.family != f
  {
    RunLater(tr, acts, i, j);
    RunInv(tr, acts, j);
    if j < |acts| && acts[j].DoCommitMint? {
      assert Step(tr[j], acts[j], tr[j + 1]);
      CommitNeedsUnrevoked(tr[j], acts[j].pid);
    }
  }

  /** A commit of save_token_pair is lost only to a revocation: its retries fail only in a revoked family. */
  lemma LostOnlyToRevocation(tr: seq<Sys>, acts: seq<Act>, i: nat, pid: Pid)
    requires Run(tr, acts) && i < |tr| && pid in tr[i].minting && tr[i].minting[pid].phase.Committing?
    requires !CommitAccepted(tr[i].db, tr[i].minting[pid].grant.family, tr[i].minting[pid].phase.snap)
    ensures RevokedFamily(tr[i].db, tr[i].minting[pid].grant.family)
  {
    RunInv(tr, acts, i);
    LostMeansMarked(tr[i].db, tr[i].minting, pid);
  }

  /** A rotated or revoked token never works again. */
  lemma RevokedTokenStaysDead(tr: seq<Sys>, acts: seq<Act>, i: nat, j: nat, h: Id)
    requires Run(tr, acts) && i <= j < |tr| && h in tr[i].db.tokens && tr[i].db.tokens[h].data.revoked
    ensures h in tr[j].db.tokens ==> tr[j].db.tokens[h].data.revoked
  {
    RunInv(tr, acts, i);
    StoredHolds(tr[i]);
    assert Dead(tr[i], h);
    RunLater(tr, acts, i, j);
  }

  /** Over any number of rotations a token keeps to the user, client and scopes of its consent. */
  lemma TokensKeepToConsent(tr: seq<Sys>, acts: seq<Act>, i: nat, h: Id)
    requires Run(tr, acts) && i < |tr| && h in tr[i].db.tokens && tr[i].db.tokens[h].data.family.Some?
    requires ConsentOf(tr[i].log, tr[i].db.tokens[h].data.family.value).Some?
    ensures var log, t := tr[i].log, tr[i].db.tokens[h].data;
            var txn := ConsentOf(log, t.family.value).value;
            && txn in log.txns && t.client == log.txns[txn].client
            && (forall x :: x in t.scopes ==> x in log.txns[txn].scopes)
            && exists c :: c in log.issued && log.issued[c].txn == txn && t.uid == log.issued[c].consent.uid
  {
    var s := tr[i];
    RunInv(tr, acts, i);
    var t := s.db.tokens[h].data;
    assert TokenWithin(t, s.log.born);
    var c := s.log.born[t.family.value].origin.code;
    assert AskedIn(s.log.issued[c].consent, s.log.txns[s.log.issued[c].txn]);
  }
}
