/** Accounts as interleaved database transactions: registration, invitations, magic links and verification.

    Every handler is a process; a run interleaves their single statements in any order, and any process may
    fail at any point.  What a transaction has written is in its process until the commit, as under the READ
    COMMITTED isolation of PostgreSQL: a conditional UPDATE holds its row to the end of the transaction, an
    INSERT waits for an unfinished one of the same unique key, and `NOW()` is the time the transaction began. */
module Accounts {
  import opened Wrappers

  datatype Role = Owner | Admin | Technician

  datatype Company = Company(name: string, slug: string)

  datatype User = User(company: nat, email: string, name: string, role: Role)

  datatype Invitation = Invitation(
    company: nat, email: string, role: Role, token: nat, accepted: Option<int>, expires: int)

  /** SHA-256 as an injective function. */
  datatype Digest = Sha256(raw: nat)

  datatype AuthToken = AuthToken(user: nat, digest: Digest, expires: int, used: Option<int>)

  datatype Db = Db(
    companies: map<nat, Company>, users: map<nat, User>, invites: map<nat, Invitation>, tokens: map<nat, AuthToken>)

  const Hour := 3600
  const RegistrationTTL := 1 * Hour
  const InviteTTL := 7 * 24 * Hour
  const MagicLinkTTL := 15 * 60

  datatype Request = Request(company: string, slug: string, owner: string, email: string)

  /** A handler that has not answered yet, with what its open transaction has written. */
  datatype Proc =
    | Resending(company: nat, email: string, role: Role)
    | Registering(req: Request)
    | Founded(req: Request, cid: nat)
    | Owned(req: Request, cid: nat, uid: nat)
    | Invited(req: Request, cid: nat, uid: nat, iid: nat, invite: Invitation)
    | Accepting(start: int, token: nat, name: string)
    | Marked(start: int, name: string, iid: nat)
    | Joining(start: int, iid: nat, uid: nat, member: User)
    | Checked(company: nat, email: string)
    | Minting(uid: nat)
    | Verifying(start: int, raw: nat)
    | Spending(start: int, raw: nat, tid: nat)
    | Fetched(start: int, raw: nat, tid: nat, uid: nat)

  /** A user comes from a registration, with its first invitation, or from an accepted invitation. */
  datatype Origin = Founder(first: nat) | Joined(iid: nat)

  datatype Exchange = Exchange(tid: nat, user: nat, at: int)

  /** `owner` and `origin` record where companies and users come from, `joined` the user of each accepted
      invitation, `exchanges` the logins. */
  datatype History = History(
    owner: map<nat, nat>, origin: map<nat, Origin>, joined: map<nat, nat>, exchanges: seq<Exchange>)

  /** `drawn` holds every identifier and token drawn so far; none is drawn twice. */
  datatype State = State(now: int, db: Db, procs: map<nat, Proc>, drawn: set<nat>, hist: History)

  const Empty := State(0, Db(map[], map[], map[], map[]), map[], {}, History(map[], map[], map[], []))

  datatype Action =
    | Tick(seconds: nat)
    | Fail(p: nat)
    // register
    | Register(p: nat, req: Request, existing: Option<nat>)
    | Resend(p: nat, iid: nat, token: nat)
    | InsertCompany(p: nat, cid: nat)
    | InsertOwner(p: nat, uid: nat)
    | InsertFirstInvite(p: nat, iid: nat, token: nat)
    | CommitRegistration(p: nat)
    // accept an invitation
    | BeginAccept(p: nat, token: nat, name: string)
    | MarkAccepted(p: nat, found: Option<nat>)
    | InsertMember(p: nat, uid: nat)
    | CommitAccept(p: nat)
    // invite a technician
    | CheckPending(p: nat, company: nat, email: string)
    | InsertInvite(p: nat, iid: nat, token: nat)
    // magic link
    | LookUp(p: nat, email: string, existing: Option<nat>)
    | InsertToken(p: nat, tid: nat, raw: nat)
    // verify
    | BeginVerify(p: nat, raw: nat)
    | UseToken(p: nat, found: Option<nat>)
    | FetchUser(p: nat)
    | CommitVerify(p: nat)

  // ---------------------------------------------------------------------------------------
  // What the statements see
  // ---------------------------------------------------------------------------------------

  predicate HasUser(db: Db, company: nat, email: string) {
    exists u :: u in db.users && db.users[u].company == company && db.users[u].email == email
  }

  predicate HasSlug(db: Db, slug: string) {
    exists c :: c in db.companies && db.companies[c].slug == slug
  }

  predicate HasPending(db: Db, company: nat, email: string, now: int) {
    exists i :: i in db.invites && db.invites[i].company == company && db.invites[i].email == email
                && db.invites[i].accepted.None? && db.invites[i].expires > now
  }

  /** The row that `SELECT … WHERE email = … LIMIT 1` may return. */
  ghost predicate Finds(db: Db, email: string, existing: Option<nat>) {
    if existing.Some? then existing.value in db.users && db.users[existing.value].email == email
    else forall u | u in db.users :: db.users[u].email != email
  }

  /** The WHERE clause of `AcceptInvitation`. */
  predicate Acceptable(invite: Invitation, token: nat, start: int) {
    invite.token == token && invite.accepted.None? && invite.expires > start
  }

  /** The WHERE clause of `UseAuthToken`. */
  predicate Usable(token: AuthToken, raw: nat, start: int) {
    token.digest == Sha256(raw) && token.used.None? && token.expires > start
  }

  predicate LocksInvite(proc: Proc, iid: nat) {
    (proc.Marked? || proc.Joining?) && proc.iid == iid
  }

  predicate LocksToken(proc: Proc, tid: nat) {
    (proc.Spending? || proc.Fetched?) && proc.tid == tid
  }

  /** A row of `users` that the open transaction has inserted. */
  predicate WritesUser(proc: Proc, company: nat, email: string) {
    || (proc.Joining? && proc.member.company == company && proc.member.email == email)
    || ((proc.Owned? || proc.Invited?) && proc.cid == company && proc.req.email == email)
  }

  predicate WritesSlug(proc: Proc, slug: string) {
    (proc.Founded? || proc.Owned? || proc.Invited?) && proc.req.slug == slug
  }

  ghost predicate Unlocked(s: State, p: nat, iid: nat) {
    forall q | q in s.procs && q != p :: !LocksInvite(s.procs[q], iid)
  }

  ghost predicate TokenUnlocked(s: State, p: nat, tid: nat) {
    forall q | q in s.procs && q != p :: !LocksToken(s.procs[q], tid)
  }

  ghost predicate UserFree(s: State, p: nat, company: nat, email: string) {
    forall q | q in s.procs && q != p :: !WritesUser(s.procs[q], company, email)
  }

  ghost predicate SlugFree(s: State, p: nat, slug: string) {
    forall q | q in s.procs && q != p :: !WritesSlug(s.procs[q], slug)
  }

  /** The conditional UPDATE of an invitation finds `found`, and no one else holds the row. */
  ghost predicate FindsInvite(s: State, p: nat, token: nat, start: int, found: Option<nat>) {
    && (forall i | i in s.db.invites && s.db.invites[i].token == token :: Unlocked(s, p, i))
    && if found.Some? then found.value in s.db.invites && Acceptable(s.db.invites[found.value], token, start)
       else forall i | i in s.db.invites :: !Acceptable(s.db.invites[i], token, start)
  }

  ghost predicate FindsToken(s: State, p: nat, raw: nat, start: int, found: Option<nat>) {
    && (forall t | t in s.db.tokens && s.db.tokens[t].digest == Sha256(raw) :: TokenUnlocked(s, p, t))
    && if found.Some? then found.value in s.db.tokens && Usable(s.db.tokens[found.value], raw, start)
       else forall t | t in s.db.tokens :: !Usable(s.db.tokens[t], raw, start)
  }

  predicate Undrawn(s: State, x: nat, y: nat) {
    x !in s.drawn && y !in s.drawn && x != y
  }

  ghost predicate Enabled(s: State, act: Action) {
    match act
    case Tick(_) => true
    case Fail(p) => p in s.procs
    case Register(p, req, existing) => p !in s.procs && Finds(s.db, req.email, existing)
    case Resend(p, iid, token) => p in s.procs && s.procs[p].Resending? && Undrawn(s, iid, token)
    case InsertCompany(p, cid) =>
      p in s.procs && s.procs[p].Registering? && cid !in s.drawn && SlugFree(s, p, s.procs[p].req.slug)
    case InsertOwner(p, uid) => p in s.procs && s.procs[p].Founded? && uid !in s.drawn
    case InsertFirstInvite(p, iid, token) => p in s.procs && s.procs[p].Owned? && Undrawn(s, iid, token)
    case CommitRegistration(p) => p in s.procs && s.procs[p].Invited?
    case BeginAccept(p, _, _) => p !in s.procs
    case MarkAccepted(p, found) =>
      p in s.procs && s.procs[p].Accepting? && FindsInvite(s, p, s.procs[p].token, s.procs[p].start, found)
    case InsertMember(p, uid) =>
      && p in s.procs && s.procs[p].Marked? && uid !in s.drawn && s.procs[p].iid in s.db.invites
      && UserFree(s, p, s.db.invites[s.procs[p].iid].company, s.db.invites[s.procs[p].iid].email)
    case CommitAccept(p) => p in s.procs && s.procs[p].Joining? && s.procs[p].iid in s.db.invites
    case CheckPending(p, _, _) => p !in s.procs
    case InsertInvite(p, iid, token) => p in s.procs && s.procs[p].Checked? && Undrawn(s, iid, token)
    case LookUp(p, email, existing) => p !in s.procs && Finds(s.db, email, existing)
    case InsertToken(p, tid, raw) => p in s.procs && s.procs[p].Minting? && Undrawn(s, tid, raw)
    case BeginVerify(p, _) => p !in s.procs
    case UseToken(p, found) =>
      p in s.procs && s.procs[p].Verifying? && FindsToken(s, p, s.procs[p].raw, s.procs[p].start, found)
    case FetchUser(p) => p in s.procs && s.procs[p].Spending? && s.procs[p].tid in s.db.tokens
    case CommitVerify(p) => p in s.procs && s.procs[p].Fetched? && s.procs[p].tid in s.db.tokens
  }

  /** The actions that some process may take next. */
  ghost function Possible(s: State): iset<Action> {
    iset act: Action | Enabled(s, act)
  }

  // ---------------------------------------------------------------------------------------
  // The steps
  // ---------------------------------------------------------------------------------------

  /** The handler goes on. */
  function Goes(s: State, p: nat, proc: Proc): State {
    s.(procs := s.procs[p := proc])
  }

  /** The handler answers; what its transaction has not committed is gone. */
  function Ends(s: State, p: nat): State {
    s.(procs := s.procs - {p})
  }

  function Draws(s: State, xs: set<nat>): State {
    s.(drawn := s.drawn + xs)
  }

  function WithInvite(s: State, iid: nat, invite: Invitation): State {
    s.(db := s.db.(invites := s.db.invites[iid := invite]))
  }

  /** Accepting an invitation, and the registration, each as one committed change. */
  function Accept(s: State, start: int, iid: nat, uid: nat, user: User): State
    requires iid in s.db.invites
  {
    s.(db := s.db.(invites := s.db.invites[iid := s.db.invites[iid].(accepted := Some(start))],
                   users := s.db.users[uid := user]),
       hist := s.hist.(origin := s.hist.origin[uid := Joined(iid)], joined := s.hist.joined[iid := uid]))
  }

  function Found(s: State, req: Request, cid: nat, uid: nat, iid: nat, invite: Invitation): State {
    s.(db := s.db.(companies := s.db.companies[cid := Company(req.company, req.slug)],
                   users := s.db.users[uid := User(cid, req.email, req.owner, Owner)],
                   invites := s.db.invites[iid := invite]),
       hist := s.hist.(owner := s.hist.owner[cid := uid], origin := s.hist.origin[uid := Founder(iid)]))
  }

  function Spend(s: State, start: int, tid: nat, user: nat): State
    requires tid in s.db.tokens
  {
    s.(db := s.db.(tokens := s.db.tokens[tid := s.db.tokens[tid].(used := Some(start))]),
       hist := s.hist.(exchanges := s.hist.exchanges + [Exchange(tid, user, start)]))
  }

  ghost function Next(s: State, act: Action): State
    requires act in Possible(s)
  {
    match act
    case Tick(seconds) => s.(now := s.now + seconds)
    case Fail(p) => Ends(s, p)
    case Register(p, req, existing) =>
      if existing.Some? then
        var u := s.db.users[existing.value]; Goes(s, p, Resending(u.company, u.email, u.role))
      else Goes(s, p, Registering(req))
    case Resend(p, iid, token) =>
      var r := s.procs[p];
      var s' := Ends(Draws(s, {iid, token}), p);
      if r.company in s.db.companies
      then WithInvite(s', iid, Invitation(r.company, r.email, r.role, token, None, s.now + RegistrationTTL)) else s'
    case InsertCompany(p, cid) =>
      // A taken slug aborts the transaction, and with it the retry under a suffixed slug.
      if HasSlug(s.db, s.procs[p].req.slug) then Ends(Draws(s, {cid}), p)
      else Goes(Draws(s, {cid}), p, Founded(s.procs[p].req, cid))
    case InsertOwner(p, uid) => Goes(Draws(s, {uid}), p, Owned(s.procs[p].req, s.procs[p].cid, uid))
    case InsertFirstInvite(p, iid, token) =>
      var r := s.procs[p];
      Goes(Draws(s, {iid, token}), p,
           Invited(r.req, r.cid, r.uid, iid,
                   Invitation(r.cid, r.req.email, Owner, token, None, s.now + RegistrationTTL)))
    case CommitRegistration(p) =>
      var r := s.procs[p]; Ends(Found(s, r.req, r.cid, r.uid, r.iid, r.invite), p)
    case BeginAccept(p, token, name) => Goes(s, p, Accepting(s.now, token, name))
    case MarkAccepted(p, found) =>
      if found.Some? then Goes(s, p, Marked(s.procs[p].start, s.procs[p].name, found.value)) else Ends(s, p)
    case InsertMember(p, uid) =>
      var r := s.procs[p]; var i := s.db.invites[r.iid];
      if HasUser(s.db, i.company, i.email) then Ends(Draws(s, {uid}), p)
      else Goes(Draws(s, {uid}), p, Joining(r.start, r.iid, uid, User(i.company, i.email, r.name, i.role)))
    case CommitAccept(p) =>
      var r := s.procs[p]; Ends(Accept(s, r.start, r.iid, r.uid, r.member), p)
    case CheckPending(p, company, email) =>
      if HasPending(s.db, company, email, s.now) then s else Goes(s, p, Checked(company, email))
    case InsertInvite(p, iid, token) =>
      var r := s.procs[p];
      var s' := Ends(Draws(s, {iid, token}), p);
      if r.company in s.db.companies
      then WithInvite(s', iid, Invitation(r.company, r.email, Technician, token, None, s.now + InviteTTL)) else s'
    case LookUp(p, email, existing) => if existing.Some? then Goes(s, p, Minting(existing.value)) else s
    case InsertToken(p, tid, raw) =>
      var s' := Ends(Draws(s, {tid, raw}), p);
      var token := AuthToken(s.procs[p].uid, Sha256(raw), s.now + MagicLinkTTL, None);
      if s.procs[p].uid in s.db.users then s'.(db := s'.db.(tokens := s'.db.tokens[tid := token])) else s'
    case BeginVerify(p, raw) => Goes(s, p, Verifying(s.now, raw))
    case UseToken(p, found) =>
      if found.Some? then Goes(s, p, Spending(s.procs[p].start, s.procs[p].raw, found.value)) else Ends(s, p)
    case FetchUser(p) =>
      var r := s.procs[p]; var u := s.db.tokens[r.tid].user;
      if u in s.db.users then Goes(s, p, Fetched(r.start, r.raw, r.tid, u)) else Ends(s, p)
    case CommitVerify(p) =>
      var r := s.procs[p]; Ends(Spend(s, r.start, r.tid, r.uid), p)
  }

  ghost predicate Legal(acts: seq<Action>)
    decreases |acts|, 0
  {
    acts == [] || (Legal(acts[..|acts| - 1]) && acts[|acts| - 1] in Possible(Exec(acts[..|acts| - 1])))
  }

  /** The state a run from empty tables reaches. */
  ghost function Exec(acts: seq<Action>): State
    requires Legal(acts)
    decreases |acts|, 1
  {
    if acts == [] then Empty else Next(Exec(acts[..|acts| - 1]), acts[|acts| - 1])
  }
}
