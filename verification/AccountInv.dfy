/** What every reachable state of the account tables satisfies. */
module AccountInv {
  import opened Wrappers
  import opened Accounts

  // ---------------------------------------------------------------------------------------
  // The tables
  // ---------------------------------------------------------------------------------------

  ghost predicate IsUser(db: Db, u: nat, company: nat, email: string, role: Role) {
    u in db.users && db.users[u].company == company && db.users[u].email == email && db.users[u].role == role
  }

  /** `u` has that company and email, whatever its role. */
  ghost predicate IsMember(db: Db, u: nat, company: nat, email: string) {
    u in db.users && db.users[u].company == company && db.users[u].email == email
  }

  lemma HasUserIff(db: Db, company: nat, email: string)
    ensures HasUser(db, company, email) <==> exists u :: IsMember(db, u, company, email)
  {
    if HasUser(db, company, email) {
      var u :| u in db.users && db.users[u].company == company && db.users[u].email == email;
      assert IsMember(db, u, company, email);
    }
  }

  /** A company has its founder on record. */
  ghost predicate CompanyOk(db: Db, hist: History, c: nat) {
    && c in hist.owner && hist.owner[c] in db.users && db.users[hist.owner[c]].company == c
    && hist.owner[c] in hist.origin && hist.origin[hist.owner[c]].Founder?
  }

  /** The first invitation of the company of founder `u`. */
  ghost predicate FirstInvite(db: Db, u: nat, iid: nat)
    requires u in db.users
  {
    && iid in db.invites && db.invites[iid].company == db.users[u].company && db.invites[iid].email == db.users[u].email
    && db.invites[iid].role == Owner
  }

  /** A user either founded its company, as owner, or joined by an invitation that it alone accepted. */
  ghost predicate UserOk(db: Db, hist: History, u: nat)
    requires u in db.users
  {
    && db.users[u].company in db.companies && u in hist.origin
    && match hist.origin[u]
       case Founder(iid) =>
         && db.users[u].role == Owner && db.users[u].company in hist.owner && hist.owner[db.users[u].company] == u
         && FirstInvite(db, u, iid)
       case Joined(iid) =>
         && iid in db.invites && db.invites[iid].accepted.Some? && iid in hist.joined && hist.joined[iid] == u
         && IsUser(db, u, db.invites[iid].company, db.invites[iid].email, Technician)
         && db.invites[iid].role == Technician
  }

  /** An accepted invitation has its user; one with the role owner already has a user of that email, and so
      can never be accepted. */
  ghost predicate InviteOk(db: Db, hist: History, i: nat)
    requires i in db.invites
  {
    && db.invites[i].company in db.companies
    && (db.invites[i].role == Owner || db.invites[i].role == Technician)
    && (db.invites[i].accepted.Some? <==> i in hist.joined)
    && (i in hist.joined ==>
          && hist.joined[i] in db.users && hist.joined[i] in hist.origin && hist.origin[hist.joined[i]] == Joined(i)
          && db.invites[i].accepted.value < db.invites[i].expires && db.invites[i].role == Technician)
    && (db.invites[i].role == Owner ==> HasUser(db, db.invites[i].company, db.invites[i].email))
  }

  /** A used token was used in time, by one exchange. */
  ghost predicate TokenOk(db: Db, hist: History, t: nat)
    requires t in db.tokens
  {
    && db.tokens[t].user in db.users
    && (db.tokens[t].used.Some? ==> db.tokens[t].used.value < db.tokens[t].expires)
    && (db.tokens[t].used.None? ==> forall k | 0 <= k < |hist.exchanges| :: hist.exchanges[k].tid != t)
    && (db.tokens[t].used.Some? ==> exists k :: 0 <= k < |hist.exchanges| && hist.exchanges[k].tid == t)
  }

  ghost predicate ExchangeOk(db: Db, e: Exchange) {
    && e.tid in db.tokens && db.tokens[e.tid].used == Some(e.at) && db.tokens[e.tid].user == e.user
  }

  ghost predicate Unique(db: Db) {
    && (forall u, v | u in db.users && v in db.users && u != v ::
          db.users[u].company != db.users[v].company || db.users[u].email != db.users[v].email)
    && (forall c, d | c in db.companies && d in db.companies && c != d :: db.companies[c].slug != db.companies[d].slug)
    && (forall i, j | i in db.invites && j in db.invites && i != j :: db.invites[i].token != db.invites[j].token)
    && (forall t, r | t in db.tokens && r in db.tokens && t != r :: db.tokens[t].digest != db.tokens[r].digest)
  }

  ghost predicate Members(db: Db, hist: History) {
    && (forall c | c in db.companies :: CompanyOk(db, hist, c))
    && (forall u | u in db.users :: UserOk(db, hist, u))
    && (forall i | i in db.invites :: InviteOk(db, hist, i))
    && (forall i | i in hist.joined :: i in db.invites)
  }

  ghost predicate Logins(db: Db, hist: History) {
    && (forall t | t in db.tokens :: TokenOk(db, hist, t))
    && (forall k | 0 <= k < |hist.exchanges| :: ExchangeOk(db, hist.exchanges[k]))
    && (forall k, l | 0 <= k < l < |hist.exchanges| :: hist.exchanges[k].tid != hist.exchanges[l].tid)
  }

  ghost predicate Drawn(db: Db, drawn: set<nat>) {
    && db.companies.Keys <= drawn && db.users.Keys <= drawn && db.invites.Keys <= drawn && db.tokens.Keys <= drawn
    && (forall i | i in db.invites :: db.invites[i].token in drawn)
    && (forall t | t in db.tokens :: db.tokens[t].digest.raw in drawn)
  }

  // ---------------------------------------------------------------------------------------
  // The open transactions
  // ---------------------------------------------------------------------------------------

  /** Identifiers and tokens in rows that are not committed yet. */
  function Claims(proc: Proc): set<nat> {
    match proc
    case Founded(_, cid) => {cid}
    case Owned(_, cid, uid) => {cid, uid}
    case Invited(_, cid, uid, iid, invite) => {cid, uid, iid, invite.token}
    case Joining(_, _, uid, _) => {uid}
    case _ => {}
  }

  ghost predicate FreshToken(db: Db, token: nat) {
    forall i | i in db.invites :: db.invites[i].token != token
  }

  ghost predicate Open(db: Db, iid: nat, start: int) {
    iid in db.invites && db.invites[iid].accepted.None? && db.invites[iid].expires > start
  }

  ghost predicate OpenToken(db: Db, tid: nat, raw: nat, start: int) {
    && tid in db.tokens && db.tokens[tid].digest == Sha256(raw)
    && db.tokens[tid].used.None? && db.tokens[tid].expires > start
  }

  ghost predicate ProcOk(db: Db, drawn: set<nat>, proc: Proc) {
    && Claims(proc) <= drawn
    && match proc
       case Resending(company, email, role) => exists u :: IsUser(db, u, company, email, role)
       case Founded(req, cid) => cid !in db.companies && !HasSlug(db, req.slug)
       case Owned(req, cid, uid) => cid !in db.companies && !HasSlug(db, req.slug) && uid !in db.users
       case Invited(req, cid, uid, iid, invite) =>
         && cid !in db.companies && !HasSlug(db, req.slug) && uid !in db.users && iid !in db.invites
         && FreshToken(db, invite.token)
         && invite.company == cid && invite.email == req.email && invite.role == Owner && invite.accepted.None?
       case Marked(start, _, iid) => Open(db, iid, start)
       case Joining(start, iid, uid, member) =>
         && Open(db, iid, start) && uid !in db.users
         && member.company == db.invites[iid].company && member.email == db.invites[iid].email
         && member.role == db.invites[iid].role && !HasUser(db, member.company, member.email)
       case Minting(uid) => uid in db.users
       case Spending(start, raw, tid) => OpenToken(db, tid, raw, start)
       case Fetched(start, raw, tid, uid) => OpenToken(db, tid, raw, start) && uid == db.tokens[tid].user
       case _ => true
  }

  /** Two open transactions hold no row, unique key, identifier or token in common. */
  ghost predicate Apart(a: Proc, b: Proc) {
    && Claims(a) !! Claims(b)
    && (forall i :: !(LocksInvite(a, i) && LocksInvite(b, i)))
    && (forall t :: !(LocksToken(a, t) && LocksToken(b, t)))
    && (forall c, e :: !(WritesUser(a, c, e) && WritesUser(b, c, e)))
    && (forall slug :: !(WritesSlug(a, slug) && WritesSlug(b, slug)))
  }

  ghost predicate Inv(s: State) {
    && Unique(s.db) && Members(s.db, s.hist) && Logins(s.db, s.hist) && Drawn(s.db, s.drawn)
    && (forall p | p in s.procs :: ProcOk(s.db, s.drawn, s.procs[p]))
    && (forall p, q | p in s.procs && q in s.procs && p != q :: Apart(s.procs[p], s.procs[q]))
  }

  type Sound = s: State | Inv(s) ghost witness Empty

  // ---------------------------------------------------------------------------------------
  // Steps that commit nothing
  // ---------------------------------------------------------------------------------------

  ghost predicate SameTables(s: State, s': State) {
    s'.db == s.db && s'.hist == s.hist && s.drawn <= s'.drawn
  }

  lemma Process(s: Sound, p: nat)
    requires p in s.procs
    ensures ProcOk(s.db, s.drawn, s.procs[p])
  {
  }

  lemma EndInv(s: State, s': State, p: nat)
    requires Inv(s) && SameTables(s, s') && s'.procs == s.procs - {p}
    ensures Inv(s')
  {
    forall q | q in s'.procs
      ensures ProcOk(s'.db, s'.drawn, s'.procs[q])
    {
      assert ProcOk(s.db, s.drawn, s.procs[q]);
    }
  }

  lemma GoInv(s: Sound, s': State, p: nat, proc: Proc)
    requires SameTables(s, s') && s'.procs == s.procs[p := proc]
    requires ProcOk(s'.db, s'.drawn, proc)
    requires forall q | q in s.procs && q != p :: Apart(proc, s.procs[q])
    ensures Inv(s')
  {
    forall q | q in s'.procs
      ensures ProcOk(s'.db, s'.drawn, s'.procs[q])
    {
      if q != p {
        assert ProcOk(s.db, s.drawn, s.procs[q]);
      }
    }
    forall q, r | q in s'.procs && r in s'.procs && q != r
      ensures Apart(s'.procs[q], s'.procs[r])
    {
      if q == p || r == p {
        assert Apart(proc, s.procs[if q == p then r else q]);
      } else {
        assert Apart(s.procs[q], s.procs[r]);
      }
    }
  }

  /** A process that claims and locks nothing is apart from every other. */
  predicate Idle(proc: Proc) {
    proc.Resending? || proc.Registering? || proc.Accepting? || proc.Checked? || proc.Minting? || proc.Verifying?
  }

  lemma IdleApart(proc: Proc, other: Proc)
    requires Idle(proc)
    ensures Apart(proc, other)
  {
    assert Claims(proc) == {};
  }

  lemma IdleInv(s: Sound, s': State, p: nat, proc: Proc)
    requires SameTables(s, s') && s'.procs == s.procs[p := proc] && Idle(proc) && ProcOk(s'.db, s'.drawn, proc)
    ensures Inv(s')
  {
    forall q | q in s.procs && q != p
      ensures Apart(proc, s.procs[q])
    {
      IdleApart(proc, s.procs[q]);
    }
    GoInv(s, s', p, proc);
  }

  lemma ReadInv(s: Sound, act: Action)
    requires act in Possible(s)
    requires act.Register? || act.BeginAccept? || act.CheckPending? || act.LookUp? || act.BeginVerify? || act.Tick?
               || act.Fail?
    ensures Inv(Next(s, act))
  {
    var s' := Next(s, act);
    if act.Fail? {
      EndInv(s, s', act.p);
    } else if act.Register? && act.existing.Some? {
      var u := s.db.users[act.existing.value];
      assert IsUser(s.db, act.existing.value, u.company, u.email, u.role);
      IdleInv(s, s', act.p, s'.procs[act.p]);
    } else if !act.Tick? && s' != s {
      IdleInv(s, s', act.p, s'.procs[act.p]);
    }
  }

  // ---------------------------------------------------------------------------------------
  // Registration
  // ---------------------------------------------------------------------------------------

  lemma FoundedApart(s: State, p: nat, req: Request, cid: nat, q: nat)
    requires q in s.procs && q != p && ProcOk(s.db, s.drawn, s.procs[q]) && cid !in s.drawn && SlugFree(s, p, req.slug)
    ensures Apart(Founded(req, cid), s.procs[q])
  {
  }

  lemma InsertCompanyInv(s: Sound, act: Action)
    requires act.InsertCompany? && act in Possible(s)
    ensures Inv(Next(s, act))
  {
    var s', req := Next(s, act), s.procs[act.p].req;
    if HasSlug(s.db, req.slug) {
      EndInv(s, s', act.p);
    } else {
      forall q | q in s.procs && q != act.p
        ensures Apart(Founded(req, act.cid), s.procs[q])
      {
        FoundedApart(s, act.p, req, act.cid, q);
      }
      GoInv(s, s', act.p, Founded(req, act.cid));
    }
  }

  /** A transaction that goes on to insert its owner or its invitation stays apart from the others. */
  lemma OwnedApart(db: Db, drawn: set<nat>, a: Proc, b: Proc, other: Proc)
    requires Drawn(db, drawn) && Apart(a, other) && ProcOk(db, drawn, other)
    requires other.Joining? ==> other.iid in db.invites && db.invites[other.iid].company in db.companies
    requires (a.Founded? && b.Owned?) || (a.Owned? && b.Invited? && b.uid == a.uid)
    requires b.req == a.req && b.cid == a.cid && a.cid !in db.companies
    requires forall x | x in Claims(b) - Claims(a) :: x !in drawn
    ensures Apart(b, other)
  {
    assert a.cid in Claims(a);
  }

  lemma JoiningCompany(s: Sound, q: nat)
    requires q in s.procs && s.procs[q].Joining?
    ensures s.procs[q].iid in s.db.invites && s.db.invites[s.procs[q].iid].company in s.db.companies
  {
    assert ProcOk(s.db, s.drawn, s.procs[q]);
    assert InviteOk(s.db, s.hist, s.procs[q].iid);
  }

  lemma RegistrationLocal(s: State, act: Action)
    requires (act.InsertOwner? || act.InsertFirstInvite?) && act in Possible(s)
    requires Drawn(s.db, s.drawn) && ProcOk(s.db, s.drawn, s.procs[act.p])
    ensures var s', a := Next(s, act), s.procs[act.p];
            && SameTables(s, s') && act.p in s'.procs
            && var b := s'.procs[act.p];
               && s'.procs == s.procs[act.p := b] && ProcOk(s'.db, s'.drawn, b) && a.cid !in s.db.companies
               && ((a.Founded? && b.Owned?) || (a.Owned? && b.Invited? && b.uid == a.uid)) && b.req == a.req
               && b.cid == a.cid
               && (forall x | x in Claims(b) - Claims(a) :: x !in s.drawn)
  {
  }

  lemma RegistrationApart(s: Sound, p: nat, b: Proc, q: nat)
    requires p in s.procs && q in s.procs && q != p
    requires var a := s.procs[p];
             && ((a.Founded? && b.Owned?) || (a.Owned? && b.Invited? && b.uid == a.uid)) && b.req == a.req
             && b.cid == a.cid
             && (forall x | x in Claims(b) - Claims(a) :: x !in s.drawn) && a.cid !in s.db.companies
    ensures Apart(b, s.procs[q])
  {
    assert Apart(s.procs[p], s.procs[q]) && ProcOk(s.db, s.drawn, s.procs[q]);
    if s.procs[q].Joining? {
      JoiningCompany(s, q);
    }
    OwnedApart(s.db, s.drawn, s.procs[p], b, s.procs[q]);
  }

  lemma RegistrationInv(s: Sound, act: Action)
    requires (act.InsertOwner? || act.InsertFirstInvite?) && act in Possible(s)
    ensures Inv(Next(s, act))
  {
    Process(s, act.p);
    RegistrationLocal(s, act);
    var b := Next(s, act).procs[act.p];
    forall q | q in s.procs && q != act.p
      ensures Apart(b, s.procs[q])
    {
      RegistrationApart(s, act.p, b, q);
    }
    GoInv(s, Next(s, act), act.p, b);
  }

  // ---------------------------------------------------------------------------------------
  // Rows held by a conditional UPDATE
  // ---------------------------------------------------------------------------------------

  lemma MarkedApart(s: State, p: nat, b: Proc, q: nat)
    requires b.Marked? && Unlocked(s, p, b.iid) && q in s.procs && q != p
    ensures Apart(b, s.procs[q])
  {
    assert !LocksInvite(s.procs[q], b.iid);
  }

  lemma SpendingApart(s: State, p: nat, b: Proc, q: nat)
    requires b.Spending? && TokenUnlocked(s, p, b.tid) && q in s.procs && q != p
    ensures Apart(b, s.procs[q])
  {
    assert !LocksToken(s.procs[q], b.tid);
  }

  lemma FetchedApart(a: Proc, b: Proc, other: Proc)
    requires a.Spending? && b.Fetched? && a.tid == b.tid && Apart(a, other)
    ensures Apart(b, other)
  {
    assert LocksToken(a, b.tid);
  }

  lemma Held(s: State, p: nat, token: nat, start: int, found: Option<nat>)
    requires FindsInvite(s, p, token, start, found) && found.Some?
    ensures Unlocked(s, p, found.value) && Open(s.db, found.value, start) && s.db.invites[found.value].token == token
  {
  }

  lemma TokenHeld(s: State, p: nat, raw: nat, start: int, found: Option<nat>)
    requires FindsToken(s, p, raw, start, found) && found.Some?
    ensures TokenUnlocked(s, p, found.value) && OpenToken(s.db, found.value, raw, start)
  {
  }

  /** The process has its row: no other holds it, and its condition was checked. */
  ghost predicate Holds(s: State, p: nat, b: Proc) {
    match b
    case Marked(start, _, iid) => Unlocked(s, p, iid) && Open(s.db, iid, start)
    case Spending(start, raw, tid) => TokenUnlocked(s, p, tid) && OpenToken(s.db, tid, raw, start)
    case _ => false
  }

  lemma HoldInv(s: Sound, s': State, p: nat, b: Proc)
    requires SameTables(s, s') && s'.procs == s.procs[p := b] && Holds(s, p, b)
    ensures Inv(s')
  {
    forall q | q in s.procs && q != p
      ensures Apart(b, s.procs[q])
    {
      if b.Marked? {
        MarkedApart(s, p, b, q);
      } else {
        SpendingApart(s, p, b, q);
      }
    }
    GoInv(s, s', p, b);
  }

  lemma HeldRow(s: State, act: Action)
    requires (act.MarkAccepted? || act.UseToken?) && act in Possible(s) && act.found.Some?
    ensures SameTables(s, Next(s, act)) && act.p in Next(s, act).procs
    ensures Next(s, act).procs == s.procs[act.p := Next(s, act).procs[act.p]]
    ensures Holds(s, act.p, Next(s, act).procs[act.p])
  {
    var a := s.procs[act.p];
    if act.MarkAccepted? {
      Held(s, act.p, a.token, a.start, act.found);
    } else {
      TokenHeld(s, act.p, a.raw, a.start, act.found);
    }
  }

  lemma HoldRowInv(s: Sound, act: Action)
    requires (act.MarkAccepted? || act.UseToken?) && act in Possible(s)
    ensures Inv(Next(s, act))
  {
    if act.found.Some? {
      HeldRow(s, act);
      HoldInv(s, Next(s, act), act.p, Next(s, act).procs[act.p]);
    } else {
      EndInv(s, Next(s, act), act.p);
    }
  }

  lemma FetchedInv(s: Sound, s': State, p: nat, b: Proc)
    requires SameTables(s, s') && p in s.procs && s'.procs == s.procs[p := b]
    requires s.procs[p].Spending? && b.Fetched? && b.tid == s.procs[p].tid && ProcOk(s'.db, s'.drawn, b)
    ensures Inv(s')
  {
    forall q | q in s.procs && q != p
      ensures Apart(b, s.procs[q])
    {
      assert Apart(s.procs[p], s.procs[q]);
      FetchedApart(s.procs[p], b, s.procs[q]);
    }
    GoInv(s, s', p, b);
  }

  lemma FetchLocal(s: State, act: Action)
    requires act.FetchUser? && act in Possible(s) && ProcOk(s.db, s.drawn, s.procs[act.p])
    ensures var s', a := Next(s, act), s.procs[act.p];
            && SameTables(s, s')
            && if act.p in s'.procs then
                 && s'.procs == s.procs[act.p := s'.procs[act.p]] && s'.procs[act.p].Fetched?
                 && s'.procs[act.p].tid == a.tid && ProcOk(s'.db, s'.drawn, s'.procs[act.p])
               else s'.procs == s.procs - {act.p}
  {
  }

  lemma FetchInv(s: Sound, act: Action)
    requires act.FetchUser? && act in Possible(s)
    ensures Inv(Next(s, act))
  {
    Process(s, act.p);
    FetchLocal(s, act);
    if act.p in Next(s, act).procs {
      FetchedInv(s, Next(s, act), act.p, Next(s, act).procs[act.p]);
    } else {
      EndInv(s, Next(s, act), act.p);
    }
  }

  lemma MemberApart(s: State, p: nat, b: Proc, q: nat)
    requires p in s.procs && s.procs[p].Marked? && b.Joining? && b.iid == s.procs[p].iid && b.uid !in s.drawn
    requires q in s.procs && q != p && Apart(s.procs[p], s.procs[q]) && ProcOk(s.db, s.drawn, s.procs[q])
    requires UserFree(s, p, b.member.company, b.member.email)
    ensures Apart(b, s.procs[q])
  {
    assert LocksInvite(s.procs[p], b.iid);
  }

  lemma InsertMemberLocal(s: State, act: Action)
    requires act.InsertMember? && act in Possible(s) && Drawn(s.db, s.drawn) && ProcOk(s.db, s.drawn, s.procs[act.p])
    ensures var s', a := Next(s, act), s.procs[act.p];
            && SameTables(s, s')
            && if act.p in s'.procs then
                 && s'.procs == s.procs[act.p := s'.procs[act.p]] && ProcOk(s'.db, s'.drawn, s'.procs[act.p])
                 && var b := s'.procs[act.p];
                    && b.Joining? && b.iid == a.iid && b.uid !in s.drawn
                    && UserFree(s, act.p, b.member.company, b.member.email)
               else s'.procs == s.procs - {act.p}
  {
  }

  lemma InsertMemberInv(s: Sound, act: Action)
    requires act.InsertMember? && act in Possible(s)
    ensures Inv(Next(s, act))
  {
    Process(s, act.p);
    InsertMemberLocal(s, act);
    if act.p in Next(s, act).procs {
      var b := Next(s, act).procs[act.p];
      forall q | q in s.procs && q != act.p
        ensures Apart(b, s.procs[q])
      {
        assert Apart(s.procs[act.p], s.procs[q]) && ProcOk(s.db, s.drawn, s.procs[q]);
        MemberApart(s, act.p, b, q);
      }
      GoInv(s, Next(s, act), act.p, b);
    } else {
      EndInv(s, Next(s, act), act.p);
    }
  }

  // ---------------------------------------------------------------------------------------
  // Commits
  // ---------------------------------------------------------------------------------------

  ghost predicate Tables(db: Db, hist: History, drawn: set<nat>) {
    Unique(db) && Members(db, hist) && Logins(db, hist) && Drawn(db, drawn)
  }

  /** A commit keeps the invariant if the tables stay consistent and every other process stays valid. */
  lemma CommitInv(s: State, s': State, p: nat)
    requires Inv(s) && s'.procs == s.procs - {p} && Tables(s'.db, s'.hist, s'.drawn)
    requires forall q | q in s.procs && q != p :: ProcOk(s'.db, s'.drawn, s.procs[q])
    ensures Inv(s')
  {
    forall q, r | q in s'.procs && r in s'.procs && q != r
      ensures Apart(s'.procs[q], s'.procs[r])
    {
      assert Apart(s.procs[q], s.procs[r]);
    }
  }

  /** Rows of users and companies are only added. */
  ghost predicate UsersGrow(db: Db, db': Db) {
    && (forall u | u in db.users :: u in db'.users && db'.users[u] == db.users[u])
    && (forall c | c in db.companies :: c in db'.companies && db'.companies[c] == db.companies[c])
  }

  lemma HasUserGrows(db: Db, db': Db, company: nat, email: string)
    requires UsersGrow(db, db') && HasUser(db, company, email)
    ensures HasUser(db', company, email)
  {
    var u :| u in db.users && db.users[u].company == company && db.users[u].email == email;
    assert u in db'.users;
  }

  lemma IsUserGrows(db: Db, db': Db, company: nat, email: string, role: Role)
    requires UsersGrow(db, db') && exists u :: IsUser(db, u, company, email, role)
    ensures exists u :: IsUser(db', u, company, email, role)
  {
    var u :| IsUser(db, u, company, email, role);
    assert IsUser(db', u, company, email, role);
  }

  /** The login tables do not depend on companies and invitations. */
  lemma LoginsSame(db: Db, db': Db, hist: History, hist': History)
    requires Logins(db, hist) && UsersGrow(db, db') && db'.tokens == db.tokens && hist'.exchanges == hist.exchanges
    ensures Logins(db', hist')
  {
    forall t | t in db'.tokens
      ensures TokenOk(db', hist', t)
    {
      assert TokenOk(db, hist, t);
    }
    forall k | 0 <= k < |hist'.exchanges|
      ensures ExchangeOk(db', hist'.exchanges[k])
    {
      assert ExchangeOk(db, hist.exchanges[k]);
    }
  }

  /** Nor do users and invitations depend on the login tables. */
  lemma MembersSame(db: Db, db': Db, hist: History, hist': History)
    requires Members(db, hist)
    requires db'.companies == db.companies && db'.users == db.users && db'.invites == db.invites
    requires hist'.owner == hist.owner && hist'.origin == hist.origin && hist'.joined == hist.joined
    ensures Members(db', hist')
  {
    forall u | u in db'.users
      ensures UserOk(db', hist', u)
    {
      assert UserOk(db, hist, u);
    }
    forall i | i in db'.invites
      ensures InviteOk(db', hist', i)
    {
      assert InviteOk(db, hist, i);
      if db.invites[i].role == Owner {
        HasUserGrows(db, db', db.invites[i].company, db.invites[i].email);
      }
    }
    forall c | c in db'.companies
      ensures CompanyOk(db', hist', c)
    {
      assert CompanyOk(db, hist, c);
    }
  }

  // ----- a new invitation -----

  function AddInvite(db: Db, iid: nat, invite: Invitation): Db {
    db.(invites := db.invites[iid := invite])
  }

  lemma InviteAdded(db: Db, hist: History, iid: nat, invite: Invitation, i: nat)
    requires iid !in db.invites && (i != iid ==> i in db.invites && InviteOk(db, hist, i))
    requires i == iid ==> && invite.company in db.companies && (invite.role == Owner || invite.role == Technician)
                          && invite.accepted.None? && iid !in hist.joined
                          && (invite.role == Owner ==> HasUser(db, invite.company, invite.email))
    ensures InviteOk(AddInvite(db, iid, invite), hist, i)
  {
    var db' := AddInvite(db, iid, invite);
    if db'.invites[i].role == Owner {
      HasUserGrows(db, db', db'.invites[i].company, db'.invites[i].email);
    }
  }

  lemma InviteMembers(db: Db, hist: History, iid: nat, invite: Invitation)
    requires Members(db, hist) && iid !in db.invites
    requires invite.company in db.companies && (invite.role == Owner || invite.role == Technician)
    requires invite.accepted.None?
    requires invite.role == Owner ==> HasUser(db, invite.company, invite.email)
    ensures Members(AddInvite(db, iid, invite), hist)
  {
    var db' := AddInvite(db, iid, invite);
    forall u | u in db'.users
      ensures UserOk(db', hist, u)
    {
      assert UserOk(db, hist, u);
    }
    forall i | i in db'.invites
      ensures InviteOk(db', hist, i)
    {
      InviteAdded(db, hist, iid, invite, i);
    }
    forall c | c in db'.companies
      ensures CompanyOk(db', hist, c)
    {
      assert CompanyOk(db, hist, c);
    }
  }

  lemma InviteUnique(db: Db, drawn: set<nat>, iid: nat, invite: Invitation)
    requires Unique(db) && Drawn(db, drawn) && invite.token !in drawn
    ensures Unique(AddInvite(db, iid, invite)) && Drawn(AddInvite(db, iid, invite), drawn + {iid, invite.token})
  {
  }

  lemma InviteTables(db: Db, hist: History, drawn: set<nat>, iid: nat, invite: Invitation)
    requires Tables(db, hist, drawn) && iid !in drawn && invite.token !in drawn
    requires invite.company in db.companies && (invite.role == Owner || invite.role == Technician)
    requires invite.accepted.None?
    requires invite.role == Owner ==> HasUser(db, invite.company, invite.email)
    ensures Tables(AddInvite(db, iid, invite), hist, drawn + {iid, invite.token})
  {
    InviteMembers(db, hist, iid, invite);
    InviteUnique(db, drawn, iid, invite);
    LoginsSame(db, AddInvite(db, iid, invite), hist, hist);
  }

  lemma OtherAfterInvite(db: Db, drawn: set<nat>, proc: Proc, iid: nat, invite: Invitation, drawn': set<nat>)
    requires ProcOk(db, drawn, proc) && iid !in drawn && invite.token !in drawn && drawn <= drawn' && iid !in db.invites
    ensures ProcOk(AddInvite(db, iid, invite), drawn', proc)
  {
    if proc.Resending? {
      IsUserGrows(db, AddInvite(db, iid, invite), proc.company, proc.email, proc.role);
    }
  }

  lemma AddInviteInv(s: State, s': State, p: nat, iid: nat, invite: Invitation)
    requires Inv(s) && iid !in s.drawn && invite.token !in s.drawn && s'.drawn == s.drawn + {iid, invite.token}
    requires invite.company in s.db.companies && (invite.role == Owner || invite.role == Technician)
    requires invite.accepted.None?
    requires invite.role == Owner ==> HasUser(s.db, invite.company, invite.email)
    requires s'.db == AddInvite(s.db, iid, invite) && s'.hist == s.hist && s'.procs == s.procs - {p}
    ensures Inv(s')
  {
    InviteTables(s.db, s.hist, s.drawn, iid, invite);
    forall q | q in s.procs && q != p
      ensures ProcOk(s'.db, s'.drawn, s.procs[q])
    {
      OtherAfterInvite(s.db, s.drawn, s.procs[q], iid, invite, s'.drawn);
    }
    CommitInv(s, s', p);
  }

  lemma RoleOfUser(s: Sound, company: nat, email: string, role: Role)
    requires exists u :: IsUser(s.db, u, company, email, role)
    ensures company in s.db.companies && (role == Owner || role == Technician) && HasUser(s.db, company, email)
  {
    var u :| IsUser(s.db, u, company, email, role);
    assert UserOk(s.db, s.hist, u);
  }

  lemma InviteInv(s: Sound, act: Action)
    requires (act.Resend? || act.InsertInvite?) && act in Possible(s)
    ensures Inv(Next(s, act))
  {
    var s', r := Next(s, act), s.procs[act.p];
    Process(s, act.p);
    if r.Resending? {
      RoleOfUser(s, r.company, r.email, r.role);
    }
    if r.company in s.db.companies {
      AddInviteInv(s, s', act.p, act.iid, s'.db.invites[act.iid]);
    } else {
      EndInv(s, s', act.p);
    }
  }

  // ----- a new login token -----

  function AddToken(db: Db, tid: nat, token: AuthToken): Db {
    db.(tokens := db.tokens[tid := token])
  }

  lemma TokenLogins(db: Db, hist: History, tid: nat, token: AuthToken)
    requires Logins(db, hist) && tid !in db.tokens && token.user in db.users && token.used.None?
    ensures Logins(AddToken(db, tid, token), hist)
  {
    var db' := AddToken(db, tid, token);
    forall k | 0 <= k < |hist.exchanges|
      ensures ExchangeOk(db', hist.exchanges[k]) && hist.exchanges[k].tid != tid
    {
      assert ExchangeOk(db, hist.exchanges[k]);
    }
    forall t | t in db'.tokens
      ensures TokenOk(db', hist, t)
    {
      assert t != tid ==> TokenOk(db, hist, t);
    }
  }

  lemma TokenUnique(db: Db, drawn: set<nat>, tid: nat, token: AuthToken)
    requires Unique(db) && Drawn(db, drawn) && token.digest.raw !in drawn
    ensures Unique(AddToken(db, tid, token)) && Drawn(AddToken(db, tid, token), drawn + {tid, token.digest.raw})
  {
  }

  lemma TokenTables(db: Db, hist: History, drawn: set<nat>, tid: nat, token: AuthToken)
    requires Tables(db, hist, drawn) && tid !in drawn && token.digest.raw !in drawn && token.user in db.users
    requires token.used.None?
    ensures Tables(AddToken(db, tid, token), hist, drawn + {tid, token.digest.raw})
  {
    TokenLogins(db, hist, tid, token);
    TokenUnique(db, drawn, tid, token);
    MembersSame(db, AddToken(db, tid, token), hist, hist);
  }

  lemma OtherAfterToken(db: Db, drawn: set<nat>, proc: Proc, db': Db, drawn': set<nat>)
    requires ProcOk(db, drawn, proc) && drawn <= drawn'
    requires db'.companies == db.companies && db'.users == db.users && db'.invites == db.invites
    requires forall t | t in db.tokens && LocksToken(proc, t) :: t in db'.tokens && db'.tokens[t] == db.tokens[t]
    ensures ProcOk(db', drawn', proc)
  {
    if proc.Resending? {
      IsUserGrows(db, db', proc.company, proc.email, proc.role);
    }
  }

  lemma AddTokenInv(s: State, s': State, p: nat, tid: nat, token: AuthToken)
    requires Inv(s) && tid !in s.drawn && token.digest.raw !in s.drawn && token.user in s.db.users && token.used.None?
    requires s'.db == AddToken(s.db, tid, token) && s'.hist == s.hist && s'.drawn == s.drawn + {tid, token.digest.raw}
    requires s'.procs == s.procs - {p}
    ensures Inv(s')
  {
    hide Apart, Unique, Members, Logins;
    TokenTables(s.db, s.hist, s.drawn, tid, token);
    forall q | q in s.procs && q != p
      ensures ProcOk(s'.db, s'.drawn, s.procs[q])
    {
      OtherAfterToken(s.db, s.drawn, s.procs[q], s'.db, s'.drawn);
    }
    CommitInv(s, s', p);
  }

  lemma InsertTokenLocal(s: State, act: Action)
    requires act in Possible(s) && act.InsertToken? && s.procs[act.p].uid in s.db.users
    ensures act.tid !in s.drawn && act.raw !in s.drawn
    ensures Next(s, act)
              == s.(db := AddToken(s.db, act.tid,
                  AuthToken(s.procs[act.p].uid, Sha256(act.raw), s.now + MagicLinkTTL, None)),
                               drawn := s.drawn + {act.tid, act.raw}, procs := s.procs - {act.p})
  {
  }

  lemma InsertTokenInv(s: Sound, act: Action)
    requires act.InsertToken? && act in Possible(s)
    ensures Inv(Next(s, act))
  {
    Process(s, act.p);
    InsertTokenLocal(s, act);
    AddTokenInv(s, Next(s, act), act.p, act.tid,
        AuthToken(s.procs[act.p].uid, Sha256(act.raw), s.now + MagicLinkTTL, None));
  }

  // ----- a login -----

  lemma SpentToken(s: State, start: int, tid: nat, t: nat)
    requires tid in s.db.tokens && t in s.db.tokens && TokenOk(s.db, s.hist, t) && start < s.db.tokens[tid].expires
    ensures var s' := Spend(s, start, tid, s.db.tokens[tid].user); TokenOk(s'.db, s'.hist, t)
  {
    var s' := Spend(s, start, tid, s.db.tokens[tid].user);
    if t == tid {
      assert s'.hist.exchanges[|s.hist.exchanges|].tid == t;
    } else if s.db.tokens[t].used.Some? {
      var k :| 0 <= k < |s.hist.exchanges| && s.hist.exchanges[k].tid == t;
      assert s'.hist.exchanges[k].tid == t;
    }
  }

  lemma SpendLogins(s: State, start: int, tid: nat)
    requires Logins(s.db, s.hist) && tid in s.db.tokens && s.db.tokens[tid].used.None?
    requires start < s.db.tokens[tid].expires
    ensures var s' := Spend(s, start, tid, s.db.tokens[tid].user); Logins(s'.db, s'.hist)
  {
    var s' := Spend(s, start, tid, s.db.tokens[tid].user);
    var n := |s.hist.exchanges|;
    assert TokenOk(s.db, s.hist, tid);
    forall k | 0 <= k <= n
      ensures ExchangeOk(s'.db, s'.hist.exchanges[k])
    {
      if k < n {
        assert ExchangeOk(s.db, s.hist.exchanges[k]);
      }
    }
    forall t | t in s'.db.tokens
      ensures TokenOk(s'.db, s'.hist, t)
    {
      SpentToken(s, start, tid, t);
    }
  }

  lemma SpendUnique(s: State, start: int, tid: nat, user: nat)
    requires Unique(s.db) && Drawn(s.db, s.drawn) && tid in s.db.tokens
    ensures Unique(Spend(s, start, tid, user).db) && Drawn(Spend(s, start, tid, user).db, s.drawn)
  {
  }

  lemma OtherAfterSpend(db: Db, drawn: set<nat>, a: Proc, other: Proc, token: AuthToken)
    requires a.Fetched? && Apart(a, other) && ProcOk(db, drawn, other)
    ensures ProcOk(AddToken(db, a.tid, token), drawn, other)
  {
    assert LocksToken(a, a.tid);
    OtherAfterToken(db, drawn, other, AddToken(db, a.tid, token), drawn);
  }

  lemma CommitVerifyLocal(s: State, act: Action)
    requires act in Possible(s) && act.CommitVerify? && ProcOk(s.db, s.drawn, s.procs[act.p])
    ensures var r, s' := s.procs[act.p], Next(s, act);
            && OpenToken(s.db, r.tid, r.raw, r.start) && r.uid == s.db.tokens[r.tid].user
            && s' == Ends(Spend(s, r.start, r.tid, s.db.tokens[r.tid].user), act.p)
            && s'.db == AddToken(s.db, r.tid, s'.db.tokens[r.tid])
  {
  }

  lemma SpendTables(s: Sound, start: int, tid: nat)
    requires tid in s.db.tokens && s.db.tokens[tid].used.None? && start < s.db.tokens[tid].expires
    ensures var s' := Spend(s, start, tid, s.db.tokens[tid].user); Tables(s'.db, s'.hist, s.drawn)
  {
    var s' := Spend(s, start, tid, s.db.tokens[tid].user);
    SpendLogins(s, start, tid);
    SpendUnique(s, start, tid, s.db.tokens[tid].user);
    MembersSame(s.db, s'.db, s.hist, s'.hist);
  }

  lemma CommitVerifyInv(s: Sound, act: Action)
    requires act.CommitVerify? && act in Possible(s)
    ensures Inv(Next(s, act))
  {
    var s', r := Next(s, act), s.procs[act.p];
    Process(s, act.p);
    CommitVerifyLocal(s, act);
    SpendTables(s, r.start, r.tid);
    forall q | q in s.procs && q != act.p
      ensures ProcOk(s'.db, s'.drawn, s.procs[q])
    {
      Process(s, q);
      assert Apart(r, s.procs[q]);
      OtherAfterSpend(s.db, s.drawn, r, s.procs[q], s'.db.tokens[r.tid]);
    }
    CommitInv(s, s', act.p);
  }

  // ----- a registration -----

  /** What a registration is about to commit. */
  ghost predicate Founding(db: Db, proc: Proc) {
    && proc.Invited? && proc.cid !in db.companies && !HasSlug(db, proc.req.slug) && proc.uid !in db.users
    && proc.iid !in db.invites
    && FreshToken(db, proc.invite.token) && proc.invite.company == proc.cid && proc.invite.email == proc.req.email
    && proc.invite.role == Owner && proc.invite.accepted.None?
  }

  function FoundBy(s: State, r: Proc): State
    requires r.Invited?
  {
    Found(s, r.req, r.cid, r.uid, r.iid, r.invite)
  }

  lemma FoundUnique(s: State, r: Proc)
    requires Founding(s.db, r) && Unique(s.db) && Drawn(s.db, s.drawn) && Claims(r) <= s.drawn
    requires forall u | u in s.db.users :: s.db.users[u].company in s.db.companies
    ensures Unique(FoundBy(s, r).db) && Drawn(FoundBy(s, r).db, s.drawn)
  {
  }

  lemma FoundCompany(s: State, r: Proc, c: nat)
    requires Founding(s.db, r) && (c == r.cid || (c in s.db.companies && CompanyOk(s.db, s.hist, c)))
    ensures CompanyOk(FoundBy(s, r).db, FoundBy(s, r).hist, c)
  {
  }

  lemma FoundUser(s: State, r: Proc, u: nat)
    requires Founding(s.db, r) && (u == r.uid || (u in s.db.users && UserOk(s.db, s.hist, u)))
    ensures UserOk(FoundBy(s, r).db, FoundBy(s, r).hist, u)
  {
  }

  lemma FoundInvite(s: State, r: Proc, i: nat)
    requires Founding(s.db, r) && (i == r.iid || (i in s.db.invites && InviteOk(s.db, s.hist, i)))
    requires forall j | j in s.hist.joined :: j in s.db.invites
    ensures InviteOk(FoundBy(s, r).db, FoundBy(s, r).hist, i)
  {
    var db' := FoundBy(s, r).db;
    if i == r.iid {
      assert db'.users[r.uid].company == r.cid && db'.users[r.uid].email == r.req.email;
    } else if s.db.invites[i].role == Owner {
      HasUserGrows(s.db, db', s.db.invites[i].company, s.db.invites[i].email);
    }
  }

  lemma FoundMembers(s: State, r: Proc)
    requires Founding(s.db, r) && Members(s.db, s.hist)
    ensures Members(FoundBy(s, r).db, FoundBy(s, r).hist)
  {
    forall c | c in FoundBy(s, r).db.companies
      ensures CompanyOk(FoundBy(s, r).db, FoundBy(s, r).hist, c)
    {
      FoundCompany(s, r, c);
    }
    forall u | u in FoundBy(s, r).db.users
      ensures UserOk(FoundBy(s, r).db, FoundBy(s, r).hist, u)
    {
      FoundUser(s, r, u);
    }
    forall i | i in FoundBy(s, r).db.invites
      ensures InviteOk(FoundBy(s, r).db, FoundBy(s, r).hist, i)
    {
      FoundInvite(s, r, i);
    }
  }

  lemma OtherAfterFound(s: State, r: Proc, other: Proc)
    requires Founding(s.db, r) && ProcOk(s.db, s.drawn, other) && Apart(r, other)
    ensures ProcOk(FoundBy(s, r).db, s.drawn, other)
  {
    var db' := FoundBy(s, r).db;
    assert WritesUser(r, r.cid, r.req.email) && WritesSlug(r, r.req.slug);
    assert {r.cid, r.uid, r.iid, r.invite.token} == Claims(r);
    if other.Resending? {
      IsUserGrows(s.db, db', other.company, other.email, other.role);
    }
  }

  lemma UsersHaveCompanies(s: Sound)
    ensures forall u | u in s.db.users :: s.db.users[u].company in s.db.companies
  {
    forall u | u in s.db.users
      ensures s.db.users[u].company in s.db.companies
    {
      assert UserOk(s.db, s.hist, u);
    }
  }

  lemma FoundLogins(s: State, r: Proc)
    requires Founding(s.db, r) && Logins(s.db, s.hist)
    ensures Logins(FoundBy(s, r).db, FoundBy(s, r).hist)
  {
    LoginsSame(s.db, FoundBy(s, r).db, s.hist, FoundBy(s, r).hist);
  }

  lemma FoundTables(s: Sound, r: Proc)
    requires Founding(s.db, r) && Claims(r) <= s.drawn
    ensures Tables(FoundBy(s, r).db, FoundBy(s, r).hist, s.drawn)
  {
    UsersHaveCompanies(s);
    FoundUnique(s, r);
    FoundMembers(s, r);
    FoundLogins(s, r);
  }

  lemma CommitRegistrationLocal(s: State, act: Action)
    requires act in Possible(s) && act.CommitRegistration? && ProcOk(s.db, s.drawn, s.procs[act.p])
    ensures var r := s.procs[act.p];
            Founding(s.db, r) && Claims(r) <= s.drawn && Next(s, act) == Ends(FoundBy(s, r), act.p)
  {
  }

  lemma CommitRegistrationInv(s: Sound, act: Action)
    requires act.CommitRegistration? && act in Possible(s)
    ensures Inv(Next(s, act))
  {
    var r := s.procs[act.p];
    Process(s, act.p);
    CommitRegistrationLocal(s, act);
    FoundTables(s, r);
    forall q | q in s.procs && q != act.p
      ensures ProcOk(FoundBy(s, r).db, s.drawn, s.procs[q])
    {
      Process(s, q);
      assert Apart(r, s.procs[q]);
      OtherAfterFound(s, r, s.procs[q]);
    }
    CommitInv(s, Next(s, act), act.p);
  }

  // ----- an accepted invitation -----

  /** What the acceptance of an invitation is about to commit. */
  ghost predicate Welcoming(db: Db, proc: Proc) {
    && proc.Joining? && Open(db, proc.iid, proc.start) && proc.uid !in db.users
    && proc.member.company == db.invites[proc.iid].company && proc.member.email == db.invites[proc.iid].email
    && proc.member.role == db.invites[proc.iid].role && !HasUser(db, proc.member.company, proc.member.email)
  }

  function AcceptBy(s: State, r: Proc): State
    requires r.Joining? && r.iid in s.db.invites
  {
    Accept(s, r.start, r.iid, r.uid, r.member)
  }

  lemma AcceptUnique(s: State, r: Proc)
    requires Welcoming(s.db, r) && Unique(s.db) && Drawn(s.db, s.drawn) && Claims(r) <= s.drawn
    ensures Unique(AcceptBy(s, r).db) && Drawn(AcceptBy(s, r).db, s.drawn)
  {
  }

  lemma AcceptCompany(s: State, r: Proc, c: nat)
    requires Welcoming(s.db, r) && c in s.db.companies && CompanyOk(s.db, s.hist, c)
    ensures CompanyOk(AcceptBy(s, r).db, AcceptBy(s, r).hist, c)
  {
  }

  lemma AcceptUser(s: State, r: Proc, u: nat)
    requires Welcoming(s.db, r) && InviteOk(s.db, s.hist, r.iid)
    requires (u == r.uid || (u in s.db.users && UserOk(s.db, s.hist, u)))
    ensures UserOk(AcceptBy(s, r).db, AcceptBy(s, r).hist, u)
  {
  }

  lemma AcceptInvite(s: State, r: Proc, i: nat)
    requires Welcoming(s.db, r) && InviteOk(s.db, s.hist, r.iid) && i in s.db.invites && InviteOk(s.db, s.hist, i)
    ensures InviteOk(AcceptBy(s, r).db, AcceptBy(s, r).hist, i)
  {
    if s.db.invites[i].role == Owner {
      HasUserGrows(s.db, AcceptBy(s, r).db, s.db.invites[i].company, s.db.invites[i].email);
    }
  }

  lemma AcceptMembers(s: State, r: Proc)
    requires Welcoming(s.db, r) && Members(s.db, s.hist)
    ensures Members(AcceptBy(s, r).db, AcceptBy(s, r).hist)
  {
    assert InviteOk(s.db, s.hist, r.iid);
    forall c | c in AcceptBy(s, r).db.companies
      ensures CompanyOk(AcceptBy(s, r).db, AcceptBy(s, r).hist, c)
    {
      AcceptCompany(s, r, c);
    }
    forall u | u in AcceptBy(s, r).db.users
      ensures UserOk(AcceptBy(s, r).db, AcceptBy(s, r).hist, u)
    {
      AcceptUser(s, r, u);
    }
    forall i | i in AcceptBy(s, r).db.invites
      ensures InviteOk(AcceptBy(s, r).db, AcceptBy(s, r).hist, i)
    {
      AcceptInvite(s, r, i);
    }
  }

  lemma OtherAfterAccept(s: State, r: Proc, other: Proc)
    requires Welcoming(s.db, r) && ProcOk(s.db, s.drawn, other) && Apart(r, other)
    ensures ProcOk(AcceptBy(s, r).db, s.drawn, other)
  {
    var db' := AcceptBy(s, r).db;
    assert WritesUser(r, r.member.company, r.member.email) && LocksInvite(r, r.iid) && Claims(r) == {r.uid};
    if other.Resending? {
      IsUserGrows(s.db, db', other.company, other.email, other.role);
    }
  }

  lemma AcceptLogins(s: State, r: Proc)
    requires Welcoming(s.db, r) && Logins(s.db, s.hist)
    ensures Logins(AcceptBy(s, r).db, AcceptBy(s, r).hist)
  {
    LoginsSame(s.db, AcceptBy(s, r).db, s.hist, AcceptBy(s, r).hist);
  }

  lemma AcceptTables(s: State, r: Proc)
    requires Welcoming(s.db, r) && Tables(s.db, s.hist, s.drawn) && Claims(r) <= s.drawn
    ensures Tables(AcceptBy(s, r).db, AcceptBy(s, r).hist, s.drawn)
  {
    AcceptUnique(s, r);
    AcceptMembers(s, r);
    AcceptLogins(s, r);
  }

  lemma CommitAcceptLocal(s: State, act: Action)
    requires act in Possible(s) && act.CommitAccept? && ProcOk(s.db, s.drawn, s.procs[act.p])
    ensures var r := s.procs[act.p];
            Welcoming(s.db, r) && Claims(r) <= s.drawn && Next(s, act) == Ends(AcceptBy(s, r), act.p)
  {
  }

  lemma CommitAcceptInv(s: Sound, act: Action)
    requires act.CommitAccept? && act in Possible(s)
    ensures Inv(Next(s, act))
  {
    var r := s.procs[act.p];
    Process(s, act.p);
    CommitAcceptLocal(s, act);
    AcceptTables(s, r);
    forall q | q in s.procs && q != act.p
      ensures ProcOk(AcceptBy(s, r).db, s.drawn, s.procs[q])
    {
      Process(s, q);
      assert Apart(r, s.procs[q]);
      OtherAfterAccept(s, r, s.procs[q]);
    }
    CommitInv(s, Next(s, act), act.p);
  }

  // ---------------------------------------------------------------------------------------
  // Every reachable state
  // ---------------------------------------------------------------------------------------

  lemma NextInv(s: Sound, act: Action)
    requires act in Possible(s)
    ensures Inv(Next(s, act))
  {
    match act
    case Resend(_, _, _) => InviteInv(s, act);
    case InsertInvite(_, _, _) => InviteInv(s, act);
    case InsertCompany(_, _) => InsertCompanyInv(s, act);
    case InsertOwner(_, _) => RegistrationInv(s, act);
    case InsertFirstInvite(_, _, _) => RegistrationInv(s, act);
    case CommitRegistration(_) => CommitRegistrationInv(s, act);
    case MarkAccepted(_, _) => HoldRowInv(s, act);
    case InsertMember(_, _) => InsertMemberInv(s, act);
    case CommitAccept(_) => CommitAcceptInv(s, act);
    case InsertToken(_, _, _) => InsertTokenInv(s, act);
    case UseToken(_, _) => HoldRowInv(s, act);
    case FetchUser(_) => FetchInv(s, act);
    case CommitVerify(_) => CommitVerifyInv(s, act);
    case _ => ReadInv(s, act);
  }

  lemma {:induction false} Reachable(acts: seq<Action>)
    requires Legal(acts)
    ensures Inv(Exec(acts))
  {
    if acts != [] {
      Reachable(acts[..|acts| - 1]);
      NextInv(Exec(acts[..|acts| - 1]), acts[|acts| - 1]);
    }
  }
}
