/** The account handlers as the server runs them, one request at a time: a transaction updates the tables in
    place and a rollback restores them.  Every statement is one action of the machine in `Accounts`, whose
    theorems also cover their interleavings. */
module AccountHandlers {
  import opened Wrappers
  import opened Accounts
  import opened AccountInv

  datatype Error = NotFound | Conflict | Internal

  datatype Result<T> = Ok(value: T) | Err(error: Error)

  /** The database calls of one handler that fail, by name. */
  datatype Faults = Faults(begin: bool, read: bool, write: bool, insert: bool, invite: bool, commit: bool)

  class Server {
    var now: int
    var companies: map<nat, Company>
    var users: map<nat, User>
    var invites: map<nat, Invitation>
    var tokens: map<nat, AuthToken>
    var saved: Option<Db>
    ghost var acts: seq<Action>
    ghost var state: State

    function Current(): Db
      reads this
    {
      Db(companies, users, invites, tokens)
    }

    /** The server is between requests, and its tables are those the actions so far lead to. */
    ghost predicate Valid()
      reads this
    {
      && Legal(acts) && state == Exec(acts) && state.procs == map[]
      && saved.None? && state.db == Current() && state.now == now
    }

    constructor ()
      ensures Valid() && acts == []
    {
      now, companies, users, invites, tokens, saved := 0, map[], map[], map[], map[], None;
      acts, state := [], Empty;
    }

    ghost method Take(act: Action)
      requires Legal(acts) && state == Exec(acts) && act in Possible(state)
      modifies this`acts, this`state
      ensures acts == old(acts) + [act] && Legal(acts) && state == Exec(acts) && state == Next(old(state), act)
    {
      hide Next, Possible;
      assert (acts + [act])[..|acts|] == acts;
      acts, state := acts + [act], Next(state, act);
    }

    /** Time passes. */
    method Tick(seconds: nat)
      requires Valid()
      modifies this`now, this`acts, this`state
      ensures Valid() && acts == old(acts) + [Action.Tick(seconds)] && now == old(now) + seconds
    {
      hide Exec, Legal, Next, Possible;
      TickIs(state, seconds);
      now := now + seconds;
      Take(Action.Tick(seconds));
    }

    // -------------------------------------------------------------------------------------
    // Transactions and statements
    // -------------------------------------------------------------------------------------

    method Begin()
      modifies this`saved
      ensures saved == Some(Current())
    {
      saved := Some(Current());
    }

    method Commit()
      modifies this`saved
      ensures saved.None?
    {
      saved := None;
    }

    method Rollback()
      requires saved.Some?
      modifies this`saved, this`companies, this`users, this`invites, this`tokens
      ensures saved.None? && Current() == old(saved).value
    {
      companies, users := saved.value.companies, saved.value.users;
      invites, tokens := saved.value.invites, saved.value.tokens;
      saved := None;
    }

    method AcceptInvitation(token: nat) returns (found: Option<nat>)
      modifies this`invites
      ensures found.Some? ==>
                && OneAcceptable(old(Current()), token, now, found.value)
                && invites == old(invites)[found.value := old(invites)[found.value].(accepted := Some(now))]
      ensures found.None? ==> invites == old(invites) && NoneAcceptable(old(Current()), token, now)
    {
      if exists i :: i in invites && Acceptable(invites[i], token, now) {
        var i :| i in invites && Acceptable(invites[i], token, now);
        invites := invites[i := invites[i].(accepted := Some(now))];
        return Some(i);
      }
      return None;
    }

    method UseAuthToken(digest: Digest) returns (found: Option<nat>)
      modifies this`tokens
      ensures found.Some? ==>
                && OpenToken(old(Current()), found.value, digest.raw, now)
                && tokens == old(tokens)[found.value := old(tokens)[found.value].(used := Some(now))]
      ensures found.None? ==> tokens == old(tokens) && NoneUsable(old(Current()), digest.raw, now)
    {
      if exists t :: t in tokens && Usable(tokens[t], digest.raw, now) {
        var t :| t in tokens && Usable(tokens[t], digest.raw, now);
        tokens := tokens[t := tokens[t].(used := Some(now))];
        return Some(t);
      }
      return None;
    }

    /** `false` is a violation of UNIQUE (company_id, email). */
    method CreateUser(id: nat, user: User) returns (ok: bool)
      modifies this`users
      ensures ok <==> !HasUser(old(Current()), user.company, user.email)
      ensures users == if ok then old(users)[id := user] else old(users)
    {
      ok := !HasUser(Current(), user.company, user.email);
      if ok {
        users := users[id := user];
      }
    }

    /** `false` is a violation of the UNIQUE slug. */
    method CreateCompany(id: nat, company: Company) returns (ok: bool)
      modifies this`companies
      ensures ok <==> !HasSlug(old(Current()), company.slug)
      ensures companies == if ok then old(companies)[id := company] else old(companies)
    {
      ok := !HasSlug(Current(), company.slug);
      if ok {
        companies := companies[id := company];
      }
    }

    method GetUserByEmail(email: string) returns (existing: Option<nat>)
      ensures Finds(Current(), email, existing)
    {
      if exists u :: u in users && users[u].email == email {
        var u :| u in users && users[u].email == email;
        return Some(u);
      }
      return None;
    }

    /** `false` is a violation of the foreign key to the company. */
    method CreateInvitation(id: nat, invite: Invitation) returns (ok: bool)
      modifies this`invites
      ensures ok <==> invite.company in companies
      ensures invites == if ok then old(invites)[id := invite] else old(invites)
    {
      ok := invite.company in companies;
      if ok {
        invites := invites[id := invite];
      }
    }

    /** The rest of a handler whose call failed: the transaction is rolled back. */
    method Abort(ghost p: nat)
      requires Legal(acts) && state == Exec(acts) && state.procs.Keys == {p} && state.now == now
      requires saved.Some? && state.db == saved.value
      modifies this`acts, this`state, this`saved, this`companies, this`users, this`invites, this`tokens
      ensures Valid() && old(acts) < acts && Current() == old(saved).value && state.hist == old(state.hist)
    {
      hide Exec, Legal, Next, Possible;
      FailIs(state, p);
      Take(Action.Fail(p));
      Rollback();
    }

    // -------------------------------------------------------------------------------------
    // Accepting an invitation
    // -------------------------------------------------------------------------------------

    /** `AcceptInvite`: success exactly when there is an acceptable invitation and no user of its company and
        email; on any error the tables are as before. */
    method AcceptInvite(token: nat, name: string, f: Faults, uid: nat, ghost p: nat) returns (res: Result<User>)
      requires Valid() && uid !in state.drawn
      modifies this
      ensures Valid() && old(acts) <= acts && now == old(now)
      ensures res == Err(NotFound) <==> !f.begin && !f.write && NoneAcceptable(old(Current()), token, now)
      ensures res == Err(Conflict) <==> !f.begin && !f.write && !f.insert && TakenInvite(old(Current()), token, now)
      ensures res.Ok? <==>
                && !f.begin && !f.write && !f.insert && !f.commit
                && !NoneAcceptable(old(Current()), token, now) && !TakenInvite(old(Current()), token, now)
      ensures res.Ok? ==> Welcomed(old(Current()), Current(), token, now, name, uid, res.value)
      ensures res.Err? ==> Current() == old(Current())
    {
      hide Exec, Legal, Next, Possible, Enabled;
      if f.begin {
        return Err(Internal);
      }
      Begin();
      BeginAcceptIs(state, p, token, name);
      Take(BeginAccept(p, token, name));
      if f.write {
        Abort(p);
        return Err(Internal);
      }
      var found := AcceptInvitation(token);
      MarkIs(state, p, token, name, found);
      Take(MarkAccepted(p, found));
      if found.None? {
        Rollback();
        return Err(NotFound);
      }
      TakenIs(acts, token, now, found.value);
      res := AdmitMember(found.value, name, f, uid, p);
    }

    /** `AcceptInvite`, once the invitation is marked. */
    method AdmitMember(iid: nat, name: string, f: Faults, uid: nat, ghost p: nat) returns (res: Result<User>)
      requires Legal(acts) && state == Exec(acts) && state.now == now && saved.Some? && state.db == saved.value
      requires uid !in state.drawn
      requires state.procs == map[p := Marked(now, name, iid)] && iid in saved.value.invites
      requires Current() == WithAccepted(saved.value, iid, now)
      modifies this
      ensures Valid() && old(acts) <= acts && now == old(now)
      ensures var db, i := old(saved).value, old(saved).value.invites[iid];
              && (res == Err(Conflict) <==> !f.insert && HasUser(db, i.company, i.email))
              && res != Err(NotFound)
              && (res.Ok? <==> !f.insert && !f.commit && !HasUser(db, i.company, i.email))
              && (res.Ok? ==> res.value == User(i.company, i.email, name, i.role) && !HasUser(db, i.company, i.email)
                              && Current() == WithAccepted(db, iid, now).(users := db.users[uid := res.value]))
              && (res.Err? ==> Current() == db)
    {
      hide Exec, Legal, Next, Possible, Enabled;
      if f.insert {
        Abort(p);
        return Err(Internal);
      }
      var i := invites[iid];
      var user := User(i.company, i.email, name, i.role);
      InsertMemberIs(state, p, name, iid, uid);
      var ok := CreateUser(uid, user);
      Take(InsertMember(p, uid));
      if !ok {
        Rollback();
        return Err(Conflict);
      }
      if f.commit {
        Abort(p);
        return Err(Internal);
      }
      Commit();
      CommitAcceptIs(state, p, iid, uid, user);
      Take(CommitAccept(p));
      return Ok(user);
    }

    // -------------------------------------------------------------------------------------
    // Registration
    // -------------------------------------------------------------------------------------

    /** `createRegistration`: company, owner and first invitation, or nothing. */
    method CreateRegistration(req: Request, f: Faults, cid: nat, uid: nat, iid: nat, token: nat, ghost p: nat)
      returns (res: Result<Invitation>)
      requires Legal(acts) && state == Exec(acts) && state.now == now && saved.None? && state.db == Current()
      requires state.procs == map[p := Registering(req)]
      requires cid !in state.drawn && uid !in state.drawn && cid != uid && Undrawn(state, iid, token)
      requires {iid, token} !! {cid, uid}
      modifies this
      ensures Valid() && old(acts) <= acts && now == old(now)
      ensures res.Ok? <==>
                && !f.begin && !f.write && !f.insert && !f.invite && !f.commit
                && forall c | c in old(companies) :: old(companies)[c].slug != req.slug
      ensures res.Err? ==> res.error.Internal? && Current() == old(Current())
      ensures res.Ok? ==> Current() == WithRegistration(old(Current()), req, cid, uid, iid, token, now)
    {
      hide Exec, Legal, Next, Possible, Enabled;
      if f.begin {
        FailIs(state, p);
        Take(Action.Fail(p));
        return Err(Internal);
      }
      Begin();
      if f.write {
        Abort(p);
        return Err(Internal);
      }
      InsertCompanyIs(state, p, req, cid);
      var ok := CreateCompany(cid, Company(req.company, req.slug));
      Take(InsertCompany(p, cid));
      if !ok {
        // The retry under a suffixed slug is refused: the transaction is aborted already.
        Rollback();
        return Err(Internal);
      }
      res := InsertOwnerRows(req, f, cid, uid, iid, token, p);
    }

    /** `createRegistration`, once the company is inserted. */
    method InsertOwnerRows(req: Request, f: Faults, cid: nat, uid: nat, iid: nat, token: nat, ghost p: nat)
      returns (res: Result<Invitation>)
      requires Legal(acts) && state == Exec(acts) && state.now == now && saved.Some? && state.db == saved.value
      requires state.procs == map[p := Founded(req, cid)] && uid !in state.drawn && Undrawn(state, iid, token)
      requires uid !in {iid, token}
      requires Current() == saved.value.(companies := saved.value.companies[cid := Company(req.company, req.slug)])
      modifies this
      ensures Valid() && old(acts) <= acts && now == old(now)
      ensures res.Ok? <==> !f.insert && !f.invite && !f.commit
      ensures res.Err? ==> res.error.Internal? && Current() == old(saved).value
      ensures res.Ok? ==>
                && res.value == Invitation(cid, req.email, Owner, token, None, now + RegistrationTTL)
                && Current() == Db(old(companies), old(users)[uid := User(cid, req.email, req.owner, Owner)],
                                   old(invites)[iid := res.value], old(tokens))
    {
      hide Exec, Legal, Next, Possible, Enabled;
      if f.insert {
        Abort(p);
        return Err(Internal);
      }
      NoMembersYet(acts, p);
      assert !HasUser(state.db, cid, req.email);
      InsertOwnerIs(state, p, req, cid, uid);
      var ok := CreateUser(uid, User(cid, req.email, req.owner, Owner));
      Take(InsertOwner(p, uid));
      if !ok || f.invite {
        Abort(p);
        return Err(Internal);
      }
      res := InsertFirstInvitation(req, f, cid, uid, iid, token, p);
    }

    /** `createRegistration`, once company and owner are inserted. */
    method InsertFirstInvitation(req: Request, f: Faults, cid: nat, uid: nat, iid: nat, token: nat, ghost p: nat)
      returns (res: Result<Invitation>)
      requires Legal(acts) && state == Exec(acts) && state.now == now && saved.Some? && state.db == saved.value
      requires state.procs == map[p := Owned(req, cid, uid)] && Undrawn(state, iid, token)
      requires Current() == saved.value.(companies := saved.value.companies[cid := Company(req.company, req.slug)],
                                         users := saved.value.users[uid := User(cid, req.email, req.owner, Owner)])
      modifies this
      ensures Valid() && old(acts) <= acts && now == old(now)
      ensures res.Ok? <==> !f.commit
      ensures res.Err? ==> res.error.Internal? && Current() == old(saved).value
      ensures res.Ok? ==>
                && res.value == Invitation(cid, req.email, Owner, token, None, now + RegistrationTTL)
                && Current() == AddInvite(old(Current()), iid, res.value)
    {
      hide Exec, Legal, Next, Possible, Enabled;
      var invite := Invitation(cid, req.email, Owner, token, None, now + RegistrationTTL);
      FirstInviteIs(state, p, req, cid, uid, iid, token);
      var ok := CreateInvitation(iid, invite);
      Take(InsertFirstInvite(p, iid, token));
      if !ok || f.commit {
        Abort(p);
        return Err(Internal);
      }
      Commit();
      CommitRegistrationIs(state, p, req, cid, uid, iid, invite);
      Take(CommitRegistration(p));
      return Ok(invite);
    }

    /** `RegisterHandler`: an email that is known gets a new invitation instead, and the same answer. */
    method RegisterAccount(req: Request, f: Faults, cid: nat, uid: nat, iid: nat, token: nat, ghost p: nat)
      returns (res: Result<bool>)
      requires Valid() && cid !in state.drawn && uid !in state.drawn && cid != uid
      requires Undrawn(state, iid, token) && {iid, token} !! {cid, uid}
      modifies this
      ensures Valid() && old(acts) <= acts && now == old(now)
      ensures res.Err? ==> res.error.Internal? && Current() == old(Current())
      ensures res == Ok(false) <==> !f.read && exists u :: u in old(users) && old(users)[u].email == req.email
      ensures res == Ok(true) <==>
                && !f.read && !f.begin && !f.write && !f.insert && !f.invite && !f.commit
                && (forall u | u in old(users) :: old(users)[u].email != req.email)
                && forall c | c in old(companies) :: old(companies)[c].slug != req.slug
      ensures res == Ok(true) ==> Current() == WithRegistration(old(Current()), req, cid, uid, iid, token, now)
      ensures res == Ok(false) && f.invite ==> Current() == old(Current())
      ensures res == Ok(false) && !f.invite ==> Reinvited(old(Current()), Current(), req.email, iid, token, now)
    {
      hide Exec, Legal, Next, Possible, Enabled;
      if f.read {
        return Err(Internal);
      }
      var existing := GetUserByEmail(req.email);
      RegisterIs(state, p, req, existing);
      Take(Register(p, req, existing));
      if existing.Some? {
        var u := users[existing.value];
        IssueMagicLink(u, f, iid, token, p);
        assert ReinvitedAs(old(Current()), Current(), existing.value, req.email, iid, token, now) || f.invite;
        return Ok(false);
      }
      var reg := CreateRegistration(req, f, cid, uid, iid, token, p);
      return if reg.Ok? then Ok(true) else Err(Internal);
    }

    // -------------------------------------------------------------------------------------
    // Inviting, and logging in
    // -------------------------------------------------------------------------------------

    /** `InviteHandler`: a conflict exactly when an invitation is pending already. */
    method Invite(company: nat, email: string, f: Faults, iid: nat, token: nat, ghost p: nat)
      returns (res: Result<Invitation>)
      requires Valid() && Undrawn(state, iid, token)
      modifies this
      ensures Valid() && old(acts) <= acts && now == old(now)
      ensures res == Err(Conflict) <==> !f.read && HasPending(old(Current()), company, email, now)
      ensures res.Ok? <==>
                !f.read && !f.insert && company in companies && !HasPending(old(Current()), company, email, now)
      ensures res.Ok? ==>
                && res.value == Invitation(company, email, Technician, token, None, now + 7 * 24 * 60 * 60)
                && Current() == AddInvite(old(Current()), iid, res.value)
      ensures res.Err? ==> res != Err(NotFound) && Current() == old(Current())
    {
      hide Exec, Legal, Next, Possible, Enabled;
      if f.read {
        return Err(Internal);
      }
      CheckPendingIs(state, p, company, email);
      Take(CheckPending(p, company, email));
      if HasPending(Current(), company, email, now) {
        return Err(Conflict);
      }
      if f.insert {
        FailIs(state, p);
        Take(Action.Fail(p));
        return Err(Internal);
      }
      var invite := Invitation(company, email, Technician, token, None, now + InviteTTL);
      InsertInviteIs(state, p, company, email, iid, token);
      var ok := CreateInvitation(iid, invite);
      Take(InsertInvite(p, iid, token));
      return if ok then Ok(invite) else Err(Internal);
    }

    /** `MagicLinkHandler`, the part after the answer: a token is stored exactly when a user has that email. */
    method MagicLink(email: string, f: Faults, tid: nat, raw: nat, ghost p: nat) returns (minted: bool)
      requires Valid() && Undrawn(state, tid, raw)
      modifies this
      ensures Valid() && old(acts) <= acts && now == old(now)
      ensures minted <==> !f.read && !f.insert && exists u :: u in old(users) && old(users)[u].email == email
      ensures minted ==> Minted(old(Current()), Current(), email, tid, raw, now)
      ensures !minted ==> Current() == old(Current())
    {
      hide Exec, Legal, Next, Possible, Enabled;
      if f.read {
        return false;
      }
      var existing := GetUserByEmail(email);
      LookUpIs(state, p, email, existing);
      Take(LookUp(p, email, existing));
      if existing.None? {
        return false;
      }
      if f.insert {
        FailIs(state, p);
        Take(Action.Fail(p));
        return false;
      }
      InsertTokenIs(state, p, existing.value, tid, raw);
      tokens := tokens[tid := AuthToken(existing.value, Sha256(raw), now + MagicLinkTTL, None)];
      Take(InsertToken(p, tid, raw));
      assert MintedFor(old(Current()), Current(), existing.value, email, tid, raw, now);
      return true;
    }

    /** `VerifyHandler`: without a database error a token that is stored, unused and unexpired logs in exactly
        its user and is used up; on any error the tables are as before. */
    method Verify(raw: nat, f: Faults, ghost p: nat) returns (res: Result<nat>)
      requires Valid()
      modifies this
      ensures Valid() && old(acts) <= acts && now == old(now)
      ensures res == Err(NotFound) <==> !f.begin && !f.write && NoneUsable(old(Current()), raw, now)
      ensures res.Ok? <==> !f.begin && !f.write && !f.read && !f.commit && !NoneUsable(old(Current()), raw, now)
      ensures res.Ok? ==> LoggedIn(old(state), state, raw, res.value) && res.value in users
      ensures res.Err? ==> res != Err(Conflict) && Current() == old(Current()) && state.hist == old(state.hist)
    {
      hide Exec, Legal, Next, Possible, Enabled;
      if f.begin {
        return Err(Internal);
      }
      Begin();
      BeginVerifyIs(state, p, raw);
      Take(BeginVerify(p, raw));
      if f.write {
        Abort(p);
        return Err(Internal);
      }
      var found := UseAuthToken(Sha256(raw));
      UseTokenIs(state, p, raw, found);
      Take(UseToken(p, found));
      if found.None? {
        Rollback();
        return Err(NotFound);
      }
      res := FinishVerify(found.value, raw, f, p);
      assert res.Ok? ==> LoggedInBy(old(state), state, found.value, raw, res.value);
    }

    /** `VerifyHandler`, once the token is marked. */
    method FinishVerify(tid: nat, raw: nat, f: Faults, ghost p: nat) returns (res: Result<nat>)
      requires Legal(acts) && state == Exec(acts) && state.now == now && saved.Some? && state.db == saved.value
      requires state.procs == map[p := Spending(now, raw, tid)] && tid in saved.value.tokens
      requires Current()
                 == saved.value.(tokens := saved.value.tokens[tid := saved.value.tokens[tid].(used := Some(now))])
      modifies this
      ensures Valid() && old(acts) <= acts && now == old(now)
      ensures res.Ok? <==> !f.read && !f.commit
      ensures res.Ok? ==>
                && res.value == old(tokens)[tid].user && res.value in users && Current() == old(Current())
                && state.hist == WithExchange(old(state.hist), Exchange(tid, res.value, now))
      ensures res.Err? ==> res.error.Internal? && Current() == old(saved).value && state.hist == old(state.hist)
    {
      hide Exec, Legal, Next, Possible, Enabled;
      var user := tokens[tid].user;
      UserOfToken(acts, p);
      if f.read || user !in users {
        Abort(p);
        return Err(Internal);
      }
      FetchUserIs(state, p, raw, tid);
      Take(FetchUser(p));
      if f.commit {
        Abort(p);
        return Err(Internal);
      }
      Commit();
      CommitVerifyIs(state, p, raw, tid, user);
      Take(CommitVerify(p));
      return Ok(user);
    }

    /** `issueMagicLink` for an existing user; its error is only logged. */
    method IssueMagicLink(u: User, f: Faults, iid: nat, token: nat, ghost p: nat)
      requires Legal(acts) && state == Exec(acts) && state.now == now && saved.None? && state.db == Current()
      requires state.procs == map[p := Resending(u.company, u.email, u.role)] && Undrawn(state, iid, token)
      modifies this
      ensures Valid() && old(acts) <= acts && now == old(now)
      ensures var invite := Invitation(u.company, u.email, u.role, token, None, now + RegistrationTTL);
              Current() == if f.invite then old(Current()) else AddInvite(old(Current()), iid, invite)
    {
      hide Exec, Legal, Next, Possible, Enabled;
      if f.invite {
        FailIs(state, p);
        Take(Action.Fail(p));
        return;
      }
      ResendCompany(acts, p);
      ResendIs(state, p, u, iid, token);
      var _ := CreateInvitation(iid, Invitation(u.company, u.email, u.role, token, None, now + RegistrationTTL));
      Take(Resend(p, iid, token));
    }
  }

  ghost function WithAccepted(db: Db, i: nat, now: int): Db
    requires i in db.invites
  {
    db.(invites := db.invites[i := db.invites[i].(accepted := Some(now))])
  }

  /** The tables with a new company, its owner and its first invitation. */
  ghost function WithRegistration(db: Db, req: Request, cid: nat, uid: nat, iid: nat, token: nat, now: int): Db {
    Db(db.companies[cid := Company(req.company, req.slug)], db.users[uid := User(cid, req.email, req.owner, Owner)],
       db.invites[iid := Invitation(cid, req.email, Owner, token, None, now + 60 * 60)], db.tokens)
  }

  ghost predicate MintedFor(db: Db, db': Db, u: nat, email: string, tid: nat, raw: nat, now: int) {
    && u in db.users && db.users[u].email == email
    && db' == AddToken(db, tid, AuthToken(u, Sha256(raw), now + 15 * 60, None))
  }

  /** A user of that email has one more token, stored by its digest. */
  ghost predicate Minted(db: Db, db': Db, email: string, tid: nat, raw: nat, now: int) {
    exists u :: MintedFor(db, db', u, email, tid, raw, now)
  }

  function WithExchange(hist: History, e: Exchange): History {
    hist.(exchanges := hist.exchanges + [e])
  }

  ghost predicate NoneUsable(db: Db, raw: nat, now: int) {
    forall t | t in db.tokens && db.tokens[t].digest == Sha256(raw) ::
      db.tokens[t].used.Some? || db.tokens[t].expires <= now
  }

  ghost predicate LoggedInBy(s: State, s': State, tid: nat, raw: nat, user: nat) {
    && OpenToken(s.db, tid, raw, s.now) && s.db.tokens[tid].user == user
    && s'.db == AddToken(s.db, tid, s.db.tokens[tid].(used := Some(s.now)))
    && s'.hist == WithExchange(s.hist, Exchange(tid, user, s.now))
  }

  /** The usable token of that raw value was exchanged for its user, and is used now. */
  ghost predicate LoggedIn(s: State, s': State, raw: nat, user: nat) {
    exists tid :: LoggedInBy(s, s', tid, raw, user)
  }

  ghost predicate ReinvitedAs(db: Db, db': Db, u: nat, email: string, iid: nat, token: nat, now: int) {
    && u in db.users && db.users[u].email == email
    && db' == AddInvite(db, iid,
         Invitation(db.users[u].company, email, db.users[u].role, token, None, now + 60 * 60))
  }

  /** An existing user of that email has one more invitation, to its own company and role. */
  ghost predicate Reinvited(db: Db, db': Db, email: string, iid: nat, token: nat, now: int) {
    exists u :: ReinvitedAs(db, db', u, email, iid, token, now)
  }

  ghost predicate OneAcceptable(db: Db, token: nat, now: int, i: nat) {
    i in db.invites && db.invites[i].token == token && db.invites[i].accepted.None? && db.invites[i].expires > now
  }

  ghost predicate NoneAcceptable(db: Db, token: nat, now: int) {
    forall i | i in db.invites && db.invites[i].token == token ::
      db.invites[i].accepted.Some? || db.invites[i].expires <= now
  }

  /** There is an acceptable invitation, but its company already has a user of its email. */
  ghost predicate TakenInvite(db: Db, token: nat, now: int) {
    exists i, u :: OneAcceptable(db, token, now, i) && IsMember(db, u, db.invites[i].company, db.invites[i].email)
  }

  /** At most one invitation has the token. */
  lemma TakenIs(acts: seq<Action>, token: nat, now: int, i: nat)
    requires Legal(acts) && OneAcceptable(Exec(acts).db, token, now, i)
    ensures var db := Exec(acts).db; TakenInvite(db, token, now) <==>
              HasUser(db, db.invites[i].company, db.invites[i].email)
  {
    Reachable(acts);
    OnlyInvite(Exec(acts).db, token, now, i);
    HasUserIff(Exec(acts).db, Exec(acts).db.invites[i].company, Exec(acts).db.invites[i].email);
  }

  lemma OnlyInvite(db: Db, token: nat, now: int, i: nat)
    requires Unique(db) && OneAcceptable(db, token, now, i)
    ensures forall j :: OneAcceptable(db, token, now, j) ==> j == i
  {
  }

  /** The invitation is accepted and its user added, and nothing else changed. */
  ghost predicate Welcomed(db: Db, db': Db, token: nat, now: int, name: string, uid: nat, user: User) {
    exists i ::
      && OneAcceptable(db, token, now, i)
      && user == User(db.invites[i].company, db.invites[i].email, name, db.invites[i].role)
      && (forall u :: !IsMember(db, u, user.company, user.email))
      && db' == WithAccepted(db, i, now).(users := db.users[uid := user])
  }

  // ---------------------------------------------------------------------------------------
  // The machine with one process at work
  // ---------------------------------------------------------------------------------------

  lemma TickIs(s: State, seconds: nat)
    ensures Action.Tick(seconds) in Possible(s) && Next(s, Action.Tick(seconds)) == s.(now := s.now + seconds)
  {
  }

  lemma FailIs(s: State, p: nat)
    requires s.procs.Keys == {p}
    ensures Action.Fail(p) in Possible(s) && Next(s, Action.Fail(p)) == s.(procs := map[])
  {
  }

  lemma BeginAcceptIs(s: State, p: nat, token: nat, name: string)
    requires s.procs == map[]
    ensures BeginAccept(p, token, name) in Possible(s)
    ensures Next(s, BeginAccept(p, token, name)) == s.(procs := map[p := Accepting(s.now, token, name)])
  {
  }

  lemma MarkIs(s: State, p: nat, token: nat, name: string, found: Option<nat>)
    requires s.procs == map[p := Accepting(s.now, token, name)]
    requires if found.Some? then OneAcceptable(s.db, token, s.now, found.value) else NoneAcceptable(s.db, token, s.now)
    ensures MarkAccepted(p, found) in Possible(s)
    ensures Next(s, MarkAccepted(p, found))
         == s.(procs := if found.Some? then map[p := Marked(s.now, name, found.value)] else map[])
  {
  }

  lemma InsertMemberIs(s: State, p: nat, name: string, iid: nat, uid: nat)
    requires s.procs == map[p := Marked(s.now, name, iid)] && iid in s.db.invites && uid !in s.drawn
    ensures InsertMember(p, uid) in Possible(s)
    ensures var i := s.db.invites[iid];
            Next(s, InsertMember(p, uid))
            == s.(drawn := s.drawn + {uid},
                  procs := if HasUser(s.db, i.company, i.email) then map[]
                           else map[p := Joining(s.now, iid, uid, User(i.company, i.email, name, i.role))])
  {
  }

  lemma CommitAcceptIs(s: State, p: nat, iid: nat, uid: nat, user: User)
    requires s.procs == map[p := Joining(s.now, iid, uid, user)] && iid in s.db.invites
    ensures CommitAccept(p) in Possible(s)
    ensures Next(s, CommitAccept(p)) == Accept(s, s.now, iid, uid, user).(procs := map[])
  {
  }

  lemma InsertCompanyIs(s: State, p: nat, req: Request, cid: nat)
    requires s.procs == map[p := Registering(req)] && cid !in s.drawn
    ensures InsertCompany(p, cid) in Possible(s)
    ensures Next(s, InsertCompany(p, cid))
         == s.(drawn := s.drawn + {cid},
               procs := if HasSlug(s.db, req.slug) then map[] else map[p := Founded(req, cid)])
  {
  }

  /** A company that is not committed yet has no users. */
  lemma NoMembersYet(acts: seq<Action>, p: nat)
    requires Legal(acts) && p in Exec(acts).procs && Exec(acts).procs[p].Founded?
    ensures Exec(acts).procs[p].cid !in Exec(acts).db.companies
    ensures forall email :: !HasUser(Exec(acts).db, Exec(acts).procs[p].cid, email)
  {
    Reachable(acts);
    Process(Exec(acts), p);
    UsersHaveCompanies(Exec(acts));
  }

  lemma InsertOwnerIs(s: State, p: nat, req: Request, cid: nat, uid: nat)
    requires s.procs == map[p := Founded(req, cid)] && uid !in s.drawn
    ensures InsertOwner(p, uid) in Possible(s)
    ensures Next(s, InsertOwner(p, uid)) == s.(drawn := s.drawn + {uid}, procs := map[p := Owned(req, cid, uid)])
  {
  }

  function FirstInvitation(now: int, cid: nat, req: Request, token: nat): Invitation {
    Invitation(cid, req.email, Owner, token, None, now + RegistrationTTL)
  }

  lemma FirstInviteIs(s: State, p: nat, req: Request, cid: nat, uid: nat, iid: nat, token: nat)
    requires s.procs == map[p := Owned(req, cid, uid)] && Undrawn(s, iid, token)
    ensures InsertFirstInvite(p, iid, token) in Possible(s)
    ensures Next(s, InsertFirstInvite(p, iid, token))
         == s.(drawn := s.drawn + {iid, token},
               procs := map[p := Invited(req, cid, uid, iid, FirstInvitation(s.now, cid, req, token))])
  {
  }

  lemma CommitRegistrationIs(s: State, p: nat, req: Request, cid: nat, uid: nat, iid: nat, invite: Invitation)
    requires s.procs == map[p := Invited(req, cid, uid, iid, invite)]
    ensures CommitRegistration(p) in Possible(s)
    ensures Next(s, CommitRegistration(p)) == Found(s, req, cid, uid, iid, invite).(procs := map[])
  {
  }

  lemma RegisterIs(s: State, p: nat, req: Request, existing: Option<nat>)
    requires s.procs == map[] && Finds(s.db, req.email, existing)
    ensures Register(p, req, existing) in Possible(s)
    ensures Next(s, Register(p, req, existing))
         == s.(procs := map[p := if existing.Some?
                                 then var u := s.db.users[existing.value]; Resending(u.company, u.email, u.role)
                                 else Registering(req)])
  {
  }

  /** The company of an existing user exists. */
  lemma ResendCompany(acts: seq<Action>, p: nat)
    requires Legal(acts) && p in Exec(acts).procs && Exec(acts).procs[p].Resending?
    ensures Exec(acts).procs[p].company in Exec(acts).db.companies
  {
    Reachable(acts);
    Process(Exec(acts), p);
    RoleOfUser(Exec(acts), Exec(acts).procs[p].company, Exec(acts).procs[p].email, Exec(acts).procs[p].role);
  }

  lemma ResendIs(s: State, p: nat, u: User, iid: nat, token: nat)
    requires s.procs == map[p := Resending(u.company, u.email, u.role)] && Undrawn(s, iid, token)
    requires u.company in s.db.companies
    ensures Resend(p, iid, token) in Possible(s)
    ensures Next(s, Resend(p, iid, token))
         == s.(drawn := s.drawn + {iid, token}, procs := map[],
               db := AddInvite(s.db, iid, Invitation(u.company, u.email, u.role, token, None, s.now + RegistrationTTL)))
  {
  }

  lemma CheckPendingIs(s: State, p: nat, company: nat, email: string)
    requires s.procs == map[]
    ensures CheckPending(p, company, email) in Possible(s)
    ensures Next(s, CheckPending(p, company, email))
         == if HasPending(s.db, company, email, s.now) then s else s.(procs := map[p := Checked(company, email)])
  {
  }

  lemma InsertInviteIs(s: State, p: nat, company: nat, email: string, iid: nat, token: nat)
    requires s.procs == map[p := Checked(company, email)] && Undrawn(s, iid, token)
    ensures InsertInvite(p, iid, token) in Possible(s)
    ensures Next(s, InsertInvite(p, iid, token))
         == s.(drawn := s.drawn + {iid, token}, procs := map[],
               db := if company in s.db.companies
                     then AddInvite(s.db, iid, Invitation(company, email, Technician, token, None, s.now + InviteTTL))
                     else s.db)
  {
  }

  lemma LookUpIs(s: State, p: nat, email: string, existing: Option<nat>)
    requires s.procs == map[] && Finds(s.db, email, existing)
    ensures LookUp(p, email, existing) in Possible(s)
    ensures Next(s, LookUp(p, email, existing))
         == if existing.Some? then s.(procs := map[p := Minting(existing.value)]) else s
  {
  }

  lemma InsertTokenIs(s: State, p: nat, u: nat, tid: nat, raw: nat)
    requires s.procs == map[p := Minting(u)] && Undrawn(s, tid, raw) && u in s.db.users
    ensures InsertToken(p, tid, raw) in Possible(s)
    ensures Next(s, InsertToken(p, tid, raw))
         == s.(drawn := s.drawn + {tid, raw}, procs := map[],
               db := AddToken(s.db, tid, AuthToken(u, Sha256(raw), s.now + MagicLinkTTL, None)))
  {
  }

  lemma BeginVerifyIs(s: State, p: nat, raw: nat)
    requires s.procs == map[]
    ensures BeginVerify(p, raw) in Possible(s)
    ensures Next(s, BeginVerify(p, raw)) == s.(procs := map[p := Verifying(s.now, raw)])
  {
  }

  lemma UseTokenIs(s: State, p: nat, raw: nat, found: Option<nat>)
    requires s.procs == map[p := Verifying(s.now, raw)]
    requires if found.Some? then OpenToken(s.db, found.value, raw, s.now) else NoneUsable(s.db, raw, s.now)
    ensures UseToken(p, found) in Possible(s)
    ensures Next(s, UseToken(p, found))
              == s.(procs := if found.Some? then map[p := Spending(s.now, raw, found.value)] else map[])
  {
  }

  /** A token that is being verified has its user. */
  lemma UserOfToken(acts: seq<Action>, p: nat)
    requires Legal(acts) && p in Exec(acts).procs && Exec(acts).procs[p].Spending?
    ensures var s := Exec(acts); s.procs[p].tid in s.db.tokens && s.db.tokens[s.procs[p].tid].user in s.db.users
  {
    Reachable(acts);
    Process(Exec(acts), p);
    assert TokenOk(Exec(acts).db, Exec(acts).hist, Exec(acts).procs[p].tid);
  }

  lemma FetchUserIs(s: State, p: nat, raw: nat, tid: nat)
    requires s.procs == map[p := Spending(s.now, raw, tid)] && tid in s.db.tokens && s.db.tokens[tid].user in s.db.users
    ensures FetchUser(p) in Possible(s)
    ensures Next(s, FetchUser(p)) == s.(procs := map[p := Fetched(s.now, raw, tid, s.db.tokens[tid].user)])
  {
  }

  lemma CommitVerifyIs(s: State, p: nat, raw: nat, tid: nat, user: nat)
    requires s.procs == map[p := Fetched(s.now, raw, tid, user)] && tid in s.db.tokens
    ensures CommitVerify(p) in Possible(s)
    ensures Next(s, CommitVerify(p)) == Spend(s, s.now, tid, user).(procs := map[])
  {
  }
}
