/** What holds of every run of the account handlers, whatever fails and however their statements interleave. */
module AccountTheorems {
  import opened Wrappers
  import opened Accounts
  import opened AccountInv

  // ---------------------------------------------------------------------------------------
  // Owners and members
  // ---------------------------------------------------------------------------------------

  ghost predicate Owns(db: Db, u: nat, c: nat) {
    u in db.users && db.users[u].company == c && db.users[u].role == Owner
  }

  /** In every reachable state each company has exactly one owner. */
  lemma ExactlyOneOwner(acts: seq<Action>, c: nat)
    requires Legal(acts) && c in Exec(acts).db.companies
    ensures exists u :: Owns(Exec(acts).db, u, c) && forall v :: Owns(Exec(acts).db, v, c) ==> v == u
  {
    Reachable(acts);
    var db, hist := Exec(acts).db, Exec(acts).hist;
    assert CompanyOk(db, hist, c);
    assert UserOk(db, hist, hist.owner[c]) && Owns(db, hist.owner[c], c);
    forall v | Owns(db, v, c)
      ensures v == hist.owner[c]
    {
      assert UserOk(db, hist, v);
    }
  }

  /** An invitation with the role owner always has a user of its company and email already, and is never
      accepted. */
  lemma OwnerInvitesConflict(acts: seq<Action>, i: nat)
    requires Legal(acts) && i in Exec(acts).db.invites && Exec(acts).db.invites[i].role == Owner
    ensures exists u :: IsMember(Exec(acts).db, u, Exec(acts).db.invites[i].company, Exec(acts).db.invites[i].email)
    ensures Exec(acts).db.invites[i].accepted.None?
  {
    Reachable(acts);
    assert InviteOk(Exec(acts).db, Exec(acts).hist, i);
    HasUserIff(Exec(acts).db, Exec(acts).db.invites[i].company, Exec(acts).db.invites[i].email);
  }

  /** A registration is all or nothing in every state: no company without its owner and the invitation that
      the registration inserted with them. */
  lemma CompaniesAreWhole(acts: seq<Action>, c: nat)
    requires Legal(acts) && c in Exec(acts).db.companies
    ensures var db := Exec(acts).db;
            exists u, i :: Owns(db, u, c) && i in db.invites && db.invites[i].company == c
                           && db.invites[i].email == db.users[u].email && db.invites[i].role == Owner
  {
    Reachable(acts);
    var db, hist := Exec(acts).db, Exec(acts).hist;
    assert CompanyOk(db, hist, c);
    var u := hist.owner[c];
    assert UserOk(db, hist, u) && Owns(db, u, c);
    assert hist.origin[u].first in db.invites;
  }

  function MembersOf(db: Db, c: nat): set<nat> {
    set u | u in db.users && db.users[u].company == c
  }

  function AcceptedOf(db: Db, c: nat): set<nat> {
    set i | i in db.invites && db.invites[i].company == c && db.invites[i].accepted.Some?
  }

  /** `joined` pairs the accepted invitations with the users who did not register, one to one, and keeps
      company, email and role. */
  ghost predicate Pairs(db: Db, joined: map<nat, nat>) {
    && (forall i :: i in joined <==> i in db.invites && db.invites[i].accepted.Some?)
    && (forall i | i in joined ::
          && IsUser(db, joined[i], db.invites[i].company, db.invites[i].email, db.invites[i].role)
          && db.invites[i].role == Technician)
    && (forall i, j | i in joined && j in joined && i != j :: joined[i] != joined[j])
    && (forall u | u in db.users && db.users[u].role != Owner :: exists i :: i in joined && joined[i] == u)
  }

  lemma JoinedPairs(s: State)
    requires Inv(s)
    ensures Pairs(s.db, s.hist.joined)
  {
    forall i | i in s.hist.joined
      ensures IsUser(s.db, s.hist.joined[i], s.db.invites[i].company, s.db.invites[i].email, s.db.invites[i].role)
      ensures s.db.invites[i].role == Technician && s.hist.origin[s.hist.joined[i]] == Joined(i)
    {
      assert InviteOk(s.db, s.hist, i) && UserOk(s.db, s.hist, s.hist.joined[i]);
    }
    forall i | i in s.db.invites && s.db.invites[i].accepted.Some?
      ensures i in s.hist.joined
    {
      assert InviteOk(s.db, s.hist, i);
    }
    forall i | i in s.hist.joined
      ensures s.db.invites[i].accepted.Some?
    {
      assert InviteOk(s.db, s.hist, i);
    }
    forall u | u in s.db.users && s.db.users[u].role != Owner
      ensures exists i :: i in s.hist.joined && s.hist.joined[i] == u
    {
      assert UserOk(s.db, s.hist, u);
      assert s.hist.joined[s.hist.origin[u].iid] == u;
    }
  }

  /** A one-to-one map keeps the size of a set. */
  lemma {:induction false} ImageSize(f: map<nat, nat>, a: set<nat>, b: set<nat>)
    requires a <= f.Keys && (forall i, j | i in a && j in a && i != j :: f[i] != f[j])
    requires b == set i | i in a :: f[i]
    ensures |b| == |a|
    decreases a
  {
    if a != {} {
      var x :| x in a;
      var a' := a - {x};
      var b' := set i | i in a' :: f[i];
      ImageSize(f, a', b');
      assert b == b' + {f[x]};
    }
  }

  lemma OthersJoined(db: Db, joined: map<nat, nat>, owner: nat, c: nat)
    requires Pairs(db, joined) && Owns(db, owner, c) && forall v :: Owns(db, v, c) ==> v == owner
    ensures AcceptedOf(db, c) <= joined.Keys
    ensures MembersOf(db, c) - {owner} == set i | i in AcceptedOf(db, c) :: joined[i]
  {
    var a, rest := AcceptedOf(db, c), MembersOf(db, c) - {owner};
    var b := set i | i in a :: joined[i];
    forall u | u in rest
      ensures u in b
    {
      assert !Owns(db, u, c);
      var i :| i in joined && joined[i] == u;
      assert i in a;
    }
    forall u | u in b
      ensures u in rest
    {
      var i :| i in a && joined[i] == u;
      assert IsUser(db, u, db.invites[i].company, db.invites[i].email, db.invites[i].role);
    }
  }

  lemma CountMembers(db: Db, joined: map<nat, nat>, owner: nat, c: nat)
    requires Pairs(db, joined) && Owns(db, owner, c) && forall v :: Owns(db, v, c) ==> v == owner
    ensures |MembersOf(db, c)| == 1 + |AcceptedOf(db, c)|
  {
    var rest := MembersOf(db, c) - {owner};
    OthersJoined(db, joined, owner, c);
    ImageSize(joined, AcceptedOf(db, c), rest);
    assert MembersOf(db, c) == rest + {owner};
  }

  /** In every committed state a company has one user more than accepted invitations, and the accepted
      invitations pair off with the users who did not register. */
  lemma MembershipConserved(acts: seq<Action>, c: nat)
    requires Legal(acts) && c in Exec(acts).db.companies
    ensures |MembersOf(Exec(acts).db, c)| == 1 + |AcceptedOf(Exec(acts).db, c)|
    ensures Pairs(Exec(acts).db, Exec(acts).hist.joined)
  {
    Reachable(acts);
    ExactlyOneOwner(acts, c);
    var db := Exec(acts).db;
    JoinedPairs(Exec(acts));
    var u :| Owns(db, u, c) && forall v :: Owns(db, v, c) ==> v == u;
    CountMembers(db, Exec(acts).hist.joined, u, c);
  }

  // ---------------------------------------------------------------------------------------
  // Rows over time
  // ---------------------------------------------------------------------------------------

  predicate SetOnce(before: Option<int>, after: Option<int>) {
    before.Some? ==> after == before
  }

  /** Rows stay; only `accepted_at` and `used_at` may still be set, once. */
  ghost predicate Later(db: Db, db': Db) {
    && UsersGrow(db, db')
    && (forall i | i in db.invites ::
          && i in db'.invites && db'.invites[i] == db.invites[i].(accepted := db'.invites[i].accepted)
          && SetOnce(db.invites[i].accepted, db'.invites[i].accepted))
    && (forall t | t in db.tokens ::
          && t in db'.tokens && db'.tokens[t] == db.tokens[t].(used := db'.tokens[t].used)
          && SetOnce(db.tokens[t].used, db'.tokens[t].used))
  }

  predicate Writes(act: Action) {
    act.Resend? || act.InsertInvite? || act.InsertToken? || act.CommitRegistration? || act.CommitAccept?
        || act.CommitVerify?
  }

  /** No step but a commit or a single INSERT changes the tables. */
  lemma QuietStep(s: State, act: Action)
    requires act in Possible(s) && !Writes(act)
    ensures Next(s, act).db == s.db && Next(s, act).hist == s.hist && Later(s.db, Next(s, act).db)
  {
  }

  lemma InsertLater(s: State, act: Action)
    requires act in Possible(s) && Drawn(s.db, s.drawn) && (act.Resend? || act.InsertInvite? || act.InsertToken?)
    ensures Later(s.db, Next(s, act).db)
  {
  }

  lemma RegistrationLater(s: State, act: Action)
    requires act in Possible(s) && act.CommitRegistration? && ProcOk(s.db, s.drawn, s.procs[act.p])
    ensures Later(s.db, Next(s, act).db)
  {
  }

  lemma AcceptLater(s: State, act: Action)
    requires act in Possible(s) && act.CommitAccept? && ProcOk(s.db, s.drawn, s.procs[act.p])
    ensures Later(s.db, Next(s, act).db)
  {
  }

  lemma VerifyLater(s: State, act: Action)
    requires act in Possible(s) && act.CommitVerify? && ProcOk(s.db, s.drawn, s.procs[act.p])
    ensures Later(s.db, Next(s, act).db)
  {
  }

  lemma CommitLater(s: State, act: Action)
    requires act in Possible(s) && (act.CommitRegistration? || act.CommitAccept? || act.CommitVerify?)
    requires ProcOk(s.db, s.drawn, s.procs[act.p])
    ensures Later(s.db, Next(s, act).db)
  {
    hide Next, Possible, ProcOk, Later;
    if act.CommitRegistration? {
      RegistrationLater(s, act);
    } else if act.CommitAccept? {
      AcceptLater(s, act);
    } else {
      VerifyLater(s, act);
    }
  }

  lemma StepLater(s: Sound, act: Action)
    requires act in Possible(s)
    ensures Later(s.db, Next(s, act).db)
  {
    hide Next, ProcOk, Drawn, Later, Possible;
    if !Writes(act) {
      QuietStep(s, act);
    } else if act.Resend? || act.InsertInvite? || act.InsertToken? {
      InsertLater(s, act);
    } else {
      CommitProcess(s, act);
      CommitLater(s, act);
    }
  }

  lemma CommitProcess(s: Sound, act: Action)
    requires act in Possible(s) && (act.CommitRegistration? || act.CommitAccept? || act.CommitVerify?)
    ensures act.p in s.procs && ProcOk(s.db, s.drawn, s.procs[act.p])
  {
  }

  lemma LaterTransitive(a: Db, b: Db, c: Db)
    requires Later(a, b) && Later(b, c)
    ensures Later(a, c)
  {
  }

  lemma {:induction false} LegalPrefix(acts: seq<Action>, k: nat)
    requires Legal(acts) && k <= |acts|
    ensures Legal(acts[..k])
    decreases |acts|
  {
    if k < |acts| {
      LegalPrefix(acts[..|acts| - 1], k);
      assert acts[..|acts| - 1][..k] == acts[..k];
    } else {
      assert acts[..k] == acts;
    }
  }

  /** From any moment of a run to its end, rows stay and times are set at most once. */
  lemma {:induction false} RowsStay(acts: seq<Action>, k: nat)
    requires Legal(acts) && k <= |acts|
    ensures Legal(acts[..k]) && Later(Exec(acts[..k]).db, Exec(acts).db)
    decreases |acts|
  {
    LegalPrefix(acts, k);
    if k < |acts| {
      var init := acts[..|acts| - 1];
      RowsStay(init, k);
      assert init[..k] == acts[..k];
      Reachable(init);
      StepLater(Exec(init), acts[|acts| - 1]);
      LaterTransitive(Exec(acts[..k]).db, Exec(init).db, Exec(acts).db);
    } else {
      assert acts[..k] == acts;
    }
  }

  // ---------------------------------------------------------------------------------------
  // Invitations that can never be accepted
  // ---------------------------------------------------------------------------------------

  /** The invitation is not accepted, and its company already has a user of its email. */
  ghost predicate Futile(db: Db, i: nat) {
    && i in db.invites && db.invites[i].accepted.None?
    && HasUser(db, db.invites[i].company, db.invites[i].email)
  }

  lemma FutileAccept(s: State, act: Action, i: nat)
    requires act in Possible(s) && act.CommitAccept? && ProcOk(s.db, s.drawn, s.procs[act.p]) && Futile(s.db, i)
    ensures s.procs[act.p].iid != i && Next(s, act).db.invites[i] == s.db.invites[i]
  {
  }

  lemma InvitesKept(s: State, act: Action, i: nat)
    requires act in Possible(s) && !act.CommitAccept? && i in s.db.invites && i in s.drawn
    requires act.CommitRegistration? ==> s.procs[act.p].iid !in s.db.invites
    ensures i in Next(s, act).db.invites && Next(s, act).db.invites[i] == s.db.invites[i]
  {
  }

  lemma FutileStep(s: Sound, act: Action, i: nat)
    requires act in Possible(s) && Futile(s.db, i)
    ensures Futile(Next(s, act).db, i)
  {
    hide Next, Possible, ProcOk;
    StepLater(s, act);
    if act.CommitAccept? {
      CommitProcess(s, act);
      FutileAccept(s, act, i);
    } else {
      InviteDrawn(s, act, i);
      InvitesKept(s, act, i);
    }
    HasUserGrows(s.db, Next(s, act).db, s.db.invites[i].company, s.db.invites[i].email);
  }

  lemma InviteDrawn(s: Sound, act: Action, i: nat)
    requires act in Possible(s) && i in s.db.invites
    ensures i in s.drawn && (act.CommitRegistration? ==> s.procs[act.p].iid !in s.db.invites)
  {
    if act.CommitRegistration? {
      Process(s, act.p);
    }
  }

  /** Once the company of an open invitation has a user of its email, whatever its role, it is never accepted. */
  lemma {:induction false} FutileForever(acts: seq<Action>, k: nat, i: nat)
    requires Legal(acts) && k <= |acts|
    ensures Legal(acts[..k])
    ensures Futile(Exec(acts[..k]).db, i) ==> Futile(Exec(acts).db, i)
    decreases |acts|
  {
    LegalPrefix(acts, k);
    if k < |acts| {
      var init := acts[..|acts| - 1];
      assert init[..k] == acts[..k];
      FutileForever(init, k, i);
      Reachable(init);
      if Futile(Exec(init).db, i) {
        FutileStep(Exec(init), acts[|acts| - 1], i);
      }
    } else {
      assert acts[..k] == acts;
    }
  }

  lemma ResendLocal(s: State, act: Action)
    requires act in Possible(s) && act.Resend? && s.procs[act.p].company in s.db.companies
    requires HasUser(s.db, s.procs[act.p].company, s.procs[act.p].email)
    ensures Futile(Next(s, act).db, act.iid)
  {
    var r := s.procs[act.p];
    HasUserGrows(s.db, Next(s, act).db, r.company, r.email);
  }

  lemma ResendStep(s: Sound, act: Action)
    requires act in Possible(s) && act.Resend?
    ensures Futile(Next(s, act).db, act.iid)
  {
    var r := s.procs[act.p];
    Process(s, act.p);
    RoleOfUser(s, r.company, r.email, r.role);
    ResendLocal(s, act);
  }

  /** The invitation that a registration under a known email sends, to an owner or a technician, is stored, and is
      never accepted in any run. */
  lemma ResentNeverAccepted(acts: seq<Action>, k: nat, p: nat, iid: nat, token: nat)
    requires Legal(acts) && k < |acts| && acts[k] == Resend(p, iid, token)
    ensures iid in Exec(acts).db.invites && Exec(acts).db.invites[iid].accepted.None?
    ensures exists u ::
              IsMember(Exec(acts).db, u, Exec(acts).db.invites[iid].company, Exec(acts).db.invites[iid].email)
  {
    LegalPrefix(acts, k + 1);
    assert acts[..k + 1][..k] == acts[..k];
    Reachable(acts[..k]);
    ResendStep(Exec(acts[..k]), acts[k]);
    FutileForever(acts, k + 1, iid);
    HasUserIff(Exec(acts).db, Exec(acts).db.invites[iid].company, Exec(acts).db.invites[iid].email);
  }

  // ---------------------------------------------------------------------------------------
  // Logins
  // ---------------------------------------------------------------------------------------

  /** Over every interleaving a token is exchanged at most once, for its own user, at a time before it expires,
      which is the `used_at` of its row; and a token that was not exchanged is still unused. */
  lemma SingleUse(acts: seq<Action>, tid: nat)
    requires Legal(acts) && tid in Exec(acts).db.tokens
    ensures var token, exchanges := Exec(acts).db.tokens[tid], Exec(acts).hist.exchanges;
            && (forall k | 0 <= k < |exchanges| && exchanges[k].tid == tid ::
                  && token.used == Some(exchanges[k].at) && exchanges[k].at < token.expires
                  && exchanges[k].user == token.user)
            && (forall k, l | 0 <= k < l < |exchanges| :: !(exchanges[k].tid == tid && exchanges[l].tid == tid))
            && (token.used.None? <==> forall k | 0 <= k < |exchanges| :: exchanges[k].tid != tid)
  {
    Reachable(acts);
    var s := Exec(acts);
    assert TokenOk(s.db, s.hist, tid);
    forall k | 0 <= k < |s.hist.exchanges| && s.hist.exchanges[k].tid == tid
      ensures ExchangeOk(s.db, s.hist.exchanges[k])
    {
    }
  }

  /** The statement that consumes a token cannot miss one that is unused and was unexpired when its
      transaction began; it finds the token that was stored for the raw value, and no other. */
  lemma UsableTokenFound(acts: seq<Action>, p: nat, tid: nat, found: Option<nat>)
    requires Legal(acts) && UseToken(p, found) in Possible(Exec(acts))
    requires var s := Exec(acts); tid in s.db.tokens && s.db.tokens[tid].digest == Sha256(s.procs[p].raw)
    ensures var s := Exec(acts);
            found == if s.db.tokens[tid].used.None? && s.procs[p].start < s.db.tokens[tid].expires then Some(tid)
                     else None
  {
    Reachable(acts);
    UniqueToken(Exec(acts), p, tid, found);
  }

  lemma UniqueToken(s: State, p: nat, tid: nat, found: Option<nat>)
    requires Unique(s.db) && UseToken(p, found) in Possible(s)
    requires tid in s.db.tokens && s.db.tokens[tid].digest == Sha256(s.procs[p].raw)
    ensures found == if s.db.tokens[tid].used.None? && s.procs[p].start < s.db.tokens[tid].expires then Some(tid)
                     else None
  {
    assert found.Some? ==> s.db.tokens[found.value].digest == Sha256(s.procs[p].raw);
  }

  /** A transaction that holds a token can always go on to its commit, whatever other processes did meanwhile,
      and then logs in the token's user. */
  lemma HeldTokenCommits(acts: seq<Action>, p: nat)
    requires Legal(acts) && p in Exec(acts).procs && (Exec(acts).procs[p].Spending? || Exec(acts).procs[p].Fetched?)
    ensures var s, r := Exec(acts), Exec(acts).procs[p];
            && r.tid in s.db.tokens && s.db.tokens[r.tid].digest == Sha256(r.raw) && s.db.tokens[r.tid].used.None?
            && (r.Spending? ==> FetchUser(p) in Possible(s)
                                && Next(s, FetchUser(p)).procs
                                     == s.procs[p := Fetched(r.start, r.raw, r.tid, s.db.tokens[r.tid].user)])
            && (r.Fetched? ==> CommitVerify(p) in Possible(s)
                               && Next(s, CommitVerify(p)).hist.exchanges
                                  == s.hist.exchanges + [Exchange(r.tid, s.db.tokens[r.tid].user, r.start)])
  {
    Reachable(acts);
    Process(Exec(acts), p);
    TokenUser(Exec(acts), Exec(acts).procs[p].tid);
    HeldLocal(Exec(acts), p);
  }

  lemma TokenUser(s: Sound, tid: nat)
    requires tid in s.db.tokens
    ensures s.db.tokens[tid].user in s.db.users
  {
    assert TokenOk(s.db, s.hist, tid);
  }

  lemma HeldLocal(s: State, p: nat)
    requires p in s.procs && (s.procs[p].Spending? || s.procs[p].Fetched?) && ProcOk(s.db, s.drawn, s.procs[p])
    requires s.db.tokens[s.procs[p].tid].user in s.db.users
    ensures var r := s.procs[p];
            && (r.Spending? ==> FetchUser(p) in Possible(s)
                                && Next(s, FetchUser(p)).procs
                                     == s.procs[p := Fetched(r.start, r.raw, r.tid, s.db.tokens[r.tid].user)])
            && (r.Fetched? ==> CommitVerify(p) in Possible(s)
                               && Next(s, CommitVerify(p)).hist.exchanges
                                  == s.hist.exchanges + [Exchange(r.tid, s.db.tokens[r.tid].user, r.start)])
  {
  }

  /** A token stored for a user by the magic-link handler still is that user's, under that raw value, after any
      other steps; and every exchange of it ever made is that user's login. */
  lemma MintedForUser(acts: seq<Action>, k: nat, m: nat, tid: nat, raw: nat)
    requires Legal(acts) && k < |acts| && acts[k] == InsertToken(m, tid, raw)
    ensures Legal(acts[..k]) && m in Exec(acts[..k]).procs && Exec(acts[..k]).procs[m].Minting?
    ensures var s, user := Exec(acts), Exec(acts[..k]).procs[m].uid;
            && tid in s.db.tokens && s.db.tokens[tid].user == user && s.db.tokens[tid].digest == Sha256(raw)
            && s.db.tokens[tid].expires == Exec(acts[..k]).now + 15 * 60
            && (forall l | 0 <= l < |s.hist.exchanges| && s.hist.exchanges[l].tid == tid ::
                  s.hist.exchanges[l].user == user)
  {
    hide Next, ProcOk, Later, Unique, Drawn;
    LegalPrefix(acts, k + 1);
    assert acts[..k + 1][..k] == acts[..k];
    Reachable(acts[..k]);
    MintingUser(Exec(acts[..k]), acts[k]);
    InsertTokenLocal(Exec(acts[..k]), acts[k]);
    RowsStay(acts, k + 1);
    TokenLater(Exec(acts[..k + 1]).db, Exec(acts).db, tid);
    SingleUse(acts, tid);
  }

  lemma MintingUser(s: Sound, act: Action)
    requires act in Possible(s) && act.InsertToken?
    ensures act.p in s.procs && s.procs[act.p].Minting? && s.procs[act.p].uid in s.db.users
  {
    Process(s, act.p);
  }

  lemma TokenLater(db: Db, db': Db, tid: nat)
    requires Later(db, db') && tid in db.tokens
    ensures tid in db'.tokens && db'.tokens[tid] == db.tokens[tid].(used := db'.tokens[tid].used)
  {
  }

  /** The whole exchange of a usable token that no one else holds, step by step. */
  function VerifyRun(p: nat, tid: nat, raw: nat): seq<Action> {
    [BeginVerify(p, raw), UseToken(p, Some(tid)), FetchUser(p), CommitVerify(p)]
  }

  lemma BeginStep(s: State, p: nat, raw: nat)
    requires p !in s.procs
    ensures BeginVerify(p, raw) in Possible(s)
    ensures Next(s, BeginVerify(p, raw)) == s.(procs := s.procs[p := Verifying(s.now, raw)])
  {
  }

  lemma UseStep(s: State, p: nat, tid: nat, raw: nat)
    requires Unique(s.db) && OpenToken(s.db, tid, raw, s.now) && TokenUnlocked(s, p, tid)
    requires p in s.procs && s.procs[p] == Verifying(s.now, raw)
    ensures UseToken(p, Some(tid)) in Possible(s)
    ensures Next(s, UseToken(p, Some(tid))) == s.(procs := s.procs[p := Spending(s.now, raw, tid)])
  {
    forall t | t in s.db.tokens && s.db.tokens[t].digest == Sha256(raw)
      ensures TokenUnlocked(s, p, t)
    {
      assert t == tid;
    }
  }

  lemma FetchStep(s: State, p: nat, tid: nat, raw: nat)
    requires tid in s.db.tokens && s.db.tokens[tid].user in s.db.users
    requires p in s.procs && s.procs[p] == Spending(s.now, raw, tid)
    ensures FetchUser(p) in Possible(s)
    ensures Next(s, FetchUser(p)) == s.(procs := s.procs[p := Fetched(s.now, raw, tid, s.db.tokens[tid].user)])
  {
  }

  lemma CommitStep(s: State, p: nat, tid: nat, raw: nat, user: nat)
    requires tid in s.db.tokens && p in s.procs && s.procs[p] == Fetched(s.now, raw, tid, user)
    ensures CommitVerify(p) in Possible(s)
    ensures Next(s, CommitVerify(p)).hist.exchanges == s.hist.exchanges + [Exchange(tid, user, s.now)]
  {
  }

  lemma Appended<T>(xs: seq<T>, a: T, b: T, c: T, d: T)
    ensures xs + [a, b, c, d] == xs + [a] + [b] + [c] + [d]
  {
  }

  lemma TakesToken(acts: seq<Action>, p: nat, tid: nat, raw: nat)
    requires Legal(acts) && p !in Exec(acts).procs && TokenUnlocked(Exec(acts), p, tid)
    requires OpenToken(Exec(acts).db, tid, raw, Exec(acts).now)
    ensures var acts2 := acts + [BeginVerify(p, raw)] + [UseToken(p, Some(tid))];
            && Legal(acts2) && Exec(acts2).db == Exec(acts).db && Exec(acts2).hist == Exec(acts).hist
            && Exec(acts2).now == Exec(acts).now
            && p in Exec(acts2).procs && Exec(acts2).procs[p] == Spending(Exec(acts).now, raw, tid)
  {
    hide Next, Possible, Exec, Legal, Inv;
    Reachable(acts);
    TakeSteps(Exec(acts), p, tid, raw);
    Extends(acts, BeginVerify(p, raw));
    Extends(acts + [BeginVerify(p, raw)], UseToken(p, Some(tid)));
  }

  lemma TakeSteps(s: Sound, p: nat, tid: nat, raw: nat)
    requires p !in s.procs && TokenUnlocked(s, p, tid) && OpenToken(s.db, tid, raw, s.now)
    ensures BeginVerify(p, raw) in Possible(s) && UseToken(p, Some(tid)) in Possible(Next(s, BeginVerify(p, raw)))
    ensures var s2 := Next(Next(s, BeginVerify(p, raw)), UseToken(p, Some(tid)));
            && s2.db == s.db && s2.hist == s.hist && s2.now == s.now
            && p in s2.procs && s2.procs[p] == Spending(s.now, raw, tid)
  {
    hide Next, Possible, OpenToken;
    BeginStep(s, p, raw);
    UseStep(Next(s, BeginVerify(p, raw)), p, tid, raw);
  }

  lemma SpendsToken(acts: seq<Action>, p: nat, tid: nat, raw: nat)
    requires Legal(acts) && p in Exec(acts).procs && Exec(acts).procs[p] == Spending(Exec(acts).now, raw, tid)
    requires tid in Exec(acts).db.tokens && Exec(acts).db.tokens[tid].user in Exec(acts).db.users
    ensures var s, acts2 := Exec(acts), acts + [FetchUser(p)] + [CommitVerify(p)];
            && Legal(acts2)
            && Exec(acts2).hist.exchanges == s.hist.exchanges + [Exchange(tid, s.db.tokens[tid].user, s.now)]
  {
    hide Next, Possible, Exec, Legal;
    FetchStep(Exec(acts), p, tid, raw);
    Extends(acts, FetchUser(p));
    CommitStep(Exec(acts + [FetchUser(p)]), p, tid, raw, Exec(acts).db.tokens[tid].user);
    Extends(acts + [FetchUser(p)], CommitVerify(p));
  }

  /** A token that is unused, unexpired and held by no one can be exchanged, for its own user. */
  lemma UsableTokenVerifies(acts: seq<Action>, p: nat, tid: nat, raw: nat)
    requires Legal(acts) && p !in Exec(acts).procs && TokenUnlocked(Exec(acts), p, tid)
    requires OpenToken(Exec(acts).db, tid, raw, Exec(acts).now)
    ensures Legal(acts + VerifyRun(p, tid, raw))
    ensures var s := Exec(acts);
            Exec(acts + VerifyRun(p, tid, raw)).hist.exchanges
            == s.hist.exchanges + [Exchange(tid, s.db.tokens[tid].user, s.now)]
  {
    hide Next, Possible, Exec, Legal;
    var taken := acts + [BeginVerify(p, raw)] + [UseToken(p, Some(tid))];
    TakesToken(acts, p, tid, raw);
    Reachable(acts);
    TokenUser(Exec(acts), tid);
    SpendsToken(taken, p, tid, raw);
    Appended(acts, BeginVerify(p, raw), UseToken(p, Some(tid)), FetchUser(p), CommitVerify(p));
  }

  /** Mint and verify: a token stored for a user, after any other steps, verifies to exactly that user if it is
      unused, less than 15 minutes old and not being verified; and whoever commits a verification of that raw value,
      at any time and among any others, logs in that user. */
  lemma MintVerifyRoundTrip(acts: seq<Action>, k: nat, m: nat, tid: nat, raw: nat, p: nat)
    requires Legal(acts) && k < |acts| && acts[k] == InsertToken(m, tid, raw)
    ensures Legal(acts[..k]) && m in Exec(acts[..k]).procs && Exec(acts[..k]).procs[m].Minting?
    ensures tid in Exec(acts).db.tokens
    ensures var s, user := Exec(acts), Exec(acts[..k]).procs[m].uid;
            && p !in s.procs && TokenUnlocked(s, p, tid)
            && s.db.tokens[tid].used.None? && s.now < Exec(acts[..k]).now + 15 * 60 ==>
              && Legal(acts + VerifyRun(p, tid, raw))
              && Exec(acts + VerifyRun(p, tid, raw)).hist.exchanges == s.hist.exchanges + [Exchange(tid, user, s.now)]
    ensures var s, user := Exec(acts), Exec(acts[..k]).procs[m].uid;
            forall q | q in s.procs && s.procs[q].Fetched? && s.procs[q].raw == raw ::
              s.procs[q].tid == tid && s.procs[q].uid == user
  {
    hide Next, Possible, Exec, Legal;
    MintedForUser(acts, k, m, tid, raw);
    var s := Exec(acts);
    Reachable(acts);
    if && p !in s.procs && TokenUnlocked(s, p, tid)
       && s.db.tokens[tid].used.None? && s.now < Exec(acts[..k]).now + 15 * 60 {
      UsableTokenVerifies(acts, p, tid, raw);
    }
    forall q | q in s.procs && s.procs[q].Fetched? && s.procs[q].raw == raw
      ensures s.procs[q].tid == tid && s.procs[q].uid == s.db.tokens[tid].user
    {
      SameToken(s, q, tid);
    }
  }

  /** One raw value names one token. */
  lemma SameToken(s: Sound, q: nat, tid: nat)
    requires q in s.procs && s.procs[q].Fetched? && tid in s.db.tokens
    requires s.db.tokens[tid].digest == Sha256(s.procs[q].raw)
    ensures s.procs[q].tid == tid && s.procs[q].uid == s.db.tokens[tid].user
  {
    Process(s, q);
  }

  // ---------------------------------------------------------------------------------------
  // Accepting an invitation
  // ---------------------------------------------------------------------------------------

  /** The whole acceptance of invitation `iid`, step by step. */
  function AcceptRun(p: nat, token: nat, name: string, iid: nat, uid: nat): seq<Action> {
    [BeginAccept(p, token, name), MarkAccepted(p, Some(iid)), InsertMember(p, uid), CommitAccept(p)]
  }

  /** Nothing stands in the way of accepting `iid`: it is open, its company has no user of its email, and no other
      transaction holds the row or is inserting such a user. */
  ghost predicate Acceptance(s: State, p: nat, iid: nat) {
    && p !in s.procs && Open(s.db, iid, s.now) && Unlocked(s, p, iid)
    && (forall u :: !IsMember(s.db, u, s.db.invites[iid].company, s.db.invites[iid].email))
    && UserFree(s, p, s.db.invites[iid].company, s.db.invites[iid].email)
  }

  lemma MarkStep(s: State, p: nat, name: string, iid: nat)
    requires Unique(s.db) && Open(s.db, iid, s.now) && Unlocked(s, p, iid)
    requires p in s.procs && s.procs[p] == Accepting(s.now, s.db.invites[iid].token, name)
    ensures MarkAccepted(p, Some(iid)) in Possible(s)
    ensures Next(s, MarkAccepted(p, Some(iid))) == s.(procs := s.procs[p := Marked(s.now, name, iid)])
  {
    forall i | i in s.db.invites && s.db.invites[i].token == s.db.invites[iid].token
      ensures Unlocked(s, p, i)
    {
      assert i == iid;
    }
  }

  lemma MemberStep(s: State, p: nat, name: string, iid: nat, uid: nat)
    requires iid in s.db.invites && !HasUser(s.db, s.db.invites[iid].company, s.db.invites[iid].email)
    requires UserFree(s, p, s.db.invites[iid].company, s.db.invites[iid].email) && uid !in s.drawn
    requires p in s.procs && s.procs[p] == Marked(s.now, name, iid)
    ensures InsertMember(p, uid) in Possible(s)
    ensures var i := s.db.invites[iid];
            Next(s, InsertMember(p, uid))
            == s.(drawn := s.drawn + {uid},
                  procs := s.procs[p := Joining(s.now, iid, uid, User(i.company, i.email, name, i.role))])
  {
  }

  lemma JoinStep(s: State, p: nat, iid: nat, uid: nat, member: User)
    requires iid in s.db.invites && p in s.procs && s.procs[p] == Joining(s.now, iid, uid, member)
    ensures CommitAccept(p) in Possible(s)
    ensures Next(s, CommitAccept(p)).db == Accept(s, s.now, iid, uid, member).db
  {
  }

  lemma AcceptSteps(s: Sound, p: nat, name: string, iid: nat)
    requires Acceptance(s, p, iid)
    ensures var begin, mark := BeginAccept(p, s.db.invites[iid].token, name), MarkAccepted(p, Some(iid));
            && begin in Possible(s) && mark in Possible(Next(s, begin))
            && var s2 := Next(Next(s, begin), mark);
               && s2.db == s.db && s2.now == s.now && s2.drawn == s.drawn
               && p in s2.procs && s2.procs[p] == Marked(s.now, name, iid)
               && UserFree(s2, p, s.db.invites[iid].company, s.db.invites[iid].email)
  {
    hide Next, Possible, Unlocked, UserFree;
    var s1 := s.(procs := s.procs[p := Accepting(s.now, s.db.invites[iid].token, name)]);
    AcceptBegins(s, p, s.db.invites[iid].token, name);
    StillFree(s, s1, p, iid, s.db.invites[iid].company, s.db.invites[iid].email);
    MarkStep(s1, p, name, iid);
    StillFree(s1, s1.(procs := s1.procs[p := Marked(s.now, name, iid)]), p, iid,
              s.db.invites[iid].company, s.db.invites[iid].email);
  }

  lemma AcceptBegins(s: State, p: nat, token: nat, name: string)
    requires p !in s.procs
    ensures BeginAccept(p, token, name) in Possible(s)
    ensures Next(s, BeginAccept(p, token, name)) == s.(procs := s.procs[p := Accepting(s.now, token, name)])
  {
  }

  /** What the others hold does not depend on the process itself. */
  lemma StillFree(s: State, s': State, p: nat, iid: nat, company: nat, email: string)
    requires p in s'.procs && s'.procs == s.procs[p := s'.procs[p]]
    requires Unlocked(s, p, iid) && UserFree(s, p, company, email)
    ensures Unlocked(s', p, iid) && UserFree(s', p, company, email)
  {
  }

  lemma MarkedRun(acts: seq<Action>, p: nat, name: string, iid: nat)
    requires Legal(acts) && Acceptance(Exec(acts), p, iid)
    ensures var s := Exec(acts);
            var acts2 := acts + [BeginAccept(p, s.db.invites[iid].token, name)] + [MarkAccepted(p, Some(iid))];
            && Legal(acts2) && Exec(acts2).db == s.db && Exec(acts2).now == s.now && Exec(acts2).drawn == s.drawn
            && p in Exec(acts2).procs && Exec(acts2).procs[p] == Marked(s.now, name, iid)
            && UserFree(Exec(acts2), p, s.db.invites[iid].company, s.db.invites[iid].email)
  {
    hide Next, Possible, Exec, Legal, Inv, Acceptance, UserFree;
    Reachable(acts);
    AcceptSteps(Exec(acts), p, name, iid);
    AcceptanceOpen(Exec(acts), p, iid);
    var begin := BeginAccept(p, Exec(acts).db.invites[iid].token, name);
    Extends(acts, begin);
    Extends(acts + [begin], MarkAccepted(p, Some(iid)));
  }

  lemma AcceptanceOpen(s: State, p: nat, iid: nat)
    requires Acceptance(s, p, iid)
    ensures iid in s.db.invites && !HasUser(s.db, s.db.invites[iid].company, s.db.invites[iid].email)
  {
    HasUserIff(s.db, s.db.invites[iid].company, s.db.invites[iid].email);
  }

  lemma JoinedRun(acts: seq<Action>, p: nat, name: string, iid: nat, uid: nat)
    requires Legal(acts) && p in Exec(acts).procs && Exec(acts).procs[p] == Marked(Exec(acts).now, name, iid)
    requires iid in Exec(acts).db.invites && uid !in Exec(acts).drawn
    requires var i := Exec(acts).db.invites[iid];
             !HasUser(Exec(acts).db, i.company, i.email) && UserFree(Exec(acts), p, i.company, i.email)
    ensures var s, acts2 := Exec(acts), acts + [InsertMember(p, uid)] + [CommitAccept(p)];
            var i := s.db.invites[iid];
            Legal(acts2) && Exec(acts2).db == Accept(s, s.now, iid, uid, User(i.company, i.email, name, i.role)).db
  {
    hide Next, Possible, Exec, Legal, UserFree, HasUser;
    var i := Exec(acts).db.invites[iid];
    MemberStep(Exec(acts), p, name, iid, uid);
    Extends(acts, InsertMember(p, uid));
    JoinStep(Exec(acts + [InsertMember(p, uid)]), p, iid, uid, User(i.company, i.email, name, i.role));
    Extends(acts + [InsertMember(p, uid)], CommitAccept(p));
  }

  /** After any run, an open invitation can be accepted if its company has no user of its email (and no open
      transaction is in the way); then it is accepted, and its user added with its company, email and role. */
  lemma OpenInviteAccepts(acts: seq<Action>, p: nat, name: string, iid: nat, uid: nat)
    requires Legal(acts) && Acceptance(Exec(acts), p, iid) && uid !in Exec(acts).drawn
    ensures var s, i := Exec(acts), Exec(acts).db.invites[iid];
            var run := acts + AcceptRun(p, i.token, name, iid, uid);
            Legal(run) && Exec(run).db == Accept(s, s.now, iid, uid, User(i.company, i.email, name, i.role)).db
  {
    hide Next, Possible, Exec, Legal, UserFree, HasUser;
    var s := Exec(acts);
    var begin, mark := BeginAccept(p, s.db.invites[iid].token, name), MarkAccepted(p, Some(iid));
    MarkedRun(acts, p, name, iid);
    AcceptanceOpen(s, p, iid);
    JoinedRun(acts + [begin] + [mark], p, name, iid, uid);
    Appended(acts, begin, mark, InsertMember(p, uid), CommitAccept(p));
  }

  // ---------------------------------------------------------------------------------------
  // The other handlers
  // ---------------------------------------------------------------------------------------

  /** The whole registration, step by step. */
  function RegisterRun(p: nat, req: Request, cid: nat, uid: nat, iid: nat, token: nat): seq<Action> {
    [Register(p, req, None), InsertCompany(p, cid), InsertOwner(p, uid), InsertFirstInvite(p, iid, token),
     CommitRegistration(p)]
  }

  /** Nothing stands in the way of a registration: no user has its email, no company its slug, and no other open
      transaction is inserting such a company. */
  ghost predicate Registrable(s: State, p: nat, req: Request) {
    && p !in s.procs
    && (forall u | u in s.db.users :: s.db.users[u].email != req.email)
    && (forall c | c in s.db.companies :: s.db.companies[c].slug != req.slug)
    && SlugFree(s, p, req.slug)
  }

  ghost predicate FourDrawn(s: State, a: nat, b: nat, c: nat, d: nat) {
    {a, b, c, d} !! s.drawn && a != b && a != c && a != d && b != c && b != d && c != d
  }

  /** `s'` is `s` with process `p` at `proc`, and with `xs` drawn. */
  ghost predicate Went(s: State, s': State, p: nat, proc: Proc, xs: set<nat>) {
    s' == s.(procs := s.procs[p := proc], drawn := s.drawn + xs)
  }

  lemma RegisterSteps(s: State, p: nat, req: Request, cid: nat)
    requires Registrable(s, p, req) && cid !in s.drawn
    ensures Register(p, req, None) in Possible(s)
    ensures InsertCompany(p, cid) in Possible(Next(s, Register(p, req, None)))
    ensures Went(s, Next(Next(s, Register(p, req, None)), InsertCompany(p, cid)), p, Founded(req, cid), {cid})
  {
    var s1 := s.(procs := s.procs[p := Registering(req)]);
    assert Next(s, Register(p, req, None)) == s1;
    assert SlugFree(s1, p, req.slug) && !HasSlug(s1.db, req.slug);
  }

  lemma OwnerSteps(s: State, p: nat, req: Request, cid: nat, uid: nat, iid: nat, token: nat)
    requires p in s.procs && s.procs[p] == Founded(req, cid) && uid !in s.drawn && Undrawn(s, iid, token)
    requires uid !in {iid, token}
    ensures InsertOwner(p, uid) in Possible(s)
    ensures InsertFirstInvite(p, iid, token) in Possible(Next(s, InsertOwner(p, uid)))
    ensures var invite := Invitation(cid, req.email, Owner, token, None, s.now + 60 * 60);
            Went(s, Next(Next(s, InsertOwner(p, uid)), InsertFirstInvite(p, iid, token)), p,
                 Invited(req, cid, uid, iid, invite), {uid, iid, token})
  {
    var s1 := s.(procs := s.procs[p := Owned(req, cid, uid)], drawn := s.drawn + {uid});
    assert Next(s, InsertOwner(p, uid)) == s1;
  }

  lemma RegisterCommits(s: State, p: nat, req: Request, cid: nat, uid: nat, iid: nat, invite: Invitation)
    requires p in s.procs && s.procs[p] == Invited(req, cid, uid, iid, invite)
    ensures CommitRegistration(p) in Possible(s)
    ensures Next(s, CommitRegistration(p)).db
         == Db(s.db.companies[cid := Company(req.company, req.slug)],
               s.db.users[uid := User(cid, req.email, req.owner, Owner)], s.db.invites[iid := invite], s.db.tokens)
  {
  }

  /** Two more steps. */
  lemma ExtendsTwice(acts: seq<Action>, a: Action, b: Action)
    requires Legal(acts) && a in Possible(Exec(acts)) && b in Possible(Next(Exec(acts), a))
    ensures Legal(acts + [a] + [b]) && Exec(acts + [a] + [b]) == Next(Next(Exec(acts), a), b)
  {
    hide Next, Possible, Exec, Legal;
    Extends(acts, a);
    Extends(acts + [a], b);
  }

  lemma AppendedFive<T>(xs: seq<T>, a: T, b: T, c: T, d: T, e: T)
    ensures xs + [a, b, c, d, e] == xs + [a] + [b] + [c] + [d] + [e]
  {
  }

  /** After any run, whatever other transactions are open, a registration that nothing stands in the way of can go
      through, and adds its company, owner and invitation, valid for an hour. */
  lemma RegistrationCommits(acts: seq<Action>, p: nat, req: Request, cid: nat, uid: nat, iid: nat, token: nat)
    requires Legal(acts) && Registrable(Exec(acts), p, req) && FourDrawn(Exec(acts), cid, uid, iid, token)
    ensures var run, s := acts + RegisterRun(p, req, cid, uid, iid, token), Exec(acts);
            && Legal(run)
            && Exec(run).db
               == Db(s.db.companies[cid := Company(req.company, req.slug)],
                     s.db.users[uid := User(cid, req.email, req.owner, Owner)],
                     s.db.invites[iid := Invitation(cid, req.email, Owner, token, None, s.now + 60 * 60)], s.db.tokens)
  {
    hide Next, Possible, Exec, Legal, Registrable;
    RegisterSteps(Exec(acts), p, req, cid);
    ExtendsTwice(acts, Register(p, req, None), InsertCompany(p, cid));
    var acts2 := acts + [Register(p, req, None)] + [InsertCompany(p, cid)];
    OwnerSteps(Exec(acts2), p, req, cid, uid, iid, token);
    ExtendsTwice(acts2, InsertOwner(p, uid), InsertFirstInvite(p, iid, token));
    var acts4 := acts2 + [InsertOwner(p, uid)] + [InsertFirstInvite(p, iid, token)];
    RegisterCommits(Exec(acts4), p, req, cid, uid, iid, Exec(acts4).procs[p].invite);
    Extends(acts4, CommitRegistration(p));
    AppendedFive(acts, Register(p, req, None), InsertCompany(p, cid), InsertOwner(p, uid),
                 InsertFirstInvite(p, iid, token), CommitRegistration(p));
  }

  lemma ReinviteSteps(s: State, p: nat, req: Request, u: nat, iid: nat, token: nat)
    requires p !in s.procs && u in s.db.users && s.db.users[u].email == req.email && Undrawn(s, iid, token)
    requires s.db.users[u].company in s.db.companies
    ensures Register(p, req, Some(u)) in Possible(s)
    ensures Resend(p, iid, token) in Possible(Next(s, Register(p, req, Some(u))))
    ensures var r := s.db.users[u];
            var invite := Invitation(r.company, req.email, r.role, token, None, s.now + 60 * 60);
            Next(Next(s, Register(p, req, Some(u))), Resend(p, iid, token)).db
            == s.db.(invites := s.db.invites[iid := invite])
  {
  }

  /** So can a registration under a known email: it stores an invitation to that user's own company and role. */
  lemma ReinvitationStored(acts: seq<Action>, p: nat, req: Request, u: nat, iid: nat, token: nat)
    requires Legal(acts) && p !in Exec(acts).procs && Undrawn(Exec(acts), iid, token)
    requires u in Exec(acts).db.users && Exec(acts).db.users[u].email == req.email
    ensures var run, s := acts + [Register(p, req, Some(u))] + [Resend(p, iid, token)], Exec(acts);
            && Legal(run)
            && Exec(run).db
               == s.db.(invites := s.db.invites[iid :=
                    Invitation(s.db.users[u].company, req.email, s.db.users[u].role, token, None, s.now + 60 * 60)])
  {
    hide Next, Possible, Exec, Legal, Inv;
    Reachable(acts);
    UsersHaveCompanies(Exec(acts));
    ReinviteSteps(Exec(acts), p, req, u, iid, token);
    ExtendsTwice(acts, Register(p, req, Some(u)), Resend(p, iid, token));
  }

  lemma InviteSteps(s: State, p: nat, company: nat, email: string, iid: nat, token: nat)
    requires p !in s.procs && company in s.db.companies && Undrawn(s, iid, token)
    requires Pending(s.db, company, email, s.now) == {}
    ensures CheckPending(p, company, email) in Possible(s)
    ensures InsertInvite(p, iid, token) in Possible(Next(s, CheckPending(p, company, email)))
    ensures var invite := Invitation(company, email, Technician, token, None, s.now + 7 * 24 * 60 * 60);
            Next(Next(s, CheckPending(p, company, email)), InsertInvite(p, iid, token)).db
            == s.db.(invites := s.db.invites[iid := invite])
  {
    PendingIff(s.db, company, email, s.now);
  }

  /** So can an invitation if none is pending. */
  lemma InvitationStored(acts: seq<Action>, p: nat, company: nat, email: string, iid: nat, token: nat)
    requires Legal(acts) && p !in Exec(acts).procs && Undrawn(Exec(acts), iid, token)
    requires company in Exec(acts).db.companies && Pending(Exec(acts).db, company, email, Exec(acts).now) == {}
    ensures var run, s := acts + [CheckPending(p, company, email)] + [InsertInvite(p, iid, token)], Exec(acts);
            && Legal(run)
            && Exec(run).db
               == s.db.(invites := s.db.invites[iid :=
                    Invitation(company, email, Technician, token, None, s.now + 7 * 24 * 60 * 60)])
  {
    hide Next, Possible, Exec, Legal, Pending;
    InviteSteps(Exec(acts), p, company, email, iid, token);
    ExtendsTwice(acts, CheckPending(p, company, email), InsertInvite(p, iid, token));
  }

  lemma MintSteps(s: State, p: nat, u: nat, tid: nat, raw: nat)
    requires p !in s.procs && u in s.db.users && Undrawn(s, tid, raw)
    ensures LookUp(p, s.db.users[u].email, Some(u)) in Possible(s)
    ensures InsertToken(p, tid, raw) in Possible(Next(s, LookUp(p, s.db.users[u].email, Some(u))))
    ensures Next(Next(s, LookUp(p, s.db.users[u].email, Some(u))), InsertToken(p, tid, raw)).db
         == s.db.(tokens := s.db.tokens[tid := AuthToken(u, Sha256(raw), s.now + 15 * 60, None)])
  {
  }

  /** And so can a magic link for any user. */
  lemma TokenStored(acts: seq<Action>, p: nat, u: nat, tid: nat, raw: nat)
    requires Legal(acts) && p !in Exec(acts).procs && Undrawn(Exec(acts), tid, raw) && u in Exec(acts).db.users
    ensures var s := Exec(acts);
            var run := acts + [LookUp(p, s.db.users[u].email, Some(u))] + [InsertToken(p, tid, raw)];
            && Legal(run)
            && Exec(run).db == s.db.(tokens := s.db.tokens[tid := AuthToken(u, Sha256(raw), s.now + 15 * 60, None)])
  {
    hide Next, Possible, Exec, Legal;
    MintSteps(Exec(acts), p, u, tid, raw);
    ExtendsTwice(acts, LookUp(p, Exec(acts).db.users[u].email, Some(u)), InsertToken(p, tid, raw));
  }

  // ---------------------------------------------------------------------------------------
  // Failures
  // ---------------------------------------------------------------------------------------

  /** A transaction that fails, for whatever reason and at whatever point, changes nothing, and the invitation
      or token that it held can be used again by anyone until it expires. */
  lemma FailureReleases(acts: seq<Action>, p: nat)
    requires Legal(acts) && p in Exec(acts).procs
    ensures var s, s' := Exec(acts), Next(Exec(acts), Action.Fail(p));
            && s'.db == s.db && s'.hist == s.hist
            && (s.procs[p].Marked? || s.procs[p].Joining? ==>
                  && s.procs[p].iid in s'.db.invites && s'.db.invites[s.procs[p].iid].accepted.None?
                  && forall q :: Unlocked(s', q, s.procs[p].iid))
            && (s.procs[p].Spending? || s.procs[p].Fetched? ==>
                  && s.procs[p].tid in s'.db.tokens && s'.db.tokens[s.procs[p].tid].used.None?
                  && forall q :: TokenUnlocked(s', q, s.procs[p].tid))
  {
    Reachable(acts);
    ReleasedBy(Exec(acts), p);
  }

  lemma ReleasedBy(s: Sound, p: nat)
    requires p in s.procs
    ensures ProcOk(s.db, s.drawn, s.procs[p])
    ensures s.procs[p].Marked? || s.procs[p].Joining? ==> forall q :: Unlocked(Ends(s, p), q, s.procs[p].iid)
    ensures s.procs[p].Spending? || s.procs[p].Fetched? ==> forall q :: TokenUnlocked(Ends(s, p), q, s.procs[p].tid)
  {
    forall q | q in s.procs && q != p
      ensures s.procs[p].Marked? || s.procs[p].Joining? ==> !LocksInvite(s.procs[q], s.procs[p].iid)
      ensures s.procs[p].Spending? || s.procs[p].Fetched? ==> !LocksToken(s.procs[q], s.procs[p].tid)
    {
      OneHolder(s.procs[p], s.procs[q]);
    }
  }

  lemma OneHolder(a: Proc, b: Proc)
    requires Apart(a, b)
    ensures a.Marked? || a.Joining? ==> !LocksInvite(b, a.iid)
    ensures a.Spending? || a.Fetched? ==> !LocksToken(b, a.tid)
  {
    if a.Marked? || a.Joining? {
      assert LocksInvite(a, a.iid);
    } else if a.Spending? || a.Fetched? {
      assert LocksToken(a, a.tid);
    }
  }

  /** Accepting fails with a conflict exactly when the company has a user of that email, and then the
      invitation stays unaccepted. */
  lemma ConflictKeepsInvite(acts: seq<Action>, p: nat, uid: nat)
    requires Legal(acts) && InsertMember(p, uid) in Possible(Exec(acts))
    ensures var s, s' := Exec(acts), Next(Exec(acts), InsertMember(p, uid));
            && s.procs[p].iid in s.db.invites && s'.db == s.db && s'.db.invites[s.procs[p].iid].accepted.None?
            && (p !in s'.procs <==> exists u ::
                  IsMember(s.db, u, s.db.invites[s.procs[p].iid].company, s.db.invites[s.procs[p].iid].email))
            && (s.db.invites[s.procs[p].iid].role == Owner ==> p !in s'.procs)
  {
    hide Next, ProcOk, Enabled, InviteOk, Unique, Members, Logins;
    Reachable(acts);
    MarkedProcess(Exec(acts), p, uid);
    OwnerHasUser(Exec(acts), Exec(acts).procs[p].iid);
    ConflictLocal(Exec(acts), p, uid);
    var i := Exec(acts).db.invites[Exec(acts).procs[p].iid];
    HasUserIff(Exec(acts).db, i.company, i.email);
  }

  lemma MarkedProcess(s: Sound, p: nat, uid: nat)
    requires InsertMember(p, uid) in Possible(s)
    ensures p in s.procs && s.procs[p].Marked? && s.procs[p].iid in s.db.invites && ProcOk(s.db, s.drawn, s.procs[p])
  {
  }

  lemma OwnerHasUser(s: Sound, i: nat)
    requires i in s.db.invites
    ensures s.db.invites[i].role == Owner ==> HasUser(s.db, s.db.invites[i].company, s.db.invites[i].email)
  {
    assert InviteOk(s.db, s.hist, i);
  }

  lemma ConflictLocal(s: State, p: nat, uid: nat)
    requires InsertMember(p, uid) in Possible(s) && ProcOk(s.db, s.drawn, s.procs[p])
    ensures var s', i := Next(s, InsertMember(p, uid)), s.procs[p].iid;
            && s'.db == s.db && i in s.db.invites && s.db.invites[i].accepted.None?
            && (p !in s'.procs <==> HasUser(s.db, s.db.invites[i].company, s.db.invites[i].email))
  {
  }

  // ---------------------------------------------------------------------------------------
  // Pending invitations
  // ---------------------------------------------------------------------------------------

  function Pending(db: Db, company: nat, email: string, now: int): set<nat> {
    set i | i in db.invites && db.invites[i].company == company && db.invites[i].email == email
            && db.invites[i].accepted.None? && db.invites[i].expires > now
  }

  /** The step stores an invitation for `company` and `email` without a new company: the insert of the invite
      handler, or of a registration under a known email. */
  ghost predicate Adds(s: State, act: Action, company: nat, email: string)
    requires act in Possible(s)
  {
    && (act.InsertInvite? || act.Resend?)
    && s.procs[act.p].company == company && s.procs[act.p].email == email && company in s.db.companies
  }

  lemma PendingIff(db: Db, company: nat, email: string, now: int)
    ensures HasPending(db, company, email, now) <==> Pending(db, company, email, now) != {}
  {
    if HasPending(db, company, email, now) {
      var i :| i in db.invites && db.invites[i].company == company && db.invites[i].email == email
               && db.invites[i].accepted.None? && db.invites[i].expires > now;
      assert i in Pending(db, company, email, now);
    }
  }

  /** Such a step adds one pending invitation, whatever is pending already. */
  lemma AddsOne(s: State, act: Action, company: nat, email: string)
    requires Drawn(s.db, s.drawn) && act in Possible(s) && Adds(s, act, company, email)
    ensures var before, after := Pending(s.db, company, email, s.now),
                                 Pending(Next(s, act).db, company, email, Next(s, act).now);
            act.iid !in before && after == before + {act.iid}
  {
  }

  /** After the insert exactly one invitation is pending if and only if none was at that moment; what the handler
      found at its own check does not matter. */
  lemma InvitePending(acts: seq<Action>, act: Action, company: nat, email: string)
    requires Legal(acts) && act in Possible(Exec(acts)) && Adds(Exec(acts), act, company, email)
    ensures var s := Exec(acts);
            Pending(Next(s, act).db, company, email, Next(s, act).now) == {act.iid}
            <==> !HasPending(s.db, company, email, s.now)
  {
    hide Next, Possible, Adds, Pending, HasPending, Unique, Drawn;
    Reachable(acts);
    AddsOne(Exec(acts), act, company, email);
    PendingIff(Exec(acts).db, company, email, Exec(acts).now);
  }

  /** No other step adds one, but a registration, which brings its own company. */
  lemma OthersAddNone(s: State, act: Action, company: nat, email: string)
    requires act in Possible(s) && !Adds(s, act, company, email) && !act.CommitRegistration?
    ensures Pending(Next(s, act).db, company, email, Next(s, act).now) <= Pending(s.db, company, email, s.now)
  {
  }

  lemma FirstIsAlone(s: State, act: Action, company: nat, email: string)
    requires act in Possible(s) && act.CommitRegistration? && ProcOk(s.db, s.drawn, s.procs[act.p])
    requires forall i | i in s.db.invites :: s.db.invites[i].company in s.db.companies
    ensures s.procs[act.p].Invited?
    ensures var r := s.procs[act.p];
            Pending(Next(s, act).db, company, email, Next(s, act).now)
            <= if company == r.cid then {r.iid} else Pending(s.db, company, email, s.now)
  {
  }

  lemma InvitesHaveCompanies(s: Sound)
    ensures forall i | i in s.db.invites :: s.db.invites[i].company in s.db.companies
  {
    forall i | i in s.db.invites
      ensures s.db.invites[i].company in s.db.companies
    {
      assert InviteOk(s.db, s.hist, i);
    }
  }

  lemma SmallSubset(x: set<nat>, y: set<nat>)
    requires x <= y
    ensures |x| <= |y|
    decreases x
  {
    if x != {} {
      var e :| e in x;
      SmallSubset(x - {e}, y - {e});
    }
  }

  /** One step keeps at most one pending invitation unless it adds one while one is pending. */
  lemma PendingStep(s: Sound, act: Action, company: nat, email: string)
    requires act in Possible(s) && |Pending(s.db, company, email, s.now)| <= 1
    ensures |Pending(Next(s, act).db, company, email, Next(s, act).now)| <= 1
       <==> !(Adds(s, act, company, email) && HasPending(s.db, company, email, s.now))
  {
    hide Next, Possible, Adds, ProcOk, HasPending, Pending;
    var s' := Next(s, act);
    var before, after := Pending(s.db, company, email, s.now), Pending(s'.db, company, email, s'.now);
    PendingIff(s.db, company, email, s.now);
    if Adds(s, act, company, email) {
      AddsOne(s, act, company, email);
    } else if act.CommitRegistration? {
      CommitProcess(s, act);
      InvitesHaveCompanies(s);
      FirstIsAlone(s, act, company, email);
      SmallSubset(after, if company == s.procs[act.p].cid then {s.procs[act.p].iid} else before);
    } else {
      OthersAddNone(s, act, company, email);
      SmallSubset(after, before);
    }
  }

  /** At most one invitation of `company` and `email` is pending after every step of the run. */
  ghost predicate AtMostOne(acts: seq<Action>, company: nat, email: string)
    requires Legal(acts)
  {
    && |Pending(Exec(acts).db, company, email, Exec(acts).now)| <= 1
    && (acts != [] ==> AtMostOne(acts[..|acts| - 1], company, email))
  }

  /** No step of the run adds one while one is pending. */
  ghost predicate NoneOnTop(acts: seq<Action>, company: nat, email: string)
    requires Legal(acts)
  {
    acts != [] ==>
      var s := Exec(acts[..|acts| - 1]);
      && !(Adds(s, acts[|acts| - 1], company, email) && HasPending(s.db, company, email, s.now))
      && NoneOnTop(acts[..|acts| - 1], company, email)
  }

  /** Over every run: at most one invitation of a company and email is pending at all times if and only if no
      insert, of the invite handler or of a registration under a known email, happens while one is pending. */
  lemma {:induction false} OnePendingIff(acts: seq<Action>, company: nat, email: string)
    requires Legal(acts)
    ensures AtMostOne(acts, company, email) <==> NoneOnTop(acts, company, email)
  {
    if acts != [] {
      var init := acts[..|acts| - 1];
      OnePendingIff(init, company, email);
      Reachable(init);
      if AtMostOne(init, company, email) {
        PendingStep(Exec(init), acts[|acts| - 1], company, email);
      }
    }
  }

  lemma Extends(acts: seq<Action>, act: Action)
    requires Legal(acts) && act in Possible(Exec(acts))
    ensures Legal(acts + [act]) && Exec(acts + [act]) == Next(Exec(acts), act)
  {
    assert (acts + [act])[..|acts|] == acts;
  }

  const Acme := Request("Acme", "acme", "Ann", "ann")

  /** The state after a company has registered. */
  ghost function Registered(): State {
    State(0,
          Db(map[1 := Company("Acme", "acme")], map[2 := User(1, "ann", "Ann", Owner)],
             map[3 := Invitation(1, "ann", Owner, 4, None, RegistrationTTL)], map[]),
          map[], {1, 2, 3, 4},
          History(map[1 := 2], map[2 := Founder(3)], map[], []))
  }

  lemma RegistrationRun() returns (acts: seq<Action>)
    ensures Legal(acts) && Exec(acts) == Registered()
  {
    acts := [];
    Extends(acts, Register(0, Acme, None));
    acts := acts + [Register(0, Acme, None)];
    assert Exec(acts).procs == map[0 := Registering(Acme)];
    Extends(acts, InsertCompany(0, 1));
    acts := acts + [InsertCompany(0, 1)];
    assert Exec(acts).procs == map[0 := Founded(Acme, 1)];
    Extends(acts, InsertOwner(0, 2));
    acts := acts + [InsertOwner(0, 2)];
    assert Exec(acts).procs == map[0 := Owned(Acme, 1, 2)];
    Extends(acts, InsertFirstInvite(0, 3, 4));
    acts := acts + [InsertFirstInvite(0, 3, 4)];
    Extends(acts, CommitRegistration(0));
    acts := acts + [CommitRegistration(0)];
    assert Exec(acts) == Registered();
  }

  /** After two requests have both found nothing pending for bob. */
  lemma CheckedRun() returns (acts: seq<Action>)
    ensures Legal(acts)
    ensures Exec(acts) == Registered().(procs := map[1 := Checked(1, "bob"), 2 := Checked(1, "bob")])
  {
    acts := RegistrationRun();
    Extends(acts, CheckPending(1, 1, "bob"));
    acts := acts + [CheckPending(1, 1, "bob")];
    assert Exec(acts) == Registered().(procs := map[1 := Checked(1, "bob")]);
    Extends(acts, CheckPending(2, 1, "bob"));
    acts := acts + [CheckPending(2, 1, "bob")];
  }

  function BobsInvite(token: nat): Invitation {
    Invitation(1, "bob", Technician, token, None, InviteTTL)
  }

  lemma BothInsert(s: State)
    requires s == Registered().(procs := map[1 := Checked(1, "bob"), 2 := Checked(1, "bob")])
    ensures InsertInvite(1, 5, 6) in Possible(s)
    ensures var s1 := Next(s, InsertInvite(1, 5, 6));
            && InsertInvite(2, 7, 8) in Possible(s1)
            && Next(s1, InsertInvite(2, 7, 8)).now == 0
            && Next(s1, InsertInvite(2, 7, 8)).db.invites
               == map[3 := Invitation(1, "ann", Owner, 4, None, RegistrationTTL),
                      5 := BobsInvite(6), 7 := BobsInvite(8)]
  {
  }

  /** Two concurrent requests can both find nothing pending, and leave two pending invitations. */
  lemma TwoPendingInvites()
    ensures exists acts :: Legal(acts) && Pending(Exec(acts).db, 1, "bob", Exec(acts).now) == {5, 7}
  {
    var acts := CheckedRun();
    BothInsert(Exec(acts));
    Extends(acts, InsertInvite(1, 5, 6));
    var acts1 := acts + [InsertInvite(1, 5, 6)];
    Extends(acts1, InsertInvite(2, 7, 8));
    var acts2 := acts1 + [InsertInvite(2, 7, 8)];
    assert Pending(Exec(acts2).db, 1, "bob", Exec(acts2).now) == {5, 7};
  }

  /** A registration under a known email needs no second request: it leaves two pending invitations by itself. */
  lemma ReinvitedOnTop()
    ensures exists acts :: Legal(acts) && Pending(Exec(acts).db, 1, "ann", Exec(acts).now) == {3, 5}
  {
    var acts := RegistrationRun();
    Extends(acts, Register(1, Acme, Some(2)));
    var acts1 := acts + [Register(1, Acme, Some(2))];
    ReinviteAnn(Exec(acts1));
    Extends(acts1, Resend(1, 5, 6));
    assert Pending(Exec(acts1 + [Resend(1, 5, 6)]).db, 1, "ann", Exec(acts1 + [Resend(1, 5, 6)]).now) == {3, 5};
  }

  lemma ReinviteAnn(s: State)
    requires s == Registered().(procs := map[1 := Resending(1, "ann", Owner)])
    ensures Resend(1, 5, 6) in Possible(s) && Next(s, Resend(1, 5, 6)).now == 0
    ensures Next(s, Resend(1, 5, 6)).db.invites
         == map[3 := Invitation(1, "ann", Owner, 4, None, RegistrationTTL),
                5 := Invitation(1, "ann", Owner, 6, None, RegistrationTTL)]
  {
  }
}
