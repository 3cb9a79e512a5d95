/** What every reachable state of the pipeline satisfies. */
module PipelineInv {
  import opened Wrappers
  import opened JobRows
  import opened Pipeline
  import Keys

  ghost predicate AllIn(keys: seq<string>, lo: nat, hi: nat, store: set<string>)
    requires lo <= hi <= |keys|
  {
    forall i | lo <= i < hi :: keys[i] in store
  }

  ghost predicate NoneIn(keys: seq<string>, lo: nat, hi: nat, store: set<string>)
    requires lo <= hi <= |keys|
  {
    forall i | lo <= i < hi :: keys[i] !in store
  }

  ghost predicate Owns(s: Sys, h: nat, j: nat) {
    j in s.jobs && j in s.origin && s.origin[j] == h
  }

  ghost predicate HandlerOk(s: Sys, h: nat)
    requires h in s.handlers
  {
    var r := s.handlers[h];
    && r.keys != [] && Keys.Distinct(r.keys)
    && match r.pc
       case Uploading(n) => n <= |r.keys| && AllIn(r.keys, 0, n, s.store) && NoneIn(r.keys, n, |r.keys|, s.store)
       case Created(j) => Owns(s, h, j) && AllIn(r.keys, 0, |r.keys|, s.store)
       case Unqueued(j) => Owns(s, h, j) && AllIn(r.keys, 0, |r.keys|, s.store)
       case Cleaning(row, n, i, clean) =>
         && i <= n <= |r.keys| && NoneIn(r.keys, n, |r.keys|, s.store) && (clean ==> NoneIn(r.keys, 0, i, s.store))
         && (row.Some? ==> Owns(s, h, row.value))
       case Accepted(j, t) =>
         Owns(s, h, j) && AllIn(r.keys, 0, |r.keys|, s.store) && t in s.tasks && s.tasks[t].payload == JobRef(j)
       case Rejected(row, clean) =>
         && (clean ==> NoneIn(r.keys, 0, |r.keys|, s.store)) && (row.Some? ==> Owns(s, h, row.value))
  }

  ghost predicate Apart(s: Sys, h: nat, g: nat)
    requires h in s.handlers && g in s.handlers
  {
    h != g ==> forall i, j | 0 <= i < |s.handlers[h].keys| && 0 <= j < |s.handlers[g].keys| ::
      s.handlers[h].keys[i] != s.handlers[g].keys[j]
  }

  ghost predicate HasUrls(row: JobRow, keys: seq<string>)
    requires keys != []
  {
    row.audioUrl == Some(keys[0]) && row.photoUrls == keys[1..]
  }

  ghost predicate Unfinished(row: JobRow) {
    row.status != Completed && row.status != Failed
  }

  ghost predicate Subsequence<T>(xs: seq<T>, ys: seq<T>) {
    if ys == [] then xs == []
    else
      || Subsequence(xs, ys[..|ys| - 1])
      || (xs != [] && xs[|xs| - 1] == ys[|ys| - 1] && Subsequence(xs[..|xs| - 1], ys[..|ys| - 1]))
  }

  /** How a row and its child rows look while its task is in a given state. */
  ghost predicate TaskRowOk(env: Env, row: JobRow, kids: seq<Child>, task: Task) {
    && task.retried <= MaxRetry
    && match task.state
       case Waiting => Unfinished(row) && kids == []
       case Erred(skip) => !skip && Unfinished(row) && kids == []
       case Archived(skip) => !skip && task.retried == MaxRetry && row.status == Failed && kids == []
       case Succeeded(w) => CompletedBy(env, row, w) && WellMade(env, w) && Subsequence(kids, Stored(Entries(env, w)))
       case Running(a) =>
         match a
         case Inserting(w, i) =>
           && CompletedBy(env, row, w) && WellMade(env, w) && i <= |Entries(env, w)|
           && Subsequence(kids, Stored(Entries(env, w)[..i]))
         case Writing(w) => Unfinished(row) && kids == [] && WellMade(env, w)
         case Marking(audio) => Unfinished(row) && kids == [] && row.audioUrl == Some(audio)
         case Downloading(audio) => Unfinished(row) && kids == [] && row.audioUrl == Some(audio)
         case _ => Unfinished(row) && kids == []
  }

  ghost predicate JobOk(env: Env, s: Sys, j: nat)
    requires j in s.jobs
  {
    && j in s.kids && j in s.origin && s.origin[j] in s.handlers
    && var r := s.handlers[s.origin[j]];
       && r.keys != []
       && match r.pc
          case Uploading(_) => false
          case Created(k) => k == j && HasUrls(s.jobs[j], r.keys) && s.jobs[j].status == Queued && s.kids[j] == []
          case Unqueued(k) => k == j && HasUrls(s.jobs[j], r.keys) && s.jobs[j].status == Queued && s.kids[j] == []
          case Cleaning(row, _, _, _) =>
            row == Some(j) && NoUrls(s.jobs[j]) && s.jobs[j].status == Failed && s.kids[j] == []
          case Rejected(row, _) =>
            row == Some(j) && NoUrls(s.jobs[j]) && s.jobs[j].status == Failed && s.kids[j] == []
          case Accepted(k, t) =>
            k == j && t in s.tasks && HasUrls(s.jobs[j], r.keys) && TaskRowOk(env, s.jobs[j], s.kids[j], s.tasks[t])
  }

  ghost predicate NoUrls(row: JobRow) {
    row.audioUrl == None && row.photoUrls == []
  }

  ghost predicate TaskOk(s: Sys, t: nat)
    requires t in s.tasks
  {
    && s.tasks[t].payload.JobRef?
    && var j := s.tasks[t].payload.job;
       j in s.jobs && j in s.origin && s.origin[j] in s.handlers && s.handlers[s.origin[j]].pc == Accepted(j, t)
  }

  /** No key is the empty string. */
  ghost predicate Named(keys: seq<string>) {
    forall i | 0 <= i < |keys| :: keys[i] != ""
  }

  ghost predicate Inv(env: Env, s: Sys) {
    && s.kids.Keys == s.jobs.Keys && s.origin.Keys == s.jobs.Keys
    && (forall h | h in s.handlers :: HandlerOk(s, h) && Named(s.handlers[h].keys))
    && (forall h, g | h in s.handlers && g in s.handlers :: Apart(s, h, g))
    && (forall j | j in s.jobs :: JobOk(env, s, j))
    && (forall t | t in s.tasks :: TaskOk(s, t))
  }

  // ---------------------------------------------------------------------------------------
  // Requests
  // ---------------------------------------------------------------------------------------

  ghost predicate Shaped(s: Sys) {
    s.kids.Keys == s.jobs.Keys && s.origin.Keys == s.jobs.Keys
  }

  /** `h` is the only request whose place or objects changed, and rows and tasks only grew. */
  ghost predicate OnlyHandler(s: Sys, s': Sys, h: nat) {
    && Shaped(s) && Shaped(s')
    && h in s.handlers && h in s'.handlers && s'.handlers.Keys == s.handlers.Keys
    && (forall g | g in s.handlers && g != h :: s'.handlers[g] == s.handlers[g])
    && s'.handlers[h].keys == s.handlers[h].keys
    && (forall k | k !in s.handlers[h].keys :: k in s'.store <==> k in s.store)
    && (forall j | j in s.jobs :: j in s'.jobs && s'.origin[j] == s.origin[j] && s'.kids[j] == s.kids[j])
    && (forall j | j in s.jobs && s.origin[j] != h :: s'.jobs[j] == s.jobs[j])
    && (forall t | t in s.tasks :: t in s'.tasks && s'.tasks[t] == s.tasks[t])
  }

  /** Task `t` is about a row that `h` inserted. */
  ghost predicate TaskFrom(s: Sys, t: nat, h: nat)
    requires t in s.tasks
  {
    s.tasks[t].payload.JobRef? && s.tasks[t].payload.job in s.origin && s.origin[s.tasks[t].payload.job] == h
  }

  /** A request cannot disturb another one. */
  lemma OtherHandler(s: Sys, s': Sys, h: nat, g: nat)
    requires OnlyHandler(s, s', h) && g in s.handlers && g != h && HandlerOk(s, g) && Apart(s, h, g)
    ensures HandlerOk(s', g)
  {
    forall i | 0 <= i < |s.handlers[g].keys|
      ensures s.handlers[g].keys[i] in s'.store <==> s.handlers[g].keys[i] in s.store
    {
      assert s.handlers[g].keys[i] !in s.handlers[h].keys;
    }
  }

  lemma HandlerStep(env: Env, s: Sys, s': Sys, h: nat)
    requires Inv(env, s) && OnlyHandler(s, s', h) && HandlerOk(s', h)
    requires forall j | j in s'.jobs && s'.origin[j] == h :: JobOk(env, s', j)
    requires forall j | j in s'.jobs && j !in s.jobs :: s'.origin[j] == h
    requires forall t | t in s'.tasks && (t in s.tasks ==> TaskFrom(s, t, h)) :: TaskOk(s', t)
    ensures Inv(env, s')
  {
    hide HandlerOk, Apart, JobOk;
    forall g | g in s'.handlers
      ensures HandlerOk(s', g)
    {
      if g != h {
        OtherHandler(s, s', h, g);
      }
    }
    forall f, g | f in s'.handlers && g in s'.handlers
      ensures Apart(s', f, g)
    {
      SameApart(s, s', f, g);
    }
    forall j | j in s'.jobs && s'.origin[j] != h
      ensures JobOk(env, s', j)
    {
      OtherJob(env, s, s', h, j);
    }
    forall t | t in s.tasks
      ensures TaskOk(s', t)
    {
      assert TaskOk(s, t);
    }
  }

  lemma SameApart(s: Sys, s': Sys, f: nat, g: nat)
    requires f in s.handlers && g in s.handlers && f in s'.handlers && g in s'.handlers && Apart(s, f, g)
    requires s'.handlers[f].keys == s.handlers[f].keys && s'.handlers[g].keys == s.handlers[g].keys
    ensures Apart(s', f, g)
  {
  }

  lemma OtherJob(env: Env, s: Sys, s': Sys, h: nat, j: nat)
    requires OnlyHandler(s, s', h) && j in s.jobs && s.origin[j] != h && JobOk(env, s, j)
    ensures JobOk(env, s', j)
  {
  }

  /** The keys of a request under a fresh prefix are new, distinct and not empty. */
  lemma FreshRequest(s: Sys, company: string, prefix: string, audio: string, photos: seq<string>)
    requires FreshPrefix(s, company, prefix)
    ensures var keys := Keys.RequestKeys(company, prefix, audio, photos);
            && keys != [] && Keys.Distinct(keys) && Named(keys)
            && (forall i | 0 <= i < |keys| :: keys[i] !in s.store)
            && (forall h | h in s.handlers :: NewKeys(s.handlers[h].keys, keys))
  {
    var keys := Keys.RequestKeys(company, prefix, audio, photos);
    Keys.RequestKeysDistinct(company, prefix, audio, photos);
    hide Keys.RequestKeys, Keys.Distinct;
    forall i | 0 <= i < |keys|
      ensures Keys.Base(company, prefix) <= keys[i]
    {
      Keys.KeysUnderBase(company, prefix, audio, photos, keys[i]);
    }
    forall h | h in s.handlers
      ensures NewKeys(s.handlers[h].keys, keys)
    {
      assert forall i | 0 <= i < |s.handlers[h].keys| :: !(Keys.Base(company, prefix) <= s.handlers[h].keys[i]);
    }
  }

  ghost predicate NewKeys(older: seq<string>, keys: seq<string>) {
    forall i, j | 0 <= i < |older| && 0 <= j < |keys| :: older[i] != keys[j]
  }

  /** Only the new request `h` was added. */
  ghost predicate OnlyNew(s: Sys, s': Sys, h: nat, keys: seq<string>) {
    && h !in s.handlers && h in s'.handlers && s'.handlers == s.handlers[h := s'.handlers[h]]
    && s'.handlers[h].keys == keys && s'.handlers[h].pc == Uploading(0)
    && s'.store == s.store && s'.jobs == s.jobs && s'.kids == s.kids && s'.origin == s.origin && s'.tasks == s.tasks
  }

  lemma NewHandler(s: Sys, s': Sys, h: nat, keys: seq<string>, g: nat)
    requires OnlyNew(s, s', h, keys) && keys != [] && Keys.Distinct(keys)
    requires (forall i | 0 <= i < |keys| :: keys[i] !in s.store)
    requires g in s'.handlers && (g != h ==> HandlerOk(s, g))
    ensures HandlerOk(s', g)
  {
  }

  lemma NewApart(s: Sys, s': Sys, h: nat, keys: seq<string>, f: nat, g: nat)
    requires OnlyNew(s, s', h, keys) && f in s'.handlers && g in s'.handlers
    requires f != h && g != h ==> Apart(s, f, g)
    requires forall e | e in s.handlers :: NewKeys(s.handlers[e].keys, keys)
    ensures Apart(s', f, g)
  {
  }

  lemma OldJob(env: Env, s: Sys, s': Sys, h: nat, keys: seq<string>, j: nat)
    requires OnlyNew(s, s', h, keys) && j in s.jobs && JobOk(env, s, j)
    ensures JobOk(env, s', j)
  {
  }

  lemma BeginStep(env: Env, s: Sys, s': Sys, h: nat, keys: seq<string>)
    requires Inv(env, s) && OnlyNew(s, s', h, keys)
    requires keys != [] && Keys.Distinct(keys) && Named(keys) && (forall i | 0 <= i < |keys| :: keys[i] !in s.store)
    requires forall e | e in s.handlers :: NewKeys(s.handlers[e].keys, keys)
    ensures Inv(env, s')
  {
    hide HandlerOk, Apart, JobOk, Keys.Distinct, NewKeys;
    forall g | g in s'.handlers
      ensures HandlerOk(s', g) && Named(s'.handlers[g].keys)
    {
      NewHandler(s, s', h, keys, g);
    }
    forall f, g | f in s'.handlers && g in s'.handlers
      ensures Apart(s', f, g)
    {
      NewApart(s, s', h, keys, f, g);
    }
    forall j | j in s'.jobs
      ensures JobOk(env, s', j)
    {
      OldJob(env, s, s', h, keys, j);
    }
    forall t | t in s'.tasks
      ensures TaskOk(s', t)
    {
      assert TaskOk(s, t);
    }
  }

  lemma BeginInv(env: Env, s: Sys, act: Action)
    requires Inv(env, s) && act.Begin? && act in Possible(s)
    ensures Inv(env, Next(env, s, act))
  {
    FreshRequest(s, act.company, act.prefix, act.audio, act.photos);
    BeginStep(env, s, Next(env, s, act), act.h, Keys.RequestKeys(act.company, act.prefix, act.audio, act.photos));
  }

  lemma UploadLocal(env: Env, s: Sys, act: Action)
    requires Shaped(s) && act.Upload? && act in Possible(s) && HandlerOk(s, act.h)
    ensures var s' := Next(env, s, act);
            && OnlyHandler(s, s', act.h) && HandlerOk(s', act.h)
            && s'.jobs == s.jobs && s'.origin == s.origin && s'.tasks == s.tasks
  {
    hide AttemptStep;
  }

  lemma UploadInv(env: Env, s: Sys, act: Action)
    requires Inv(env, s) && act.Upload? && act in Possible(s)
    ensures Inv(env, Next(env, s, act))
  {
    assert HandlerOk(s, act.h);
    UploadLocal(env, s, act);
    NoJobYet(env, s, act.h);
    HandlerStep(env, s, Next(env, s, act), act.h);
  }

  /** A request that is still uploading, or gave up before the insert, has no row. */
  lemma NoJobYet(env: Env, s: Sys, h: nat)
    requires Inv(env, s) && h in s.handlers && s.handlers[h].pc.Uploading?
    ensures forall j | j in s.jobs :: s.origin[j] != h
    ensures forall t | t in s.tasks :: !TaskFrom(s, t, h)
  {
    forall j | j in s.jobs
      ensures s.origin[j] != h
    {
      assert JobOk(env, s, j);
    }
    forall t | t in s.tasks
      ensures !TaskFrom(s, t, h)
    {
      assert TaskOk(s, t);
    }
  }

  lemma CreateJobLocal(env: Env, s: Sys, act: Action)
    requires Shaped(s) && act.CreateJob? && act in Possible(s) && HandlerOk(s, act.h)
    ensures var s' := Next(env, s, act);
            && OnlyHandler(s, s', act.h) && HandlerOk(s', act.h) && s'.tasks == s.tasks
            && if act.ok then s'.jobs.Keys == s.jobs.Keys + {act.job} && s'.origin == s.origin[act.job := act.h]
               else s'.jobs == s.jobs && s'.origin == s.origin
  {
    hide AttemptStep;
  }

  lemma CreatedJob(env: Env, s: Sys, act: Action)
    requires act.CreateJob? && act.ok && act in Possible(s)
    ensures act.job in Next(env, s, act).jobs && JobOk(env, Next(env, s, act), act.job)
  {
    hide AttemptStep;
  }

  lemma CreateJobInv(env: Env, s: Sys, act: Action)
    requires Inv(env, s) && act.CreateJob? && act in Possible(s)
    ensures Inv(env, Next(env, s, act))
  {
    hide Next, JobOk, Apart;
    assert HandlerOk(s, act.h);
    CreateJobLocal(env, s, act);
    if act.ok {
      CreatedJob(env, s, act);
    }
    NoJobYet(env, s, act.h);
    HandlerStep(env, s, Next(env, s, act), act.h);
  }

  /** Between insert and enqueue, and after a rejection, the request's one row has no task. */
  lemma NoTaskYet(env: Env, s: Sys, h: nat)
    requires Inv(env, s) && h in s.handlers && !s.handlers[h].pc.Accepted?
    ensures forall t | t in s.tasks :: !TaskFrom(s, t, h)
  {
    forall t | t in s.tasks
      ensures !TaskFrom(s, t, h)
    {
      assert TaskOk(s, t);
    }
  }

  /** The one row of a request is as the invariant has it for the request's place. */
  lemma OwnJob(env: Env, s: Sys, s': Sys, h: nat, job: nat)
    requires Inv(env, s) && OnlyHandler(s, s', h) && s'.jobs.Keys == s.jobs.Keys
    requires s.handlers[h].pc == Created(job) || s.handlers[h].pc == Unqueued(job)
    requires job in s.jobs && s.origin[job] == h && JobOk(env, s', job)
    ensures forall j | j in s'.jobs && s'.origin[j] == h :: JobOk(env, s', j)
  {
    forall j | j in s'.jobs && s'.origin[j] == h
      ensures j == job
    {
      assert JobOk(env, s, j);
    }
  }

  lemma EnqueueLocal(env: Env, s: Sys, act: Action)
    requires Shaped(s) && act.Enqueue? && act in Possible(s) && HandlerOk(s, act.h)
    requires JobOk(env, s, s.handlers[act.h].pc.job)
    ensures var s' := Next(env, s, act);
            && OnlyHandler(s, s', act.h) && s'.jobs == s.jobs && HandlerOk(s', act.h)
            && JobOk(env, s', s.handlers[act.h].pc.job)
            && forall t | t in s'.tasks && t !in s.tasks :: TaskOk(s', t)
  {
    hide AttemptStep;
  }

  lemma EnqueueInv(env: Env, s: Sys, act: Action)
    requires Inv(env, s) && act.Enqueue? && act in Possible(s)
    ensures Inv(env, Next(env, s, act))
  {
    assert HandlerOk(s, act.h);
    EnqueueLocal(env, s, act);
    NoTaskYet(env, s, act.h);
    OwnJob(env, s, Next(env, s, act), act.h, s.handlers[act.h].pc.job);
    HandlerStep(env, s, Next(env, s, act), act.h);
  }

  lemma NullOutLocal(env: Env, s: Sys, act: Action)
    requires Shaped(s) && act.NullOut? && act in Possible(s) && HandlerOk(s, act.h)
    requires JobOk(env, s, s.handlers[act.h].pc.job)
    ensures var s', j := Next(env, s, act), s.handlers[act.h].pc.job;
            && OnlyHandler(s, s', act.h) && HandlerOk(s', act.h) && s'.tasks == s.tasks
            && s'.jobs.Keys == s.jobs.Keys && s'.origin == s.origin && s.origin[j] == act.h && JobOk(env, s', j)
  {
    hide AttemptStep;
  }

  lemma NullOutInv(env: Env, s: Sys, act: Action)
    requires Inv(env, s) && act.NullOut? && act in Possible(s)
    ensures Inv(env, Next(env, s, act))
  {
    assert HandlerOk(s, act.h);
    NullOutLocal(env, s, act);
    NoTaskYet(env, s, act.h);
    OwnJob(env, s, Next(env, s, act), act.h, s.handlers[act.h].pc.job);
    HandlerStep(env, s, Next(env, s, act), act.h);
  }

  lemma DeleteLocal(s: Sys, act: Action, env: Env)
    requires Shaped(s) && act.Delete? && act in Possible(s) && HandlerOk(s, act.h)
    ensures OnlyHandler(s, Next(env, s, act), act.h) && HandlerOk(Next(env, s, act), act.h)
  {
    hide AttemptStep;
  }

  lemma DeleteInv(env: Env, s: Sys, act: Action)
    requires Inv(env, s) && act.Delete? && act in Possible(s)
    ensures Inv(env, Next(env, s, act))
  {
    var s' := Next(env, s, act);
    assert HandlerOk(s, act.h);
    DeleteLocal(s, act, env);
    NoTaskYet(env, s, act.h);
    forall j | j in s'.jobs && s'.origin[j] == act.h
      ensures JobOk(env, s', j)
    {
      assert JobOk(env, s, j);
    }
    HandlerStep(env, s, s', act.h);
  }

  lemma RespondLocal(env: Env, s: Sys, act: Action)
    requires Shaped(s) && act.Respond? && act in Possible(s) && HandlerOk(s, act.h)
    ensures OnlyHandler(s, Next(env, s, act), act.h) && HandlerOk(Next(env, s, act), act.h)
  {
    hide AttemptStep;
  }

  lemma RespondJob(env: Env, s: Sys, act: Action, j: nat)
    requires act.Respond? && act in Possible(s) && j in s.jobs && j in s.origin && s.origin[j] == act.h
    requires JobOk(env, s, j)
    ensures JobOk(env, Next(env, s, act), j)
  {
    hide AttemptStep;
  }

  lemma RespondInv(env: Env, s: Sys, act: Action)
    requires Inv(env, s) && act.Respond? && act in Possible(s)
    ensures Inv(env, Next(env, s, act))
  {
    assert HandlerOk(s, act.h);
    RespondLocal(env, s, act);
    NoTaskYet(env, s, act.h);
    forall j | j in s.jobs && s.origin[j] == act.h
      ensures JobOk(env, Next(env, s, act), j)
    {
      RespondJob(env, s, act, j);
    }
    HandlerStep(env, s, Next(env, s, act), act.h);
  }

  // ---------------------------------------------------------------------------------------
  // Tasks
  // ---------------------------------------------------------------------------------------

  lemma {:induction false} StoredGrows(entries: seq<Option<Child>>, i: nat)
    requires i < |entries|
    ensures Stored(entries[..i + 1])
         == if entries[i].Some? then Stored(entries[..i]) + [entries[i].value] else Stored(entries[..i])
  {
    assert entries[..i + 1][..i] == entries[..i];
  }

  lemma SubsequenceGrows<T>(xs: seq<T>, ys: seq<T>, y: T)
    requires Subsequence(xs, ys)
    ensures Subsequence(xs, ys + [y]) && Subsequence(xs + [y], ys + [y])
  {
    assert (ys + [y])[..|ys|] == ys && (xs + [y])[..|xs|] == xs;
  }

  /** An insert step stores the next entry or none, or ends the attempt. */
  lemma InsertOutcome(env: Env, row: JobRow, kids: seq<Child>, stored: string -> bool, w: Write, i: nat, input: Input)
    requires Fits(Inserting(w, i), input)
    ensures var step := AttemptStep(env, row, kids, stored, Inserting(w, i), input);
            if i >= |Entries(env, w)| then step == Step(None, None, Done(w))
            else
              && step.stmt.None? && step.next == Go(Inserting(w, i + 1))
              && (step.child.None? || step.child == Entries(env, w)[i])
  {
  }

  lemma InsertKeeps(env: Env, row: JobRow, kids: seq<Child>, task: Task, stored: string -> bool, input: Input)
    requires TaskRowOk(env, row, kids, task) && task.state.Running? && task.state.a.Inserting?
    requires Fits(task.state.a, input)
    ensures var step := AttemptStep(env, row, kids, stored, task.state.a, input);
            && step.stmt.None?
            && TaskRowOk(env, row, KidsAfter(kids, step.child), task.(state := TaskNext(step.next)))
  {
    hide AttemptStep, CompletedBy, WellMade, Subsequence, Stored, Entries;
    var w, i := task.state.a.w, task.state.a.i;
    InsertOutcome(env, row, kids, stored, w, i, input);
    if i < |Entries(env, w)| {
      InsertOne(kids, Entries(env, w), i);
    } else {
      assert Entries(env, w)[..i] == Entries(env, w);
    }
  }

  /** Whether or not the next entry gets stored, the child rows stay a subsequence of the entries read. */
  lemma InsertOne(kids: seq<Child>, entries: seq<Option<Child>>, i: nat)
    requires i < |entries| && Subsequence(kids, Stored(entries[..i]))
    ensures Subsequence(kids, Stored(entries[..i + 1]))
    ensures entries[i].Some? ==> Subsequence(kids + [entries[i].value], Stored(entries[..i + 1]))
  {
    StoredGrows(entries, i);
    if entries[i].Some? {
      SubsequenceGrows(kids, Stored(entries[..i]), entries[i].value);
    }
  }

  /** The object store's answer never makes a step skip its retries, and a step keeps row, child rows and
      task in agreement. */
  lemma AttemptKeeps(env: Env, row: JobRow, kids: seq<Child>, task: Task, stored: string -> bool, input: Input)
    requires TaskRowOk(env, row, kids, task) && task.state.Running? && Fits(task.state.a, input)
    requires row.audioUrl.Some? && row.audioUrl.value != ""
    ensures var step := AttemptStep(env, row, kids, stored, task.state.a, input);
            var row' := RowAfter(env, row, step.stmt);
            && TaskRowOk(env, row', KidsAfter(kids, step.child), task.(state := TaskNext(step.next)))
            && row'.audioUrl == row.audioUrl && row'.photoUrls == row.photoUrls
  {
    if task.state.a.Inserting? {
      InsertKeeps(env, row, kids, task, stored, input);
    } else if task.state.a.Writing? {
      ApplyCompletes(env, row, SetPipeline(task.state.a.w));
      assert Entries(env, task.state.a.w)[..0] == [];
    }
  }

  /** Only the task `t` and the row it is about changed. */
  ghost predicate OnlyTask(s: Sys, s': Sys, t: nat) {
    && Shaped(s) && Shaped(s')
    && t in s.tasks && s.tasks[t].payload.JobRef? && s.tasks[t].payload.job in s.jobs
    && s'.store == s.store && s'.handlers == s.handlers && s'.origin == s.origin
    && s'.tasks.Keys == s.tasks.Keys && s'.jobs.Keys == s.jobs.Keys
    && s'.tasks[t].payload == s.tasks[t].payload
    && (forall u | u in s.tasks && u != t :: s'.tasks[u] == s.tasks[u])
    && (forall j | j in s.jobs && j != s.tasks[t].payload.job :: s'.jobs[j] == s.jobs[j] && s'.kids[j] == s.kids[j])
  }

  /** A worker step leaves the row's keys alone and keeps row, child rows and task in agreement. */
  ghost predicate TaskAgrees(env: Env, s: Sys, s': Sys, t: nat)
    requires OnlyTask(s, s', t)
  {
    var j := s.tasks[t].payload.job;
    && s'.jobs[j].audioUrl == s.jobs[j].audioUrl && s'.jobs[j].photoUrls == s.jobs[j].photoUrls
    && TaskRowOk(env, s'.jobs[j], s'.kids[j], s'.tasks[t])
  }

  lemma TaskStepJob(env: Env, s: Sys, s': Sys, t: nat, j: nat)
    requires OnlyTask(s, s', t) && TaskAgrees(env, s, s', t)
    requires j in s.jobs && JobOk(env, s, j) && TaskOk(s, t) && HandlerOk(s, s.origin[j])
    ensures JobOk(env, s', j)
  {
  }

  lemma JobOrigin(env: Env, s: Sys, j: nat)
    requires j in s.jobs && JobOk(env, s, j)
    ensures j in s.origin && s.origin[j] in s.handlers
  {
  }

  lemma TaskStepHandlers(s: Sys, s': Sys, t: nat, h: nat)
    requires OnlyTask(s, s', t) && h in s.handlers && HandlerOk(s, h)
    ensures HandlerOk(s', h)
  {
  }

  lemma TaskStep(env: Env, s: Sys, s': Sys, t: nat)
    requires Inv(env, s) && OnlyTask(s, s', t) && TaskAgrees(env, s, s', t)
    ensures Inv(env, s')
  {
    hide HandlerOk, Apart, JobOk, TaskRowOk, TaskAgrees;
    forall h | h in s'.handlers
      ensures HandlerOk(s', h)
    {
      TaskStepHandlers(s, s', t, h);
    }
    forall f, g | f in s'.handlers && g in s'.handlers
      ensures Apart(s', f, g)
    {
      SameApart(s, s', f, g);
    }
    forall j | j in s'.jobs
      ensures JobOk(env, s', j)
    {
      JobOrigin(env, s, j);
      TaskStepJob(env, s, s', t, j);
    }
    forall u | u in s'.tasks
      ensures TaskOk(s', u)
    {
      assert TaskOk(s, u);
    }
  }

  /** The task of a row that its request handed over, as the invariant has it. */
  lemma TaskRow(env: Env, s: Sys, t: nat)
    requires Inv(env, s) && t in s.tasks
    ensures s.tasks[t].payload.JobRef? && s.tasks[t].payload.job in s.jobs
    ensures var row, kids := s.jobs[s.tasks[t].payload.job], s.kids[s.tasks[t].payload.job];
            && TaskRowOk(env, row, kids, s.tasks[t])
            && row.audioUrl.Some? && row.audioUrl.value != "" && row.audioUrl.value in s.store
  {
    assert TaskOk(s, t);
    var j := s.tasks[t].payload.job;
    assert JobOk(env, s, j);
    assert HandlerOk(s, s.origin[j]) && Named(s.handlers[s.origin[j]].keys);
  }

  /** What one call of an attempt changes. */
  lemma AdvanceChanges(env: Env, s: Sys, t: nat, input: Input)
    requires Advance(t, input) in Possible(s) && s.tasks[t].payload.JobRef?
    ensures var s', step, j := Next(env, s, Advance(t, input)), StepOf(env, s, t, input), s.tasks[t].payload.job;
            && s'.store == s.store && s'.handlers == s.handlers && s'.origin == s.origin
            && s'.jobs == s.jobs[j := RowAfter(env, s.jobs[j], step.stmt)]
            && s'.kids == s.kids[j := KidsAfter(s.kids[j], step.child)]
            && s'.tasks == s.tasks[t := s.tasks[t].(state := TaskNext(step.next))]
  {
  }

  lemma AdvanceAgrees(env: Env, s: Sys, act: Action)
    requires Shaped(s) && act.Advance? && act in Possible(s) && s.tasks[act.t].payload.JobRef?
    requires var j := s.tasks[act.t].payload.job;
             && TaskRowOk(env, s.jobs[j], s.kids[j], s.tasks[act.t])
             && s.jobs[j].audioUrl.Some? && s.jobs[j].audioUrl.value != ""
    ensures OnlyTask(s, Next(env, s, act), act.t) && TaskAgrees(env, s, Next(env, s, act), act.t)
  {
    var j := s.tasks[act.t].payload.job;
    AttemptKeeps(env, s.jobs[j], s.kids[j], s.tasks[act.t], InStore(s), act.input);
  }

  lemma AdvanceInv(env: Env, s: Sys, act: Action)
    requires Inv(env, s) && act.Advance? && act in Possible(s)
    ensures Inv(env, Next(env, s, act))
  {
    TaskRow(env, s, act.t);
    AdvanceAgrees(env, s, act);
    TaskStep(env, s, Next(env, s, act), act.t);
  }

  lemma SettleAgrees(env: Env, s: Sys, act: Action)
    requires Shaped(s) && (act.Settle? || act.Deliver?) && act in Possible(s) && s.tasks[act.t].payload.JobRef?
    requires s.tasks[act.t].payload.job in s.jobs
    requires TaskRowOk(env, s.jobs[s.tasks[act.t].payload.job], s.kids[s.tasks[act.t].payload.job], s.tasks[act.t])
    ensures OnlyTask(s, Next(env, s, act), act.t) && TaskAgrees(env, s, Next(env, s, act), act.t)
  {
  }

  lemma SettleInv(env: Env, s: Sys, act: Action)
    requires Inv(env, s) && (act.Settle? || act.Deliver?) && act in Possible(s)
    ensures Inv(env, Next(env, s, act))
  {
    TaskRow(env, s, act.t);
    SettleAgrees(env, s, act);
    TaskStep(env, s, Next(env, s, act), act.t);
  }

  // ---------------------------------------------------------------------------------------
  // Every reachable state
  // ---------------------------------------------------------------------------------------

  lemma NextInv(env: Env, s: Sys, act: Action)
    requires Inv(env, s) && act in Possible(s)
    ensures Inv(env, Next(env, s, act))
  {
    match act
    case Begin(_, _, _, _, _, _) => BeginInv(env, s, act);
    case Upload(_, _) => UploadInv(env, s, act);
    case CreateJob(_, _, _) => CreateJobInv(env, s, act);
    case Enqueue(_, _, _) => EnqueueInv(env, s, act);
    case NullOut(_) => NullOutInv(env, s, act);
    case Delete(_, _) => DeleteInv(env, s, act);
    case Respond(_) => RespondInv(env, s, act);
    case Deliver(_) => SettleInv(env, s, act);
    case Advance(_, _) => AdvanceInv(env, s, act);
    case Settle(_) => SettleInv(env, s, act);
  }

  lemma {:induction false} Reachable(env: Env, acts: seq<Action>)
    requires Legal(env, acts)
    ensures Inv(env, Exec(env, acts))
  {
    if acts != [] {
      Reachable(env, acts[..|acts| - 1]);
      NextInv(env, Exec(env, acts[..|acts| - 1]), acts[|acts| - 1]);
    }
  }
}
