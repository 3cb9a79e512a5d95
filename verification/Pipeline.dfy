/** The whole job pipeline: upload requests, the object store, the job tables, the task queue and the worker.

    Every request, task and attempt is a process; a run interleaves their single steps in any order.  An
    upload, insert or enqueue that fails has no effect, the null-out and the error handler's update succeed,
    and the outcome of an attempt is acknowledged. */
module Pipeline {
  import opened Wrappers
  import opened JobRows
  import Keys

  const MaxRetry := 3

  /** Where an upload request stands.  `n` counts the objects uploaded, `i` the ones deleted again. */
  datatype HandlerPc =
    | Uploading(n: nat)
    | Created(job: nat)
    | Unqueued(job: nat)
    | Cleaning(row: Option<nat>, n: nat, i: nat, clean: bool)
    | Accepted(job: nat, task: nat)
    | Rejected(row: Option<nat>, clean: bool)

  /** A request and the keys it writes: the audio key first, then the photo keys. */
  datatype Handler = Handler(keys: seq<string>, lang: string, pc: HandlerPc)

  datatype Payload = Malformed | JobRef(job: nat)

  datatype TaskState = Waiting | Running(a: Attempt) | Erred(skip: bool) | Succeeded(w: Write) | Archived(skip: bool)

  datatype Task = Task(payload: Payload, retried: nat, state: TaskState)

  /** `origin` records which request inserted a row. */
  datatype Sys = Sys(
    store: set<string>, jobs: map<nat, JobRow>, kids: map<nat, seq<Child>>, origin: map<nat, nat>,
    handlers: map<nat, Handler>, tasks: map<nat, Task>)

  const Empty := Sys({}, map[], map[], map[], map[], map[])

  datatype Action =
    | Begin(h: nat, company: string, prefix: string, audio: string, photos: seq<string>, lang: string)
    | Upload(h: nat, ok: bool)
    | CreateJob(h: nat, job: nat, ok: bool)
    | Enqueue(h: nat, t: nat, ok: bool)
    | NullOut(h: nat)
    | Delete(h: nat, ok: bool)
    | Respond(h: nat)
    | Deliver(t: nat)
    | Advance(t: nat, input: Input)
    | Settle(t: nat)

  /** No object and no request is under the freshly drawn prefix. */
  ghost predicate FreshPrefix(s: Sys, company: string, prefix: string) {
    && (forall k | k in s.store :: !(Keys.Base(company, prefix) <= k))
    && (forall h, i | h in s.handlers && 0 <= i < |s.handlers[h].keys| ::
          !(Keys.Base(company, prefix) <= s.handlers[h].keys[i]))
  }

  ghost predicate Enabled(s: Sys, act: Action) {
    match act
    case Begin(h, company, prefix, _, _, _) => h !in s.handlers && FreshPrefix(s, company, prefix)
    case Upload(h, _) => h in s.handlers && s.handlers[h].pc.Uploading? && s.handlers[h].pc.n < |s.handlers[h].keys|
    case CreateJob(h, j, _) =>
      && h in s.handlers && s.handlers[h].pc == Uploading(|s.handlers[h].keys|) && s.handlers[h].keys != []
      && j !in s.jobs
    case Enqueue(h, t, _) => h in s.handlers && s.handlers[h].pc.Created? && t !in s.tasks
    case NullOut(h) => h in s.handlers && s.handlers[h].pc.Unqueued? && s.handlers[h].pc.job in s.jobs
    case Delete(h, _) =>
      && h in s.handlers && s.handlers[h].pc.Cleaning?
      && s.handlers[h].pc.i < s.handlers[h].pc.n <= |s.handlers[h].keys|
    case Respond(h) => h in s.handlers && s.handlers[h].pc.Cleaning? && s.handlers[h].pc.i >= s.handlers[h].pc.n
    case Deliver(t) => t in s.tasks && s.tasks[t].state.Waiting?
    case Advance(t, input) =>
      && t in s.tasks && s.tasks[t].state.Running? && Fits(s.tasks[t].state.a, input)
      && (s.tasks[t].payload.JobRef? ==> s.tasks[t].payload.job in s.jobs && s.tasks[t].payload.job in s.kids)
    case Settle(t) =>
      && t in s.tasks && s.tasks[t].state.Erred?
      && (s.tasks[t].payload.JobRef? ==> s.tasks[t].payload.job in s.jobs)
  }

  function TaskNext(next: Onward): TaskState {
    match next
    case Go(a) => Running(a)
    case Done(w) => Succeeded(w)
    case Fail(skip) => Erred(skip)
  }

  /** The queue's decision after the error handler ran. */
  function Retried(task: Task): Task
    requires task.state.Erred?
  {
    if task.state.skip || task.retried >= MaxRetry then task.(state := Archived(task.state.skip))
    else task.(retried := task.retried + 1, state := Waiting)
  }

  ghost function InStore(s: Sys): string -> bool {
    k => k in s.store
  }

  ghost function StepOf(env: Env, s: Sys, t: nat, input: Input): Step
    requires Advance(t, input) in Possible(s) && s.tasks[t].payload.JobRef?
  {
    var j := s.tasks[t].payload.job;
    AttemptStep(env, s.jobs[j], s.kids[j], InStore(s), s.tasks[t].state.a, input)
  }

  /** The actions that some process may take next. */
  ghost function Possible(s: Sys): iset<Action> {
    iset act: Action | Enabled(s, act)
  }

  ghost function Next(env: Env, s: Sys, act: Action): Sys
    requires act in Possible(s)
  {
    match act
    case Begin(h, company, prefix, audio, photos, lang) =>
      s.(handlers := s.handlers[h := Handler(Keys.RequestKeys(company, prefix, audio, photos), lang, Uploading(0))])
    case Upload(h, ok) =>
      var r := s.handlers[h];
      if ok then s.(store := s.store + {r.keys[r.pc.n]}, handlers := s.handlers[h := r.(pc := Uploading(r.pc.n + 1))])
      else s.(handlers := s.handlers[h := r.(pc := Cleaning(None, r.pc.n, 0, true))])
    case CreateJob(h, j, ok) =>
      var r := s.handlers[h];
      if ok then
        s.(jobs := s.jobs[j := NewRow(r.keys[0], r.keys[1..], r.lang)],
           kids := s.kids[j := []], origin := s.origin[j := h],
           handlers := s.handlers[h := r.(pc := Created(j))])
      else s.(handlers := s.handlers[h := r.(pc := Cleaning(None, |r.keys|, 0, true))])
    case Enqueue(h, t, ok) =>
      var r := s.handlers[h];
      if ok then
        s.(tasks := s.tasks[t := Task(JobRef(r.pc.job), 0, Waiting)],
           handlers := s.handlers[h := r.(pc := Accepted(r.pc.job, t))])
      else s.(handlers := s.handlers[h := r.(pc := Unqueued(r.pc.job))])
    case NullOut(h) =>
      var r, j := s.handlers[h], s.handlers[h].pc.job;
      s.(jobs := s.jobs[j := s.jobs[j].(status := Failed, audioUrl := None, photoUrls := [])],
         handlers := s.handlers[h := r.(pc := Cleaning(Some(j), |r.keys|, 0, true))])
    case Delete(h, ok) =>
      var r := s.handlers[h];
      s.(store := if ok then s.store - {r.keys[r.pc.i]} else s.store,
         handlers := s.handlers[h := r.(pc := r.pc.(i := r.pc.i + 1, clean := r.pc.clean && ok))])
    case Respond(h) =>
      var r := s.handlers[h];
      s.(handlers := s.handlers[h := r.(pc := Rejected(r.pc.row, r.pc.clean))])
    case Deliver(t) => s.(tasks := s.tasks[t := s.tasks[t].(state := Running(Loading))])
    case Advance(t, input) =>
      var task := s.tasks[t];
      if task.payload.Malformed? then s.(tasks := s.tasks[t := task.(state := Erred(true))])
      else
        var j, step := task.payload.job, StepOf(env, s, t, input);
        s.(jobs := s.jobs[j := RowAfter(env, s.jobs[j], step.stmt)],
           kids := s.kids[j := KidsAfter(s.kids[j], step.child)],
           tasks := s.tasks[t := task.(state := TaskNext(step.next))])
    case Settle(t) =>
      var task := s.tasks[t];
      var marks := task.retried >= MaxRetry && task.payload.JobRef?;
      s.(jobs := if marks then s.jobs[task.payload.job := s.jobs[task.payload.job].(status := Failed)] else s.jobs,
         tasks := s.tasks[t := Retried(task)])
  }

  ghost predicate Legal(env: Env, acts: seq<Action>)
    decreases |acts|, 0
  {
    acts == [] || (Legal(env, acts[..|acts| - 1]) && acts[|acts| - 1] in Possible(Exec(env, acts[..|acts| - 1])))
  }

  /** The state a run from the empty system reaches. */
  ghost function Exec(env: Env, acts: seq<Action>): Sys
    requires Legal(env, acts)
    decreases |acts|, 1
  {
    if acts == [] then Empty else Next(env, Exec(env, acts[..|acts| - 1]), acts[|acts| - 1])
  }
}
