/** What holds of every run of the pipeline, whatever fails and however the processes interleave. */
module PipelineTheorems {
  import opened Wrappers
  import opened JobRows
  import opened Pipeline
  import opened PipelineInv
  import Keys
  import Tags

  // ---------------------------------------------------------------------------------------
  // No job is lost
  // ---------------------------------------------------------------------------------------

  predicate Live(task: Task) {
    task.retried <= MaxRetry && (task.state.Waiting? || task.state.Running? || task.state.Erred?)
  }

  predicate InFlight(r: Handler) {
    !r.pc.Accepted? && !r.pc.Rejected?
  }

  /** Every job that is neither completed nor failed has a live task with retries left, or its create request
      is still on its way to the queue. */
  lemma NoLostJobs(env: Env, acts: seq<Action>, j: nat)
    requires Legal(env, acts) && j in Exec(env, acts).jobs && Unfinished(Exec(env, acts).jobs[j])
    ensures var s := Exec(env, acts);
            || (exists t :: t in s.tasks && s.tasks[t].payload == JobRef(j) && Live(s.tasks[t]))
            || (exists h :: h in s.handlers && (s.handlers[h].pc == Created(j) || s.handlers[h].pc == Unqueued(j)))
  {
    Reachable(env, acts);
    var s := Exec(env, acts);
    assert JobOk(env, s, j);
    var h := s.origin[j];
    assert HandlerOk(s, h);
    if s.handlers[h].pc.Accepted? {
      assert s.tasks[s.handlers[h].pc.task].payload == JobRef(j);
    }
  }

  /** `k` is one of the objects of a request that was accepted. */
  ghost predicate AcceptedKey(s: Sys, k: string) {
    exists h, i ::
      h in s.handlers && s.handlers[h].pc.Accepted? && 0 <= i < |s.handlers[h].keys| && s.handlers[h].keys[i] == k
  }

  /** Once no request and no task is left, every job is completed or failed, and the store holds exactly the
      objects of the accepted requests (when every clean-up delete succeeded). */
  lemma AtRest(env: Env, acts: seq<Action>)
    requires Legal(env, acts)
    requires forall h | h in Exec(env, acts).handlers :: !InFlight(Exec(env, acts).handlers[h])
    requires forall t | t in Exec(env, acts).tasks :: !Live(Exec(env, acts).tasks[t])
    ensures var s := Exec(env, acts);
            && (forall j | j in s.jobs :: s.jobs[j].status == Completed || s.jobs[j].status == Failed)
            && ((forall h | h in s.handlers && s.handlers[h].pc.Rejected? :: s.handlers[h].pc.clean) ==>
                  forall k :: k in s.store <==> AcceptedKey(s, k))
  {
    var s := Exec(env, acts);
    forall j | j in s.jobs
      ensures s.jobs[j].status == Completed || s.jobs[j].status == Failed
    {
      if Unfinished(s.jobs[j]) {
        NoLostJobs(env, acts, j);
      }
    }
    Reachable(env, acts);
    StoreIsOwned(env, acts);
    if forall h | h in s.handlers && s.handlers[h].pc.Rejected? :: s.handlers[h].pc.clean {
      forall k | k in s.store
        ensures AcceptedKey(s, k)
      {
        assert OwnedKey(s, k);
        var h, i :| h in s.handlers && 0 <= i < |s.handlers[h].keys| && s.handlers[h].keys[i] == k;
        assert HandlerOk(s, h);
      }
      forall k | AcceptedKey(s, k)
        ensures k in s.store
      {
        var h, i :| h in s.handlers && s.handlers[h].pc.Accepted? && 0 <= i < |s.handlers[h].keys|
            && s.handlers[h].keys[i] == k;
        assert HandlerOk(s, h);
      }
    }
  }

  ghost predicate OwnedKey(s: Sys, k: string) {
    exists h, i :: h in s.handlers && 0 <= i < |s.handlers[h].keys| && s.handlers[h].keys[i] == k
  }

  lemma HandlersStay(env: Env, s: Sys, act: Action, h: nat)
    requires act in Possible(s) && h in s.handlers
    ensures h in Next(env, s, act).handlers && Next(env, s, act).handlers[h].keys == s.handlers[h].keys
  {
    hide AttemptStep;
  }

  /** An object appears in the store only by an upload of its own request. */
  lemma NewObject(env: Env, s: Sys, act: Action, k: string)
    requires act in Possible(s) && k !in s.store && k in Next(env, s, act).store
    ensures act.Upload? && s.handlers[act.h].keys[s.handlers[act.h].pc.n] == k
  {
    hide AttemptStep;
  }

  lemma OwnedLater(env: Env, s: Sys, act: Action, k: string)
    requires act in Possible(s) && (k in s.store ==> OwnedKey(s, k)) && k in Next(env, s, act).store
    ensures OwnedKey(Next(env, s, act), k)
  {
    hide Next, Possible;
    if k in s.store {
      var h, i :| h in s.handlers && 0 <= i < |s.handlers[h].keys| && s.handlers[h].keys[i] == k;
      HandlersStay(env, s, act, h);
      assert Next(env, s, act).handlers[h].keys[i] == k;
    } else {
      UploadedKey(env, s, act, k);
    }
  }

  lemma UploadedKey(env: Env, s: Sys, act: Action, k: string)
    requires act in Possible(s) && k !in s.store && k in Next(env, s, act).store
    ensures OwnedKey(Next(env, s, act), k)
  {
    NewObject(env, s, act, k);
    HandlersStay(env, s, act, act.h);
    assert Next(env, s, act).handlers[act.h].keys[s.handlers[act.h].pc.n] == k;
  }

  /** Nothing is in the store that no request put there. */
  lemma {:induction false} StoreIsOwned(env: Env, acts: seq<Action>)
    requires Legal(env, acts)
    ensures forall k | k in Exec(env, acts).store :: OwnedKey(Exec(env, acts), k)
  {
    if acts != [] {
      StoreIsOwned(env, acts[..|acts| - 1]);
      forall k | k in Exec(env, acts).store
        ensures OwnedKey(Exec(env, acts), k)
      {
        OwnedLater(env, Exec(env, acts[..|acts| - 1]), acts[|acts| - 1], k);
      }
    }
  }

  // ---------------------------------------------------------------------------------------
  // Objects, rows and answers
  // ---------------------------------------------------------------------------------------

  /** At every moment each key on a job row is in the store. */
  lemma ReferentialOrder(env: Env, acts: seq<Action>, j: nat)
    requires Legal(env, acts) && j in Exec(env, acts).jobs
    ensures var s := Exec(env, acts);
            && (s.jobs[j].audioUrl.Some? ==> s.jobs[j].audioUrl.value in s.store)
            && (forall i | 0 <= i < |s.jobs[j].photoUrls| :: s.jobs[j].photoUrls[i] in s.store)
  {
    Reachable(env, acts);
    var s := Exec(env, acts);
    assert JobOk(env, s, j);
    assert HandlerOk(s, s.origin[j]);
  }

  lemma {:induction false} LegalPrefix(env: Env, acts: seq<Action>, k: nat)
    requires Legal(env, acts) && k <= |acts|
    ensures Legal(env, acts[..k])
    decreases |acts|
  {
    if k < |acts| {
      LegalPrefix(env, acts[..|acts| - 1], k);
      assert acts[..|acts| - 1][..k] == acts[..k];
    } else {
      assert acts[..k] == acts;
    }
  }

  /** That is so after every single step of a run, not only when a request returns. */
  lemma EveryMoment(env: Env, acts: seq<Action>, k: nat)
    requires Legal(env, acts) && k <= |acts|
    ensures Legal(env, acts[..k])
    ensures var s := Exec(env, acts[..k]);
            forall j | j in s.jobs ::
              && (s.jobs[j].audioUrl.Some? ==> s.jobs[j].audioUrl.value in s.store)
              && (forall i | 0 <= i < |s.jobs[j].photoUrls| :: s.jobs[j].photoUrls[i] in s.store)
  {
    LegalPrefix(env, acts, k);
    forall j | j in Exec(env, acts[..k]).jobs {
      ReferentialOrder(env, acts[..k], j);
    }
  }

  /** What an accepted request leaves: its objects, its one row with its keys in order, exactly one task. */
  ghost predicate All(s: Sys, h: nat, j: nat, t: nat)
    requires h in s.handlers
  {
    && (forall i | 0 <= i < |s.handlers[h].keys| :: s.handlers[h].keys[i] in s.store)
    && j in s.jobs && s.handlers[h].keys == [s.jobs[j].audioUrl.GetOr("")] + s.jobs[j].photoUrls
    && (forall u :: u in s.tasks && s.tasks[u].payload == JobRef(j) <==> u == t)
    && (forall k :: k in s.jobs && k in s.origin && s.origin[k] == h ==> k == j)
  }

  /** What a rejected request leaves: no object (if its deletes succeeded), no task, and no row or a failed row
      without keys. */
  ghost predicate Nothing(s: Sys, h: nat, row: Option<nat>, clean: bool)
    requires h in s.handlers
  {
    && (clean ==> forall i | 0 <= i < |s.handlers[h].keys| :: s.handlers[h].keys[i] !in s.store)
    && (forall j :: j in s.jobs && j in s.origin && s.origin[j] == h ==>
          && row == Some(j) && s.jobs[j].status == Failed && s.jobs[j].audioUrl == None && s.jobs[j].photoUrls == []
          && forall u | u in s.tasks :: s.tasks[u].payload != JobRef(j))
  }

  lemma OneTask(env: Env, s: Sys, h: nat)
    requires Inv(env, s) && h in s.handlers && s.handlers[h].pc.Accepted?
    ensures forall u :: u in s.tasks && s.tasks[u].payload == JobRef(s.handlers[h].pc.job) <==>
              u == s.handlers[h].pc.task
  {
    assert HandlerOk(s, h);
    forall u | u in s.tasks && s.tasks[u].payload == JobRef(s.handlers[h].pc.job)
      ensures u == s.handlers[h].pc.task
    {
      assert TaskOk(s, u);
    }
  }

  lemma OneRow(env: Env, s: Sys, h: nat)
    requires Inv(env, s) && h in s.handlers && s.handlers[h].pc.Accepted?
    ensures forall k :: k in s.jobs && k in s.origin && s.origin[k] == h ==> k == s.handlers[h].pc.job
  {
    forall k | k in s.jobs && s.origin[k] == h
      ensures k == s.handlers[h].pc.job
    {
      assert JobOk(env, s, k);
    }
  }

  lemma KeysOnRow(row: JobRow, keys: seq<string>)
    requires keys != [] && HasUrls(row, keys)
    ensures keys == [row.audioUrl.GetOr("")] + row.photoUrls
  {
  }

  lemma AcceptedRow(env: Env, s: Sys, h: nat)
    requires Inv(env, s) && h in s.handlers && s.handlers[h].pc.Accepted?
    ensures s.handlers[h].pc.job in s.jobs && s.handlers[h].keys != []
    ensures HasUrls(s.jobs[s.handlers[h].pc.job], s.handlers[h].keys)
  {
    assert HandlerOk(s, h) && JobOk(env, s, s.handlers[h].pc.job);
  }

  lemma AcceptedAll(env: Env, s: Sys, h: nat)
    requires Inv(env, s) && h in s.handlers && s.handlers[h].pc.Accepted?
    ensures All(s, h, s.handlers[h].pc.job, s.handlers[h].pc.task)
  {
    OneTask(env, s, h);
    OneRow(env, s, h);
    AcceptedRow(env, s, h);
    KeysOnRow(s.jobs[s.handlers[h].pc.job], s.handlers[h].keys);
    assert HandlerOk(s, h);
  }

  lemma RejectedNothing(env: Env, s: Sys, h: nat)
    requires Inv(env, s) && h in s.handlers && s.handlers[h].pc.Rejected?
    ensures Nothing(s, h, s.handlers[h].pc.row, s.handlers[h].pc.clean)
  {
    assert HandlerOk(s, h);
    NoTaskYet(env, s, h);
    forall j | j in s.jobs && s.origin[j] == h
      ensures s.handlers[h].pc.row == Some(j) && s.jobs[j].status == Failed && NoUrls(s.jobs[j])
    {
      assert JobOk(env, s, j);
    }
  }

  /** A request that was accepted left everything, now and later; one that was rejected left nothing. */
  lemma AllOrNothing(env: Env, acts: seq<Action>, h: nat)
    requires Legal(env, acts) && h in Exec(env, acts).handlers
    ensures var s, pc := Exec(env, acts), Exec(env, acts).handlers[h].pc;
            && (pc.Accepted? ==> All(s, h, pc.job, pc.task))
            && (pc.Rejected? ==> Nothing(s, h, pc.row, pc.clean))
  {
    Reachable(env, acts);
    var s := Exec(env, acts);
    if s.handlers[h].pc.Accepted? {
      AcceptedAll(env, s, h);
    } else if s.handlers[h].pc.Rejected? {
      RejectedNothing(env, s, h);
    }
  }

  // ---------------------------------------------------------------------------------------
  // Retries
  // ---------------------------------------------------------------------------------------

  /** How often the queue delivered `t`. */
  function Deliveries(acts: seq<Action>, t: nat): nat {
    if acts == [] then 0
    else Deliveries(acts[..|acts| - 1], t) + if acts[|acts| - 1] == Deliver(t) then 1 else 0
  }

  /** The deliveries that the state of a task accounts for. */
  ghost function Counted(s: Sys, t: nat): nat {
    if t !in s.tasks then 0 else s.tasks[t].retried + if s.tasks[t].state.Waiting? then 0 else 1
  }

  lemma CountedStep(env: Env, s: Sys, act: Action, t: nat)
    requires act in Possible(s)
    ensures Counted(Next(env, s, act), t) == Counted(s, t) + if act == Deliver(t) then 1 else 0
  {
    hide AttemptStep;
  }

  lemma {:induction false} DeliveriesCount(env: Env, acts: seq<Action>, t: nat)
    requires Legal(env, acts)
    ensures Deliveries(acts, t) == Counted(Exec(env, acts), t)
  {
    if acts != [] {
      DeliveriesCount(env, acts[..|acts| - 1], t);
      CountedStep(env, Exec(env, acts[..|acts| - 1]), acts[|acts| - 1], t);
    }
  }

  /** Every task is attempted at most four times.  Its job is failed exactly when the fourth attempt has
      failed, and no attempt ever takes one of the exits that skip the retries. */
  lemma BoundedRetries(env: Env, acts: seq<Action>, t: nat)
    requires Legal(env, acts) && t in Exec(env, acts).tasks
    ensures Deliveries(acts, t) <= 4
    ensures var s := Exec(env, acts);
            && s.tasks[t].payload.JobRef? && s.tasks[t].payload.job in s.jobs
            && (s.jobs[s.tasks[t].payload.job].status == Failed <==> s.tasks[t].state.Archived?)
            && (s.tasks[t].state.Archived? ==> Deliveries(acts, t) == 4)
            && s.tasks[t].state != Erred(true) && s.tasks[t].state != Archived(true)
  {
    Reachable(env, acts);
    DeliveriesCount(env, acts, t);
    TaskRow(env, Exec(env, acts), t);
  }

  /** A task whose payload cannot be decoded is archived after its next delivery, whatever retries are left, and
      changes nothing else. */
  lemma MalformedArchived(env: Env, s: Sys, t: nat, input: Input)
    requires t in s.tasks && s.tasks[t].payload.Malformed? && s.tasks[t].state.Waiting? && Fits(Loading, input)
    ensures Deliver(t) in Possible(s) && Advance(t, input) in Possible(Next(env, s, Deliver(t)))
    ensures var s2 := Next(env, Next(env, s, Deliver(t)), Advance(t, input));
            && Settle(t) in Possible(s2)
            && Next(env, s2, Settle(t)) == s.(tasks := s.tasks[t := s.tasks[t].(state := Archived(true))])
  {
  }

  /** What is left to do: retries, stages of the attempt, rows to insert. */
  function StagesLeft(state: TaskState): nat {
    match state
    case Waiting => 11
    case Running(Loading) => 10
    case Running(Marking(_)) => 9
    case Running(Downloading(_)) => 8
    case Running(Listening) => 7
    case Running(Storing(_)) => 6
    case Running(Advancing(_)) => 5
    case Running(Asking(_)) => 4
    case Running(Writing(_)) => 3
    case Running(Inserting(_, _)) => 2
    case Erred(_) => 1
    case Succeeded(_) => 0
    case Archived(_) => 0
  }

  function RowsLeft(env: Env, state: TaskState): int {
    if state.Running? && state.a.Inserting? then |Entries(env, state.a.w)| - state.a.i else 0
  }

  ghost predicate Closer(env: Env, task: Task, task': Task) {
    || task'.retried > task.retried
    || (task'.retried == task.retried && StagesLeft(task'.state) < StagesLeft(task.state))
    || (task'.retried == task.retried && StagesLeft(task'.state) == StagesLeft(task.state)
        && RowsLeft(env, task'.state) < RowsLeft(env, task.state))
  }

  lemma StepCloser(env: Env, row: JobRow, kids: seq<Child>, task: Task, stored: string -> bool, input: Input)
    requires TaskRowOk(env, row, kids, task) && task.state.Running? && Fits(task.state.a, input)
    ensures Closer(env, task, task.(state := TaskNext(AttemptStep(env, row, kids, stored, task.state.a, input).next)))
  {
  }

  predicate Moves(act: Action, t: nat) {
    (act.Deliver? || act.Advance? || act.Settle?) && act.t == t
  }

  lemma QueueCloser(env: Env, s: Sys, act: Action, t: nat)
    requires act in Possible(s) && (act.Deliver? || act.Settle?) && act.t == t
    requires t in s.tasks && s.tasks[t].retried <= MaxRetry && (s.tasks[t].state.Erred? ==> !s.tasks[t].state.skip)
    ensures t in Next(env, s, act).tasks && Live(s.tasks[t]) && Closer(env, s.tasks[t], Next(env, s, act).tasks[t])
  {
    hide AttemptStep;
  }

  lemma AdvanceCloser(env: Env, s: Sys, act: Action, t: nat)
    requires act in Possible(s) && act.Advance? && act.t == t && s.tasks[t].payload.JobRef?
    requires TaskRowOk(env, s.jobs[s.tasks[t].payload.job], s.kids[s.tasks[t].payload.job], s.tasks[t])
    ensures t in Next(env, s, act).tasks && Live(s.tasks[t]) && Closer(env, s.tasks[t], Next(env, s, act).tasks[t])
  {
    var j := s.tasks[t].payload.job;
    StepCloser(env, s.jobs[j], s.kids[j], s.tasks[t], InStore(s), act.input);
  }

  lemma MovingTask(s: Sys, act: Action, t: nat)
    requires act in Possible(s) && Moves(act, t)
    ensures t in s.tasks
  {
  }

  lemma MoveCloser(env: Env, s: Sys, act: Action, t: nat)
    requires Inv(env, s) && act in Possible(s) && Moves(act, t)
    ensures t in s.tasks && t in Next(env, s, act).tasks && Live(s.tasks[t])
    ensures Closer(env, s.tasks[t], Next(env, s, act).tasks[t])
  {
    hide Next, Possible, Closer;
    MovingTask(s, act, t);
    TaskRow(env, s, t);
    if act.Advance? {
      AdvanceCloser(env, s, act, t);
    } else {
      QueueCloser(env, s, act, t);
    }
  }

  lemma OthersUntouched(env: Env, s: Sys, act: Action, t: nat)
    requires act in Possible(s) && t in s.tasks && !Moves(act, t)
    ensures t in Next(env, s, act).tasks && Next(env, s, act).tasks[t] == s.tasks[t]
  {
    hide AttemptStep;
  }

  lemma TaskBounds(env: Env, s: Sys, t: nat)
    requires Inv(env, s) && t in s.tasks
    ensures s.tasks[t].retried <= MaxRetry && RowsLeft(env, s.tasks[t].state) >= 0
  {
    TaskRow(env, s, t);
  }

  /** Every step of a task brings it closer to its end in a well-founded order (at most three retries, the
      stages of an attempt, the rows left to insert), and no other step touches it; so every task ends. */
  lemma TasksEnd(env: Env, acts: seq<Action>, t: nat)
    requires Legal(env, acts) && acts != [] && t in Exec(env, acts[..|acts| - 1]).tasks
    ensures var s, s', act := Exec(env, acts[..|acts| - 1]), Exec(env, acts), acts[|acts| - 1];
            && t in s'.tasks && s'.tasks[t].retried <= MaxRetry && RowsLeft(env, s'.tasks[t].state) >= 0
            && (if Moves(act, t) then Live(s.tasks[t]) && Closer(env, s.tasks[t], s'.tasks[t])
                else s'.tasks[t] == s.tasks[t])
  {
    var s, act := Exec(env, acts[..|acts| - 1]), acts[|acts| - 1];
    Reachable(env, acts[..|acts| - 1]);
    NextInv(env, s, act);
    if Moves(act, t) {
      MoveCloser(env, s, act, t);
    } else {
      OthersUntouched(env, s, act, t);
    }
    TaskBounds(env, Next(env, s, act), t);
  }

  // ---------------------------------------------------------------------------------------
  // Everything comes to rest
  // ---------------------------------------------------------------------------------------

  function RequestStages(pc: HandlerPc): nat {
    match pc
    case Uploading(_) => 4
    case Created(_) => 3
    case Unqueued(_) => 2
    case Cleaning(_, _, _, _) => 1
    case Accepted(_, _) => 0
    case Rejected(_, _) => 0
  }

  /** Objects left to upload, or to delete again. */
  function ObjectsLeft(r: Handler): int {
    match r.pc
    case Uploading(n) => |r.keys| - n
    case Cleaning(_, n, i, _) => n - i
    case _ => 0
  }

  ghost predicate Nearer(r: Handler, r': Handler) {
    || RequestStages(r'.pc) < RequestStages(r.pc)
    || (RequestStages(r'.pc) == RequestStages(r.pc) && ObjectsLeft(r') < ObjectsLeft(r))
  }

  predicate Works(act: Action, h: nat) {
    (act.Upload? || act.CreateJob? || act.Enqueue? || act.NullOut? || act.Delete? || act.Respond?) && act.h == h
  }

  /** A step of a request changes no other request. */
  ghost predicate OnlyRequest(s: Sys, s': Sys, h: nat) {
    h in s.handlers && h in s'.handlers && s'.handlers == s.handlers[h := s'.handlers[h]]
  }

  lemma UploadNearer(env: Env, s: Sys, act: Action)
    requires act in Possible(s) && (act.Upload? || act.Delete? || act.Respond?)
    ensures OnlyRequest(s, Next(env, s, act), act.h)
    ensures InFlight(s.handlers[act.h]) && Nearer(s.handlers[act.h], Next(env, s, act).handlers[act.h])
  {
    hide AttemptStep;
  }

  lemma SubmitNearer(env: Env, s: Sys, act: Action)
    requires act in Possible(s) && (act.CreateJob? || act.Enqueue? || act.NullOut?)
    ensures OnlyRequest(s, Next(env, s, act), act.h)
    ensures InFlight(s.handlers[act.h]) && Nearer(s.handlers[act.h], Next(env, s, act).handlers[act.h])
  {
    hide AttemptStep;
  }

  lemma RequestUntouched(env: Env, s: Sys, act: Action, h: nat)
    requires act in Possible(s) && h in s.handlers && !Works(act, h)
    ensures h in Next(env, s, act).handlers && Next(env, s, act).handlers[h] == s.handlers[h]
  {
    hide AttemptStep;
  }

  lemma WorkNearer(env: Env, s: Sys, act: Action, h: nat)
    requires act in Possible(s) && Works(act, h)
    ensures OnlyRequest(s, Next(env, s, act), h)
    ensures InFlight(s.handlers[h]) && Nearer(s.handlers[h], Next(env, s, act).handlers[h])
  {
    hide Next, Possible;
    if act.Upload? || act.Delete? || act.Respond? {
      UploadNearer(env, s, act);
    } else {
      SubmitNearer(env, s, act);
    }
  }

  /** Every step of a request brings it closer to its answer in a well-founded order (its stage, then the objects
      left to upload or to delete), and no other step touches it; so every request ends. */
  lemma RequestsEnd(env: Env, acts: seq<Action>, h: nat)
    requires Legal(env, acts) && acts != [] && h in Exec(env, acts[..|acts| - 1]).handlers
    ensures var s, s', act := Exec(env, acts[..|acts| - 1]), Exec(env, acts), acts[|acts| - 1];
            && h in s'.handlers && ObjectsLeft(s'.handlers[h]) >= 0
            && if Works(act, h) then InFlight(s.handlers[h]) && Nearer(s.handlers[h], s'.handlers[h])
               else s'.handlers[h] == s.handlers[h]
  {
    if Works(acts[|acts| - 1], h) {
      WorkNearer(env, Exec(env, acts[..|acts| - 1]), acts[|acts| - 1], h);
    } else {
      RequestUntouched(env, Exec(env, acts[..|acts| - 1]), acts[|acts| - 1], h);
    }
    Reachable(env, acts);
    HandlerShape(env, Exec(env, acts), h);
  }

  lemma HandlerShape(env: Env, s: Sys, h: nat)
    requires Inv(env, s) && h in s.handlers
    ensures HandlerOk(s, h) && ObjectsLeft(s.handlers[h]) >= 0
  {
  }

  lemma Extends(env: Env, acts: seq<Action>, act: Action)
    requires Legal(env, acts) && act in Possible(Exec(env, acts))
    ensures Legal(env, acts + [act]) && Exec(env, acts + [act]) == Next(env, Exec(env, acts), act)
  {
    assert (acts + [act])[..|acts|] == acts;
  }

  /** A request in flight always has a next step. */
  lemma WorkPossible(s: Sys, h: nat) returns (act: Action)
    requires h in s.handlers && HandlerOk(s, h) && InFlight(s.handlers[h])
    ensures act in Possible(s) && Works(act, h)
  {
    var r := s.handlers[h];
    match r.pc
    case Uploading(n) =>
      if n < |r.keys| {
        act := Upload(h, false);
      } else {
        var j := FreshNat(s.jobs.Keys);
        act := CreateJob(h, j, false);
      }
    case Created(_) =>
      var t := FreshNat(s.tasks.Keys);
      act := Enqueue(h, t, false);
    case Unqueued(_) => act := NullOut(h);
    case Cleaning(_, n, i, _) => act := if i < n then Delete(h, false) else Respond(h);
  }

  /** So has a live task. */
  lemma MovePossible(s: Sys, t: nat) returns (act: Action)
    requires t in s.tasks && Live(s.tasks[t])
    requires s.tasks[t].payload.JobRef? ==> s.tasks[t].payload.job in s.jobs && s.tasks[t].payload.job in s.kids
    ensures act in Possible(s) && Moves(act, t)
  {
    act := match s.tasks[t].state
      case Waiting => Deliver(t)
      case Running(_) => Advance(t, Err)
      case _ => Settle(t);
  }

  function Busy(s: Sys): set<nat> {
    set h | h in s.handlers && InFlight(s.handlers[h])
  }

  function Alive(s: Sys): set<nat> {
    set t | t in s.tasks && Live(s.tasks[t])
  }

  lemma MoveKeeps(env: Env, s: Sys, act: Action, t: nat)
    requires act in Possible(s) && Moves(act, t)
    ensures Next(env, s, act).handlers == s.handlers && Next(env, s, act).tasks.Keys == s.tasks.Keys
    ensures forall u | u in s.tasks && u != t :: Next(env, s, act).tasks[u] == s.tasks[u]
  {
    hide AttemptStep;
  }

  /** A request can be carried on to its answer. */
  lemma {:induction false} FinishRequest(env: Env, acts: seq<Action>, h: nat) returns (run: seq<Action>)
    requires Legal(env, acts) && h in Busy(Exec(env, acts))
    ensures acts <= run && Legal(env, run) && Busy(Exec(env, run)) < Busy(Exec(env, acts))
    decreases RequestStages(Exec(env, acts).handlers[h].pc), ObjectsLeft(Exec(env, acts).handlers[h])
  {
    hide Next, Possible, HandlerOk, Exec, Legal;
    var s := Exec(env, acts);
    Reachable(env, acts);
    HandlerShape(env, s, h);
    var act := WorkPossible(s, h);
    WorkNearer(env, s, act, h);
    Extends(env, acts, act);
    run := acts + [act];
    BusyLess(s, Exec(env, run), h);
    if h in Busy(Exec(env, run)) {
      run := FinishRequest(env, run, h);
    }
  }

  lemma BusyLess(s: Sys, s': Sys, h: nat)
    requires h in Busy(s) && s'.handlers.Keys == s.handlers.Keys
    requires forall g | g in s.handlers && g != h :: s'.handlers[g] == s.handlers[g]
    ensures if h in Busy(s') then Busy(s') == Busy(s) else Busy(s') < Busy(s)
  {
  }

  /** A task can be carried on to its end. */
  lemma {:induction false} FinishTask(env: Env, acts: seq<Action>, t: nat) returns (run: seq<Action>)
    requires Legal(env, acts) && t in Alive(Exec(env, acts))
    ensures acts <= run && Legal(env, run) && Busy(Exec(env, run)) == Busy(Exec(env, acts))
    ensures Alive(Exec(env, run)) < Alive(Exec(env, acts))
    decreases MaxRetry - Exec(env, acts).tasks[t].retried, StagesLeft(Exec(env, acts).tasks[t].state),
              RowsLeft(env, Exec(env, acts).tasks[t].state)
  {
    hide Next, Possible, Exec, Legal, Live, InFlight, RowsLeft, StagesLeft;
    var s := Exec(env, acts);
    Reachable(env, acts);
    TaskPlace(env, s, t);
    var act := MovePossible(s, t);
    MoveCloser(env, s, act, t);
    MoveKeeps(env, s, act, t);
    Extends(env, acts, act);
    run := acts + [act];
    AliveLess(s, Exec(env, run), t);
    if t in Alive(Exec(env, run)) {
      Reachable(env, run);
      TaskBounds(env, Exec(env, run), t);
      run := FinishTask(env, run, t);
    }
  }

  lemma TaskPlace(env: Env, s: Sys, t: nat)
    requires Inv(env, s) && t in Alive(s)
    ensures t in s.tasks && s.tasks[t].payload.JobRef? && s.tasks[t].payload.job in s.jobs
    ensures s.tasks[t].payload.job in s.kids
    ensures s.tasks[t].retried <= MaxRetry && RowsLeft(env, s.tasks[t].state) >= 0
  {
    TaskRow(env, s, t);
  }

  lemma AliveLess(s: Sys, s': Sys, t: nat)
    requires t in Alive(s) && s'.tasks.Keys == s.tasks.Keys && s'.handlers == s.handlers
    requires forall u | u in s.tasks && u != t :: s'.tasks[u] == s.tasks[u]
    ensures Busy(s') == Busy(s)
    ensures if t in Alive(s') then Alive(s') == Alive(s) else Alive(s') < Alive(s)
  {
  }

  /** From every reachable state the system can come to rest, whatever is still under way. */
  lemma {:induction false} ComesToRest(env: Env, acts: seq<Action>) returns (run: seq<Action>)
    requires Legal(env, acts)
    ensures acts <= run && Legal(env, run)
    ensures forall h | h in Exec(env, run).handlers :: !InFlight(Exec(env, run).handlers[h])
    ensures forall t | t in Exec(env, run).tasks :: !Live(Exec(env, run).tasks[t])
    decreases Busy(Exec(env, acts)), Alive(Exec(env, acts))
  {
    hide Exec, Legal, Live, InFlight;
    run := acts;
    if Busy(Exec(env, acts)) != {} {
      var h :| h in Busy(Exec(env, acts));
      run := FinishRequest(env, acts, h);
      run := ComesToRest(env, run);
    } else if Alive(Exec(env, acts)) != {} {
      var t :| t in Alive(Exec(env, acts));
      run := FinishTask(env, acts, t);
      run := ComesToRest(env, run);
    } else {
      Idle(Exec(env, acts));
    }
  }

  lemma Idle(s: Sys)
    requires Busy(s) == {} && Alive(s) == {}
    ensures forall h | h in s.handlers :: !InFlight(s.handlers[h])
    ensures forall t | t in s.tasks :: !Live(s.tasks[t])
  {
    assert forall h | h in s.handlers && InFlight(s.handlers[h]) :: h in Busy(s);
    assert forall t | t in s.tasks && Live(s.tasks[t]) :: t in Alive(s);
  }

  /** The audio an attempt is about to download is in the store. */
  lemma DownloadFindsAudio(env: Env, acts: seq<Action>, t: nat)
    requires Legal(env, acts) && t in Exec(env, acts).tasks
    requires Exec(env, acts).tasks[t].state.Running? && Exec(env, acts).tasks[t].state.a.Downloading?
    ensures Exec(env, acts).tasks[t].state.a.audio in Exec(env, acts).store
  {
    Reachable(env, acts);
    TaskRow(env, Exec(env, acts), t);
  }

  // ---------------------------------------------------------------------------------------
  // Child rows
  // ---------------------------------------------------------------------------------------

  /** A step of the task of a completed row only inserts child rows. */
  lemma FinalAdvance(env: Env, s: Sys, act: Action)
    requires act.Advance? && act in Possible(s) && s.tasks[act.t].payload.JobRef?
    requires TaskRowOk(env, s.jobs[s.tasks[act.t].payload.job], s.kids[s.tasks[act.t].payload.job], s.tasks[act.t])
    requires s.jobs[s.tasks[act.t].payload.job].status == Completed
    ensures Next(env, s, act).jobs == s.jobs
  {
    hide Next;
    var j := s.tasks[act.t].payload.job;
    InsertKeeps(env, s.jobs[j], s.kids[j], s.tasks[act.t], InStore(s), act.input);
    AdvanceChanges(env, s, act.t, act.input);
    assert s.jobs == s.jobs[j := s.jobs[j]];
  }

  /** Only the three updates of a row touch rows that exist. */
  lemma RowsKept(env: Env, s: Sys, act: Action, j: nat)
    requires act in Possible(s) && j in s.jobs
    requires act.NullOut? ==> s.handlers[act.h].pc.job != j
    requires act.Advance? || act.Settle? ==> s.tasks[act.t].payload != JobRef(j)
    ensures j in Next(env, s, act).jobs && Next(env, s, act).jobs[j] == s.jobs[j]
  {
    hide AttemptStep;
  }

  lemma SettleKept(env: Env, s: Sys, act: Action, j: nat)
    requires act in Possible(s) && act.Settle? && s.tasks[act.t].payload == JobRef(j) && j in s.kids
    requires TaskRowOk(env, s.jobs[j], s.kids[j], s.tasks[act.t])
    ensures s.jobs[j].status != Completed
  {
  }

  lemma NullOutKept(env: Env, s: Sys, act: Action)
    requires Inv(env, s) && act in Possible(s) && act.NullOut?
    ensures s.handlers[act.h].pc.job in s.jobs && s.jobs[s.handlers[act.h].pc.job].status != Completed
  {
    assert HandlerOk(s, act.h) && JobOk(env, s, s.handlers[act.h].pc.job);
  }

  lemma FinalStep(env: Env, s: Sys, act: Action, j: nat)
    requires Inv(env, s) && act in Possible(s) && j in s.jobs && s.jobs[j].status == Completed
    ensures j in Next(env, s, act).jobs && Next(env, s, act).jobs[j] == s.jobs[j]
  {
    if act.NullOut? {
      NullOutKept(env, s, act);
    } else if act.Advance? || act.Settle? {
      TaskRow(env, s, act.t);
    }
    if (act.Advance? || act.Settle?) && s.tasks[act.t].payload == JobRef(j) {
      FinalTask(env, s, act, j);
    } else {
      RowsKept(env, s, act, j);
    }
  }

  lemma FinalTask(env: Env, s: Sys, act: Action, j: nat)
    requires act in Possible(s) && (act.Advance? || act.Settle?) && s.tasks[act.t].payload == JobRef(j) && j in s.kids
    requires TaskRowOk(env, s.jobs[j], s.kids[j], s.tasks[act.t]) && s.jobs[j].status == Completed
    ensures j in Next(env, s, act).jobs && Next(env, s, act).jobs[j] == s.jobs[j]
  {
    if act.Advance? {
      FinalAdvance(env, s, act);
    } else {
      SettleKept(env, s, act, j);
    }
  }

  /** A completed row is final. */
  lemma CompletedIsFinal(env: Env, acts: seq<Action>, j: nat)
    requires Legal(env, acts) && acts != [] && j in Exec(env, acts[..|acts| - 1]).jobs
    requires Exec(env, acts[..|acts| - 1]).jobs[j].status == Completed
    ensures j in Exec(env, acts).jobs && Exec(env, acts).jobs[j] == Exec(env, acts[..|acts| - 1]).jobs[j]
  {
    Reachable(env, acts[..|acts| - 1]);
    FinalStep(env, Exec(env, acts[..|acts| - 1]), acts[|acts| - 1], j);
  }

  /** However often attempts fail, a job's child rows come from one extraction, the one stored on its completed
      row: they are some of its storable entries, in order. */
  lemma ChildrenOnce(env: Env, acts: seq<Action>, j: nat)
    requires Legal(env, acts) && j in Exec(env, acts).jobs
    ensures var s := Exec(env, acts);
            && j in s.kids
            && (s.kids[j] != [] ==> s.jobs[j].status == Completed)
            && (s.jobs[j].status == Completed ==>
                  exists w :: CompletedBy(env, s.jobs[j], w) && WellMade(env, w)
                      && Subsequence(s.kids[j], Stored(Entries(env, w))))
  {
    Reachable(env, acts);
    OnceOnRow(env, Exec(env, acts), j);
  }

  lemma OnceOnRow(env: Env, s: Sys, j: nat)
    requires j in s.jobs && JobOk(env, s, j)
    ensures j in s.kids && (s.kids[j] != [] ==> s.jobs[j].status == Completed)
    ensures s.jobs[j].status == Completed ==>
              exists w :: CompletedBy(env, s.jobs[j], w) && WellMade(env, w)
                  && Subsequence(s.kids[j], Stored(Entries(env, w)))
  {
    if s.jobs[j].status == Completed {
      OnceOnTask(env, s.jobs[j], s.kids[j], s.tasks[s.handlers[s.origin[j]].pc.task]);
    }
  }

  lemma OnceOnTask(env: Env, row: JobRow, kids: seq<Child>, task: Task)
    requires TaskRowOk(env, row, kids, task) && row.status == Completed
    ensures exists w :: CompletedBy(env, row, w) && WellMade(env, w) && Subsequence(kids, Stored(Entries(env, w)))
  {
    var w := if task.state.Running? then task.state.a.w else task.state.w;
    if task.state.Running? {
      SubsequencePrefix(kids, Entries(env, w), task.state.a.i);
    }
    assert CompletedBy(env, row, w) && WellMade(env, w);
  }

  lemma {:induction false} SubsequencePrefix(kids: seq<Child>, entries: seq<Option<Child>>, i: nat)
    requires i <= |entries| && Subsequence(kids, Stored(entries[..i]))
    ensures Subsequence(kids, Stored(entries))
    decreases |entries| - i
  {
    if i < |entries| {
      InsertOne(kids, entries, i);
      SubsequencePrefix(kids, entries, i + 1);
    } else {
      assert entries[..i] == entries;
    }
  }

  /** No insert of task `t` failed in the run. */
  ghost predicate NoInsertErrors(env: Env, acts: seq<Action>, t: nat)
    requires Legal(env, acts)
  {
    acts == [] ||
    (&& NoInsertErrors(env, acts[..|acts| - 1], t)
     && var s := Exec(env, acts[..|acts| - 1]);
        !(acts[|acts| - 1] == Advance(t, Err) && s.tasks[t].state.Running? && s.tasks[t].state.a.Inserting?))
  }

  ghost predicate Complete(env: Env, kids: seq<Child>, state: TaskState) {
    match state
    case Succeeded(w) => kids == Stored(Entries(env, w))
    case Running(Inserting(w, i)) => i <= |Entries(env, w)| && kids == Stored(Entries(env, w)[..i])
    case _ => true
  }

  lemma {:induction false} NotStored(entries: seq<Option<Child>>, child: Child)
    requires forall i | 0 <= i < |entries| :: entries[i] != Some(child)
    ensures child !in Stored(entries)
  {
    if entries != [] {
      NotStored(entries[..|entries| - 1], child);
    }
  }

  /** Where each entry comes from. */
  lemma EntryAt(env: Env, w: Write, i: nat)
    requires i < |Entries(env, w)|
    ensures var m, r := |w.x.materialsUsed|, |w.x.recommendations|;
            Entries(env, w)[i] ==
              if i < m then MaterialEntry(w.x.materialsUsed[i])
              else if i < m + r then RecommendationEntry(env, w.x.recommendations[i - m])
              else Some(TagRow(w.tags[i - m - r]))
  {
  }

  /** The constraints of the child tables never refuse the next entry. */
  lemma NextAdmitted(env: Env, w: Write, i: nat)
    requires WellMade(env, w) && i < |Entries(env, w)| && Entries(env, w)[i].Some?
    ensures Admits(Stored(Entries(env, w)[..i]), Entries(env, w)[i].value)
  {
    var entries, m, r := Entries(env, w), |w.x.materialsUsed|, |w.x.recommendations|;
    EntryAt(env, w, i);
    if m <= i < m + r {
      RecommendationsAdmitted(env, w.x.recommendations[i - m], Stored(entries[..i]));
    } else if m + r <= i {
      Tags.NormalizedMeaning(env.lower, env.space, w.x.jobTags, MaxTags, Some(env.allowed));
      forall k | 0 <= k < i
        ensures entries[..i][k] != entries[i]
      {
        EntryAt(env, w, k);
      }
      NotStored(entries[..i], entries[i].value);
    }
  }

  lemma CompleteInsert(env: Env, row: JobRow, kids: seq<Child>, stored: string -> bool, w: Write, i: nat, input: Input)
    requires WellMade(env, w) && i <= |Entries(env, w)| && input.Ok? && kids == Stored(Entries(env, w)[..i])
    ensures var step := AttemptStep(env, row, kids, stored, Inserting(w, i), input);
            Complete(env, KidsAfter(kids, step.child), TaskNext(step.next))
  {
    var entries := Entries(env, w);
    if i < |entries| {
      StoredGrows(entries, i);
      if entries[i].Some? {
        NextAdmitted(env, w, i);
      }
    } else {
      assert entries[..i] == entries;
    }
  }

  lemma CompleteStep(env: Env, row: JobRow, kids: seq<Child>, task: Task, stored: string -> bool, input: Input)
    requires TaskRowOk(env, row, kids, task) && task.state.Running? && Fits(task.state.a, input)
    requires Complete(env, kids, task.state) && !(task.state.a.Inserting? && input.Err?)
    ensures var step := AttemptStep(env, row, kids, stored, task.state.a, input);
            Complete(env, KidsAfter(kids, step.child), TaskNext(step.next))
  {
    if task.state.a.Inserting? {
      CompleteInsert(env, row, kids, stored, task.state.a.w, task.state.a.i, input);
    } else if task.state.a.Writing? {
      assert Entries(env, task.state.a.w)[..0] == [];
    }
  }

  ghost predicate TaskComplete(env: Env, s: Sys, t: nat)
    requires t in s.tasks
  {
    && s.tasks[t].payload.JobRef? && s.tasks[t].payload.job in s.kids
    && Complete(env, s.kids[s.tasks[t].payload.job], s.tasks[t].state)
  }

  lemma OwnTaskComplete(env: Env, s: Sys, act: Action)
    requires act.Advance? && act in Possible(s) && TaskComplete(env, s, act.t)
    requires TaskRowOk(env, s.jobs[s.tasks[act.t].payload.job], s.kids[s.tasks[act.t].payload.job], s.tasks[act.t])
    requires !(s.tasks[act.t].state.a.Inserting? && act.input.Err?)
    ensures TaskComplete(env, Next(env, s, act), act.t)
  {
    var j := s.tasks[act.t].payload.job;
    CompleteStep(env, s.jobs[j], s.kids[j], s.tasks[act.t], InStore(s), act.input);
  }

  lemma OtherTaskComplete(env: Env, s: Sys, act: Action, t: nat)
    requires act in Possible(s) && t in s.tasks && TaskComplete(env, s, t)
    requires act.Advance? ==> act.t != t && s.tasks[act.t].payload != s.tasks[t].payload
    requires act.CreateJob? ==> s.tasks[t].payload.job in s.jobs
    ensures t in Next(env, s, act).tasks && TaskComplete(env, Next(env, s, act), t)
  {
  }

  lemma OneTaskPerRow(env: Env, s: Sys, t: nat, u: nat)
    requires Inv(env, s) && t in s.tasks && u in s.tasks && t != u
    ensures s.tasks[t].payload != s.tasks[u].payload
  {
    assert TaskOk(s, t) && TaskOk(s, u);
  }

  lemma TaskCompleteStep(env: Env, s: Sys, act: Action, t: nat)
    requires Inv(env, s) && act in Possible(s) && t in s.tasks && TaskComplete(env, s, t)
    requires !(act == Advance(t, Err) && s.tasks[t].state.Running? && s.tasks[t].state.a.Inserting?)
    ensures t in Next(env, s, act).tasks && TaskComplete(env, Next(env, s, act), t)
  {
    TaskRow(env, s, t);
    if act.Advance? && act.t == t {
      OwnTaskComplete(env, s, act);
    } else {
      if act.Advance? {
        OneTaskPerRow(env, s, act.t, t);
      }
      OtherTaskComplete(env, s, act, t);
    }
  }

  lemma NewTaskComplete(env: Env, s: Sys, act: Action, t: nat)
    requires Inv(env, s) && act in Possible(s) && t !in s.tasks && t in Next(env, s, act).tasks
    ensures TaskComplete(env, Next(env, s, act), t)
  {
    hide AttemptStep;
    assert HandlerOk(s, act.h);
  }

  lemma {:induction false} StaysComplete(env: Env, acts: seq<Action>, t: nat)
    requires Legal(env, acts) && NoInsertErrors(env, acts, t) && t in Exec(env, acts).tasks
    ensures TaskComplete(env, Exec(env, acts), t)
  {
    if acts != [] {
      var init, act := acts[..|acts| - 1], acts[|acts| - 1];
      Reachable(env, init);
      if t in Exec(env, init).tasks {
        StaysComplete(env, init, t);
        TaskCompleteStep(env, Exec(env, init), act, t);
      } else {
        NewTaskComplete(env, Exec(env, init), act, t);
      }
    }
  }

  /** `rows` are the rows of the materials that have a name, in order. */
  ghost predicate MaterialRows(ms: seq<Material>, rows: seq<Child>) {
    if ms == [] then rows == []
    else if ms[|ms| - 1].name == "" then MaterialRows(ms[..|ms| - 1], rows)
    else
      && rows != [] && IsMaterialRow(ms[|ms| - 1], rows[|rows| - 1])
      && MaterialRows(ms[..|ms| - 1], rows[..|rows| - 1])
  }

  /** `rows` are the rows of the recommendations that have a description, in order. */
  ghost predicate RecommendationRows(env: Env, rs: seq<Recommendation>, rows: seq<Child>) {
    if rs == [] then rows == []
    else if rs[|rs| - 1].description == "" then RecommendationRows(env, rs[..|rs| - 1], rows)
    else
      && rows != [] && IsRecommendationRow(env, rs[|rs| - 1], rows[|rows| - 1])
      && RecommendationRows(env, rs[..|rs| - 1], rows[..|rows| - 1])
  }

  function TagRows(tags: seq<string>): seq<Child> {
    seq(|tags|, i requires 0 <= i < |tags| => TagRow(tags[i]))
  }

  /** The child rows are those of the materials, the recommendations and the tags, in this order. */
  ghost predicate ListsAll(env: Env, x: Extraction, tags: seq<string>, kids: seq<Child>) {
    exists ms, rs ::
      kids == ms + rs + TagRows(tags)
      && MaterialRows(x.materialsUsed, ms) && RecommendationRows(env, x.recommendations, rs)
  }

  lemma {:induction false} StoredConcat(a: seq<Option<Child>>, b: seq<Option<Child>>)
    ensures Stored(a + b) == Stored(a) + Stored(b)
  {
    if b == [] {
      assert a + b == a;
    } else {
      assert (a + b)[..|a + b| - 1] == a + b[..|b| - 1];
      StoredConcat(a, b[..|b| - 1]);
    }
  }

  lemma {:induction false} MaterialsListed(ms: seq<Material>, entries: seq<Option<Child>>)
    requires |entries| == |ms| && forall i | 0 <= i < |ms| :: entries[i] == MaterialEntry(ms[i])
    ensures MaterialRows(ms, Stored(entries))
  {
    if ms != [] {
      MaterialStored(ms[|ms| - 1]);
      MaterialsListed(ms[..|ms| - 1], entries[..|ms| - 1]);
    }
  }

  lemma {:induction false} RecommendationsListed(env: Env, rs: seq<Recommendation>, entries: seq<Option<Child>>)
    requires |entries| == |rs| && forall i | 0 <= i < |rs| :: entries[i] == RecommendationEntry(env, rs[i])
    ensures RecommendationRows(env, rs, Stored(entries))
  {
    if rs != [] {
      RecommendationsAdmitted(env, rs[|rs| - 1], []);
      RecommendationsListed(env, rs[..|rs| - 1], entries[..|rs| - 1]);
    }
  }

  lemma {:induction false} TagsListed(tags: seq<string>, entries: seq<Option<Child>>)
    requires |entries| == |tags| && forall i | 0 <= i < |tags| :: entries[i] == Some(TagRow(tags[i]))
    ensures Stored(entries) == TagRows(tags)
  {
    if tags != [] {
      TagsListed(tags[..|tags| - 1], entries[..|tags| - 1]);
    }
  }

  lemma StoredLists(env: Env, w: Write)
    ensures ListsAll(env, w.x, w.tags, Stored(Entries(env, w)))
  {
    var entries, m, r := Entries(env, w), |w.x.materialsUsed|, |w.x.recommendations|;
    forall i | 0 <= i < |entries| {
      EntryAt(env, w, i);
    }
    assert entries == entries[..m] + entries[m..m + r] + entries[m + r..];
    StoredConcat(entries[..m] + entries[m..m + r], entries[m + r..]);
    StoredConcat(entries[..m], entries[m..m + r]);
    MaterialsListed(w.x.materialsUsed, entries[..m]);
    RecommendationsListed(env, w.x.recommendations, entries[m..m + r]);
    TagsListed(w.tags, entries[m + r..]);
  }

  lemma DoneExact(env: Env, s: Sys, t: nat)
    requires Inv(env, s) && t in s.tasks && s.tasks[t].state.Succeeded? && TaskComplete(env, s, t)
    ensures s.tasks[t].payload.job in s.jobs
    ensures var row, kids, w := s.jobs[s.tasks[t].payload.job], s.kids[s.tasks[t].payload.job], s.tasks[t].state.w;
            CompletedBy(env, row, w) && kids == Stored(Entries(env, w))
  {
    TaskRow(env, s, t);
  }

  /** Without insert errors a finished task has stored the extraction on its row, once and in order: the materials that
      have a name, the recommendations that have a description, and the row's tags. */
  lemma ChildrenExact(env: Env, acts: seq<Action>, t: nat)
    requires Legal(env, acts) && NoInsertErrors(env, acts, t)
    requires t in Exec(env, acts).tasks && Exec(env, acts).tasks[t].state.Succeeded?
    ensures var s := Exec(env, acts);
            && s.tasks[t].payload.JobRef? && s.tasks[t].payload.job in s.jobs && s.tasks[t].payload.job in s.kids
            && var row, kids, w := s.jobs[s.tasks[t].payload.job], s.kids[s.tasks[t].payload.job], s.tasks[t].state.w;
               CompletedBy(env, row, w) && row.aiRawJson == Some(w.x) && ListsAll(env, w.x, row.aiTags, kids)
  {
    Reachable(env, acts);
    StaysComplete(env, acts, t);
    DoneExact(env, Exec(env, acts), t);
    StoredLists(env, Exec(env, acts).tasks[t].state.w);
  }
}
