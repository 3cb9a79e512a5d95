/** The pipeline as the server and the worker run it: the object store, the tables and the queue are updated in
    place, one call at a time.  Every call is one action of the machine in `Pipeline`, so what is proved of all
    its runs holds before and after each of them. */
module PipelineHandlers {
  import opened Wrappers
  import opened JobRows
  import opened Pipeline
  import opened PipelineInv
  import opened PipelineTheorems
  import Keys
  import Tags

  datatype Phase = Pending | Active | Finished | Dead

  /** A task as the queue keeps it. */
  datatype Message = Message(payload: Payload, retried: nat, phase: Phase)

  ghost function PhaseOf(state: TaskState): Phase {
    match state
    case Waiting => Pending
    case Running(_) => Active
    case Erred(_) => Active
    case Succeeded(_) => Finished
    case Archived(_) => Dead
  }

  ghost function View(task: Task): Message {
    Message(task.payload, task.retried, PhaseOf(task.state))
  }

  ghost function QueueOf(tasks: map<nat, Task>): map<nat, Message> {
    map t | t in tasks :: View(tasks[t])
  }

  lemma QueueAfter(tasks: map<nat, Task>, t: nat, task: Task)
    ensures QueueOf(tasks[t := task]) == QueueOf(tasks)[t := View(task)]
  {
  }

  /** What goes wrong during one upload request; `read` and `put` hold photos, `delete` positions of keys. */
  datatype Faults = Faults(audio: bool, read: set<nat>, put: set<nat>, insert: bool, enqueue: bool, delete: set<nat>)

  datatype Request = Request(company: string, prefix: string, audio: string, photos: seq<string>, lang: string)

  datatype Response = Accept(job: nat) | BadRequest | Internal

  const DefaultReportLanguage := "en"

  /** The object keys of a request. */
  function KeysOf(req: Request): seq<string> {
    Keys.RequestKeys(req.company, req.prefix, req.audio, req.photos)
  }

  /** Where the objects of a request are. */
  function Folder(req: Request): string {
    "jobs/" + req.company + "/" + req.prefix
  }

  lemma SpelledOut(req: Request)
    ensures forall e | Keys.IsExt(req.audio, e) :: KeysOf(req)[0] == Folder(req) + "/audio" + e
    ensures forall i, e | 0 <= i < |req.photos| && Keys.IsExt(req.photos[i], e) ::
              KeysOf(req)[1..][i] == Folder(req) + "/photos/photo_" + Keys.Decimal(i) + e
  {
    hide Keys.IsExt, Keys.RequestKeys;
    Keys.ExtIff(req.audio, Keys.Ext(req.audio));
    Keys.KeysSpelled(req.company, req.prefix, req.audio, req.photos, Keys.Ext(req.audio));
    forall e | Keys.IsExt(req.audio, e) {
      Keys.ExtIff(req.audio, e);
    }
  }

  function Language(req: Request): string {
    if req.lang == "" then DefaultReportLanguage else req.lang
  }

  /** The first `n` photos can be read and uploaded. */
  ghost predicate FirstGood(f: Faults, n: nat) {
    forall k | 0 <= k < n :: k !in f.read && k !in f.put
  }

  ghost predicate Uploads(req: Request, f: Faults) {
    !f.audio && FirstGood(f, |req.photos|)
  }

  /** The first photo that fails is one that cannot be read. */
  ghost predicate PhotoFails(f: Faults, i: nat) {
    i in f.read && FirstGood(f, i)
  }

  ghost predicate ReadFails(req: Request, f: Faults) {
    !f.audio && exists i :: 0 <= i < |req.photos| && PhotoFails(f, i)
  }

  /** A read failure is the request's answer exactly when it comes first. */
  lemma FirstFailure(f: Faults, i: nat, n: nat)
    requires i < n && FirstGood(f, i) && (i in f.read || i in f.put)
    ensures !FirstGood(f, n)
    ensures i in f.read <==> exists k :: 0 <= k < n && PhotoFails(f, k)
  {
    if i in f.read {
      assert PhotoFails(f, i);
    } else {
      forall k | 0 <= k < n && FirstGood(f, k)
        ensures k <= i
      {
      }
    }
  }

  lemma GoodGrows(f: Faults, i: nat)
    requires FirstGood(f, i) && i !in f.read && i !in f.put
    ensures FirstGood(f, i + 1)
  {
  }

  lemma KeysGrow(keys: seq<string>, i: nat)
    requires 1 + i < |keys|
    ensures keys[..1 + (i + 1)] == keys[..1 + i] + [keys[1 + i]]
    ensures keys[1..1 + (i + 1)] == keys[1..1 + i] + [keys[1 + i]]
  {
  }

  datatype PhotoResult = Uploaded | Unreadable | NotUploaded

  ghost predicate DeletesWork(req: Request, f: Faults) {
    forall i | 0 <= i < |KeysOf(req)| :: i !in f.delete
  }

  class Backend {
    const env: Env
    var store: set<string>
    var jobs: map<nat, JobRow>
    var kids: map<nat, seq<Child>>
    var queue: map<nat, Message>
    ghost var acts: seq<Action>
    ghost var state: Sys

    /** The fields are those of the state that the actions so far lead to. */
    ghost predicate Valid()
      reads this
    {
      && Legal(env, acts) && state == Exec(env, acts)
      && store == state.store && jobs == state.jobs && kids == state.kids
      && queue == QueueOf(state.tasks)
    }

    constructor (env: Env)
      ensures Valid() && this.env == env && acts == []
    {
      this.env := env;
      store, jobs, kids, queue := {}, map[], map[], map[];
      acts, state := [], Empty;
    }

    /** Every reachable state satisfies the invariant of the machine. */
    lemma Safe()
      requires Valid()
      ensures Inv(env, state)
    {
      Reachable(env, acts);
    }

    ghost method Take(act: Action)
      requires Legal(env, acts) && state == Exec(env, acts) && act in Possible(state)
      modifies this`acts, this`state
      ensures acts == old(acts) + [act] && Legal(env, acts) && state == Exec(env, acts)
      ensures state == Next(env, old(state), act)
    {
      hide Next, Possible;
      assert (acts + [act])[..|acts|] == acts;
      acts, state := acts + [act], Next(env, state, act);
    }

    // -------------------------------------------------------------------------------------
    // The calls of an upload request
    // -------------------------------------------------------------------------------------

    ghost method Start(req: Request, h: nat)
      requires Valid() && h !in state.handlers && FreshPrefix(state, req.company, req.prefix)
      modifies this`acts, this`state
      ensures Valid() && acts == old(acts) + [Begin(h, req.company, req.prefix, req.audio, req.photos, Language(req))]
      ensures Mine(old(state), h, KeysOf(req), Language(req)) && state.handlers[h].pc == Uploading(0)
    {
      FreshKeys(state, req);
      Take(Begin(h, req.company, req.prefix, req.audio, req.photos, Language(req)));
    }

    method PutObject(key: string, ok: bool, ghost h: nat)
      requires Valid() && h in state.handlers && state.handlers[h].pc.Uploading?
      requires state.handlers[h].pc.n < |state.handlers[h].keys|
      requires state.handlers[h].keys[state.handlers[h].pc.n] == key
      modifies this
      ensures Valid() && acts == old(acts) + [Upload(h, ok)]
      ensures store == if ok then old(store) + {key} else old(store)
      ensures jobs == old(jobs) && kids == old(kids) && state.tasks == old(state.tasks)
      ensures var r := old(state.handlers[h]);
              var pc := if ok then Uploading(r.pc.n + 1) else Cleaning(None, r.pc.n, 0, true);
              state.handlers == old(state.handlers)[h := r.(pc := pc)]
    {
      hide Exec, Legal, AttemptStep;
      if ok {
        store := store + {key};
      }
      Take(Upload(h, ok));
    }

    method DeleteObject(key: string, ok: bool, ghost h: nat)
      requires Valid() && h in state.handlers && state.handlers[h].pc.Cleaning?
      requires state.handlers[h].pc.i < state.handlers[h].pc.n <= |state.handlers[h].keys|
      requires state.handlers[h].keys[state.handlers[h].pc.i] == key
      modifies this
      ensures Valid() && acts == old(acts) + [Delete(h, ok)]
      ensures store == if ok then old(store) - {key} else old(store)
      ensures jobs == old(jobs) && kids == old(kids) && state.tasks == old(state.tasks)
      ensures var r := old(state.handlers[h]);
              state.handlers == old(state.handlers)[h := r.(pc := r.pc.(i := r.pc.i + 1, clean := r.pc.clean && ok))]
    {
      hide Exec, Legal, AttemptStep;
      if ok {
        store := store - {key};
      }
      Take(Delete(h, ok));
    }

    method InsertJob(id: nat, audioUrl: string, photoUrls: seq<string>, lang: string, ok: bool, ghost h: nat)
      requires Valid() && h in state.handlers && state.handlers[h].pc == Uploading(|state.handlers[h].keys|)
      requires id !in jobs
      requires state.handlers[h].keys == [audioUrl] + photoUrls && state.handlers[h].lang == lang
      modifies this
      ensures Valid() && acts == old(acts) + [Action.CreateJob(h, id, ok)]
      ensures store == old(store) && state.tasks == old(state.tasks)
      ensures jobs == if ok then old(jobs)[id := NewRow(audioUrl, photoUrls, lang)] else old(jobs)
      ensures kids == if ok then old(kids)[id := []] else old(kids)
      ensures var r := old(state.handlers[h]);
              var pc := if ok then Created(id) else Cleaning(None, |r.keys|, 0, true);
              state.handlers == old(state.handlers)[h := r.(pc := pc)]
    {
      hide Exec, Legal, AttemptStep;
      if ok {
        jobs, kids := jobs[id := NewRow(audioUrl, photoUrls, lang)], kids[id := []];
      }
      Take(Action.CreateJob(h, id, ok));
    }

    method EnqueueTask(id: nat, job: nat, ok: bool, ghost h: nat)
      requires Valid() && h in state.handlers && state.handlers[h].pc == Created(job) && id !in queue
      modifies this
      ensures Valid() && acts == old(acts) + [Enqueue(h, id, ok)]
      ensures store == old(store) && jobs == old(jobs) && kids == old(kids)
      ensures !ok ==> state.tasks == old(state.tasks)
      ensures queue == if ok then old(queue)[id := Message(JobRef(job), 0, Pending)] else old(queue)
      ensures var r := old(state.handlers[h]);
              state.handlers == old(state.handlers)[h := r.(pc := if ok then Accepted(job, id) else Unqueued(job))]
    {
      hide Exec, Legal, AttemptStep;
      if ok {
        queue := queue[id := Message(JobRef(job), 0, Pending)];
        QueueAfter(state.tasks, id, Task(JobRef(job), 0, Waiting));
      }
      Take(Enqueue(h, id, ok));
    }

    method NullJobUrlsAndFail(job: nat, ghost h: nat)
      requires Valid() && h in state.handlers && state.handlers[h].pc == Unqueued(job) && job in jobs
      modifies this
      ensures Valid() && acts == old(acts) + [Action.NullOut(h)]
      ensures store == old(store) && kids == old(kids) && state.tasks == old(state.tasks)
      ensures jobs == old(jobs)[job := Apply(env, old(jobs)[job], NullUrlsAndFail)]
      ensures var r := old(state.handlers[h]);
              state.handlers == old(state.handlers)[h := r.(pc := Cleaning(Some(job), |r.keys|, 0, true))]
    {
      hide Exec, Legal, AttemptStep;
      jobs := jobs[job := Apply(env, jobs[job], NullUrlsAndFail)];
      Take(Action.NullOut(h));
    }

    // -------------------------------------------------------------------------------------
    // The upload request
    // -------------------------------------------------------------------------------------

    /** Since `before`, `h` has been the only request at work, and only its own objects came or went. */
    ghost predicate Mine(before: Sys, h: nat, keys: seq<string>, lang: string)
      reads this
    {
      && h in state.handlers && state.handlers[h].keys == keys && state.handlers[h].lang == lang
      && OnlyOwnObjects(before, state, keys)
      && state.tasks == before.tasks
    }

    /** The request left no object behind, unless a delete failed, and no task. */
    ghost predicate Undone(before: Sys, keys: seq<string>, f: Faults)
      reads this
    {
      && state.tasks == before.tasks
      && before.store <= state.store <= before.store + KeySet(keys)
      && ((forall i | 0 <= i < |keys| :: i !in f.delete) ==> state.store == before.store)
    }

    /** `cleanupUploads`, then the error response. */
    method CleanupUploads(uploaded: seq<string>, f: Faults, ghost h: nat, ghost before: Sys, ghost row: Option<nat>)
      requires Valid() && h in state.handlers && uploaded <= state.handlers[h].keys
      requires state.handlers[h].pc == Cleaning(row, |uploaded|, 0, true)
      requires Mine(before, h, state.handlers[h].keys, state.handlers[h].lang)
      modifies this
      ensures Valid() && old(acts) <= acts && jobs == old(jobs) && kids == old(kids)
      ensures Undone(before, old(state.handlers[h].keys), f)
    {
      ghost var keys, lang := state.handlers[h].keys, state.handlers[h].lang;
      for i := 0 to |uploaded|
        invariant Valid() && old(acts) <= acts && Mine(before, h, keys, lang)
        invariant jobs == old(jobs) && kids == old(kids)
        invariant state.handlers[h].pc.Cleaning? && state.handlers[h].pc.row == row
        invariant state.handlers[h].pc.n == |uploaded| && state.handlers[h].pc.i == i
        invariant (forall k | 0 <= k < i :: k !in f.delete) ==> state.handlers[h].pc.clean
      {
        DeleteObject(uploaded[i], i !in f.delete, h);
      }
      Take(Action.Respond(h));
      Safe();
      RejectedStore(before, state, h);
    }

    /** One photo of the upload loop, at position `i`. */
    method UploadPhoto(req: Request, i: nat, f: Faults, ghost h: nat, ghost before: Sys)
      returns (photoKey: string, result: PhotoResult)
      requires Valid() && Mine(before, h, KeysOf(req), Language(req))
      requires i < |req.photos| && state.handlers[h].pc == Uploading(1 + i)
      modifies this
      ensures Valid() && old(acts) <= acts && jobs == old(jobs) && kids == old(kids)
      ensures Mine(before, h, KeysOf(req), Language(req))
      ensures state.handlers[h].pc
           == if result.Uploaded? then Uploading(1 + (i + 1)) else Cleaning(None, 1 + i, 0, true)
      ensures photoKey == KeysOf(req)[1 + i]
      ensures result == if i in f.read then Unreadable else if i in f.put then NotUploaded else Uploaded
    {
      photoKey := Keys.PhotoKey(req.company, req.prefix, i, req.photos[i]);
      if i in f.read {
        Take(Upload(h, false));
        return photoKey, Unreadable;
      }
      PutObject(photoKey, i !in f.put, h);
      result := if i in f.put then NotUploaded else Uploaded;
    }

    /** The photo uploads; `failed` is the error response when one does not go through. */
    method UploadPhotos(req: Request, f: Faults, audioKey: string, ghost h: nat, ghost before: Sys)
      returns (uploadedKeys: seq<string>, photoKeys: seq<string>, failed: Option<Response>)
      requires Valid() && Mine(before, h, KeysOf(req), Language(req)) && state.handlers[h].pc == Uploading(1)
      requires audioKey == KeysOf(req)[0]
      modifies this
      ensures Valid() && old(acts) <= acts && jobs == old(jobs) && kids == old(kids)
      ensures failed.None? ==> Mine(before, h, KeysOf(req), Language(req))
      ensures failed.None? ==> state.handlers[h].pc == Uploading(|KeysOf(req)|)
      ensures failed.None? ==> uploadedKeys == KeysOf(req) && photoKeys == KeysOf(req)[1..]
      ensures failed.Some? ==> Undone(before, KeysOf(req), f) && !failed.value.Accept?
      ensures failed.None? <==> FirstGood(f, |req.photos|)
      ensures failed == Some(BadRequest) <==> exists i :: 0 <= i < |req.photos| && PhotoFails(f, i)
    {
      hide Exec, Legal, AttemptStep, Keys.RequestKeys;
      uploadedKeys, photoKeys, failed := [audioKey], [], None;
      assert uploadedKeys == KeysOf(req)[..1] && photoKeys == KeysOf(req)[1..1];
      for i := 0 to |req.photos|
        invariant Valid() && old(acts) <= acts && jobs == old(jobs) && kids == old(kids)
        invariant Mine(before, h, KeysOf(req), Language(req)) && state.handlers[h].pc == Uploading(1 + i)
        invariant uploadedKeys == KeysOf(req)[..1 + i] && photoKeys == KeysOf(req)[1..1 + i]
        invariant FirstGood(f, i)
      {
        var photoKey, result := UploadPhoto(req, i, f, h, before);
        if !result.Uploaded? {
          CleanupUploads(uploadedKeys, f, h, before, None);
          FirstFailure(f, i, |req.photos|);
          return uploadedKeys, photoKeys, Some(if result.Unreadable? then BadRequest else Internal);
        }
        GoodGrows(f, i);
        KeysGrow(KeysOf(req), i);
        uploadedKeys, photoKeys := uploadedKeys + [photoKey], photoKeys + [photoKey];
      }
    }

    /** The job row and its task, once every object is uploaded. */
    method Submit(uploadedKeys: seq<string>, photoKeys: seq<string>, lang: string, f: Faults, job: nat, task: nat,
                  ghost h: nat, ghost before: Sys)
      returns (resp: Response)
      requires Valid() && job !in jobs && task !in queue && uploadedKeys != [] && photoKeys == uploadedKeys[1..]
      requires Mine(before, h, uploadedKeys, lang) && state.handlers[h].pc == Uploading(|uploadedKeys|)
      modifies this
      ensures Valid() && old(acts) <= acts
      ensures resp == if !f.insert && !f.enqueue then Accept(job) else Internal
      ensures resp.Accept? ==> store == before.store + KeySet(uploadedKeys)
      ensures resp.Accept? ==> queue == old(queue)[task := Message(JobRef(job), 0, Pending)]
      ensures !resp.Accept? ==> Undone(before, uploadedKeys, f)
      ensures kids == if f.insert then old(kids) else old(kids)[job := []]
      ensures jobs == if f.insert then old(jobs)
                      else if f.enqueue then old(jobs)[job := FailedRow(lang)]
                      else old(jobs)[job := NewRow(uploadedKeys[0], photoKeys, lang)]
    {
      hide Exec, Legal, AttemptStep, JobOk, TaskOk, Apart, Named, KeySet, Undone;
      InsertJob(job, uploadedKeys[0], photoKeys, lang, !f.insert, h);
      if f.insert {
        CleanupUploads(uploadedKeys, f, h, before, None);
        return Internal;
      }
      EnqueueTask(task, job, !f.enqueue, h);
      if f.enqueue {
        NullJobUrlsAndFail(job, h);
        CleanupUploads(uploadedKeys, f, h, before, Some(job));
        return Internal;
      }
      Safe();
      AcceptedStore(before, state, h);
      return Accept(job);
    }

    /** `CreateHandler`, from the drawn prefix on. */
    method CreateHandler(req: Request, f: Faults, job: nat, task: nat, ghost h: nat) returns (resp: Response)
      requires Valid() && job !in jobs && task !in queue
      requires h !in state.handlers && FreshPrefix(state, req.company, req.prefix)
      modifies this
      ensures Valid() && old(acts) <= acts
      ensures resp.Accept? <==> Uploads(req, f) && !f.insert && !f.enqueue
      ensures resp.BadRequest? <==> ReadFails(req, f)
      ensures resp.Accept? ==>
                && resp.job == job && store == old(store) + KeySet(KeysOf(req))
                && jobs == old(jobs)[job := NewRow(KeysOf(req)[0], KeysOf(req)[1..], Language(req))]
                && kids == old(kids)[job := []]
                && queue == old(queue)[task := Message(JobRef(job), 0, Pending)]
      ensures resp.Accept? ==>
                && jobs[job].reportLanguage == (if req.lang == "" then "en" else req.lang)
                && forall e | Keys.IsExt(req.audio, e) :: jobs[job].audioUrl == Some(Folder(req) + "/audio" + e)
      ensures resp.Accept? ==>
                && |jobs[job].photoUrls| == |req.photos|
                && forall i, e | 0 <= i < |req.photos| && Keys.IsExt(req.photos[i], e) ::
                     jobs[job].photoUrls[i] == Folder(req) + "/photos/photo_" + Keys.Decimal(i) + e
      ensures !resp.Accept? ==>
                && queue == old(queue)
                && old(store) <= store <= old(store) + KeySet(KeysOf(req))
                && (DeletesWork(req, f) ==> store == old(store))
                && jobs == (if Uploads(req, f) && !f.insert then old(jobs)[job := FailedRow(Language(req))]
                            else old(jobs))
                && kids == (if Uploads(req, f) && !f.insert then old(kids)[job := []] else old(kids))
    {
      hide Exec, Legal, AttemptStep;
      ghost var before := state;
      Start(req, h);
      var audioKey := Keys.AudioKey(req.company, req.prefix, req.audio);
      PutObject(audioKey, !f.audio, h);
      if f.audio {
        CleanupUploads([], f, h, before, None);
        return Internal;
      }
      var uploadedKeys, photoKeys, failed := UploadPhotos(req, f, audioKey, h, before);
      if failed.Some? {
        return failed.value;
      }
      resp := Submit(uploadedKeys, photoKeys, Language(req), f, job, task, h, before);
      SpelledOut(req);
    }

    // -------------------------------------------------------------------------------------
    // The worker
    // -------------------------------------------------------------------------------------

    /** One call of an attempt: the statement or insert it issues, and where the attempt stands then.  A task
        whose attempt is done leaves the queue. */
    method Issue(t: nat, j: nat, stmt: Option<Stmt>, child: Option<Child>, done: bool,
                 ghost input: Input, ghost next: Onward, ghost g: Standing)
      requires Valid() && g.Standing? && StandingOf(state, t, j) == g && g.task.payload == JobRef(j)
      requires StepAt(env, state, t, input) == Some(Step(stmt, child, next)) && done == next.Done?
      modifies this
      ensures Valid() && acts == old(acts) + [Advance(t, input)]
      ensures store == old(store) && Others(state, t, j) == old(Others(state, t, j))
      ensures StandingOf(state, t, j)
           == Standing(RowAfter(env, g.row, stmt), KidsAfter(g.kids, child), g.task.(state := TaskNext(next)))
    {
      hide Exec, Legal, Next, StepAt, Others, StandingOf, QueueOf, TaskNext, Possible;
      IssueStep(env, state, t, j, input, Step(stmt, child, next), g);
      jobs := jobs[j := RowAfter(env, jobs[j], stmt)];
      kids := kids[j := KidsAfter(kids[j], child)];
      queue := if done then queue[t := queue[t].(phase := Finished)] else queue;
      Take(Advance(t, input));
    }

    /** A call that may fail; a failed one has no effect and ends the attempt. */
    method Call(t: nat, j: nat, stmt: Option<Stmt>, ok: bool, ghost good: Input, ghost to: Attempt, ghost g: Standing)
      requires Valid() && g.Standing? && StandingOf(state, t, j) == g && g.task.payload == JobRef(j)
      requires StepAt(env, state, t, good) == Some(Step(stmt, None, Go(to)))
      requires StepAt(env, state, t, Err) == Some(Step(None, None, Fail(false)))
      modifies this
      ensures Valid() && old(acts) < acts && store == old(store) && Others(state, t, j) == old(Others(state, t, j))
      ensures StandingOf(state, t, j)
           == if ok then Standing(RowAfter(env, g.row, stmt), g.kids, g.task.(state := Running(to)))
                                         else g.(task := g.task.(state := Erred(false)))
    {
      hide Exec, Legal, Next, StepAt, Others, StandingOf, QueueOf;
      if ok {
        Issue(t, j, stmt, None, false, good, Go(to), g);
      } else {
        Issue(t, j, None, None, false, Err, Fail(false), g);
      }
    }

    /** `ProcessTask`, steps 5 and 6: store the transcript, then move on to the extraction. */
    method StoreTranscript(t: nat, j: nat, text: string, w: World, ghost g: Standing)
      requires Valid() && g.Standing? && StandingOf(state, t, j) == g && g.task.payload == JobRef(j)
      requires g.task.state == Running(Storing(text))
      modifies this
      ensures Valid() && old(acts) < acts && store == old(store) && Others(state, t, j) == old(Others(state, t, j))
      ensures StandingOf(state, t, j)
           == Standing(if !w.store then g.row
                       else g.row.(status := if w.advance then Extracting else Transcribed, transcript := Some(text)),
                       g.kids, g.task.(state := if w.store && w.advance then Running(Asking(text)) else Erred(false)))
    {
      hide Exec, Legal, Next, StepAt, Others, QueueOf;
      CallStep(env, state, t, j, g, Storing(text), Ok, Some(SetTranscript(text)), Advancing(text));
      Call(t, j, Some(SetTranscript(text)), w.store, Ok, Advancing(text), g);
      if w.store {
        ghost var g1 := StandingOf(state, t, j);
        CallStep(env, state, t, j, g1, Advancing(text), Ok, Some(SetStatus(Extracting)), Asking(text));
        Call(t, j, Some(SetStatus(Extracting)), w.advance, Ok, Asking(text), g1);
      }
    }

    /** `ProcessTask` from the transcription to the status `extracting`; `None` is an error. */
    method FinishTranscript(t: nat, j: nat, w: World, ghost g: Standing) returns (transcript: Option<string>)
      requires Valid() && g.Standing? && StandingOf(state, t, j) == g && g.task.payload == JobRef(j)
      requires g.task.state == Running(Listening)
      modifies this
      ensures Valid() && old(acts) < acts && store == old(store) && Others(state, t, j) == old(Others(state, t, j))
      ensures transcript == if w.heard.Some? && w.store && w.advance then Some(OrPlaceholder(w.heard.value)) else None
      ensures StandingOf(state, t, j)
           == Standing(if w.heard.None? || !w.store then g.row
                       else g.row.(status := if w.advance then Extracting else Transcribed,
                                   transcript := Some(OrPlaceholder(w.heard.value))),
                       g.kids, g.task.(state := if transcript.Some? then Running(Asking(transcript.value))
                           else Erred(false)))
    {
      hide Exec, Legal, Next, StepAt, Others, QueueOf;
      var heard := w.heard.GetOr("");
      var text := OrPlaceholder(heard);
      CallStep(env, state, t, j, g, Listening, Input.Heard(heard), None, Storing(text));
      Call(t, j, None, w.heard.Some?, Input.Heard(heard), Storing(text), g);
      if w.heard.None? {
        return None;
      }
      StoreTranscript(t, j, text, w, StandingOf(state, t, j));
      return if w.store && w.advance then Some(text) else None;
    }

    /** `ProcessTask`, steps 2 and 3: mark the job, then download its audio. */
    method FetchAudio(t: nat, j: nat, audio: string, w: World, ghost g: Standing)
      requires Valid() && g.Standing? && StandingOf(state, t, j) == g && g.task.payload == JobRef(j)
      requires g.task.state == Running(Marking(audio)) && audio in store
      modifies this
      ensures Valid() && old(acts) < acts && store == old(store) && Others(state, t, j) == old(Others(state, t, j))
      ensures StandingOf(state, t, j)
           == Standing(if w.mark then g.row.(status := Transcribing) else g.row, g.kids,
                       g.task.(state := if w.mark && w.download then Running(Listening) else Erred(false)))
    {
      hide Exec, Legal, Next, StepAt, Others, QueueOf;
      CallStep(env, state, t, j, g, Marking(audio), Ok, Some(SetStatus(Transcribing)), Downloading(audio));
      Call(t, j, Some(SetStatus(Transcribing)), w.mark, Ok, Downloading(audio), g);
      if w.mark {
        ghost var g1 := StandingOf(state, t, j);
        CallStep(env, state, t, j, g1, Downloading(audio), Ok, None, Listening);
        Call(t, j, None, w.download, Ok, Listening, g1);
      }
    }

    /** `ProcessTask` up to the status `extracting`: `None` is an error. */
    method Transcribe(t: nat, j: nat, w: World, ghost g: Standing) returns (transcript: Option<string>)
      requires Valid() && g.Standing? && StandingOf(state, t, j) == g && g.task.payload == JobRef(j)
      requires g.task.state == Running(Loading) && g.row.audioUrl.GetOr("") != "" && g.row.audioUrl.value in store
      modifies this
      ensures Valid() && old(acts) < acts && store == old(store) && Others(state, t, j) == old(Others(state, t, j))
      ensures transcript == TranscriptOf(w)
      ensures StandingOf(state, t, j)
           == Standing(RowHeard(g.row, w), g.kids,
                       g.task.(state := if transcript.Some? then Running(Asking(transcript.value)) else Erred(false)))
    {
      hide Exec, Legal, Next, StepAt, Others, QueueOf;
      var audio := jobs[j].audioUrl.value;
      CallStep(env, state, t, j, g, Loading, Ok, None, Marking(audio));
      Call(t, j, None, w.load, Ok, Marking(audio), g);
      if !w.load {
        return None;
      }

      FetchAudio(t, j, audio, w, StandingOf(state, t, j));
      if !w.mark || !w.download {
        return None;
      }
      transcript := FinishTranscript(t, j, w, StandingOf(state, t, j));
    }

    /** The extraction and the completing write of an attempt; `None` is an error. */
    method Extract(t: nat, j: nat, transcript: string, w: World, ghost g: Standing) returns (done: Option<Write>)
      requires Valid() && g.Standing? && StandingOf(state, t, j) == g && g.task.payload == JobRef(j)
      requires g.task.state == Running(Asking(transcript))
      modifies this
      ensures Valid() && old(acts) < acts && store == old(store) && Others(state, t, j) == old(Others(state, t, j))
      ensures done == WriteOf(env, transcript, w)
      ensures done.Some? <==>
                w.write && (GroqExtracts(w) || (w.groq.RateLimited? && env.geminiKey && GeminiExtracts(w)))
      ensures done.Some? ==>
                && Told(env, w.groq, w.gemini, done.value.x, done.value.model)
                && done.value.transcript == transcript && done.value.at == w.at && WellMade(env, done.value)
      ensures StandingOf(state, t, j)
           == if done.Some? then Standing(Apply(env, g.row, SetPipeline(done.value)), g.kids,
                                          g.task.(state := Running(Inserting(done.value, 0))))
              else g.(task := g.task.(state := Erred(false)))
    {
      hide Exec, Legal, Next, StepAt, Others, QueueOf;
      var got := ExtractJobData(env, w.groq, w.gemini);
      if got.None? {
        ExtractFails(env, state, t, j, g, transcript, w.groq, w.gemini, w.at);
        Issue(t, j, None, None, false, Replied(w.groq, w.gemini, w.at), Fail(false), g);
        return None;
      }
      var tags := Tags.NormalizeTags(env.lower, env.space, got.value.0.jobTags, MaxTags, Some(env.allowed));
      var result := Write(transcript, got.value.0, tags, got.value.1, w.at);
      CallStep(env, state, t, j, g, Asking(transcript), Replied(w.groq, w.gemini, w.at), None, Writing(result));
      Call(t, j, None, true, Replied(w.groq, w.gemini, w.at), Writing(result), g);

      ghost var g1 := StandingOf(state, t, j);
      CallStep(env, state, t, j, g1, Writing(result), Ok, Some(SetPipeline(result)), Inserting(result, 0));
      Call(t, j, Some(SetPipeline(result)), w.write, Ok, Inserting(result, 0), g1);
      return if w.write then Some(result) else None;
    }

    /** One turn of an insert loop: a nameless entry is skipped, and an insert error is only logged. */
    method InsertRow(t: nat, j: nat, entry: Option<Child>, i: nat, lost: set<nat>, ghost w: Write, ghost g: Standing)
      requires Valid() && g.Standing? && g.task.payload == JobRef(j) && WellMade(env, w) && i < |Entries(env, w)|
      requires StandingOf(state, t, j) == Inserted(env, g, w, lost, i) && entry == Entries(env, w)[i]
      modifies this
      ensures Valid() && old(acts) < acts && store == old(store) && Others(state, t, j) == old(Others(state, t, j))
      ensures StandingOf(state, t, j) == Inserted(env, g, w, lost, i + 1)
    {
      hide Exec, Legal, Next, StepAt, Others, QueueOf;
      InsertStep(env, state, t, j, g, w, lost, i);
      var child := if entry.Some? && i !in lost && Admits(kids[j], entry.value) then entry else None;
      ghost var input := if i in lost then Err else Ok;
      Issue(t, j, None, child, false, input, Go(Inserting(w, i + 1)), Inserted(env, g, w, lost, i));
    }

    /** The three insert loops: materials, recommendations, tags. */
    method InsertChildren(t: nat, j: nat, w: Write, lost: set<nat>, ghost g: Standing)
      requires Valid() && g.Standing? && g.task.payload == JobRef(j) && WellMade(env, w)
      requires StandingOf(state, t, j) == Inserted(env, g, w, lost, 0)
      modifies this
      ensures Valid() && old(acts) < acts && store == old(store) && Others(state, t, j) == old(Others(state, t, j))
      ensures StandingOf(state, t, j)
                == Standing(g.row, Stored(Masked(Entries(env, w), lost)), g.task.(state := Succeeded(w)))
    {
      hide Exec, Legal, Next, StepAt, Others, QueueOf, StandingOf, Inserted, Entries;
      var m, r, n := |w.x.materialsUsed|, |w.x.recommendations|, |w.tags|;
      EntryCount(env, w);
      for i := 0 to m
        invariant Valid() && old(acts) <= acts && store == old(store) && Others(state, t, j) == old(Others(state, t, j))
        invariant StandingOf(state, t, j) == Inserted(env, g, w, lost, i)
      {
        EntryAt(env, w, i);
        InsertRow(t, j, MaterialEntry(w.x.materialsUsed[i]), i, lost, w, g);
      }
      for i := 0 to r
        invariant Valid() && old(acts) <= acts && store == old(store) && Others(state, t, j) == old(Others(state, t, j))
        invariant StandingOf(state, t, j) == Inserted(env, g, w, lost, m + i)
      {
        EntryAt(env, w, m + i);
        InsertRow(t, j, RecommendationEntry(env, w.x.recommendations[i]), m + i, lost, w, g);
      }
      for i := 0 to n
        invariant Valid() && old(acts) <= acts && store == old(store) && Others(state, t, j) == old(Others(state, t, j))
        invariant StandingOf(state, t, j) == Inserted(env, g, w, lost, m + r + i)
      {
        EntryAt(env, w, m + r + i);
        InsertRow(t, j, Some(TagRow(w.tags[i])), m + r + i, lost, w, g);
      }
      ghost var last := Inserted(env, g, w, lost, m + r + n);
      LastStep(env, state, t, j, g, w, lost);
      Issue(t, j, None, None, true, Ok, Done(w), last);
    }

    /** A task that is about to be attempted is about a job with audio in the store and no child rows. */
    lemma Ready(t: nat)
      requires Valid() && t in queue && state.tasks[t].state == Running(Loading)
      ensures queue[t].payload.JobRef? && queue[t].payload.job in jobs
      ensures var g := StandingOf(state, t, queue[t].payload.job);
              && g.Standing? && g.kids == [] && g.task.payload == queue[t].payload && g.task.state == Running(Loading)
              && g.row == jobs[queue[t].payload.job] && g.row.audioUrl.GetOr("") != "" && g.row.audioUrl.value in store
    {
      Safe();
      TaskRow(env, state, t);
    }

    /** `ProcessTask`: one attempt.  `None` is success; the flag of an error says whether retries are skipped. */
    method ProcessTask(t: nat, w: World) returns (err: Option<bool>)
      requires Valid() && t in queue && state.tasks[t].state == Running(Loading)
      modifies this
      ensures Valid() && old(acts) < acts && store == old(store)
      ensures old(queue)[t].payload.JobRef?
      ensures var j := old(queue)[t].payload.job;
              && Others(state, t, j) == old(Others(state, t, j)) && old(StandingOf(state, t, j).Standing?)
              && StandingOf(state, t, j) == After(env, old(StandingOf(state, t, j)), w)
      ensures err == None || err == Some(false)
      ensures err.None? <==>
                && w.load && w.mark && w.download && w.heard.Some? && w.store && w.advance && w.write
                && (GroqExtracts(w) || (w.groq.RateLimited? && env.geminiKey && GeminiExtracts(w)))
      ensures err.None? ==> state.tasks[t].state.Succeeded? && Made(env, w, state.tasks[t].state.w)
      ensures err.None? <==> Outcome(env, w).Some?
    {
      hide Exec, Legal, Next, StepAt, Others, AttemptStep, Entries, Masked, Stored, Apply;
      Ready(t);
      if queue[t].payload.Malformed? {
        assert false;
      }
      var j := queue[t].payload.job;
      ghost var g := StandingOf(state, t, j);
      if jobs[j].audioUrl.GetOr("") == "" {
        assert false;
      }
      var transcript := Transcribe(t, j, w, g);
      if transcript.None? {
        return Some(false);
      }
      ghost var g1 := StandingOf(state, t, j);
      var done := Extract(t, j, transcript.value, w, g1);
      if done.None? {
        return Some(false);
      }
      ghost var g2 := StandingOf(state, t, j);
      NothingInserted(env, g2, done.value, w.lost);
      InsertChildren(t, j, done.value, w.lost, g2);
      return None;
    }

    /** The queue hands a waiting task to the worker. */
    method DeliverTask(t: nat, ghost j: nat, ghost g: Standing)
      requires Valid() && t in queue && g.Standing? && StandingOf(state, t, j) == g && g.task.state.Waiting?
      modifies this
      ensures Valid() && old(acts) < acts && store == old(store) && jobs == old(jobs)
      ensures Others(state, t, j) == old(Others(state, t, j))
      ensures StandingOf(state, t, j) == g.(task := g.task.(state := Running(Loading)))
    {
      hide Exec, Legal, AttemptStep;
      QueueAfter(state.tasks, t, state.tasks[t].(state := Running(Loading)));
      queue := queue[t := queue[t].(phase := Active)];
      Take(Action.Deliver(t));
    }

    /** The error handler, which marks the job failed when no retry is left, and the queue's decision to retry or
        to archive. */
    method HandleError(t: nat, j: nat, skip: bool, ghost g: Standing)
      requires Valid() && t in queue && g.Standing? && StandingOf(state, t, j) == g
      requires g.task.payload == JobRef(j) && g.task.state == Erred(skip)
      modifies this
      ensures Valid() && old(acts) < acts && store == old(store)
      ensures Others(state, t, j) == old(Others(state, t, j))
      ensures StandingOf(state, t, j)
           == Standing(if g.task.retried >= MaxRetry then g.row.(status := Failed) else g.row, g.kids, Retried(g.task))
    {
      hide Exec, Legal, AttemptStep;
      var message := queue[t];
      QueueAfter(state.tasks, t, Retried(state.tasks[t]));
      if message.retried >= MaxRetry {
        jobs := jobs[j := Apply(env, jobs[j], SetStatus(Failed))];
      }
      queue := queue[t := if skip || message.retried >= MaxRetry then message.(phase := Dead)
                          else message.(retried := message.retried + 1, phase := Pending)];
      Take(Action.Settle(t));
    }

    /** One delivery of task `t`: an attempt, and the error handler if it fails. */
    method Round(t: nat, j: nat, w: World, ghost n: nat) returns (ok: bool)
      requires Valid() && t in queue && n <= MaxRetry && StandingOf(state, t, j).Standing?
      requires StandingOf(state, t, j).task == Task(JobRef(j), n, Waiting) && StandingOf(state, t, j).kids == []
      modifies this
      ensures Valid() && store == old(store) && Others(state, t, j) == old(Others(state, t, j))
      ensures ok <==> Outcome(env, w).Some?
      ensures t in queue && j in jobs && j in kids && StandingOf(state, t, j).Standing?
      ensures ok ==> CompletedBy(env, jobs[j], Outcome(env, w).value)
      ensures ok ==> kids[j] == Stored(Masked(Entries(env, Outcome(env, w).value), w.lost))
      ensures !ok ==> kids[j] == [] && (n == MaxRetry ==> jobs[j].status == Failed)
      ensures !ok ==> StandingOf(state, t, j).task
                      == if n < MaxRetry then Task(JobRef(j), n + 1, Waiting) else Task(JobRef(j), n, Archived(false))
    {
      hide Exec, Legal, Next, Others, After, Outcome, CompletedBy, AttemptStep, Entries;
      DeliverTask(t, j, StandingOf(state, t, j));
      ghost var g := StandingOf(state, t, j);
      var err := ProcessTask(t, w);
      AfterMeaning(env, g, w);
      if err.None? {
        return true;
      }
      HandleError(t, j, err.value, StandingOf(state, t, j));
      return false;
    }

    /** The worker and the queue together, on a freshly queued task: it is attempted until an attempt succeeds,
        and at most four times.  The job is completed, by the first attempt that succeeds, if there is one among
        the four, and otherwise failed. */
    method Work(t: nat, worlds: seq<World>) returns (attempts: nat)
      requires Valid() && t in queue && queue[t].retried == 0 && queue[t].phase == Pending && |worlds| == MaxRetry + 1
      modifies this
      ensures Valid() && 1 <= attempts <= MaxRetry + 1
      ensures forall k | 0 <= k < attempts - 1 :: Outcome(env, worlds[k]).None?
      ensures old(queue)[t].payload.JobRef? && old(queue)[t].payload.job in jobs && old(queue)[t].payload.job in kids
      ensures var j, last := old(queue)[t].payload.job, worlds[attempts - 1];
              if Outcome(env, last).Some? then
                && CompletedBy(env, jobs[j], Outcome(env, last).value)
                && kids[j] == Stored(Masked(Entries(env, Outcome(env, last).value), last.lost))
              else attempts == MaxRetry + 1 && jobs[j].status == Failed && kids[j] == []
      ensures store == old(store)
      ensures Others(state, t, old(queue)[t].payload.job) == old(Others(state, t, queue[t].payload.job))
    {
      hide Exec, Legal, Next, Others, After, Outcome, CompletedBy, AttemptStep, Entries;
      Fresh(t);
      var j := queue[t].payload.job;
      attempts := 0;
      while attempts <= MaxRetry
        invariant attempts <= MaxRetry + 1 && Valid() && t in queue && StandingOf(state, t, j).Standing?
        invariant store == old(store) && Others(state, t, j) == old(Others(state, t, j))
        invariant StandingOf(state, t, j).kids == []
        invariant attempts <= MaxRetry ==> StandingOf(state, t, j).task == Task(JobRef(j), attempts, Waiting)
        invariant attempts > MaxRetry ==> StandingOf(state, t, j).row.status == Failed
        invariant forall k | 0 <= k < attempts :: Outcome(env, worlds[k]).None?
      {
        var ok := Round(t, j, worlds[attempts], attempts);
        attempts := attempts + 1;
        if ok {
          return;
        }
      }
    }

    /** A task no one has attempted yet is about a job without child rows. */
    lemma Fresh(t: nat)
      requires Valid() && t in queue && queue[t].phase == Pending
      ensures queue[t].payload.JobRef?
      ensures var g := StandingOf(state, t, queue[t].payload.job);
              g.Standing? && g.kids == [] && g.task == Task(queue[t].payload, queue[t].retried, Waiting)
    {
      Safe();
      TaskRow(env, state, t);
    }
  }

  predicate GroqExtracts(w: World) {
    w.groq.Answered? && w.groq.parsed.Some?
  }

  predicate GeminiExtracts(w: World) {
    w.gemini.Answered? && w.gemini.parsed.Some?
  }

  /** `wr` holds what the attempt heard and was told, with the cleaned tags. */
  ghost predicate Made(env: Env, w: World, wr: Write) {
    && w.heard.Some? && Transcribes(w.heard.value, wr.transcript)
    && Told(env, w.groq, w.gemini, wr.x, wr.model) && wr.at == w.at
    && wr.tags == Tags.Normalized(env.lower, env.space, wr.x.jobTags, 5, Some(env.allowed))
  }

  /** An attempt writes exactly what it heard and was told, if every call up to the completing write works. */
  lemma OutcomeIff(env: Env, w: World, wr: Write)
    ensures Outcome(env, w) == Some(wr) <==>
              w.load && w.mark && w.download && w.heard.Some? && w.store && w.advance && w.write && Made(env, w, wr)
    ensures Outcome(env, w).Some? <==>
              && w.load && w.mark && w.download && w.heard.Some? && w.store && w.advance && w.write
              && (GroqExtracts(w) || (w.groq.RateLimited? && env.geminiKey && GeminiExtracts(w)))
  {
    hide Tags.Normalized;
    if Outcome(env, w).Some? {
      assert Made(env, w, Outcome(env, w).value);
    }
  }

  /** What an attempt gets to write, if it gets that far. */
  function Outcome(env: Env, w: World): Option<Write> {
    if TranscriptOf(w).Some? then WriteOf(env, TranscriptOf(w).value, w) else None
  }

  /** The job after one attempt. */
  ghost function After(env: Env, g: Standing, w: World): Standing
    requires g.Standing?
  {
    var done := Outcome(env, w);
    if done.None? then Standing(RowHeard(g.row, w), g.kids, g.task.(state := Erred(false)))
    else Standing(Apply(env, RowHeard(g.row, w), SetPipeline(done.value)),
                  Stored(Masked(Entries(env, done.value), w.lost)),
                  g.task.(state := Succeeded(done.value)))
  }

  lemma AfterMeaning(env: Env, g: Standing, w: World)
    requires g.Standing?
    ensures After(env, g, w).Standing?
    ensures Outcome(env, w).None? ==>
              After(env, g, w).kids == g.kids && After(env, g, w).task == g.task.(state := Erred(false))
    ensures Outcome(env, w).Some? ==>
              && CompletedBy(env, After(env, g, w).row, Outcome(env, w).value)
              && After(env, g, w).kids == Stored(Masked(Entries(env, Outcome(env, w).value), w.lost))
  {
    if Outcome(env, w).Some? {
      ApplyCompletes(env, RowHeard(g.row, w), SetPipeline(Outcome(env, w).value));
    }
  }

  lemma EntryCount(env: Env, w: Write)
    ensures |Entries(env, w)| == |w.x.materialsUsed| + |w.x.recommendations| + |w.tags|
  {
  }

  lemma LastStep(env: Env, s: Sys, t: nat, j: nat, g: Standing, w: Write, lost: set<nat>)
    requires g.Standing? && g.task.payload == JobRef(j)
    requires StandingOf(s, t, j) == Inserted(env, g, w, lost, |Entries(env, w)|)
    ensures StepAt(env, s, t, Ok) == Some(Step(None, None, Done(w)))
    ensures var last := Inserted(env, g, w, lost, |Entries(env, w)|);
            && last.Standing? && last.row == g.row && last.kids == Stored(Masked(Entries(env, w), lost))
            && last.task.(state := Succeeded(w)) == g.task.(state := Succeeded(w)) && last.task.payload == JobRef(j)
  {
    assert Masked(Entries(env, w), lost)[..|Entries(env, w)|] == Masked(Entries(env, w), lost);
  }

  lemma NothingInserted(env: Env, g: Standing, w: Write, lost: set<nat>)
    requires g.Standing? && g.kids == [] && g.task.state == Running(Inserting(w, 0))
    ensures Inserted(env, g, w, lost, 0) == g
  {
  }

  /** What the completing statement of an attempt gets to write. */
  function WriteOf(env: Env, transcript: string, w: World): Option<Write> {
    var got := ExtractJobData(env, w.groq, w.gemini);
    if got.None? || !w.write then None
    else
      var tags := Tags.Normalized(env.lower, env.space, got.value.0.jobTags, MaxTags, Some(env.allowed));
      Some(Write(transcript, got.value.0, tags, got.value.1, w.at))
  }

  /** The entries without those whose insert fails. */
  function Masked(entries: seq<Option<Child>>, lost: set<nat>): (r: seq<Option<Child>>)
    ensures |r| == |entries|
  {
    seq(|entries|, i requires 0 <= i < |entries| => if i in lost then None else entries[i])
  }

  /** The job when the insert loops have come to entry `i`. */
  ghost function Inserted(env: Env, g: Standing, w: Write, lost: set<nat>, i: nat): Standing
    requires g.Standing? && i <= |Entries(env, w)|
  {
    Standing(g.row, Stored(Masked(Entries(env, w), lost)[..i]), g.task.(state := Running(Inserting(w, i))))
  }

  lemma {:induction false} StoredMasked(entries: seq<Option<Child>>, lost: set<nat>, i: nat, child: Child)
    requires i <= |entries| && child in Stored(Masked(entries, lost)[..i])
    ensures child in Stored(entries[..i])
  {
    if i > 0 {
      StoredGrows(entries, i - 1);
      StoredGrows(Masked(entries, lost), i - 1);
      if child in Stored(Masked(entries, lost)[..i - 1]) {
        StoredMasked(entries, lost, i - 1, child);
      }
    }
  }

  /** Lost inserts never make the constraints refuse a later one. */
  lemma MaskedAdmitted(env: Env, w: Write, lost: set<nat>, i: nat)
    requires WellMade(env, w) && i < |Entries(env, w)| && Entries(env, w)[i].Some?
    ensures Admits(Stored(Masked(Entries(env, w), lost)[..i]), Entries(env, w)[i].value)
  {
    var entries := Entries(env, w);
    NextAdmitted(env, w, i);
    if entries[i].value in Stored(Masked(entries, lost)[..i]) {
      StoredMasked(entries, lost, i, entries[i].value);
    }
  }

  lemma ExtractFails(env: Env, s: Sys, t: nat, j: nat, g: Standing, transcript: string, groq: LlmReply,
                     gemini: LlmReply, at: int)
    requires g.Standing? && StandingOf(s, t, j) == g && g.task.payload == JobRef(j)
    requires g.task.state == Running(Asking(transcript))
    requires ExtractJobData(env, groq, gemini).None?
    ensures StepAt(env, s, t, Replied(groq, gemini, at)) == Some(Step(None, None, Fail(false)))
  {
  }

  lemma InsertStep(env: Env, s: Sys, t: nat, j: nat, g: Standing, w: Write, lost: set<nat>, i: nat)
    requires g.Standing? && g.task.payload == JobRef(j) && WellMade(env, w) && i < |Entries(env, w)|
    requires StandingOf(s, t, j) == Inserted(env, g, w, lost, i)
    ensures var entry, g' := Entries(env, w)[i], Inserted(env, g, w, lost, i);
            var child := if entry.Some? && i !in lost && Admits(g'.kids, entry.value) then entry else None;
            && StepAt(env, s, t, if i in lost then Err else Ok) == Some(Step(None, child, Go(Inserting(w, i + 1))))
            && Inserted(env, g, w, lost, i + 1)
                 == Standing(g'.row, KidsAfter(g'.kids, child), g'.task.(state := Running(Inserting(w, i + 1))))
  {
    StoredGrows(Masked(Entries(env, w), lost), i);
    if Entries(env, w)[i].Some? {
      MaskedAdmitted(env, w, lost, i);
    }
  }

  /** What the world answers during one attempt; `lost` holds the positions of the inserts that fail. */
  datatype World = World(
    load: bool, mark: bool, download: bool, heard: Option<string>, store: bool, advance: bool,
    groq: LlmReply, gemini: LlmReply, at: int, write: bool, lost: set<nat>)

  function OrPlaceholder(heard: string): string {
    if heard == "" then UnclearTranscript else heard
  }

  /** The transcript of an attempt that gets as far as the extraction. */
  function TranscriptOf(w: World): Option<string> {
    if w.load && w.mark && w.download && w.heard.Some? && w.store && w.advance
    then Some(OrPlaceholder(w.heard.value)) else None
  }

  /** The row after the part of an attempt before the extraction. */
  function RowHeard(row: JobRow, w: World): JobRow {
    if !w.load || !w.mark then row
    else if !w.download || w.heard.None? || !w.store then row.(status := Transcribing)
    else row.(status := if w.advance then Extracting else Transcribed, transcript := Some(OrPlaceholder(w.heard.value)))
  }

  /** The row, the child rows and the task of a job under attempt. */
  datatype Standing = Absent | Standing(row: JobRow, kids: seq<Child>, task: Task)

  ghost function StandingOf(s: Sys, t: nat, j: nat): Standing {
    if j in s.jobs && j in s.kids && t in s.tasks then Standing(s.jobs[j], s.kids[j], s.tasks[t]) else Absent
  }

  /** Everything but task `t` and the rows of job `j`. */
  ghost function Others(s: Sys, t: nat, j: nat): Sys {
    s.(jobs := s.jobs - {j}, kids := s.kids - {j}, tasks := s.tasks - {t})
  }

  /** What the attempt of `t` does next on `input`. */
  ghost function StepAt(env: Env, s: Sys, t: nat, input: Input): Option<Step> {
    if Advance(t, input) in Possible(s) && s.tasks[t].payload.JobRef? then Some(StepOf(env, s, t, input)) else None
  }

  /** What one call of an attempt changes. */
  ghost predicate Issued(env: Env, s: Sys, s': Sys, t: nat, j: nat, step: Step, g: Standing)
    requires g.Standing?
  {
    && j in s.jobs && j in s.kids && t in QueueOf(s.tasks)
    && Others(s', t, j) == Others(s, t, j) && s'.store == s.store
    && StandingOf(s', t, j)
       == Standing(RowAfter(env, g.row, step.stmt), KidsAfter(g.kids, step.child),
           g.task.(state := TaskNext(step.next)))
    && s'.jobs == s.jobs[j := RowAfter(env, s.jobs[j], step.stmt)]
    && s'.kids == s.kids[j := KidsAfter(s.kids[j], step.child)]
    && QueueOf(s'.tasks)
       == if step.next.Done? then QueueOf(s.tasks)[t := QueueOf(s.tasks)[t].(phase := Finished)] else QueueOf(s.tasks)
  }

  lemma IssueStep(env: Env, s: Sys, t: nat, j: nat, input: Input, step: Step, g: Standing)
    requires g.Standing? && StandingOf(s, t, j) == g && g.task.payload == JobRef(j)
    requires StepAt(env, s, t, input) == Some(step)
    ensures Advance(t, input) in Possible(s)
    ensures Issued(env, s, Next(env, s, Advance(t, input)), t, j, step, g)
  {
    hide Next, StepOf;
    AdvanceChanges(env, s, t, input);
    QueueAfter(s.tasks, t, s.tasks[t].(state := TaskNext(step.next)));
  }

  lemma CallStep(env: Env, s: Sys, t: nat, j: nat, g: Standing, a: Attempt, good: Input, stmt: Option<Stmt>,
                 to: Attempt)
    requires g.Standing? && StandingOf(s, t, j) == g && g.task.payload == JobRef(j) && g.task.state == Running(a)
    requires Fits(a, good) && !a.Inserting?
    requires AttemptStep(env, g.row, g.kids, InStore(s), a, good) == Step(stmt, None, Go(to))
    ensures StepAt(env, s, t, good) == Some(Step(stmt, None, Go(to)))
    ensures StepAt(env, s, t, Err) == Some(Step(None, None, Fail(false)))
  {
  }

  ghost function KeySet(keys: seq<string>): set<string> {
    set k | k in keys
  }

  /** The row of a job that was inserted but could not be queued. */
  function FailedRow(lang: string): JobRow {
    NewRow("", [], lang).(status := Failed, audioUrl := None)
  }

  /** Under a fresh prefix none of the request's keys is in the store. */
  lemma FreshKeys(s: Sys, req: Request)
    requires FreshPrefix(s, req.company, req.prefix)
    ensures forall k | k in KeysOf(req) :: k !in s.store
  {
    forall k | k in KeysOf(req)
      ensures k !in s.store
    {
      Keys.KeysUnderBase(req.company, req.prefix, req.audio, req.photos, k);
    }
  }

  /** Only objects of `keys`, none of which was there before, came or went. */
  ghost predicate OnlyOwnObjects(before: Sys, s: Sys, keys: seq<string>) {
    && (forall k | k in keys :: k !in before.store)
    && (forall k | k !in keys :: k in s.store <==> k in before.store)
  }

  lemma RejectedStore(before: Sys, s: Sys, h: nat)
    requires h in s.handlers && s.handlers[h].pc.Rejected? && HandlerOk(s, h)
    requires OnlyOwnObjects(before, s, s.handlers[h].keys)
    ensures before.store <= s.store <= before.store + KeySet(s.handlers[h].keys)
    ensures s.handlers[h].pc.clean ==> s.store == before.store
  {
  }

  lemma AcceptedStore(before: Sys, s: Sys, h: nat)
    requires h in s.handlers && s.handlers[h].pc.Accepted? && HandlerOk(s, h)
    requires OnlyOwnObjects(before, s, s.handlers[h].keys)
    ensures s.store == before.store + KeySet(s.handlers[h].keys)
  {
  }
}
