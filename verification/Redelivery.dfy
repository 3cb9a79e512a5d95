/** One job row under any number of duplicate or concurrent deliveries.

    Attempts may be started at any moment, also for a completed job, and their statements interleave freely
    with the error handler's and the create handler's.  The log records every statement with its author. */
module Redelivery {
  import opened Wrappers
  import opened JobRows
  import Tags

  /** An attempt with what it has heard and been told so far: the reply to the transcription, and those of the two
      language models with the time. */
  datatype Worker = Worker(a: Option<Attempt>, heard: Option<string>, told: Option<(LlmReply, LlmReply, int)>)

  /** A logged statement; `author` is `None` for the handlers outside the attempts. */
  datatype Logged = Logged(author: Option<nat>, stmt: Stmt)

  datatype State = State(row: JobRow, kids: seq<Child>, workers: map<nat, Worker>, log: seq<Logged>)

  datatype Action =
    | Deliver(k: nat)
    | Advance(k: nat, input: Input, stored: bool)
    | MarkFailed
    | NullOut

  predicate Enabled(s: State, act: Action) {
    match act
    case Deliver(k) => k !in s.workers
    case Advance(k, input, _) => k in s.workers && s.workers[k].a.Some? && Fits(s.workers[k].a.value, input)
    case MarkFailed => true
    case NullOut => true
  }

  /** What an attempt remembers after a step. */
  function Recall(k: Worker, input: Input, next: Onward): Worker
    requires k.a.Some? && Fits(k.a.value, input)
  {
    Worker(if next.Go? then Some(next.a) else None,
           if input.Heard? then Some(input.text) else k.heard,
           if input.Replied? then Some((input.groq, input.gemini, input.at)) else k.told)
  }

  function Next(env: Env, s: State, act: Action): State
    requires Enabled(s, act)
  {
    match act
    case Deliver(k) => s.(workers := s.workers[k := Worker(Some(Loading), None, None)])
    case Advance(k, input, stored) =>
      var step := AttemptStep(env, s.row, s.kids, _ => stored, s.workers[k].a.value, input);
      State(RowAfter(env, s.row, step.stmt), KidsAfter(s.kids, step.child),
            s.workers[k := Recall(s.workers[k], input, step.next)],
            if step.stmt.Some? then s.log + [Logged(Some(k), step.stmt.value)] else s.log)
    case MarkFailed => s.(row := Apply(env, s.row, SetStatus(Failed)), log := s.log + [Logged(None, SetStatus(Failed))])
    case NullOut => s.(row := Apply(env, s.row, NullUrlsAndFail), log := s.log + [Logged(None, NullUrlsAndFail)])
  }

  ghost predicate Legal(env: Env, s: State, acts: seq<Action>)
    decreases |acts|, 0
  {
    acts == [] || (Legal(env, s, acts[..|acts| - 1]) && Enabled(Exec(env, s, acts[..|acts| - 1]), acts[|acts| - 1]))
  }

  ghost function Exec(env: Env, s: State, acts: seq<Action>): State
    requires Legal(env, s, acts)
    decreases |acts|, 1
  {
    if acts == [] then s else Next(env, Exec(env, s, acts[..|acts| - 1]), acts[|acts| - 1])
  }

  /** What an attempt carries is what it heard and was told itself. */
  ghost predicate OwnWork(env: Env, k: Worker) {
    k.a.Some? ==>
      match k.a.value
      case Storing(t) => OwnWords(k, t)
      case Advancing(t) => OwnWords(k, t)
      case Asking(t) => OwnWords(k, t)
      case Writing(w) => OwnWrite(env, k, w)
      case Inserting(w, _) => OwnWrite(env, k, w)
      case _ => true
  }

  ghost predicate OwnWords(k: Worker, transcript: string) {
    k.heard.Some? && Transcribes(k.heard.value, transcript)
  }

  /** `w` holds the attempt's own transcript and the extraction it was given for it. */
  ghost predicate OwnWrite(env: Env, k: Worker, w: Write) {
    && OwnWords(k, w.transcript) && WellMade(env, w)
    && k.told.Some? && Told(env, k.told.value.0, k.told.value.1, w.x, w.model) && k.told.value.2 == w.at
  }

  ghost predicate LogOk(env: Env, s: State) {
    forall i | 0 <= i < |s.log| ::
      && s.log[i].stmt != SetStatus(Completed)
      && (s.log[i].stmt.SetPipeline? ==>
            && s.log[i].author.Some? && s.log[i].author.value in s.workers
            && OwnWrite(env, s.workers[s.log[i].author.value], s.log[i].stmt.w)
            && Wrote(s.workers[s.log[i].author.value]))
  }

  /** The attempt is over, or past the completing statement. */
  ghost predicate Wrote(k: Worker) {
    k.a.None? || k.a.value.Inserting?
  }

  ghost predicate LastCompletes(env: Env, s: State) {
    && (s.row.status == Completed <==> s.log != [] && s.log[|s.log| - 1].stmt.SetPipeline?)
    && (s.row.status == Completed ==> CompletedBy(env, s.row, s.log[|s.log| - 1].stmt.w))
  }

  /** The extracted columns are as inserted, or all come from one logged write, whatever the status is now. */
  ghost predicate AiFromOneWrite(env: Env, s: State) {
    || s.row.aiRawJson.None?
    || exists i :: 0 <= i < |s.log| && s.log[i].stmt.SetPipeline? && CarriesAi(env, s.row, s.log[i].stmt.w)
  }

  /** No tag is stored twice and every urgency passes the CHECK constraint. */
  ghost predicate KidsOk(kids: seq<Child>) {
    && (forall i, j | 0 <= i < j < |kids| && kids[i].TagRow? :: kids[i] != kids[j])
    && (forall i | 0 <= i < |kids| && kids[i].RecommendationRow? :: kids[i].urgency in Urgencies)
  }

  /** `child` is an entry of some completing write. */
  ghost predicate FromWrite(env: Env, log: seq<Logged>, child: Child) {
    exists i :: 0 <= i < |log| && log[i].stmt.SetPipeline? && Some(child) in Entries(env, log[i].stmt.w)
  }

  ghost predicate KidsLogged(env: Env, s: State) {
    forall i | 0 <= i < |s.kids| :: FromWrite(env, s.log, s.kids[i])
  }

  /** An attempt that inserts has made its completing write. */
  ghost predicate InsertsLogged(s: State) {
    forall k | k in s.workers && s.workers[k].a.Some? && s.workers[k].a.value.Inserting? ::
      Logged(Some(k), SetPipeline(s.workers[k].a.value.w)) in s.log
  }

  ghost predicate Inv(env: Env, s: State) {
    && (forall k | k in s.workers :: OwnWork(env, s.workers[k]))
    && LogOk(env, s) && LastCompletes(env, s) && AiFromOneWrite(env, s)
    && KidsOk(s.kids) && KidsLogged(env, s) && InsertsLogged(s)
  }

  lemma FromWriteGrows(env: Env, log: seq<Logged>, log': seq<Logged>, child: Child)
    requires log <= log' && FromWrite(env, log, child)
    ensures FromWrite(env, log', child)
  {
    var i :| 0 <= i < |log| && log[i].stmt.SetPipeline? && Some(child) in Entries(env, log[i].stmt.w);
    assert log'[i] == log[i];
  }

  lemma KidsStay(env: Env, s: State, s': State)
    requires KidsLogged(env, s) && s'.kids == s.kids && s.log <= s'.log
    ensures KidsLogged(env, s')
  {
    forall i | 0 <= i < |s'.kids|
      ensures FromWrite(env, s'.log, s'.kids[i])
    {
      FromWriteGrows(env, s.log, s'.log, s.kids[i]);
    }
  }

  lemma StepInserts(env: Env, s: State, k: nat, input: Input, stored: bool)
    requires InsertsLogged(s) && Enabled(s, Advance(k, input, stored))
    ensures InsertsLogged(Next(env, s, Advance(k, input, stored)))
    ensures s.log <= Next(env, s, Advance(k, input, stored)).log
  {
  }

  lemma StepKids(env: Env, s: State, k: nat, input: Input, stored: bool)
    requires KidsLogged(env, s) && InsertsLogged(s) && Enabled(s, Advance(k, input, stored))
    ensures KidsLogged(env, Next(env, s, Advance(k, input, stored)))
  {
    var a := s.workers[k].a.value;
    var step := AttemptStep(env, s.row, s.kids, _ => stored, a, input);
    FailWritesNothing(env, s.row, s.kids, _ => stored, a, input);
    if step.child.Some? {
      var i :| 0 <= i < |s.log| && s.log[i] == Logged(Some(k), SetPipeline(a.w));
      assert step.child == Entries(env, a.w)[a.i];
      assert FromWrite(env, s.log, step.child.value);
    } else {
      KidsStay(env, s, Next(env, s, Advance(k, input, stored)));
    }
  }

  lemma RowLogged(env: Env, s: State, author: Option<nat>, stmt: Stmt, s': State)
    requires LastCompletes(env, s) && AiFromOneWrite(env, s) && stmt != SetStatus(Completed)
    requires s'.row == Apply(env, s.row, stmt) && s'.log == s.log + [Logged(author, stmt)]
    ensures LastCompletes(env, s') && AiFromOneWrite(env, s')
  {
    ApplyCompletes(env, s.row, stmt);
    assert s'.log[|s.log|].stmt == stmt;
    if stmt.SetPipeline? {
      assert CarriesAi(env, s'.row, s'.log[|s.log|].stmt.w);
    } else if s.row.aiRawJson.Some? {
      var i :| 0 <= i < |s.log| && s.log[i].stmt.SetPipeline? && CarriesAi(env, s.row, s.log[i].stmt.w);
      assert s'.log[i] == s.log[i] && CarriesAi(env, s'.row, s'.log[i].stmt.w);
    }
  }

  lemma AdvanceOwnWork(env: Env, k: Worker, row: JobRow, kids: seq<Child>, stored: bool, input: Input)
    requires k.a.Some? && Fits(k.a.value, input) && OwnWork(env, k)
    ensures var step := AttemptStep(env, row, kids, _ => stored, k.a.value, input);
            var k' := Recall(k, input, step.next);
            && OwnWork(env, k')
            && (step.stmt.Some? && step.stmt.value.SetPipeline? ==> OwnWrite(env, k', step.stmt.value.w) && Wrote(k'))
            && (forall w :: OwnWrite(env, k, w) && Wrote(k) ==> OwnWrite(env, k', w) && Wrote(k'))
            && (step.stmt.Some? ==> step.stmt.value != SetStatus(Completed))
  {
  }

  lemma ChildOk(env: Env, row: JobRow, kids: seq<Child>, stored: bool, a: Attempt, input: Input)
    requires Fits(a, input) && KidsOk(kids)
    ensures KidsOk(KidsAfter(kids, AttemptStep(env, row, kids, _ => stored, a, input).child))
  {
    var child := AttemptStep(env, row, kids, _ => stored, a, input).child;
    assert child.Some? ==> Admits(kids, child.value);
  }

  lemma LogGrows(env: Env, s: State, s': State, author: Option<nat>, stmt: Stmt)
    requires LogOk(env, s) && s'.log == s.log + [Logged(author, stmt)] && stmt != SetStatus(Completed)
    requires forall k | k in s.workers :: k in s'.workers
    requires forall k, w | k in s.workers && OwnWrite(env, s.workers[k], w) && Wrote(s.workers[k]) ::
               OwnWrite(env, s'.workers[k], w) && Wrote(s'.workers[k])
    requires stmt.SetPipeline? ==> author.Some? && author.value in s'.workers
                                   && OwnWrite(env, s'.workers[author.value], stmt.w) && Wrote(s'.workers[author.value])
    ensures LogOk(env, s')
  {
  }

  lemma AdvanceInv(env: Env, s: State, k: nat, input: Input, stored: bool)
    requires Inv(env, s) && Enabled(s, Advance(k, input, stored))
    ensures Inv(env, Next(env, s, Advance(k, input, stored)))
  {
    hide CarriesAi, CompletedBy, WellMade, FromWrite, KidsLogged, InsertsLogged, KidsOk;
    var s' := Next(env, s, Advance(k, input, stored));
    var step := AttemptStep(env, s.row, s.kids, _ => stored, s.workers[k].a.value, input);
    AdvanceOwnWork(env, s.workers[k], s.row, s.kids, stored, input);
    ChildOk(env, s.row, s.kids, stored, s.workers[k].a.value, input);
    StepInserts(env, s, k, input, stored);
    StepKids(env, s, k, input, stored);
    if step.stmt.Some? {
      RowLogged(env, s, Some(k), step.stmt.value, s');
      LogGrows(env, s, s', Some(k), step.stmt.value);
    }
  }

  lemma NextInv(env: Env, s: State, act: Action)
    requires Inv(env, s) && Enabled(s, act)
    ensures Inv(env, Next(env, s, act))
  {
    match act
    case Deliver(k) =>
    case Advance(k, input, stored) => AdvanceInv(env, s, k, input, stored);
    case MarkFailed =>
      KidsStay(env, s, Next(env, s, act));
      RowLogged(env, s, None, SetStatus(Failed), Next(env, s, act));
      LogGrows(env, s, Next(env, s, act), None, SetStatus(Failed));
    case NullOut =>
      KidsStay(env, s, Next(env, s, act));
      RowLogged(env, s, None, NullUrlsAndFail, Next(env, s, act));
      LogGrows(env, s, Next(env, s, act), None, NullUrlsAndFail);
  }

  lemma {:induction false} ExecInv(env: Env, s: State, acts: seq<Action>)
    requires Inv(env, s) && Legal(env, s, acts)
    ensures Inv(env, Exec(env, s, acts))
  {
    if acts != [] {
      ExecInv(env, s, acts[..|acts| - 1]);
      NextInv(env, Exec(env, s, acts[..|acts| - 1]), acts[|acts| - 1]);
    }
  }

  /** A job as it is inserted, before any delivery. */
  function Start(audioUrl: string, photoUrls: seq<string>, lang: string): State {
    State(NewRow(audioUrl, photoUrls, lang), [], map[], [])
  }

  /** Over every run, duplicate and concurrent deliveries included: the row is completed exactly when the
      last statement is an attempt's completing write, and then the transcript and every extracted column
      come from that one write, which holds what that one attempt heard and was told.  While the row is not
      completed, its extracted columns still all come from one such write.  No tag is stored twice, and every
      child row is an entry of some completing write. */
  lemma CompletedRowsCoherent(env: Env, audioUrl: string, photoUrls: seq<string>, lang: string, acts: seq<Action>)
    requires Legal(env, Start(audioUrl, photoUrls, lang), acts)
    ensures var s := Exec(env, Start(audioUrl, photoUrls, lang), acts);
            && (s.row.status == Completed <==> s.log != [] && s.log[|s.log| - 1].stmt.SetPipeline?)
            && (s.row.status == Completed ==>
                  var last := s.log[|s.log| - 1];
                  && CompletedBy(env, s.row, last.stmt.w)
                  && last.author.Some? && last.author.value in s.workers
                  && OwnWrite(env, s.workers[last.author.value], last.stmt.w))
            && AiFromOneWrite(env, s)
            && KidsOk(s.kids) && KidsLogged(env, s)
  {
    hide Legal, Exec, CompletedBy, CarriesAi, WellMade, Told, Transcribes, FromWrite, KidsOk;
    StartInv(env, audioUrl, photoUrls, lang);
    ExecInv(env, Start(audioUrl, photoUrls, lang), acts);
  }

  lemma StartInv(env: Env, audioUrl: string, photoUrls: seq<string>, lang: string)
    ensures Inv(env, Start(audioUrl, photoUrls, lang))
  {
  }

  // ---------------------------------------------------------------------------------------
  // When the attempts themselves leave a completed row alone
  // ---------------------------------------------------------------------------------------

  /** An open attempt cannot change the row any more: it is past the completing write, or its write repeats what
      the row says, or it will find no audio. */
  ghost predicate Harmless(env: Env, row: JobRow, k: Worker) {
    || k.a.None? || k.a.value.Inserting?
    || (k.a.value.Writing? && Apply(env, row, SetPipeline(k.a.value.w)) == row)
    || (k.a.value.Loading? && row.audioUrl.GetOr("") == "")
  }

  /** Steps of attempts only, and new deliveries if `redelivered`. */
  predicate Only(acts: seq<Action>, redelivered: bool) {
    forall i | 0 <= i < |acts| :: acts[i].Advance? || (redelivered && acts[i].Deliver?)
  }

  /** No such run changes the row. */
  ghost predicate KeptByAttempts(env: Env, s: State, redelivered: bool) {
    forall acts | Legal(env, s, acts) && Only(acts, redelivered) :: Exec(env, s, acts).row == s.row
  }

  ghost predicate Settled(env: Env, s: State, redelivered: bool) {
    && (forall k | k in s.workers :: Harmless(env, s.row, s.workers[k]))
    && (redelivered ==> s.row.audioUrl.GetOr("") == "")
  }

  lemma SettledStep(env: Env, s: State, act: Action, redelivered: bool)
    requires Settled(env, s, redelivered) && Enabled(s, act) && (act.Advance? || (redelivered && act.Deliver?))
    ensures Next(env, s, act).row == s.row && Settled(env, Next(env, s, act), redelivered)
  {
  }

  lemma {:induction false} SettledRun(env: Env, s: State, acts: seq<Action>, redelivered: bool)
    requires Settled(env, s, redelivered) && Legal(env, s, acts) && Only(acts, redelivered)
    ensures Exec(env, s, acts).row == s.row && Settled(env, Exec(env, s, acts), redelivered)
  {
    if acts != [] {
      SettledRun(env, s, acts[..|acts| - 1], redelivered);
      SettledStep(env, Exec(env, s, acts[..|acts| - 1]), acts[|acts| - 1], redelivered);
    }
  }

  lemma {:induction false} Prepend(env: Env, s: State, act: Action, acts: seq<Action>)
    requires Enabled(s, act) && Legal(env, Next(env, s, act), acts)
    ensures Legal(env, s, [act] + acts) && Exec(env, s, [act] + acts) == Exec(env, Next(env, s, act), acts)
  {
    if acts == [] {
      Extends(env, s, [], act);
      assert [] + [act] == [act] + acts;
    } else {
      var init, last := acts[..|acts| - 1], acts[|acts| - 1];
      Prepend(env, s, act, init);
      Extends(env, s, [act] + init, last);
      assert ([act] + init) + [last] == [act] + acts;
    }
  }

  function StepsToWrite(a: Attempt): nat {
    match a
    case Loading => 9
    case Marking(_) => 8
    case Downloading(_) => 7
    case Listening => 6
    case Storing(_) => 5
    case Advancing(_) => 4
    case Asking(_) => 3
    case Writing(_) => 2
    case Inserting(_, _) => 1
  }

  const Blank := Extraction("", "", [], [], [], false, "", None, [], "", "", [], "")

  /** An answer that lets an attempt go on; an extraction comes at another time than the row's. */
  function GoodInput(row: JobRow, a: Attempt): Input {
    if a.Listening? then Heard("memo")
    else if a.Asking? then Replied(Answered(Some(Blank)), CallFailed, if row.completedAt == Some(0) then 1 else 0)
    else Ok
  }

  /** An attempt that is not harmless either changes the completed row with its next call or gets closer to it. */
  lemma Closer(env: Env, s: State, k: nat)
    requires s.row.status == Completed && k in s.workers && !Harmless(env, s.row, s.workers[k])
    ensures s.workers[k].a.Some?
    ensures var a := s.workers[k].a.value;
            var act := Advance(k, GoodInput(s.row, a), true);
            && Enabled(s, act)
            && (Next(env, s, act).row == s.row ==>
                  && k in Next(env, s, act).workers && !Harmless(env, s.row, Next(env, s, act).workers[k])
                  && StepsToWrite(Next(env, s, act).workers[k].a.value) < StepsToWrite(a))
  {
  }

  lemma {:induction false} Disturb(env: Env, s: State, k: nat) returns (acts: seq<Action>)
    requires s.row.status == Completed && k in s.workers && !Harmless(env, s.row, s.workers[k])
    ensures Legal(env, s, acts) && Only(acts, false) && Exec(env, s, acts).row != s.row
    decreases if s.workers[k].a.Some? then StepsToWrite(s.workers[k].a.value) else 0
  {
    Closer(env, s, k);
    var act := Advance(k, GoodInput(s.row, s.workers[k].a.value), true);
    acts := [];
    if Next(env, s, act).row == s.row {
      acts := Disturb(env, Next(env, s, act), k);
    }
    Prepend(env, s, act, acts);
    acts := [act] + acts;
  }

  lemma Redeliver(env: Env, s: State) returns (acts: seq<Action>)
    requires s.row.status == Completed && s.row.audioUrl.GetOr("") != ""
    ensures Legal(env, s, acts) && Only(acts, true) && Exec(env, s, acts).row != s.row
  {
    var k := FreshNat(s.workers.Keys);
    acts := Disturb(env, Next(env, s, Deliver(k)), k);
    Prepend(env, s, Deliver(k), acts);
    acts := [Deliver(k)] + acts;
  }

  /** The attempts' own statements leave a completed row as it is, in every run of the open attempts, if and only if
      each of them is harmless, and in every run with further deliveries if and only if moreover the row has no
      audio.  This does not count the error handler of an attempt that fails; `FinalIff` does. */
  lemma AttemptsKeepIff(env: Env, s: State, redelivered: bool)
    requires s.row.status == Completed
    ensures KeptByAttempts(env, s, redelivered) <==> Settled(env, s, redelivered)
  {
    if Settled(env, s, redelivered) {
      forall acts | Legal(env, s, acts) && Only(acts, redelivered)
        ensures Exec(env, s, acts).row == s.row
      {
        SettledRun(env, s, acts, redelivered);
      }
    } else if k :| k in s.workers && !Harmless(env, s.row, s.workers[k]) {
      var acts := Disturb(env, s, k);
      assert Only(acts, redelivered);
    } else {
      var acts := Redeliver(env, s);
    }
  }

  lemma Extends(env: Env, s: State, acts: seq<Action>, act: Action)
    requires Legal(env, s, acts) && Enabled(Exec(env, s, acts), act)
    ensures Legal(env, s, acts + [act]) && Exec(env, s, acts + [act]) == Next(env, Exec(env, s, acts), act)
  {
    assert (acts + [act])[..|acts|] == acts;
  }

  // ---------------------------------------------------------------------------------------
  // When a completed row is final
  // ---------------------------------------------------------------------------------------

  /** The step ends an attempt in an error. */
  ghost predicate Fails(env: Env, s: State, act: Action)
    requires Enabled(s, act)
  {
    && act.Advance?
    && AttemptStep(env, s.row, s.kids, _ => act.stored, s.workers[act.k].a.value, act.input).next.Fail?
  }

  /** An error handler is due: one was at the start, or an attempt has failed since. */
  ghost predicate HandlerDue(env: Env, s: State, acts: seq<Action>, due: bool)
    requires Legal(env, s, acts)
  {
    if acts == [] then due
    else
      || HandlerDue(env, s, acts[..|acts| - 1], due)
      || Fails(env, Exec(env, s, acts[..|acts| - 1]), acts[|acts| - 1])
  }

  /** A run of the worker on a job that was queued: steps of attempts, error handlers that are due, and new
      deliveries if `redelivered`. */
  ghost predicate Attended(env: Env, s: State, acts: seq<Action>, redelivered: bool, due: bool)
    requires Legal(env, s, acts)
  {
    acts == [] ||
    (&& Attended(env, s, acts[..|acts| - 1], redelivered, due)
     && match acts[|acts| - 1]
        case Advance(_, _, _) => true
        case Deliver(_) => redelivered
        case MarkFailed => HandlerDue(env, s, acts[..|acts| - 1], due)
        case NullOut => false)
  }

  /** No such run changes the row. */
  ghost predicate Final(env: Env, s: State, redelivered: bool, due: bool) {
    forall acts | Legal(env, s, acts) && Attended(env, s, acts, redelivered, due) :: Exec(env, s, acts).row == s.row
  }

  ghost predicate AllWrote(s: State) {
    forall k | k in s.workers :: Wrote(s.workers[k])
  }

  lemma WroteStep(env: Env, s: State, act: Action)
    requires AllWrote(s) && Enabled(s, act) && act.Advance?
    ensures !Fails(env, s, act) && Next(env, s, act).row == s.row && AllWrote(Next(env, s, act))
  {
    FailWritesNothing(env, s.row, s.kids, _ => act.stored, s.workers[act.k].a.value, act.input);
  }

  lemma {:induction false} WroteRun(env: Env, s: State, acts: seq<Action>)
    requires AllWrote(s) && Legal(env, s, acts) && Attended(env, s, acts, false, false)
    ensures Exec(env, s, acts).row == s.row && AllWrote(Exec(env, s, acts)) && !HandlerDue(env, s, acts, false)
  {
    if acts != [] {
      WroteRun(env, s, acts[..|acts| - 1]);
      WroteStep(env, Exec(env, s, acts[..|acts| - 1]), acts[|acts| - 1]);
    }
  }

  lemma AttendedMore(env: Env, s: State, acts: seq<Action>, act: Action, redelivered: bool, due: bool)
    requires Legal(env, s, acts) && Attended(env, s, acts, redelivered, due) && Enabled(Exec(env, s, acts), act)
    requires act.Advance? || (act.Deliver? && redelivered) || (act.MarkFailed? && HandlerDue(env, s, acts, due))
    ensures Legal(env, s, acts + [act]) && Attended(env, s, acts + [act], redelivered, due)
    ensures Exec(env, s, acts + [act]) == Next(env, Exec(env, s, acts), act)
    ensures HandlerDue(env, s, acts + [act], due)
       <==> (HandlerDue(env, s, acts, due) || Fails(env, Exec(env, s, acts), act))
  {
    Extends(env, s, acts, act);
    assert (acts + [act])[..|acts|] == acts;
  }

  /** An attempt before its completing write can fail, and then its error handler marks the row. */
  lemma FailAndMark(env: Env, s: State, acts: seq<Action>, k: nat, redelivered: bool, due: bool)
    returns (run: seq<Action>)
    requires Legal(env, s, acts) && Attended(env, s, acts, redelivered, due)
    requires k in Exec(env, s, acts).workers && !Wrote(Exec(env, s, acts).workers[k])
    ensures Legal(env, s, run) && Attended(env, s, run, redelivered, due) && Exec(env, s, run).row.status == Failed
  {
    var m, act := Exec(env, s, acts), Advance(k, Err, true);
    FailWritesNothing(env, m.row, m.kids, _ => act.stored, m.workers[k].a.value, Err);
    AttendedMore(env, s, acts, act, redelivered, due);
    AttendedMore(env, s, acts + [act], MarkFailed, redelivered, due);
    run := acts + [act] + [MarkFailed];
  }

  lemma Unsettle(env: Env, s: State, redelivered: bool, due: bool) returns (run: seq<Action>)
    requires redelivered || due || !AllWrote(s)
    ensures Legal(env, s, run) && Attended(env, s, run, redelivered, due) && Exec(env, s, run).row.status == Failed
  {
    if due {
      AttendedMore(env, s, [], MarkFailed, redelivered, due);
      run := [] + [MarkFailed];
    } else if redelivered {
      var k := FreshNat(s.workers.Keys);
      AttendedMore(env, s, [], Deliver(k), redelivered, due);
      run := FailAndMark(env, s, [] + [Deliver(k)], k, redelivered, due);
    } else {
      var k :| k in s.workers && !Wrote(s.workers[k]);
      run := FailAndMark(env, s, [], k, redelivered, due);
    }
  }

  /** A completed row is final if and only if every open attempt is past its completing write, no error handler is
      due, and no further delivery comes. */
  lemma FinalIff(env: Env, s: State, redelivered: bool, due: bool)
    requires s.row.status == Completed
    ensures Final(env, s, redelivered, due) <==> AllWrote(s) && !due && !redelivered
  {
    if AllWrote(s) && !due && !redelivered {
      forall acts | Legal(env, s, acts) && Attended(env, s, acts, redelivered, due)
        ensures Exec(env, s, acts).row == s.row
      {
        WroteRun(env, s, acts);
      }
    } else {
      var run := Unsettle(env, s, redelivered, due);
    }
  }

  /** A completed row is not final here: a further delivery reopens it as soon as its first two calls succeed,
      whatever happened before, and its extracted columns stay those of the earlier write meanwhile. */
  lemma RedeliveryReopens(env: Env, s: State, k: nat, w: Write)
    requires k !in s.workers && CompletedBy(env, s.row, w) && s.row.audioUrl.GetOr("") != ""
    ensures var acts := [Deliver(k), Advance(k, Ok, true), Advance(k, Ok, true)];
            && Legal(env, s, acts)
            && Exec(env, s, acts).row.status == Transcribing
            && Exec(env, s, acts).row.transcript == Some(w.transcript) && CarriesAi(env, Exec(env, s, acts).row, w)
  {
    Extends(env, s, [], Deliver(k));
    assert [] + [Deliver(k)] == [Deliver(k)];
    Extends(env, s, [Deliver(k)], Advance(k, Ok, true));
    assert [Deliver(k)] + [Advance(k, Ok, true)] == [Deliver(k), Advance(k, Ok, true)];
    Extends(env, s, [Deliver(k), Advance(k, Ok, true)], Advance(k, Ok, true));
    assert [Deliver(k), Advance(k, Ok, true)] + [Advance(k, Ok, true)]
        == [Deliver(k), Advance(k, Ok, true), Advance(k, Ok, true)];
  }
}
