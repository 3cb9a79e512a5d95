/** The rows of the job tables, the statements that change them, and one worker attempt as a machine that
    issues those statements one at a time. */
module JobRows {
  import opened Wrappers
  import opened Text
  import Tags

  datatype Status = Queued | Transcribing | Transcribed | Extracting | Completed | Failed

  datatype Material = Material(name: string, quantity: string, unit: string)

  datatype Recommendation = Recommendation(description: string, urgency: string, costRange: string)

  /** What the language model returns.  Labour hours are counted in tenths, the precision of the column. */
  datatype Extraction = Extraction(
    summary: string, workPerformed: string, materialsUsed: seq<Material>, issuesFound: seq<string>,
    recommendations: seq<Recommendation>, followUpRequired: bool, followUpNotes: string,
    laborTenths: Option<int>, jobTags: seq<string>, clientSentiment: string, warrantyNotes: string,
    safetyConcerns: seq<string>, jobCategory: string)

  datatype JobRow = JobRow(
    status: Status, audioUrl: Option<string>, photoUrls: seq<string>, reportLanguage: string,
    transcript: Option<string>,
    aiSummary: Option<string>, aiWorkPerformed: Option<string>, aiFollowUpNotes: Option<string>,
    aiWarrantyNotes: Option<string>, aiJobCategory: Option<string>, aiClientSentiment: Option<string>,
    aiLaborTenths: Option<int>, aiFollowUpRequired: bool, aiSafetyConcerns: seq<string>, aiTags: seq<string>,
    aiRawJson: Option<Extraction>, aiModelUsed: Option<string>, aiProcessedAt: Option<int>, completedAt: Option<int>)

  /** A row as `CreateJob` inserts it. */
  function NewRow(audioUrl: string, photoUrls: seq<string>, reportLanguage: string): JobRow {
    JobRow(Queued, Some(audioUrl), photoUrls, reportLanguage, None, None, None, None, None, None, None, None,
           false, [], [], None, None, None, None)
  }

  /** What the worker is configured with: the Unicode tables, the tag vocabulary, whether Gemini may be asked. */
  datatype Env = Env(lower: char -> char, space: char -> bool, allowed: set<string>, geminiKey: bool)

  const MaxTags := 5
  const GroqModel := "llama-3.3-70b-versatile"
  const GeminiModel := "gemini-1.5-flash"
  const UnclearTranscript := "Voice memo was unclear \U{2014} technician notes unavailable."

  function OptText(s: string): Option<string> {
    if s == "" then None else Some(s)
  }

  /** A value outside the known ones becomes the default. */
  function Sanitize(env: Env, s: string, known: set<string>, default: string): string {
    var t := Lower(env.lower, s);
    if t in known then t else default
  }

  const Categories := {"electrical", "plumbing", "hvac", "cleaning", "landscaping", "general", "other"}
  const Sentiments := {"positive", "neutral", "negative", "unavailable"}
  const Urgencies := {"immediate", "within_30_days", "when_convenient"}

  /** The parameters of the statement that completes a job. */
  datatype Write = Write(transcript: string, x: Extraction, tags: seq<string>, model: string, at: int)

  /** The statements of the job pipeline. */
  datatype Stmt =
    | SetStatus(status: Status)
    | SetTranscript(transcript: string)
    | SetPipeline(w: Write)
    | NullUrlsAndFail

  function Apply(env: Env, row: JobRow, stmt: Stmt): JobRow {
    match stmt
    case SetStatus(status) => row.(status := status)
    case SetTranscript(t) => row.(status := Transcribed, transcript := Some(t))
    case NullUrlsAndFail => row.(status := Failed, audioUrl := None, photoUrls := [])
    case SetPipeline(w) =>
      row.(status := Completed,
           transcript := Some(w.transcript),
           aiSummary := OptText(w.x.summary),
           aiWorkPerformed := OptText(w.x.workPerformed),
           aiFollowUpNotes := OptText(w.x.followUpNotes),
           aiWarrantyNotes := OptText(w.x.warrantyNotes),
           aiJobCategory :=
             if w.x.jobCategory == "" then None else Some(Sanitize(env, w.x.jobCategory, Categories, "other")),
           aiClientSentiment :=
             if w.x.clientSentiment == "" then None
             else Some(Sanitize(env, w.x.clientSentiment, Sentiments, "unavailable")),
           aiLaborTenths := w.x.laborTenths,
           aiFollowUpRequired := w.x.followUpRequired,
           aiSafetyConcerns := w.x.safetyConcerns,
           aiTags := w.tags,
           aiRawJson := Some(w.x),
           aiModelUsed := Some(w.model),
           aiProcessedAt := Some(w.at),
           completedAt := Some(w.at))
  }

  /** `v` is the known value that `said` is in some case, or the default if it is none of them. */
  ghost predicate Recognized(lower: char -> char, said: string, known: set<string>, default: string, v: string) {
    v in known && (IsLower(lower, said, v) || (v == default && forall t | t in known :: !IsLower(lower, said, t)))
  }

  /** The column is null exactly when the model said nothing; otherwise it holds a known value. */
  ghost predicate Coerced(env: Env, said: string, known: set<string>, default: string, column: Option<string>) {
    && (column.None? <==> said == "")
    && (column.Some? ==> Recognized(env.lower, said, known, default, column.value))
  }

  /** The column is null exactly when the model said nothing; otherwise it holds what it said. */
  ghost predicate Optional(said: string, column: Option<string>) {
    (column.None? <==> said == "") && (column.Some? ==> column.value == said)
  }

  /** Every extracted column of the row is the one that `w` wrote. */
  ghost predicate CarriesAi(env: Env, row: JobRow, w: Write) {
    && row.aiRawJson == Some(w.x) && row.aiModelUsed == Some(w.model)
    && row.aiProcessedAt == Some(w.at) && row.completedAt == Some(w.at)
    && Optional(w.x.summary, row.aiSummary) && Optional(w.x.workPerformed, row.aiWorkPerformed)
    && Optional(w.x.followUpNotes, row.aiFollowUpNotes) && Optional(w.x.warrantyNotes, row.aiWarrantyNotes)
    && Coerced(env, w.x.jobCategory, Categories, "other", row.aiJobCategory)
    && Coerced(env, w.x.clientSentiment, Sentiments, "unavailable", row.aiClientSentiment)
    && row.aiLaborTenths == w.x.laborTenths && row.aiFollowUpRequired == w.x.followUpRequired
    && row.aiSafetyConcerns == w.x.safetyConcerns && row.aiTags == w.tags
  }

  /** The row is completed, and its transcript and extracted columns all come from `w`. */
  ghost predicate CompletedBy(env: Env, row: JobRow, w: Write) {
    row.status == Completed && row.transcript == Some(w.transcript) && CarriesAi(env, row, w)
  }

  /** The tags are the cleaned ones, and the model is one that may have answered. */
  ghost predicate WellMade(env: Env, w: Write) {
    && w.tags == Tags.Normalized(env.lower, env.space, w.x.jobTags, MaxTags, Some(env.allowed))
    && (w.model == GroqModel || (env.geminiKey && w.model == GeminiModel))
  }

  // ---------------------------------------------------------------------------------------
  // Child rows
  // ---------------------------------------------------------------------------------------

  datatype Child =
    | MaterialRow(name: string, quantity: Option<string>, unit: Option<string>)
    | RecommendationRow(description: string, urgency: string, costRange: Option<string>)
    | TagRow(tag: string)

  /** The row a material is stored as; a nameless one is skipped. */
  function MaterialEntry(m: Material): Option<Child> {
    if m.name == "" then None else Some(MaterialRow(m.name, OptText(m.quantity), OptText(m.unit)))
  }

  function RecommendationEntry(env: Env, r: Recommendation): Option<Child> {
    if r.description == "" then None
    else
      var urgency := Sanitize(env, r.urgency, Urgencies, "when_convenient");
      Some(RecommendationRow(r.description, urgency, OptText(r.costRange)))
  }

  /** The three insert loops in order: materials, recommendations, tags. */
  function Entries(env: Env, w: Write): seq<Option<Child>> {
    seq(|w.x.materialsUsed|, i requires 0 <= i < |w.x.materialsUsed| => MaterialEntry(w.x.materialsUsed[i]))
    + seq(|w.x.recommendations|,
        i requires 0 <= i < |w.x.recommendations| => RecommendationEntry(env, w.x.recommendations[i]))
    + seq(|w.tags|, i requires 0 <= i < |w.tags| => Some(TagRow(w.tags[i])))
  }

  /** The rows those loops store when no insert fails. */
  function Stored(entries: seq<Option<Child>>): seq<Child> {
    if entries == [] then []
    else
      var rest, e := Stored(entries[..|entries| - 1]), entries[|entries| - 1];
      if e.Some? then rest + [e.value] else rest
  }

  /** The UNIQUE and CHECK constraints of the child tables, for one more row. */
  predicate Admits(kids: seq<Child>, child: Child) {
    && (child.TagRow? ==> child !in kids)
    && (child.RecommendationRow? ==> child.urgency in Urgencies)
  }

  // ---------------------------------------------------------------------------------------
  // One attempt
  // ---------------------------------------------------------------------------------------

  datatype LlmReply = Answered(parsed: Option<Extraction>) | RateLimited | CallFailed

  /** `extractJobData`: Gemini is asked only when Groq is rate limited and a key is configured. */
  function ExtractJobData(env: Env, groq: LlmReply, gemini: LlmReply): Option<(Extraction, string)> {
    if groq.RateLimited? then
      if env.geminiKey && gemini.Answered? && gemini.parsed.Some? then Some((gemini.parsed.value, GeminiModel))
      else None
    else if groq.Answered? && groq.parsed.Some? then Some((groq.parsed.value, GroqModel))
    else None
  }

  /** The rule for the two models, by their replies: what Groq extracted counts whatever Gemini says, and what Gemini
      extracted counts if Groq is rate limited and a key is configured.  In every other case there is nothing. */
  ghost predicate Told(env: Env, groq: LlmReply, gemini: LlmReply, x: Extraction, model: string) {
    || (groq == Answered(Some(x)) && model == "llama-3.3-70b-versatile")
    || (groq == RateLimited && env.geminiKey && gemini == Answered(Some(x)) && model == "gemini-1.5-flash")
  }

  /** What the attempt takes for the transcript of what was heard. */
  ghost predicate Transcribes(heard: string, transcript: string) {
    if heard == "" then transcript == UnclearTranscript else transcript == heard
  }

  /** Where an attempt stands, with the local variables it still needs. */
  datatype Attempt =
    | Loading
    | Marking(audio: string)
    | Downloading(audio: string)
    | Listening
    | Storing(transcript: string)
    | Advancing(transcript: string)
    | Asking(transcript: string)
    | Writing(w: Write)
    | Inserting(w: Write, i: nat)

  /** What the outside world answers to the attempt's next call. */
  datatype Input = Err | Ok | Heard(text: string) | Replied(groq: LlmReply, gemini: LlmReply, at: int)

  datatype Onward = Go(a: Attempt) | Done(w: Write) | Fail(skip: bool)

  /** One step: the statement it executes, the child row it stores, and where it goes next. */
  datatype Step = Step(stmt: Option<Stmt>, child: Option<Child>, next: Onward)

  predicate Fits(a: Attempt, input: Input) {
    input.Err? || (if a.Listening? then input.Heard? else if a.Asking? then input.Replied? else input.Ok?)
  }

  /** `stored` says whether the object store has a given key. */
  function AttemptStep(env: Env, row: JobRow, kids: seq<Child>, stored: string -> bool, a: Attempt, input: Input): Step
    requires Fits(a, input)
  {
    match a
    case Loading =>
      if input.Err? then Step(None, None, Fail(false))
      else if row.audioUrl.None? || row.audioUrl.value == "" then Step(None, None, Fail(true))
      else Step(None, None, Go(Marking(row.audioUrl.value)))
    case Marking(audio) =>
      if input.Err? then Step(None, None, Fail(false))
      else Step(Some(SetStatus(Transcribing)), None, Go(Downloading(audio)))
    case Downloading(audio) =>
      if input.Err? || !stored(audio) then Step(None, None, Fail(false)) else Step(None, None, Go(Listening))
    case Listening =>
      if input.Err? then Step(None, None, Fail(false))
      else Step(None, None, Go(Storing(if input.text == "" then UnclearTranscript else input.text)))
    case Storing(t) =>
      if input.Err? then Step(None, None, Fail(false)) else Step(Some(SetTranscript(t)), None, Go(Advancing(t)))
    case Advancing(t) =>
      if input.Err? then Step(None, None, Fail(false)) else Step(Some(SetStatus(Extracting)), None, Go(Asking(t)))
    case Asking(t) =>
      var got := if input.Err? then None else ExtractJobData(env, input.groq, input.gemini);
      if got.None? then Step(None, None, Fail(false))
      else
        var (x, model) := got.value;
        var tags := Tags.Normalized(env.lower, env.space, x.jobTags, MaxTags, Some(env.allowed));
        Step(None, None, Go(Writing(Write(t, x, tags, model, input.at))))
    case Writing(w) =>
      if input.Err? then Step(None, None, Fail(false)) else Step(Some(SetPipeline(w)), None, Go(Inserting(w, 0)))
    case Inserting(w, i) =>
      var entries := Entries(env, w);
      if i >= |entries| then Step(None, None, Done(w))
      else
        var child := if input.Ok? && entries[i].Some? && Admits(kids, entries[i].value) then entries[i] else None;
        Step(None, child, Go(Inserting(w, i + 1)))
  }

  function RowAfter(env: Env, row: JobRow, stmt: Option<Stmt>): JobRow {
    if stmt.Some? then Apply(env, row, stmt.value) else row
  }

  function KidsAfter(kids: seq<Child>, child: Option<Child>): seq<Child> {
    if child.Some? then kids + [child.value] else kids
  }

  // ---------------------------------------------------------------------------------------
  // Facts about single statements and inserts
  // ---------------------------------------------------------------------------------------

  lemma SanitizeRecognizes(env: Env, s: string, known: set<string>, default: string)
    requires default in known
    ensures Recognized(env.lower, s, known, default, Sanitize(env, s, known, default))
  {
    assert IsLower(env.lower, s, Lower(env.lower, s));
    forall t | IsLower(env.lower, s, t)
      ensures t == Lower(env.lower, s)
    {
    }
  }

  /** The completing statement, and no other, leaves the row completed; it does so coherently. */
  lemma ApplyCompletes(env: Env, row: JobRow, stmt: Stmt)
    requires stmt != SetStatus(Completed)
    ensures Apply(env, row, stmt).status == Completed <==> stmt.SetPipeline?
    ensures stmt.SetPipeline? ==> CompletedBy(env, Apply(env, row, stmt), stmt.w)
    ensures !stmt.SetPipeline? ==> forall w :: CarriesAi(env, row, w) ==> CarriesAi(env, Apply(env, row, stmt), w)
  {
    if stmt.SetPipeline? {
      SanitizeRecognizes(env, stmt.w.x.jobCategory, Categories, "other");
      SanitizeRecognizes(env, stmt.w.x.clientSentiment, Sentiments, "unavailable");
    }
  }

  ghost predicate IsMaterialRow(m: Material, child: Child) {
    child.MaterialRow? && child.name == m.name && Optional(m.quantity, child.quantity) && Optional(m.unit, child.unit)
  }

  ghost predicate IsRecommendationRow(env: Env, r: Recommendation, child: Child) {
    && child.RecommendationRow? && child.description == r.description && Optional(r.costRange, child.costRange)
    && Recognized(env.lower, r.urgency, Urgencies, "when_convenient", child.urgency)
  }

  /** A material is stored exactly when it has a name, column by column. */
  lemma MaterialStored(m: Material)
    ensures MaterialEntry(m).Some? <==> m.name != ""
    ensures MaterialEntry(m).Some? ==> IsMaterialRow(m, MaterialEntry(m).value)
  {
  }

  /** A recommendation is stored exactly when it has a description, and the database never refuses it for its
      urgency, which is the model's own if that is known. */
  lemma RecommendationsAdmitted(env: Env, r: Recommendation, kids: seq<Child>)
    ensures RecommendationEntry(env, r).Some? <==> r.description != ""
    ensures RecommendationEntry(env, r).Some? ==>
              var row := RecommendationEntry(env, r).value; Admits(kids, row) && IsRecommendationRow(env, r, row)
  {
    SanitizeRecognizes(env, r.urgency, Urgencies, "when_convenient");
  }

  /** Before the inserts an attempt fails exactly when its call does, when the row has no audio, when the audio is not
      in the store, or when neither model extracted anything; and only a row without audio makes the queue skip the
      remaining retries.  The inserts never fail an attempt. */
  lemma FailIff(env: Env, row: JobRow, kids: seq<Child>, stored: string -> bool, a: Attempt, input: Input)
    requires Fits(a, input)
    ensures var next := AttemptStep(env, row, kids, stored, a, input).next;
            && (next.Fail? <==>
                  || (input.Err? && !a.Inserting?)
                  || (a.Loading? && row.audioUrl.GetOr("") == "")
                  || (a.Downloading? && !stored(a.audio))
                  || (a.Asking? && forall x, model :: !Told(env, input.groq, input.gemini, x, model)))
            && (next == Fail(true) <==> a.Loading? && !input.Err? && row.audioUrl.GetOr("") == "")
  {
    if a.Asking? && !input.Err? && AttemptStep(env, row, kids, stored, a, input).next.Go? {
      var got := ExtractJobData(env, input.groq, input.gemini).value;
      assert Told(env, input.groq, input.gemini, got.0, got.1);
    }
  }

  /** A step that ends an attempt writes nothing.  Inserting never fails and issues no statement on the row; before
      that, an error always fails the attempt. */
  lemma FailWritesNothing(env: Env, row: JobRow, kids: seq<Child>, stored: string -> bool, a: Attempt, input: Input)
    requires Fits(a, input)
    ensures var s := AttemptStep(env, row, kids, stored, a, input);
            && (s.next.Fail? ==> s.stmt.None? && s.child.None? && !a.Inserting?)
            && (s.next.Done? ==> s.stmt.None? && s.child.None? && a.Inserting?)
            && (s.child.Some? ==> a.Inserting?)
            && (a.Inserting? ==> s.stmt.None? && !s.next.Fail?)
            && (input.Err? && !a.Inserting? ==> s.next == Fail(false))
            && (s.stmt.Some? ==> s.stmt.value != SetStatus(Completed) && !s.stmt.value.NullUrlsAndFail?)
  {
  }
}
