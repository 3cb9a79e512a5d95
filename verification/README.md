# Verification of the field-service backend

A Dafny model, with proofs, of the four parts of the backend whose correctness spans more than one function:

- **The per-IP rate limiter** (`RateLimit.dfy`, `RateExact.dfy`, `RateLimiter.dfy`). A map of token buckets from which a
  background sweep throws idle entries away, while a request may still hold the limiter it fetched. The machine has
  separate steps for `get`, `Allow` and each entry the sweep checks; switching eviction off gives the simple limiter that
  never forgets, which is the reference. The class is the map as the server updates it.
- **The job pipeline** (`JobRows.dfy`, `Pipeline.dfy`, `PipelineInv.dfy`, `PipelineTheorems.dfy`,
  `PipelineHandlers.dfy`, `Redelivery.dfy`). Upload requests, the object store, the job tables, the task queue and the
  worker's attempts, interleaved step by step with any step failing. `PipelineHandlers` is the imperative form of the
  upload request, the worker and the error handler; each call it makes is one action of the machine. `Redelivery` is the
  stronger model in which one job may be delivered again, or several times at once.
- **Accounts** (`Accounts.dfy`, `AccountInv.dfy`, `AccountTheorems.dfy`, `AccountHandlers.dfy`). Registration,
  invitations, magic links and verification as interleaved transactions over companies, users, invitations and tokens,
  with row locks, unique keys and `NOW()` fixed at the start of a transaction. `AccountHandlers` is the imperative form,
  with tables updated in place and rolled back.
- **The string loops they rest on** (`Text.dfy`, `Slugs.dfy`, `Tags.dfy`, `Keys.dfy`).

A run is a sequence of actions; `Legal` says that each was possible when it happened, `Exec` is the state it leads to, and
the theorems quantify over all legal runs. Each of the three classes (`IPRateLimiter`, `Backend`, `Server`) keeps a ghost log
of what happened, and its `Valid()` says that its fields are the state that this run leads to, so the theorems about all
runs hold before and after every call (`CallsBounded`, `CallsExact` and `EntriesBounded` in `RateLimiter.IPRateLimiter`
spell this out for the limiter).

Assumptions. An upload, insert or enqueue that reports an error had no effect; the two updates that mark a job as failed
succeed; random prefixes, identifiers and tokens are never drawn twice; SHA-256 is injective; PostgreSQL runs at READ
COMMITTED and aborts a transaction after a failed statement. Case mapping and white space are parameters, so the string
results hold for the full Unicode tables. Time is real (rate limiter) or whole seconds (accounts), and only moves forward.

## Results that differ from what one might expect

- Eviction is invisible, the window bound `b + r*T` holds, and a request is allowed whenever one more keeps that bound,
  exactly when the bucket refills in the idle time left after the longest `get`-to-`Allow` gap, or the burst is 0
  (`RateLimit.InvisibleIff`, `RateLimit.WindowBoundIff`, `RateExact.ExactIff`); with the configured limits that gap is
  564 s. Beyond it some run allows `2b` requests in less time than `b` tokens take to refill (`RateLimit.StormExceeds`).
- Pending invitations of one company and email are not unique. Two concurrent requests to `InviteHandler` can leave two
  (`AccountTheorems.TwoPendingInvites`), and a registration under a known email adds one without any check
  (`AccountTheorems.ReinvitedOnTop`). Over every run there is at most one at all times exactly when neither kind of insert
  happens while one is pending (`AccountTheorems.OnePendingIff`).
- A completed job is final while outcomes are acknowledged (`PipelineTheorems.CompletedIsFinal`). Under redelivery, with
  the error handler of attempts that fail, it is final exactly when every open attempt is past its completing write, no
  error handler is still due, and no further delivery comes (`Redelivery.FinalIff`). The worker and the error handler do
  not look at the status, so one more delivery can reopen a job with audio (`Redelivery.RedeliveryReopens`), and one that
  fails for good marks it failed. What the attempts alone write leaves it as it is under the weaker condition of
  `Redelivery.AttemptsKeepIff`.
- The invitation that a registration under a known email sends can never be accepted, for technicians as for owners
  (`AccountTheorems.ResentNeverAccepted`).
- The retry under a suffixed slug in `createRegistration` cannot succeed, because the failed insert has already aborted
  the transaction; a registration with a taken slug changes nothing (`AccountHandlers.Server.CreateRegistration`).
- The suffixed slug is a slug only if the name had a letter or digit to keep (`Slugs.SuffixedSlug`).
- `normalizeTags` keeps its limit exactly when the limit is positive or no tag is acceptable; a limit of 0 lets one tag
  through (`Tags.LimitKeptIff`, `Tags.ZeroLetsOneThrough`). The code only ever passes 5.

## Model

| member | source | states |
|---|---|---|
| RateLimit.InvisibleIff | api/internal/middleware/ratelimit.go:51-97 | For every rate, burst, idle timeout and longest `get`-to-`Allow` gap: all runs get the same answers as from the limiter that never evicts if and only if the burst is 0 or `b/r <= idle - gap` |
| RateLimit.NextSimulates | api/internal/middleware/ratelimit.go:51-97 | The simulation: every single step of the limiter that never forgets is matched by the evicting one, with the same reply |
| RateLimit.Differ | api/internal/middleware/ratelimit.go:58-66 | When a bucket does not refill in time, some run gets different answers |
| RateLimit.StormAllowsTwice | api/internal/middleware/ratelimit.go:72-97 | Such a run: two full bursts of one IP are allowed although no refill fits between them |
| RateLimit.WindowBoundIff | api/internal/middleware/ratelimit.go:72-97 | For every rate, burst, idle timeout and longest gap: every run, with evictions and pending requests, allows one IP at most `b + r*T` requests in any interval of length T if and only if the burst is 0 or `b/r <= idle - gap` |
| RateLimit.StormExceeds | api/internal/middleware/ratelimit.go:58-66 | When a bucket does not refill in time, some run allows more than that |
| RateLimit.MagicLinkLimits | api/cmd/server/main.go:110-111 | As configured: invisible and bounded exactly up to a gap of 564 s, and then at most 8 requests of one IP in any 60 s |
| RateExact.AllowedIff | api/internal/middleware/ratelimit.go:86-97 | For every rate and burst, in every run of the limiter that never forgets: a request is allowed if and only if one more keeps its IP within `b + r*T` in every interval of length T that ends at that moment, so every denial has an interval that one more request would have overfilled |
| RateExact.ExactIff | api/internal/middleware/ratelimit.go:51-97 | The evicting limiter allows exactly those requests in every run if and only if the burst is 0 or `b/r <= idle - gap` |
| RateExact.MagicLinkExact | api/cmd/server/main.go:110-111 | As configured this is so exactly up to a gap of 564 s |
| RateLimit.TableBound | api/internal/middleware/ratelimit.go:51-82 | In every run whose complete sweeps start at most `every` apart, at every moment each entry belongs to an IP seen within idle timeout plus `every` (counted from the start of the sweep under way, if there is one), which bounds the map by the distinct callers of that window |
| RateLimit.MagicLinkTable | api/internal/middleware/ratelimit.go:14-17 | As configured: sweeps 5 minutes apart keep only IPs seen within 15 minutes |
| RateLimiter.Limiter.Allow | api/internal/middleware/ratelimit.go:89-89 | The answer and the new bucket are those of the machine; a denied call changes neither tokens nor clock |
| RateLimiter.IPRateLimiter.Get | api/internal/middleware/ratelimit.go:72-82 | `get` is one `Get` step of the run so far: it returns the entry's limiter, or a new full one, and refreshes `lastSeen` |
| RateLimiter.IPRateLimiter.AllowHeld | api/internal/middleware/ratelimit.go:89-94 | `Allow` on a held limiter is one `Allow` step with that answer, also when the entry was evicted meanwhile; if buckets refill in the idle time left, the answer is yes exactly when one more request keeps the window bound |
| RateLimiter.IPRateLimiter.Limit | api/internal/middleware/ratelimit.go:86-97 | A whole request, while any number of others wait between `get` and `Allow`, is these two steps and adds one answer; if buckets refill in the idle time left, it is yes exactly when one more request keeps the window bound |
| RateLimiter.IPRateLimiter.SweepOne | api/internal/middleware/ratelimit.go:61-63 | An entry is deleted exactly when it was idle for longer than the timeout |
| RateLimiter.IPRateLimiter.SweepAll | api/internal/middleware/ratelimit.go:58-65 | A sweep is complete, and is logged as such: it checks every entry that was there when it started, whatever requests wait meanwhile |
| RateLimiter.IPRateLimiter.CallsBounded | api/internal/middleware/ratelimit.go:51-97 | After any sequence of calls, if the bucket refills in the idle time left after the longest wait so far: every answer was the one of the limiter that never forgets, and no IP got more than `b + r*T` in any interval |
| RateLimiter.IPRateLimiter.CallsExact | api/internal/middleware/ratelimit.go:86-97 | And no IP got less: each request was allowed exactly when one more kept the bound in every interval that ended then |
| RateLimiter.IPRateLimiter.EntriesBounded | api/internal/middleware/ratelimit.go:51-82 | After any sequence of calls whose sweeps start at most `every` apart, the entries belong to IPs seen within idle timeout plus `every`, and there are no more of them than distinct callers in that time |
| PipelineInv.NextInv | api/internal/jobs/handler.go:143-250 | Every step of every process keeps the invariant that ties store, rows, child rows, tasks and requests together |
| PipelineInv.AttemptKeeps | api/internal/worker/tasks/process_job.go:76-254 | Every step of an attempt keeps row, child rows and task in agreement and leaves the object keys on the row alone |
| PipelineTheorems.NoLostJobs | api/internal/jobs/handler.go:236-250 | In every reachable state an unfinished job has a live task with retries left, or its request is still on the way to the queue |
| PipelineTheorems.AtRest | api/internal/worker/worker.go:84-125 | With no request and no task left, every job is completed or failed, and the store holds exactly the objects of the accepted requests if all clean-up deletes worked |
| PipelineTheorems.StoreIsOwned | api/internal/jobs/handler.go:157-187 | Nothing is in the store that no request put there |
| PipelineTheorems.ReferentialOrder | api/internal/jobs/handler.go:219-248 | In every reachable state each key on a job row is present in the store |
| PipelineTheorems.EveryMoment | api/internal/jobs/handler.go:219-248 | That holds after every single step of a run, not only when a request returns |
| PipelineTheorems.AllOrNothing | api/internal/jobs/handler.go:143-250 | An accepted request has all its objects in the store, exactly one row with its keys in order and exactly one task, now and later; a rejected one has no task, no row or a failed row without keys, and no object if its deletes worked |
| PipelineTheorems.BoundedRetries | api/internal/worker/worker.go:84-100 | At most 4 deliveries per task; its job is failed exactly when the fourth attempt has failed; the exits that skip the retries are never taken |
| PipelineTheorems.MalformedArchived | api/internal/worker/tasks/process_job.go:78-81 | A task whose payload cannot be decoded is archived after its next delivery, whatever retries are left, and nothing else changes |
| JobRows.FailIff | api/internal/worker/tasks/process_job.go:93-196 | An attempt fails exactly when a call before the inserts does, the row has no audio, the audio is not in the store, or neither model extracted anything; the remaining retries are skipped exactly when the row has no audio |
| PipelineTheorems.TasksEnd | api/internal/worker/tasks/process_job.go:76-254 | Every step of a task decreases (retries, stage, rows left) lexicographically and no other step touches it |
| PipelineTheorems.RequestsEnd | api/internal/jobs/handler.go:143-250 | Every step of a request decreases (stage, objects left to upload or delete) lexicographically and no other step touches it |
| PipelineTheorems.ComesToRest | api/internal/jobs/handler.go:143-250 | Every run can be carried on to one with no request and no live task left, so the premise of `AtRest` can always be reached |
| PipelineTheorems.DownloadFindsAudio | api/internal/worker/tasks/process_job.go:111-117 | The audio an attempt is about to download is in the store |
| PipelineTheorems.CompletedIsFinal | api/internal/worker/tasks/process_job.go:187-254 | With acknowledged outcomes no step changes a completed row |
| PipelineTheorems.ChildrenOnce | api/internal/worker/tasks/process_job.go:187-250 | Whatever fails, the child rows come from the one extraction stored on the completed row: some of its storable entries, in order |
| PipelineTheorems.ChildrenExact | api/internal/worker/tasks/process_job.go:212-250 | Without insert errors the child rows are, once and in order, column by column, the materials that have a name and the recommendations that have a description of the extraction stored on the row, and its `ai_tags` |
| PipelineTheorems.NextAdmitted | db/migrations/000003_create_job_materials_recommendations_tags.up.sql:12-33 | The CHECK and UNIQUE constraints of the child tables never refuse the next row of an extraction |
| JobRows.MaterialStored | api/internal/worker/tasks/process_job.go:212-226 | A material is stored exactly when it has a name, with quantity and unit null exactly when the model said nothing |
| JobRows.RecommendationsAdmitted | api/internal/worker/tasks/process_job.go:228-241 | A recommendation is stored exactly when it has a description, with the urgency it names in any case if that is known and the default otherwise, which the CHECK constraint admits |
| Redelivery.CompletedRowsCoherent | api/internal/worker/tasks/process_job.go:103-210 | Under any duplicate or concurrent deliveries: completed exactly when the last statement was a completing write, and then transcript, every extracted column, model and times come from that write of one attempt, which holds what that attempt heard and was told; no tag is stored twice and every child row is an entry of some completing write |
| Redelivery.FinalIff | api/internal/worker/worker.go:84-125 | With error handlers of failing attempts in the runs, a completed row is final if and only if every open attempt is over or past its completing write, no error handler is due, and no further delivery comes |
| Redelivery.AttemptsKeepIff | api/internal/worker/tasks/process_job.go:93-210 | The attempts' own statements, error handlers aside, leave a completed row as it is if and only if each open attempt is past its completing write, repeats what the row says, or finds no audio, and (with further deliveries) the row has no audio |
| Redelivery.RedeliveryReopens | api/internal/worker/tasks/process_job.go:93-109 | A completed row is not final under redelivery: one more attempt reopens it with its second call, and the extracted columns stay coherent meanwhile |
| PipelineHandlers.Backend.UploadPhotos | api/internal/jobs/handler.go:165-192 | The photo loop: all keys in order, or everything undone and the right error for the first photo that fails |
| PipelineHandlers.Backend.CleanupUploads | api/internal/jobs/handler.go:145-152 | After the clean-up at most this request's objects are left over, and none if every delete works; no task, no other row changes |
| PipelineHandlers.Backend.Submit | api/internal/jobs/handler.go:196-250 | Insert and enqueue: a row and a task, or no task and nothing but a failed row without keys |
| PipelineHandlers.Backend.CreateHandler | api/internal/jobs/handler.go:136-250 | 202 exactly when no call fails, and then the store gained exactly the request's keys, with one task and one row, which holds the keys spelled out from company, prefix and each file name's extension, and the language asked for or `en`; otherwise the queue is as before, the store is as before if every delete works, and there is a row only if the enqueue failed, without keys |
| PipelineHandlers.Backend.Transcribe | api/internal/worker/tasks/process_job.go:93-147 | The first half of an attempt: the stored transcript and the row as far as the attempt got |
| PipelineHandlers.Backend.Extract | api/internal/worker/tasks/extract.go:201-230 | An extraction is written in exactly two cases, by the replies: what Groq extracted, under its model name and whatever Gemini says, or, if Groq was rate limited and a key is configured, what Gemini extracted, under its own; with the transcript and the normalized tags |
| PipelineHandlers.OutcomeIff | api/internal/worker/tasks/process_job.go:103-210 | An attempt writes exactly what it heard (or the placeholder), what it was told by that rule, and the five cleaned tags, if every call up to the completing write works |
| PipelineHandlers.Backend.InsertChildren | api/internal/worker/tasks/process_job.go:212-250 | The three insert loops store every storable entry whose insert does not fail, in order |
| PipelineHandlers.MaskedAdmitted | api/internal/worker/tasks/process_job.go:242-250 | An insert that is lost never makes the constraints refuse a later one |
| PipelineHandlers.Backend.ProcessTask | api/internal/worker/tasks/process_job.go:76-254 | One attempt: success exactly when every call up to the completing write works and one of the two cases of the extraction holds, and then the write holds what was heard and told; the row, child rows and task it leaves; errors never skip the retries |
| PipelineHandlers.Backend.HandleError | api/internal/worker/worker.go:84-125 | The job is marked failed exactly when no retry is left |
| PipelineHandlers.Backend.Work | api/internal/worker/worker.go:84-100 | A queued task ends after at most 4 attempts, with the job completed by the first attempt that succeeds, or failed if none of the four does; nothing else changes |
| AccountInv.NextInv | api/internal/auth/accept_invite.go:35-72 | Every statement of every interleaved transaction keeps the tables and the open transactions consistent |
| AccountInv.OtherAfterAccept | api/internal/db/invitations.sql.go:14-21 | A committed acceptance leaves what every other open transaction holds valid |
| AccountInv.OtherAfterFound | api/internal/auth/register.go:103-165 | So does a committed registration |
| AccountTheorems.ExactlyOneOwner | api/internal/auth/register.go:130-151 | In every reachable state each company has exactly one user with the role owner |
| AccountTheorems.OwnerInvitesConflict | api/internal/auth/register.go:169-182 | An invitation with the role owner always has a user of its company and email already, and is never accepted |
| AccountTheorems.ResentNeverAccepted | api/internal/auth/register.go:169-182 | The invitation sent by a registration under a known email, whatever the role, is stored and is accepted in no run |
| AccountTheorems.FutileForever | api/internal/auth/accept_invite.go:54-65 | Once the company of an open invitation has a user of its email, it is never accepted |
| AccountTheorems.CompaniesAreWhole | api/internal/auth/register.go:103-165 | No reachable state has a company without its owner and the invitation inserted with them |
| AccountTheorems.MembershipConserved | api/internal/auth/accept_invite.go:35-72 | A company has one user more than accepted invitations, and the accepted invitations pair one to one with the users who did not register, keeping company, email and role |
| AccountTheorems.RowsStay | api/internal/db/auth_tokens.sql.go:40-47 | From any moment of a run to its end rows stay, and `accepted_at` and `used_at` are written at most once |
| AccountTheorems.SingleUse | api/internal/auth/verify.go:55-92 | Each token has at most one exchange, for its own user, at its `used_at`, before it expires; a token without one is unused |
| AccountTheorems.UsableTokenFound | api/internal/db/auth_tokens.sql.go:40-47 | The consuming update finds the token of the raw value exactly when `used_at` is null and `expires_at` is later than the start of the transaction |
| AccountTheorems.HeldTokenCommits | api/internal/auth/verify.go:66-92 | A transaction that holds a token can go on to its commit whatever others did, and then logs in the token's user |
| AccountTheorems.MintedForUser | api/internal/auth/magic_link.go:53-79 | A token stored for a user stays that user's, under its digest and with an expiry 15 minutes later, and every exchange of it is that user's login |
| AccountTheorems.UsableTokenVerifies | api/internal/auth/verify.go:55-92 | A token whose `used_at` is null and whose expiry is later than now, held by no one, can be exchanged, for its own user |
| AccountTheorems.MintVerifyRoundTrip | api/internal/auth/magic_link.go:53-79 | A token stored for a user, after any other steps, verifies to exactly that user if it is unused and less than 15 minutes old; and whoever commits a verification of its raw value, interleaved with anything, logs in that user |
| AccountTheorems.FailureReleases | api/internal/auth/verify.go:55-92 | A transaction that fails at any point changes nothing and leaves its invitation or token free to be used again |
| AccountTheorems.ConflictKeepsInvite | api/internal/auth/accept_invite.go:54-65 | Acceptance conflicts exactly when the company has a user of that email, and then the invitation stays unaccepted |
| AccountTheorems.OpenInviteAccepts | api/internal/auth/accept_invite.go:35-72 | After any run, an open invitation can be accepted if its company has no user of its email and no open transaction is in the way, and then exactly its user is added |
| AccountTheorems.RegistrationCommits | api/internal/auth/register.go:103-165 | After any run, whatever other transactions are open, a registration whose email is unknown and whose slug no company has or is getting can go through, and adds exactly its company, owner and invitation for an hour |
| AccountTheorems.ReinvitationStored | api/internal/auth/register.go:169-182 | So can one under a known email: it stores an invitation to that user's own company and role |
| AccountTheorems.InvitationStored | api/internal/auth/invite.go:57-89 | So can an invitation when none is pending, as technician and for 7 days |
| AccountTheorems.TokenStored | api/internal/auth/magic_link.go:53-79 | So can a magic link for any user, for 15 minutes |
| AccountTheorems.OnePendingIff | api/internal/auth/invite.go:57-89 | Over every run, at most one invitation of a company and email is pending at all times if and only if no insert, of the invite handler or of a registration under a known email, happens while one is pending |
| AccountTheorems.InvitePending | api/internal/auth/invite.go:57-89 | After either insert exactly one invitation is pending if and only if none was at that moment |
| AccountTheorems.TwoPendingInvites | api/internal/auth/invite.go:57-89 | Two concurrent requests can leave two pending invitations for one company and email |
| AccountTheorems.ReinvitedOnTop | api/internal/auth/register.go:169-182 | A registration under a known email leaves two pending invitations by itself |
| AccountHandlers.Server.AcceptInvitation | api/internal/db/invitations.sql.go:14-21 | Marks an invitation of the token that is unaccepted and unexpired, or reports that there is none |
| AccountHandlers.Server.UseAuthToken | api/internal/db/auth_tokens.sql.go:40-47 | Marks a token of the digest that is unused and unexpired, or reports that there is none |
| AccountHandlers.Server.Rollback | api/internal/auth/accept_invite.go:40-40 | The tables are those of the start of the transaction |
| AccountHandlers.Server.AcceptInvite | api/internal/auth/accept_invite.go:35-72 | Not found exactly when nothing is acceptable, conflict exactly when the company has a user of the email, success exactly when neither and no call fails; success adds the user with the invitation's company, email and role; an error changes nothing |
| AccountHandlers.Server.CreateRegistration | api/internal/auth/register.go:103-165 | Success exactly when no call fails and the slug is free, and then company, owner and invitation are added; otherwise nothing |
| AccountHandlers.Server.RegisterAccount | api/internal/auth/register.go:50-97 | Which requests register, which get an invitation to the known user's own company and role instead (with the same answer), and which fail, each exactly by faults, email and slug |
| AccountHandlers.Server.Invite | api/internal/auth/invite.go:36-108 | Conflict exactly when an invitation is pending; otherwise a technician invitation valid for 7 days |
| AccountHandlers.Server.MagicLink | api/internal/auth/magic_link.go:53-85 | A token is stored, by its digest and for 15 minutes, exactly when a user has that email |
| AccountHandlers.Server.Verify | api/internal/auth/verify.go:44-112 | Without a database error a token of that raw value that is unused and unexpired logs in exactly its user and is used up; not found exactly when there is none; an error changes nothing |
| AccountHandlers.TakenIs | db/migrations/000001_create_companies_users_invitations.up.sql:28-37 | Since tokens are unique, whether acceptance conflicts does not depend on which row the update finds |
| Slugs.SlugifyJoinsRuns | api/internal/auth/register.go:195-202 | A slug is the maximal alphanumeric runs of the name, lowercased character by character, joined by single hyphens, without leading, trailing or doubled hyphens |
| Slugs.SlugifyIgnoresCase | api/internal/auth/register.go:195-202 | Names that differ in case only have the same slug |
| Slugs.SlugifyFixesSlugs | api/internal/auth/register.go:195-202 | The fixed points of `slugify` are exactly the slugs; it is idempotent |
| Slugs.SuffixedSlug | api/internal/auth/register.go:118-123 | Slug, hyphen and random suffix is a fixed point exactly when slug and suffix are not empty |
| Text.HexReads | api/internal/auth/register.go:205-211 | Each random byte is two hexadecimal digits, the high one first |
| Text.HexInjective | api/internal/auth/register.go:205-211 | Different random bytes give different tokens |
| Tags.NormalizeTags | api/internal/worker/tasks/extract.go:369-392 | The loop computes the function that the next rows characterise |
| Tags.NormalizedMeaning | api/internal/worker/tasks/extract.go:369-392 | No repeats, at most the limit (one for a limit of 0), each an input tag without the white space around it and in lower case, not empty and in the vocabulary if there is one, and nothing left out below the limit |
| Tags.NormalizedForm | api/internal/worker/tasks/extract.go:369-392 | Every tag in the result is trimmed and in lower case |
| Tags.NormalizedAlike | api/internal/worker/tasks/extract.go:369-392 | Tags that differ only in case, or in white space around them, are normalized alike |
| Tags.LimitKeptIff | api/internal/worker/tasks/extract.go:386-389 | The limit is kept exactly when it is positive or nothing is acceptable |
| Tags.NormalizedOrder | api/internal/worker/tasks/extract.go:369-392 | The tags stand in the order of their first occurrence, and the limit keeps the first ones |
| Tags.NormalizedTwice | api/internal/worker/tasks/extract.go:369-392 | Normalizing again changes nothing |
| Keys.ExtIff | api/internal/jobs/handler.go:157-157 | The extension is nothing exactly when the last path element has no dot, and otherwise the part of the path from its last dot on; there is exactly one such |
| Keys.KeysSpelled | api/internal/jobs/handler.go:157-178 | The keys of a request, spelled out from company, prefix, position and each file name's extension |
| Keys.DecimalDenotes | api/internal/jobs/handler.go:178-178 | The position in a photo key is the decimal number without leading zeros |
| Keys.RequestKeysDistinct | api/internal/jobs/handler.go:157-178 | All keys of one request differ, whatever the file names |
| Keys.RequestsDisjoint | api/internal/jobs/handler.go:157-178 | Requests of different companies or prefixes share no key |
| Keys.AudioFilenameFromKey | api/internal/worker/tasks/process_job.go:313-320 | The loop returns what follows the last slash |
| Keys.AudioNameRoundTrip | api/internal/worker/tasks/process_job.go:313-320 | For the audio key of any request that is exactly `audio` plus the extension of the uploaded file's name |

## Left out

- HTTP, multipart parsing, content types, coordinates and the required-field checks of the requests: exits before any effect.
- Groq, Gemini, the mailer and the object store themselves: each call is a success or a failure with an arbitrary answer.
- JWT signing and parsing, and authentication middleware.
- The error exits after a failed UUID or JSON encoding in `CreateHandler`, and a failed draw of random bytes: an identifier issued by the database always encodes, and the others have no effect.
- RateLimiter.Limiter.Allow: rates of zero or infinity, and the rounding of `rate.Limiter` to floating point and nanoseconds; it is the ideal token bucket over reals.
- Labour hours are whole tenths, as the column stores them; the rounding of the float, and values that do not parse, are not modelled.
- `pdf_url` and `email_sent_at`, which the completing statement always sets to NULL, and the client columns of a job, which it never touches.
- The delays of `retryDelay`: they are abstract, a waiting task may be delivered at any time.
- Crash redelivery in the full pipeline: `Pipeline` assumes that outcomes are acknowledged; `Redelivery` covers duplicate and concurrent deliveries of one job, where a completed row can be overwritten by a later attempt.
- Failure of the two updates that mark a job as failed: assumed not to happen.
- A negative tag limit, on which the source would panic.
- The methods of `PipelineHandlers.Backend` and `AccountHandlers.Server` run one request at a time; the interleavings are those of the machines in `Pipeline` and `Accounts`.
- The failing call of an attempt or handler is given in advance as an argument, in place of the network's behaviour.
- Roles, languages and statuses are enumerations of the values the CHECK constraints allow; times of accounts are whole seconds and the application and database clocks agree.
- `web/`, configuration, the migration runner, process start and shutdown, list and get queries, billing columns and pipeline events: no logic that the properties depend on.
