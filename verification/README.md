# Verified model of the WhatsApp automation server

Dafny 4.11 models of the parts of the server in which state, interleaving or text processing decide
whether it does what it promises, with proofs. `dafny verify dfyconfig.toml` checks everything.

- **Scheduler.dfy, SchedulerSafety.dfy, SchedulerRuns.dfy, SchedulerTheorems.dfy, SchedulerTiming.dfy,
  SchedulerPunctuality.dfy, SchedulerEffects.dfy** - scheduled sends as a step system. An event is one stretch between two awaits or
  the moment one database operation takes effect; timers, cron ticks, start-up recovery, HTTP calls and
  activations of `processSchedule` interleave freely. Every awaited operation may work, throw without effect, or
  throw after taking effect. An `Env` says what the environment may do, so that a guarantee can be stated as
  "always, if and only if". **SchedulingService.dfy** is the service as an object with its methods as they are
  written. At every await any events of others may happen and the awaited operation may fail; each method is
  proved to end in the state of a run of the step system, which is valid in every environment whose bounds the
  others keep. So every theorem about reachable states holds of the object after each method.
- **RateLimiter.dfy, RateLimiterTheorems.dfy** - the interceptor with records mutated in place, the purge, and
  what it guarantees over whole request sequences.
- **Templates.dfy** - placeholder scanning and rendering.
- **MessageSender.dfy, MessageAccounting.dfy** - batches, progress summary and usage counter of the bulk sender, and
  what the counter and the summary are worth over all runs.
- **SingleFlight.dfy, SessionRecovery.dfy** - one job per client at a time, and what a reconnection does.
- **MessageDedup.dfy, AutoResponder.dfy, Contacts.dfy, PhoneGrouping.dfy** - duplicate suppression, rule scoring
  against the simple matcher, phone numbers in normal form, and the export scripts.

Findings; each comes with the exact condition, and with a concrete run or input where a promise fails:

- A schedule passes the PENDING check at most once per process lifetime exactly when no update carries a status
  and the FAILED write of the catch block is never lost, that is, never throws without effect
  (`SchedulerTheorems.AtMostOnceIff`). If it is lost after the PROCESSING write was, the schedule stays PENDING and
  is run again. The same condition decides whether a recipient can be sent to twice (`SentOnceIff`) and whether a
  schedule can be stuck in PROCESSING (`NoScheduleIsStuckIff`).
- A finished activation recorded its verdict exactly when that FAILED write is never lost (`FinishedVerdictIff`). A
  settled schedule that nobody works on stays silent exactly when no update carries a status (`RestIsFinalIff`).
- Timers agree with the stored times exactly when HTTP calls are atomic, come after start-up recovery has set its
  timers, and no timeout exceeds 2^31 - 1 ms (`SchedulerPunctuality.TimersAgreeIff`).
- A schedule can run early exactly if a timeout is clipped, or if an update postpones it while something set up for
  the earlier time still stands for it: an activation that has yet to read it, or the list of a cron tick, even
  with atomic calls; another call that has yet to set its timer, if calls interleave; the list of start-up
  recovery, if calls precede its loop; a live timer, if calls do either (`SchedulerPunctuality.NeverEarlyIff`). The
  server listens only after start-up recovery (`scheduling.module.ts:22-25`), and its calls interleave.
- The sliding bound of the rate limiter is 2 * points - 1, one less than two full windows, and it is reached. A
  block ends with an admission exactly when it lasts as long as a window and the limit is positive.
- A rendered template has no placeholder left, whatever the template, exactly if every value is harmless: not empty,
  not beginning with a closing or ending with an opening brace, and with every pair of opening braces in it closed at
  once or by a lone brace (`Templates.NothingLeftOverIff`). Values without braces are harmless unless empty.
- The usage counter grows by exactly the deliveries in all runs if and only if no increment takes effect and throws,
  and none finds its user gone (`MessageAccounting.CounterIsExactIff`, `SpreadsheetIsExactIff`). The quota can be
  overrun only by the former (`QuotaIsKeptIff`). `successful` of a spreadsheet run counts every delivery, however the
  sends end, if and only if no line is sent to several recipients (`SuccessfulIsAllIff`).
- An exact match of the simple matcher is always the auto-responder's choice exactly if no rule has more than one
  keyword.
- `create` for contacts looks the number up as typed: a number already stored under its normal form makes it throw
  unless it was typed in normal form (`Contacts.CreateTwice`). So does a number of which nothing is left, such as a
  hyphen.
- After a QR reconnect has ended, what its client still emits goes to the caller that started it, not to the last
  one (`SingleFlight.LateEvents`, `LateEventsGoToFirst`).

## Model

| member | source | states |
|---|---|---|
| SchedulerTheorems.AtMostOnceIff | src/modules/scheduling/scheduling.service.ts:240-311 | over all runs from every database, at most one activation per schedule passes the PENDING check, if and only if no update carries a status and the catch block's write never throws without effect |
| SchedulerTheorems.SentOnceIff | src/modules/scheduling/scheduling.service.ts:248-291 | all that is ever sent for a schedule is an in-order prefix of the recipients in one snapshot that passed, over all runs, if and only if no update carries a status and the catch block's write never throws without effect |
| SchedulerTheorems.SendsAreOrdered | src/modules/scheduling/scheduling.service.ts:272-305 | in every environment sends follow the snapshot in order; COMPLETED is written only when every send was made and returned, FAILED only after a throw |
| SchedulerTheorems.NothingAfterThrow | src/modules/scheduling/scheduling.service.ts:285-290 | once a send has thrown, that activation sends nothing more in any continuation |
| SchedulerTheorems.FinishedVerdictIff | src/modules/scheduling/scheduling.service.ts:293-305 | every activation that passed and is finished recorded FAILED if a send or an awaited call threw and COMPLETED otherwise, over all runs, if and only if the catch block's write never throws without effect |
| SchedulerTheorems.NoScheduleIsStuckIff | src/modules/scheduling/scheduling.service.ts:256-337 | over all runs, once start-up recovery has finished, a PROCESSING schedule is in `processingSchedules` and held by a live activation that passed, if and only if no update carries a status and the catch block's write never throws without effect |
| SchedulerTheorems.CronTickCovers | src/modules/scheduling/scheduling.service.ts:218-237 | a tick leaves every schedule its query returned in the set, each with a live activation |
| SchedulerTheorems.StaysAtRest | src/modules/scheduling/scheduling.service.ts:240-254 | unless an update carries a status, a completed, failed, cancelled or deleted schedule that no activation holds is never sent again and never revived |
| SchedulerTheorems.RestIsFinalIff | src/modules/scheduling/scheduling.service.ts:130-254 | in all runs a settled schedule that no activation holds stays silent and settled, if and only if no update carries a status |
| SchedulerTheorems.IdleCancelSilences | src/modules/scheduling/scheduling.service.ts:192-214 | unless an update carries a status, a cancellation taking effect while no activation holds the schedule silences it for good |
| SchedulerTheorems.LostRescueRepeats | src/modules/scheduling/scheduling.service.ts:300-310 | a run in which two lost writes make a schedule pass twice |
| SchedulerTheorems.StatusUpdateRepeats | src/modules/scheduling/scheduling.service.ts:130-170 | a run in which an update with a status makes a schedule pass twice |
| SchedulerTheorems.LostRescueSticks | src/modules/scheduling/scheduling.service.ts:300-310 | a run in which a lost write of the catch block leaves a schedule in PROCESSING |
| SchedulerTheorems.StatusUpdateSticks | src/modules/scheduling/scheduling.service.ts:130-170 | a run in which an update with a status leaves a schedule in PROCESSING |
| SchedulerTheorems.LostRescueSendsTwice | src/modules/scheduling/scheduling.service.ts:293-332 | a run in which two lost writes and the reset of start-up make a recipient get the message twice |
| SchedulerTheorems.StatusUpdateSendsTwice | src/modules/scheduling/scheduling.service.ts:130-170 | a run in which an update with a status makes a recipient get the message twice |
| SchedulerTheorems.LostRescueLeavesNoVerdict | src/modules/scheduling/scheduling.service.ts:300-310 | a run in which a finished activation recorded nothing |
| SchedulerTheorems.StatusUpdateWakes | src/modules/scheduling/scheduling.service.ts:130-170 | a run in which an update with a status revives a failed schedule at rest |
| SchedulerSafety.RunKeepsBase | src/modules/scheduling/scheduling.service.ts:240-310 | in every run a schedule has at most one live activation, and an id is in the set exactly while it has one |
| SchedulerSafety.RunKeepsSafe | src/modules/scheduling/scheduling.service.ts:130-337 | if no update carries a status and the catch block's write never throws without effect, the inductive invariant behind at-most-once is kept by every run, including the reset of PROCESSING to PENDING |
| SchedulerSafety.StepKeepsSafe | src/modules/scheduling/scheduling.service.ts:130-337 | under the same two conditions each single event keeps that invariant |
| SchedulerSafety.StepKeepsBase | src/modules/scheduling/scheduling.service.ts:240-310 | each single event keeps mutual exclusion and the per-activation facts, in any environment |
| SchedulerSafety.ResetKeepsSafe | src/modules/scheduling/scheduling.service.ts:328-332 | the reset of `initSchedules` keeps the invariant even while an activation is sending |
| SchedulerSafety.CallMoves | src/modules/scheduling/scheduling.service.ts:155-211 | no HTTP call without a status revives a settled schedule or puts one into PROCESSING |
| SchedulerSafety.RunKeepsRecorded | src/modules/scheduling/scheduling.service.ts:293-310 | the invariant behind the verdict is kept by every run in which the catch block's write is not lost |
| SchedulerSafety.RunKeepsCalm | src/modules/scheduling/scheduling.service.ts:130-214 | the invariant behind silence is kept by every run in which no update carries a status |
| SchedulerTiming.RunKeepsTimely | src/modules/scheduling/scheduling.service.ts:58-337 | in the environments of NeverEarlyIff, whatever stands for a schedule - timer, list, call, activation - does so for no earlier a time than the stored one |
| SchedulerTiming.StepKeepsMatched | src/modules/scheduling/scheduling.service.ts:58-214 | with atomic calls after start-up and no clipped timeout, every event keeps timers registered and equal to the stored times |
| SchedulerTiming.EaseKeepsTimely | src/modules/scheduling/scheduling.service.ts:156-162 | moving a schedule to a later time is harmless when nothing stands for it |
| SchedulerPunctuality.TimersAgreeIff | src/modules/scheduling/scheduling.service.ts:58-167 | every live timer is registered and set to the stored time, over all runs, if and only if calls are atomic, come after start-up recovery has set its timers, and no timeout is clipped |
| SchedulerPunctuality.NeverEarlyIff | src/modules/scheduling/scheduling.service.ts:58-337 | no activation passes the check before its snapshot's time, over all runs, if and only if no timeout is clipped and no update postpones a schedule while a reader, a tick, or, as far as calls interleave or precede start-up, a listing, another call or a timer stands for it |
| SchedulerPunctuality.FarTimerRunsEarly | src/modules/scheduling/scheduling.service.ts:80-89 | a run in which a timeout above the limit sends at once |
| SchedulerPunctuality.ReaderRunsEarly | src/modules/scheduling/scheduling.service.ts:248-254 | with atomic calls, a run in which a schedule is postponed between the start of its activation and the read |
| SchedulerPunctuality.TickRunsEarly | src/modules/scheduling/scheduling.service.ts:218-237 | with atomic calls, a run in which a schedule is postponed between the query of a tick and its loop |
| SchedulerPunctuality.ListingRunsEarly | src/modules/scheduling/scheduling.service.ts:317-326 | a run in which a schedule is postponed between the query of start-up recovery and its loop |
| SchedulerPunctuality.JobRunsEarly | src/modules/scheduling/scheduling.service.ts:156-167 | a run in which the first of two updates sets its timer after the second has written |
| SchedulerPunctuality.OpenTimerRunsEarly | src/modules/scheduling/scheduling.service.ts:146-167 | a run in which the timer of the first of two updates survives the second |
| SchedulerPunctuality.EarlyTimerRunsEarly | src/modules/scheduling/scheduling.service.ts:80-92 | with atomic calls, a run in which a schedule created before start-up recovery lists it gets a second timer that no update deletes |
| SchedulerEffects.InitServesAll | src/modules/scheduling/scheduling.service.ts:314-326 | in every reachable state, once the loop of start-up recovery has run, every listed schedule that is due has a live activation, and every other one a registered timer for its own id and time (or after 1 ms above 2^31 - 1), unless its name was taken |
| SchedulerEffects.AllJobsServed | src/modules/scheduling/scheduling.service.ts:323-326 | the loop serves each of the jobs and gives up none that stood before |
| SchedulerEffects.PendingIsListed | src/modules/scheduling/scheduling.service.ts:317-319 | every schedule that is PENDING when start-up recovery looks is listed |
| SchedulerEffects.DueIsPickedUp | src/modules/scheduling/scheduling.service.ts:218-237 | in every reachable state, every schedule that is PENDING and due when a tick looks is held by a live activation once the tick has run |
| SchedulerEffects.UpdateWrites | src/modules/scheduling/scheduling.service.ts:156-162 | each of status, recipients and time is the one the update carries, or the old one if it carries none; other documents are unchanged |
| SchedulerEffects.UpdateReachesReaders | src/modules/scheduling/scheduling.service.ts:156-162 | after an update of the recipients has taken effect, and until another does, an activation that has yet to read sends to a prefix of the new recipients, over all runs |
| SchedulerEffects.CreateWrites | src/modules/scheduling/scheduling.service.ts:39-46 | a creation adds the document as given, under a new id |
| SchedulerEffects.CancelWrites | src/modules/scheduling/scheduling.service.ts:208-211 | a cancellation sets CANCELLED and changes nothing else |
| SchedulerEffects.RemoveWrites | src/modules/scheduling/scheduling.service.ts:188-188 | a removal removes that document only |
| SchedulerEffects.NothingElseWrites | src/modules/scheduling/scheduling.service.ts:130-214 | a call that is not at its write, or whose write is lost or finds nothing, leaves the database alone |
| SchedulerEffects.ResetWrites | src/modules/scheduling/scheduling.service.ts:328-332 | the reset turns PROCESSING into PENDING and changes nothing else |
| SchedulerEffects.ActWrites | src/modules/scheduling/scheduling.service.ts:256-305 | an activation changes the status of its own schedule only |
| SchedulerEffects.DeletesOne | src/modules/scheduling/scheduling.service.ts:146-149 | deleting a timeout frees the name and kills the timer registered under it, and no other |
| SchedulingService.Service.HandleCron | src/modules/scheduling/scheduling.service.ts:227-237 | the loop starts every schedule of the list, in order; all of them are then in `processingSchedules` |
| SchedulingService.Service.CreateScheduleJob | src/modules/scheduling/scheduling.service.ts:58-98 | starts an overdue schedule, else sets and registers a timer unless the name is taken |
| SchedulingService.Service.InitSchedules | src/modules/scheduling/scheduling.service.ts:323-326 | the loop serves every pending schedule: held if it is due, otherwise registered with a new timer for its id and time if its name was free |
| SchedulingService.Service.ProcessSchedule | src/modules/scheduling/scheduling.service.ts:240-311 | the method with its try, catch and finally, under every interleaving at its awaits and every pattern of failures, ends done in the state of a run of the step system, valid in every environment that the others and the catch block's write keep to |
| SchedulingService.Service.SendToEach | src/modules/scheduling/scheduling.service.ts:273-291 | the loop over recipients follows the phases under every interleaving, leaving at the first throw |
| SchedulingService.Service.WorkOn | src/modules/scheduling/scheduling.service.ts:256-298 | the try block from the PROCESSING write on follows the phases under every interleaving |
| SchedulingService.Service.CreateSchedule | src/modules/scheduling/scheduling.service.ts:24-56 | `create` under every interleaving and failure ends answered in the state of a valid run; a time that has passed is refused without a trace |
| SchedulingService.Service.UpdateSchedule | src/modules/scheduling/scheduling.service.ts:130-170 | `update` likewise, with its checks on the stale document, the timer deleted, every carried field spread over the document, and the new timer |
| SchedulingService.Service.CancelSchedule | src/modules/scheduling/scheduling.service.ts:192-214 | `cancelSchedule` likewise ends answered in the state of a valid run |
| SchedulingService.Service.RemoveSchedule | src/modules/scheduling/scheduling.service.ts:172-190 | `remove` likewise ends answered in the state of a valid run |
| SchedulingService.Service.OnTimeout | src/modules/scheduling/scheduling.service.ts:80-87 | the callback of a timeout, with the activation it starts, ends in the state of a valid run from the timer's firing |
| SchedulingService.CallStaysReachable | src/modules/scheduling/scheduling.service.ts:24-214 | an HTTP method called in a reachable state ends in a reachable state |
| SchedulingService.ActStaysReachable | src/modules/scheduling/scheduling.service.ts:240-311 | an activation begun in a reachable state ends in a reachable state |
| SchedulingService.ActIsValid | src/modules/scheduling/scheduling.service.ts:240-311 | every event of an activation that is not done is possible, and tolerated surroundings make it a valid run |
| SchedulingService.CallIsValid | src/modules/scheduling/scheduling.service.ts:24-214 | the same for the events of an open call |
| SchedulingService.PathIsRun | src/modules/scheduling/scheduling.service.ts:130-311 | own events woven into those of others are one run of the step system |
| Scheduler.RunKeepsAct | src/modules/scheduling/scheduling.service.ts:240-311 | whatever others do, a suspended activation finds its own record as it left it |
| Scheduler.RunKeepsCall | src/modules/scheduling/scheduling.service.ts:130-214 | whatever others do, a suspended call finds its own record as it left it |
| RateLimiterTheorems.PurgingIsInvisible | src/common/interceptors/rate-limit.interceptor.ts:72-89 | for every rising request sequence the purging limiter decides as one that never deletes a record |
| RateLimiterTheorems.OwnRequestsOnly | src/common/interceptors/rate-limit.interceptor.ts:26-70 | a key's decisions are those it would get alone |
| RateLimiterTheorems.SlidingBound | src/common/interceptors/rate-limit.interceptor.ts:41-70 | in any half-open interval of duration seconds a key is admitted at most 2 * points - 1 times |
| RateLimiterTheorems.SlidingBoundIsReached | src/common/interceptors/rate-limit.interceptor.ts:50-70 | for every key, every positive limit and duration, a run of requests that reaches the bound |
| RateLimiterTheorems.WindowBound | src/common/interceptors/rate-limit.interceptor.ts:50-70 | over all runs, from every request of a key that finds no window open, at most points requests are admitted within duration seconds |
| RateLimiterTheorems.BlockHolds | src/common/interceptors/rate-limit.interceptor.ts:41-70 | during a block - of the configured seconds, or five minutes if none or zero is configured - every request is rejected and changes nothing |
| RateLimiterTheorems.RecoversIff | src/common/interceptors/rate-limit.interceptor.ts:41-70 | the first request after every block is admitted if and only if points is positive and a block lasts as long as a window |
| RateLimiterTheorems.CountBound | src/common/interceptors/rate-limit.interceptor.ts:56-66 | when a block lasts as long as a window, the count never passes points + 1 |
| RateLimiterTheorems.ServeSimilar | src/common/interceptors/rate-limit.interceptor.ts:35-81 | one request keeps the simulation between the purged and the unpurged table |
| RateLimiterTheorems.PurgeMeaning | src/common/interceptors/rate-limit.interceptor.ts:83-89 | a purge keeps exactly the records whose window or block has not ended |
| RateLimiterTheorems.PurgeHappens | src/common/interceptors/rate-limit.interceptor.ts:72-81 | a request admitted more than ten minutes after the last purge leaves no dead record behind |
| RateLimiter.Interceptor.Intercept | src/common/interceptors/rate-limit.interceptor.ts:23-81 | the method on shared, mutated records decides and changes the table as specified |
| RateLimiter.Interceptor.HitRecord | src/common/interceptors/rate-limit.interceptor.ts:50-70 | window reset, count and block in place on the stored record |
| RateLimiter.Interceptor.CleanupStore | src/common/interceptors/rate-limit.interceptor.ts:83-89 | the loop deletes exactly the stale records |
| Templates.MatchIsForced | src/modules/templates/templates.service.ts:324-324 | the pattern accepts at a place exactly the text the scanner finds, so the search has no choice |
| Templates.ScanDecomposes | src/modules/templates/templates.service.ts:209-213 | the tokens spell the content |
| Templates.RenderIsOnePass | src/modules/templates/templates.service.ts:208-213 | rendering replaces each placeholder once, without looking at values again |
| Templates.RenderDependsOnVariables | src/modules/templates/templates.service.ts:208-213 | the result depends only on the values of the extracted variables |
| Templates.RenderNothing | src/modules/templates/templates.service.ts:203-213 | without values the content is unchanged |
| Templates.ScanOfRender | src/modules/templates/templates.service.ts:205-213 | for harmless values, the tokens of the rendered text are those of the content with the replaced placeholders turned into plain characters, whatever stray braces there are |
| Templates.LeftOver | src/modules/templates/templates.service.ts:205-213 | for harmless values, the variables of the rendered text are exactly those without a value |
| Templates.NothingLeftOver | src/modules/templates/templates.service.ts:205-213 | with a harmless value for every variable no placeholder is left |
| Templates.NothingLeftOverIff | src/modules/templates/templates.service.ts:205-213 | for any set of allowed values, no template is rendered with a placeholder left if and only if every allowed value is harmless, a condition on the value alone |
| Templates.PlainIsHarmless | src/modules/templates/templates.service.ts:209-213 | a value without braces is harmless unless it is empty |
| Templates.BadHead | src/modules/templates/templates.service.ts:209-213 | a template that an empty value, or one beginning with a closing brace, leaves with a placeholder |
| Templates.BadEnd | src/modules/templates/templates.service.ts:209-213 | a template that a value ending with an opening brace leaves with a placeholder |
| Templates.BadPair | src/modules/templates/templates.service.ts:209-213 | a template that a value with an open pair of braces leaves with a placeholder |
| Templates.ExtractVariables | src/modules/templates/templates.service.ts:323-333 | the search loop yields the trimmed names in first-occurrence order |
| Templates.DistinctElements | src/modules/templates/templates.service.ts:325-332 | the extracted names are all the names, without duplicates |
| Templates.DistinctInOrder | src/modules/templates/templates.service.ts:325-332 | of two extracted names, the one that comes first occurs first |
| Templates.HoleFirst | src/modules/templates/templates.service.ts:205-213 | a placeholder contributes its trimmed name, and its value if it has one, and what follows is treated on its own |
| Templates.TrimMeaning | src/modules/templates/templates.service.ts:209-209 | trimming takes off the spaces at both ends, all of them and nothing else |
| Templates.MergeVariables | src/modules/templates/templates.service.ts:144-157 | an update keeps the values of names that still occur and gives new names the empty value |
| MessageSender.Sender.SendToRecipients | src/modules/whatsapp/services/message-sender.service.ts:377-439 | for any batch size and failures, result i is for recipient i and says how its attempt went, the summary adds up, and the counter grew by the deliveries, plus the torn increments that were made, minus the missed ones |
| MessageSender.Sender.SendMessage | src/modules/whatsapp/services/message-sender.service.ts:67-153 | the checks in order, the sending flag released, completed = total = successful + failed |
| MessageSender.Sender.SendMessageExcel | src/modules/whatsapp/services/message-sender.service.ts:155-257 | every line has its results; the counter grew by the deliveries and the drift of the increments made; `successful` falls short of the deliveries by those beyond the first result of each line |
| MessageSender.Sender.SendSingleMessage | src/modules/whatsapp/services/message-sender.service.ts:579-631 | sent exactly if the check passes, the delivery is acknowledged and its increment returns; likely_sent only if something threw an error with a known-success text; without an acknowledgement failed, and nothing is counted; it throws exactly if the increment of the catch block does |
| MessageSender.Sender.HandleSendError | src/modules/whatsapp/services/message-sender.service.ts:685-733 | on a stale session, or for an error without a known-success text, failed and nothing counted; otherwise an increment, and likely_sent exactly if it returns |
| MessageSender.CountsOnceAndDrift | src/modules/whatsapp/services/message-sender.service.ts:579-733 | an attempt counts once if it is reported as delivered, once more for every torn increment it makes, and once less for a missed one |
| MessageSender.ReportMeaning | src/modules/whatsapp/services/message-sender.service.ts:392-417 | what an element of a batch is reported as says whether it was checked, acknowledged and counted |
| MessageSender.UnackedIsFailed | src/modules/whatsapp/services/message-sender.service.ts:605-618 | an unacknowledged send makes no increment and is reported as failed |
| MessageSender.GateIsFirstFailure | src/modules/whatsapp/services/message-sender.service.ts:75-100 | the first of the checks that fails decides the refusal, and none refuses otherwise |
| MessageSender.LineMeaning | src/modules/whatsapp/services/message-sender.service.ts:191-235 | a line is skipped exactly if it resolves to nobody, fails as a whole if a resolver throws, and otherwise has one result a recipient, in order |
| MessageAccounting.CounterIsExactIff | src/modules/whatsapp/services/message-sender.service.ts:373-439 | the counter grows by exactly the deliveries, in all runs, if and only if no increment takes effect and throws and none returns without effect |
| MessageAccounting.QuotaIsKeptIff | src/modules/whatsapp/services/message-sender.service.ts:93-95 | the counter grows by at most the number of recipients - so a run from below the limit ends at most at limit - 1 + total - in all runs, if and only if no increment takes effect and throws |
| MessageAccounting.SpreadsheetIsExactIff | src/modules/whatsapp/services/message-sender.service.ts:191-224 | the same exactness over all spreadsheet runs |
| MessageAccounting.TornCountsTwice | src/modules/whatsapp/services/message-sender.service.ts:614-631 | one recipient, one delivery, counted twice |
| MessageAccounting.MissedIsNotCounted | src/modules/whatsapp/services/message-sender.service.ts:373-375 | one recipient, one delivery, not counted because the user is gone |
| MessageAccounting.SuccessfulIsAllIff | src/modules/whatsapp/services/message-sender.service.ts:191-224 | however the sends end, `successful` is the number of deliveries, if and only if no line is sent to more than one recipient |
| MessageAccounting.GroupOfTwoFallsShort | src/modules/whatsapp/services/message-sender.service.ts:214-219 | a line with two recipients: two deliveries, `successful` is 1 |
| SingleFlight.OneJobPerKey | src/modules/whatsapp/services/reconnection.service.ts:21-32 | under any interleaving a client has at most one job in flight, and an entry exactly while it has one |
| SingleFlight.JoinersAgree | src/modules/whatsapp/services/session-recovery.service.ts:29-40 | callers that joined one job are answered alike |
| SingleFlight.AnsweredWithOutcome | src/modules/whatsapp/services/reconnection.service.ts:21-32 | over all runs, what a caller is told is what the job it joined ended with |
| SingleFlight.OneOutcome | src/modules/whatsapp/services/reconnection.service.ts:27-31 | a job ends at most once, so that outcome is the only one |
| SingleFlight.AnswerAnswers | src/modules/whatsapp/services/reconnection.service.ts:27-31 | a caller whose job has ended is answered |
| SingleFlight.ResultStays | src/modules/whatsapp/services/session-recovery.service.ts:35-39 | a settled job keeps its result |
| SingleFlight.EventsFollowLatest | src/modules/whatsapp/whatsapp.service.ts:335-373 | while a QR job is in flight its events go to whoever called last |
| SingleFlight.LateEvents | src/modules/whatsapp/whatsapp.service.ts:344-373 | where events go that a client emits after its job was cleared |
| SingleFlight.LateEventsGoToFirst | src/modules/whatsapp/whatsapp.service.ts:344-373 | two callers of one job: what its client emits after the job was cleared goes to the first |
| SingleFlight.RunKeepsInv | src/modules/whatsapp/whatsapp.service.ts:335-356 | the invariant of entries, emitters and callers |
| SingleFlight.Flights.Reconnect | src/modules/whatsapp/services/reconnection.service.ts:21-32 | joining or starting a job |
| SingleFlight.Flights.Finally | src/modules/whatsapp/whatsapp.service.ts:350-353 | the finally callback deletes entry and emitter |
| SessionRecovery.SessionManager.RunReconnection | src/modules/whatsapp/services/reconnection.service.ts:34-102 | soft attempts up to the first that connects, at most three, then at most one rebuild; true exactly if the client is ready afterwards; the session's fields in every outcome; sockets and other clients unchanged |
| SessionRecovery.SessionManager.RunRecreate | src/modules/whatsapp/services/session-recovery.service.ts:42-112 | the rebuild yields a fresh ready client, or removes it, or leaves all as it was |
| SessionRecovery.SessionManager.CreateSession | src/modules/whatsapp/services/session-manager.service.ts:28-58 | reuses a live session, else adds one |
| SessionRecovery.SessionManager.SetReady | src/modules/whatsapp/services/session-manager.service.ts:123-128 | changes one live session only |
| SessionRecovery.SessionManager.RemoveSession | src/modules/whatsapp/services/session-manager.service.ts:130-142 | drops the session, and its socket mappings unless they are preserved |
| MessageDedup.PassesAgainOnlyAfterMany | src/modules/whatsapp/services/message-handler.service.ts:84-89 | over any deliveries and cleanups an id passes again only after 10000 newer distinct ids passed |
| MessageDedup.ForgetsIff | src/modules/whatsapp/services/message-handler.service.ts:241-245 | a cleanup drops an id exactly when 10000 newer ones are held |
| MessageDedup.Deduplicator.Check | src/modules/whatsapp/services/message-handler.service.ts:85-89 | the duplicate check |
| MessageDedup.Deduplicator.CleanupOldMessageIds | src/modules/whatsapp/services/message-handler.service.ts:237-248 | deleting one by one leaves the newest 10000 in order |
| AutoResponder.FindBestMatchingRule | src/modules/auto-responder/auto-responder.service.ts:188-214 | the earliest rule of the highest positive score, or none when all scores are zero |
| AutoResponder.CalculateRuleMatchScore | src/modules/auto-responder/auto-responder.service.ts:219-251 | the loop sums the keyword scores |
| AutoResponder.FuzzyMatch | src/modules/auto-responder/auto-responder.service.ts:256-273 | the early-exit loop decides: at least three characters, and the number of places that differ on the common length is at most a quarter of them |
| AutoResponder.WordMatchMeaning | src/modules/auto-responder/auto-responder.service.ts:232-236 | a keyword matches as a word exactly where its neighbours differ from its ends in being word characters |
| AutoResponder.ScoringFindsWhenSimpleDoes | src/modules/rules/rules.service.ts:80-101 | a rule is found whenever the simple matcher finds one |
| AutoResponder.MatchersAgreeIff | src/modules/rules/rules.service.ts:80-101 | for any rules, exactly when both matchers choose the same rule: no keyword nearly matches where the simple one finds nothing, else no rule scores against its choice; in closed form for at most one keyword a rule |
| AutoResponder.ExactIsChosenIff | src/modules/auto-responder/auto-responder.service.ts:188-251 | with at most n keywords a rule, both matchers choose the exact match whenever there is one, if and only if n is at most 1 |
| AutoResponder.NothingFoundIff | src/modules/auto-responder/auto-responder.service.ts:188-273 | for any rules, where the simple matcher finds nothing, neither does the auto-responder if and only if no keyword nearly matches |
| AutoResponder.SimpleMatchMeaning | src/modules/rules/rules.service.ts:80-101 | the simple matcher returns the first rule with the message for a keyword, or else the first with a keyword in it |
| AutoResponder.ExactMatchCanLose | src/modules/auto-responder/auto-responder.service.ts:219-251 | rules with several keywords for which the exact match loses |
| AutoResponder.History.RecordResponse | src/modules/auto-responder/auto-responder.service.ts:311-323 | the history is the newest hundred of all recorded responses, in order |
| AutoResponder.NewestMeaning | src/modules/auto-responder/auto-responder.service.ts:319-322 | the newest hundred are the end of what was recorded |
| Contacts.FormatNormalises | src/modules/contacts/contacts.service.ts:75-85 | formatting is idempotent and fixes exactly the normal numbers |
| Contacts.SeparatorsDrop | src/modules/contacts/contacts.service.ts:75-77 | a character that is neither a digit nor a plus sign does not matter, wherever it stands |
| Contacts.PlainNumber | src/modules/contacts/contacts.service.ts:79-85 | digits and plus signs are kept, and more than ten of them get a plus sign in front if they have none |
| Contacts.Service.Create | src/modules/contacts/contacts.service.ts:29-68 | exactly when it throws, and what is stored then; after success the normal form is stored under the returned id; a number with nothing left is refused |
| Contacts.CreateTwice | src/modules/contacts/contacts.service.ts:29-68 | creating the same number twice throws the second time exactly if it was not typed in normal form |
| Contacts.CreateElevenDigitsTwice | src/modules/contacts/contacts.service.ts:29-68 | eleven digits, created twice: the second time it throws |
| Contacts.Service.Insert | src/modules/contacts/schema/contacts.schema.ts:14-42 | the insert throws exactly if the number is empty or already stored for the account |
| Contacts.Service.FindByPhoneNumber | src/modules/contacts/contacts.service.ts:93-99 | finds a contact exactly if the normal form is stored |
| Contacts.Service.Update | src/modules/contacts/contacts.service.ts:209-253 | exactly when it conflicts, and that numbers stay normal and unique |
| Contacts.Service.BulkImport | src/modules/contacts/contacts.service.ts:351-399 | imported + duplicates + errors = input; exactly which entries are errors; every other one is stored, nothing is lost, nothing else is added |
| PhoneGrouping.LongestPrefixFound | csv_phone_numbers.py:1137-1150 | the first match in the list sorted by length is the one longest code that begins the digits |
| PhoneGrouping.ByLengthSorts | csv_phone_numbers.py:1137-1137 | the sort is a permutation by falling length |
| PhoneGrouping.GroupNumbers | vcf_phone_number.py:1139-1154 | each group holds its valid numbers in order; groups are opened once and never empty |
| PhoneGrouping.FindCode | vcf_phone_number.py:1146-1150 | the inner loop stops at the first code that fits |
| PhoneGrouping.KeyMeaning | csv_phone_numbers.py:1143-1155 | a number is grouped under the one longest code that begins what follows its plus sign, or as unknown if none does |
| PhoneGrouping.GroupMeaning | csv_phone_numbers.py:1140-1155 | a number is in the group of its key if it is valid, and nothing else is in a group |
| PhoneGrouping.NumberMeaning | text_list_phone.py:909-909 | the validity test of the text exporter is that of the grouping |
| PhoneGrouping.TwoDigitsShape | vcf_phone_number.py:1163-1163 | the place in a label has at least two digits, with a leading zero only below ten |
| PhoneGrouping.LabelsDistinct | csv_phone_numbers.py:1165-1166 | numbers of one group get different labels, for any group size |
| PhoneGrouping.WriteRows | csv_phone_numbers.py:1160-1167 | the output loops write every group in order, labelled from 1 |
| PhoneGrouping.RowMeaning | csv_phone_numbers.py:1160-1167 | the rows are exactly one for each place of each group, with the group's name and that place |
| PhoneGrouping.ExportersAgree | text_list_phone.py:909-909 | the rows hold, as a multiset, exactly the numbers the text exporter keeps |

## Left out

- A failing query of start-up recovery or of a tick, which leaves everything as it was.
- SchedulerTheorems.AtMostOnceIff: one process; two server processes on one database are not modelled.
- The sender behind a schedule: `sendMessage` is an oracle that returns or throws; the scheduler passes it no user id, and the real sender refuses that.
- Message text, delays, `completedAt` and `error` fields of schedules, account ownership checks, and listing of schedules.
- MessageSender.Sender.SendToRecipients: elements of one batch are settled one after the other; the waits between batches and the acknowledgement wait are not modelled, and the file path differs from the text path only in its delay. The source's batch size is 1.
- Marking a session unhealthy during a send, and the reconnection this starts in the background.
- Client events between the steps of a reconnection, and aliasing of a `ClientState` held across them: states are values in a map.
- Removal of listeners and destruction of the old client during a rebuild, which cannot change the outcome.
- The soft reconnect that a QR reconnect tries first, and the release of the old client before the job starts.
- The message filters after the duplicate check, unread messages, and statistics.
- AutoResponder.FindBestMatchingRule: `toLowerCase` and `trim` are a parameter, and the case folding of the pattern flag `i` on lower-cased text is taken to do nothing.
- Templates.ExtractVariables: strings are sequences of characters; a template variable named like an inherited object property is not modelled.
- Contacts.Service.BulkImport: no other call between the lookup and the insert of one entry.
- Recipient resolution from groups and contacts, rule creation, group membership, card and table file formats, and the table of country names.
- Authentication, subscriptions, gateway sockets, QR images, session files, logging and controllers.
