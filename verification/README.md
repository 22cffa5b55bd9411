# Verification of the automations engine, the live-voice pipeline and the template expressions

This project models three parts of the system and proves what they are for.

**The automations engine** (`packages/automations/src`) runs the rules that match an event, under
at-least-once delivery: a worker can die between any two actions, and the event comes again. `RuleModel`
holds the rows and everything a delivery can observe but not change (stored automations, which calls throw,
what the CRM answers). `RulePlan` gives the list of atomic steps that a pass amounts to; it depends on stored
rule content and on the run rows only. `RuleEngine` is the engine itself, a class that changes the stored
rows, shares the terminal flag and can die after any step, proved equal to the plan. What a plan means is told from its
steps: `Verdicts` how each action ends, `RunRows` what each row says, `WrittenFields` what each stored field
is, `PublishedEvents` what the bus tells. On the plan also rest
`CrashAbsorption` (replays are absorbed), `Redelivery` (where a delivery can die, and its run rows),
`FlagBlindness` (when the flag matters), `CrashRecovery` (where the next delivery resumes), `LostMarks`
(first terminal wins over all deliveries), `TerminalDiscipline` (and within one), `EventEvaluation` (the bus
entry with its status check), `ActionPaths` (termination, size of the tree of executions, transport keys),
`SuppressCascade` (why the unsubscribe cascade ends), `TimerSweeps` (the quiet and the before-meeting polls), `SweepTerminals` (first
terminal wins across their passes) and `RuleGate` (one evaluation shared by the bus consumer and the graph
gate).

**The live-voice pipeline** (`apps/voice/src`): `OutboundPacing` compares the pacer's estimate with a
transport buffer simulated from what is sent; `SentenceChunking` cuts a stream of deltas;
`TranscriptPersist` makes live writes and finalize converge; `SilenceLadder` is the session's two prompts
and the growth of its transcript; `CallTranscript` tells that transcript from the events of the call and
follows it to the stored rows.

**The template expressions** of the console prototypes: `Expressions` is the scanner-based resolver,
total on every text, `ExpressionPrinting` proves it against direct evaluation of trees, and `ExpressionMeaning`
spells out what each form means. The host's
values, property access and comparisons are parameters.

`Text` has white space, trimming, numerals and separators, `Options` values that may be absent. Clocks and
vendor answers are parameters, the database is maps keyed by its unique constraints.

## Where behaviour departs from what comments or callers may expect

- `packages/automations/src/evaluate.ts:10-11` says a crash mid-pass loses nothing. The status check at
  151-161 makes a redelivery inert after a pause or a suppression, so the remaining rules and the row are
  lost (`EventEvaluation.PauseThenCrashLosesRules`); `EventEvaluation.RedeliveryFinishesIff` says exactly
  when the comment holds, lost marks (below) apart.
- `packages/automations/src/consumer.ts:13-15` says a later ask reaches the same answer. After a complete
  evaluation that paused or suppressed, it does not (`EventEvaluation.PauseReopensGate`);
  `EventEvaluation.RepeatedAskAgreesIff` is exact.
- `packages/automations/src/executors.ts:565` writes a nested history row after the nested actions; when
  that throws, the catch at 67 drops the terminal mark although the flag is up
  (`ActionPaths.LostTerminalMark`), and a crash then lets a redelivery execute a second terminal action
  and end in another state (`LostMarks.LostMarkFiresAgain`). `CrashRecovery.MarkKeptIff` says exactly when a
  row keeps its mark, `LostMarks.FirstTerminalWinsIff` exactly when first terminal wins over all deliveries,
  and `CrashRecovery.ResumesIff` exactly when every redelivery resumes the interrupted plan.
- The sweeps start each pass with the flag down and hand over only the rules due by then, so a second
  terminal action can run for one synthetic event (`SweepTerminals.SecondTerminalBeforeMeeting`,
  `SweepTerminals.SecondTerminalAfterQuiet`). There is at most one terminal row across passes exactly when
  hours do not rise, or days do not fall, in rule order (`SweepTerminals.HoursOrderIff`,
  `SweepTerminals.DaysOrderIff`).
- `packages/automations/src/evaluate.ts:321-326` says the first terminal wins across scopes in the quiet
  sweep, too. Both sweeps give the account part a flag of its own
  (`SweepTerminals.AccountPartIgnoresCampaign`); there is at most one terminal row across scopes exactly when
  only one scope has rules, in that order (`SweepTerminals.HoursAcrossScopesIff`,
  `SweepTerminals.DaysAcrossScopesIff`).
- An idle call in which no audio left and no words came (`apps/voice/src/session.ts:1011`) can stay silent
  for good (`SilenceLadder.UnplayedCallIsSilent`); `SilenceLadder.SilentForeverIff` says exactly when, and
  `SilenceLadder.IdleTickIff` what a single tick does.
- Quotes in template expressions do not hide an equality operator
  (`ExpressionPrinting.QuotedOperatorLeaks`, exact in `ExpressionPrinting.QuotedExact`).

## Model

| member | source | states |
|---|---|---|
| `RuleEngine.Engine.ExecuteAction` | packages/automations/src/executors.ts:43-74 | One action of any kind, conflict check, error capture and terminal flag included, does to the store, the flag and the bus exactly the steps of its plan, up to the point where the worker dies |
| `RuleEngine.Engine.RunLeaf` | packages/automations/src/executors.ts:76-509 | The branches of every kind but run_automation: the stored rows afterwards and whether the ending is executed, a no-op or an error |
| `RuleEngine.Engine.SuppressContactRow` | packages/automations/src/executors.ts:131-194 | A suppression adds exactly the missing rows, sets the opt-outs and the status, and publishes one event per row it created |
| `RuleEngine.Engine.RunAutomationBody` | packages/automations/src/executors.ts:551-575 | The nested list runs one level deeper under the same flag and its errors and terminal marks are folded into one outcome |
| `RuleEngine.Engine.ExecuteActions` | packages/automations/src/executors.ts:553-563 | The action loop follows the plan of the list, stopping in place when the worker dies |
| `RuleEngine.RunRow` | packages/automations/src/evaluate.ts:244-255 | The status precedence conflict, refusal, error, fired and the terminal mark of a run row |
| `RuleEngine.Engine.ExecuteMatchedRule` | packages/automations/src/evaluate.ts:217-288 | A recorded rule only restores its terminal mark; any other runs its actions and writes its row last |
| `RuleEngine.Engine.ExecuteMatchedRules` | packages/automations/src/evaluate.ts:209-317 | A pass over matched rules, of either scope, does exactly the steps of the planned pass and reports for each rule in order the status of the row it wrote, or that it was recorded already |
| `RuleEngine.Engine.EvaluateEvent` | packages/automations/src/evaluate.ts:151-201 | The bus entry point leaves exactly the evaluation's state and events, or their prefix when the worker dies, and reports for every rule of both scopes the status of its row; an inert enrollment leaves everything untouched |
| `RunRows.RowsTellActions` | packages/automations/src/evaluate.ts:235-275 | Every row that a pass writes carries its depth and the status that the rule's own actions have in that pass: fired when all were applied, skipped_conflict when one met the flag, else refused_depth when one was refused, else error, and refused_depth past the limit |
| `RunRows.ListedOnce` | packages/automations/src/evaluate.ts:241-243 | Every listed action has exactly one step of its own, in list order, whatever runs below it |
| `Verdicts.RuleTold` | packages/automations/src/executors.ts:43-74 | Every action executed at any depth ends as its kind, the rows it finds, the wired seams, the failing calls and the terminal flag say; a run_automation runs the whole stored list one level deeper or nothing, and fails with a nested error or refusal |
| `WrittenFields.EnrollmentTellsActions` | packages/automations/src/executors.ts:104-129 | After any steps of any passes of the event, complete or cut off: status is that of the last applied end, pause or suppress, stage that of the last applied set_stage, the block names the last pausing rule, a link flag is up if it was or its own action was applied, the deal id is the last vendor answer, and a field no action wrote is as before |
| `WrittenFields.ContactTellsActions` | packages/automations/src/executors.ts:131-194 | Tags are the old ones and each applied new one once, opt-outs those of the contact's addresses after an applied suppression, and suppression rows the old ones and one, in the first suppressing rule's name, for each address that had none |
| `WrittenFields.DeliveriesTellActions` | packages/automations/src/evaluate.ts:209-317 | Any history of deliveries of the event leaves in every row what the actions applied in it say |
| `PublishedEvents.StageEventsArePath` | packages/automations/src/executors.ts:196-229 | The stage_changed events are the path of the enrollment's stage from start to end, each a real change |
| `PublishedEvents.AnnouncedIffSuppressed` | packages/automations/src/executors.ts:176-186 | A channel is announced unsubscribed exactly once if its address became suppressed, and never otherwise |
| `CrashAbsorption.FieldsAreOverwritten` | packages/automations/src/executors.ts:115-129 | Each enrollment field after a list of actions is either untouched or independent of its value before, which is why replays are absorbed |
| `CrashAbsorption.ReplayAbsorbed` | packages/automations/src/executors.ts:43-577 | Running a list of writes again on its own result changes nothing: tags, stage, status, suppressions, opt-outs, link flags, deal id |
| `CrashAbsorption.PrefixAbsorbed` | packages/automations/src/executors.ts:43-577 | A crash after any prefix of an action list followed by the whole list equals one uninterrupted run |
| `FlagBlindness.HeedsIff` | packages/automations/src/executors.ts:57-66 | The rules behind have another plan with the flag down than with it up if and only if they reach a terminal action before a row that marks one |
| `CrashRecovery.MarkKeptIff` | packages/automations/src/executors.ts:551-573 | A rule's row tells of the terminal action it executed exactly when every enclosing automation wrote its history row |
| `CrashRecovery.RedeliveryIsSuffix` | packages/automations/src/evaluate.ts:217-288 | After a crash anywhere the redelivery plans exactly the rest of the interrupted plan, repeating only actions of the rule whose row is missing, unless a rule that loses its mark has a terminal action reached behind it |
| `CrashRecovery.ResumesIff` | packages/automations/src/evaluate.ts:217-288 | Every crash is resumed where it stopped if and only if no rule that loses its mark has a rule behind it that reaches a terminal action |
| `CrashRecovery.PassAbsorbsCrash` | packages/automations/src/evaluate.ts:217-288 | Whatever is stored already, dying after any number of steps and running the pass again gives the state of one uninterrupted pass, run rows included, under that condition |
| `CrashRecovery.HistoryConverges` | packages/automations/src/evaluate.ts:7-11 | Any sequence of crashed deliveries ended by a complete pass reaches the single-pass state, under the same condition |
| `CrashRecovery.WrittenRowsAreSteady` | packages/automations/src/executors.ts:565-568 | The condition holds whenever nested history rows can be written |
| `LostMarks.FirstTerminalWinsIff` | packages/automations/src/executors.ts:55-66 | Over all histories of crashed deliveries the executions of terminal actions are of one action at one position, if and only if no rule that loses its mark has a terminal action executed behind it with the flag down |
| `LostMarks.WrittenRowsNeverRefire` | packages/automations/src/executors.ts:565-568 | That never happens when nested history rows can be written |
| `LostMarks.LostMarkFiresAgain` | packages/automations/src/executors.ts:61-73 | Concrete history: a lost mark and a crash right after the row let the redelivery execute a second terminal action, and the state is not that of an uninterrupted pass |
| `Redelivery.DeliveryKeepsOrder` | packages/automations/src/evaluate.ts:217-233 | Every delivery, wherever it dies and whatever the vendors answer, keeps the recorded rules a prefix of rule order with at most one terminal row |
| `Redelivery.RowsArePrefix` | packages/automations/src/evaluate.ts:217-288 | After any history of crashed deliveries the recorded rows are exactly the first k rules, at most one of them terminal |
| `TerminalDiscipline.ActionsObeyFlag` | packages/automations/src/executors.ts:55-66 | In any nesting, the shared flag rises by exactly the terminal actions executed, none runs once it is up, and outcome marks imply it |
| `TerminalDiscipline.RuleObeysFlag` | packages/automations/src/evaluate.ts:241-255 | The same for a whole rule and the mark on its row |
| `TerminalDiscipline.PassObeysFlag` | packages/automations/src/evaluate.ts:255-256 | At most one terminal action per pass; when storage calls succeed terminalFired equals the flag |
| `TerminalDiscipline.ScopesShareOnePass` | packages/automations/src/evaluate.ts:184-201 | Campaign rules and then account rules with the flag handed over are one pass over the joined list, so the first terminal wins across scopes |
| `EventEvaluation.RedeliveryFinishesIff` | packages/automations/src/evaluate.ts:151-161 | Under the condition of CrashRecovery.ResumesIff, after any number of crashed evaluations one more ends as the uninterrupted one if and only if the enrollment left behind is still fireable or every row was written |
| `EventEvaluation.RepeatedAskAgreesIff` | packages/automations/src/consumer.ts:12-15 | Asking again after a complete evaluation gives the same answer if and only if it did not report a terminal action while a pause or a suppression stopped the enrollment |
| `EventEvaluation.StoppedByOneStep` | packages/automations/src/executors.ts:115-173 | With one terminal action per pass, the enrollment stops being fireable exactly when a pause or suppression ran |
| `EventEvaluation.PassRecordsAll` | packages/automations/src/evaluate.ts:235-288 | A pass that runs through leaves a row for every matched rule |
| `EventEvaluation.InertIff` | packages/automations/src/evaluate.ts:151-161 | An evaluation leaves everything alone exactly when the named enrollment is missing, paused, unsubscribed or bounced, or nothing is left to record; any other leaves a row for every rule |
| `EventEvaluation.PauseThenCrashLosesRules` | packages/automations/src/evaluate.ts:10-11 | Concrete history: a pause, a crash, and the redelivery never finishes the remaining rules |
| `EventEvaluation.PauseReopensGate` | packages/automations/src/consumer.ts:13-15 | Concrete history: the gate is closed by a pause and open when asked again |
| `ActionPaths.ExecutionsAreBounded` | packages/automations/src/executors.ts:511-563 | On every automation store, cycles included, no action runs below the depth limit and a list executes at most the tree of its width and remaining depth |
| `ActionPaths.RuleIsCubic` | packages/automations/src/executors.ts:531-542 | A rule executes at most w + w^2 + w^3 actions, w the longest action list |
| `ActionPaths.SitesAreDistinct` | packages/automations/src/executors.ts:553-563 | All executions below a rule have pairwise distinct positions, at every starting depth |
| `ActionPaths.SitesAreReproduced` | packages/automations/src/executors.ts:48-53 | Two deliveries over the same stored automations that find the same ones execute the same positions in the same order, whatever the flag and all other storage, workflow and vendor calls do |
| `ActionPaths.TerminalMarkExact` | packages/automations/src/executors.ts:551-573 | A list reports a terminal action exactly when it executed one below which no enclosing automation lost its history row |
| `ActionPaths.LostTerminalMark` | packages/automations/src/executors.ts:565-574 | Concrete history: a history row that cannot be written hides a terminal action from the run row although the flag is up |
| `ActionPaths.PrintInjective` | packages/automations/src/executors.ts:548-561 | The printed action path determines the position, for ids without '#' |
| `ActionPaths.PathSpelled` | packages/automations/src/executors.ts:551-563 | A nested position prints as '#auto:<id>#a:<index>' behind its parent's |
| `ActionPaths.KeySpelled` | packages/automations/src/executors.ts:247 | The transport key is the event id, '#rule:<id>' and the action path |
| `ActionPaths.SourceKeyInjective` | packages/automations/src/executors.ts:247 | Transport keys determine event, rule and position |
| `ActionPaths.KeysAreDistinct` | packages/automations/src/executors.ts:48-53 | All executions of a rule get different transport keys, for all ids and depths |
| `ActionPaths.KeysIdentifyExecutions` | packages/automations/src/executors.ts:247 | Executions of any events and rules with the same key are of the same event and rule and at the same position, for ids without '#' |
| `ActionPaths.HashInIdCollides` | packages/automations/src/executors.ts:247 | Concrete pair of rules, one id with '#', whose executions share a transport key |
| `SuppressCascade.StepConserves` | packages/automations/src/executors.ts:143-186 | One step publishes exactly as many unsubscribe events as it closes open addresses |
| `SuppressCascade.EventsPayForAddresses` | packages/automations/src/executors.ts:176-186 | Over any run, events sent plus addresses still open equal the addresses open at the start |
| `SuppressCascade.RepeatsPublishNothing` | packages/automations/src/executors.ts:176-177 | After one suppression no later step publishes another unsubscribe event |
| `SuppressCascade.CascadeEnds` | packages/automations/src/executors.ts:176-186 | A cascade of evaluations, each taking an event off the bus, is at most as long as queued events plus open addresses |
| `TimerSweeps.PremeetIdIff` | packages/automations/src/meeting-sweep.ts:38-40 | Two meeting keys are equal if and only if meeting and start second are, for any ids and negative times too |
| `TimerSweeps.QuietIdIff` | packages/automations/src/sweep.ts:32-34 | Quiet keys determine the enrollment and never meet a meeting's key |
| `TimerSweeps.SweepMeetings` | packages/automations/src/meeting-sweep.ts:79-126 | The loop with the largest look-ahead as query bound dispatches exactly what there is to dispatch without it, and counts the meetings that the query returns |
| `TimerSweeps.SweepQuiet` | packages/automations/src/sweep.ts:73-116 | The loop with the fewest days as query bound dispatches exactly what there is to dispatch without it, and counts the enrollments that the query returns |
| `TimerSweeps.LargestSpan` | packages/automations/src/meeting-sweep.ts:81 | The maximum of the rules' hours |
| `TimerSweeps.SmallestSpan` | packages/automations/src/sweep.ts:75 | The minimum of the rules' days |
| `TimerSweeps.RemindersExact` | packages/automations/src/meeting-sweep.ts:82-102 | Rule and meeting are handed to the engine if and only if the meeting is booked, ahead, of a known contact, not inert and within the rule's hours |
| `TimerSweeps.QuietExact` | packages/automations/src/sweep.ts:89-92 | Rule and enrollment are handed to the engine if and only if the enrollment is DONE and its last touch is at least the rule's days ago |
| `TimerSweeps.QuietIff` | packages/automations/src/sweep.ts:84-91 | An enrollment has been quiet for so long exactly when neither its update nor any of its messages is more recent |
| `TimerSweeps.PassRecordsFresh` | packages/automations/src/evaluate.ts:217-277 | A pass, cut anywhere, records only keys that were free, each once, for its own event and rules |
| `TimerSweeps.FiresOnce` | packages/automations/src/sweep.ts:8-12 | Over any schedule of passes, failures and crashes included, no rule is recorded twice for one synthetic event |
| `TimerSweeps.RecordedInWindow` | packages/automations/src/meeting-sweep.ts:8-15 | Every recorded meeting rule was recorded for a booked meeting of a known contact that was not inert, before its start and not earlier than the rule's hours before it |
| `TimerSweeps.RecordedWhenQuiet` | packages/automations/src/sweep.ts:77-92 | Every recorded quiet rule was recorded for an enrollment that was DONE and last touched at least the rule's days before |
| `TimerSweeps.CompleteRecordsAll` | packages/automations/src/meeting-sweep.ts:117-119 | A dispatch that runs through leaves a row for every rule it carries |
| `TimerSweeps.RearmsIff` | packages/automations/src/meeting-sweep.ts:11-15 | After a rule was recorded for one start, a complete first dispatch for another start records it again if and only if the start second differs, within any schedule of other dispatches |
| `SweepTerminals.FallingHoursFireOnce` | packages/automations/src/meeting-sweep.ts:97-118 | Rules whose hours do not rise in rule order have at most one terminal row per start of a meeting over any history of passes, whatever their actions |
| `SweepTerminals.RisingDaysFireOnce` | packages/automations/src/sweep.ts:91-108 | Rules whose days do not fall in rule order have at most one terminal row per enrollment over any history of passes |
| `SweepTerminals.SecondTerminalBeforeMeeting` | packages/automations/src/meeting-sweep.ts:97-118 | For any hours of which a later rule's are more, a schedule of two real passes that leaves two terminal rows for one start |
| `SweepTerminals.SecondTerminalAfterQuiet` | packages/automations/src/sweep.ts:91-108 | For any days of which an earlier rule's are more, a schedule of two real passes that leaves two terminal rows for one enrollment |
| `SweepTerminals.HoursOrderIff` | packages/automations/src/meeting-sweep.ts:80-118 | At most one terminal row per start over all meeting passes, whatever the rules do, if and only if hours do not rise in rule order |
| `SweepTerminals.DaysOrderIff` | packages/automations/src/sweep.ts:74-108 | At most one terminal row per enrollment over all quiet passes, whatever the rules do, if and only if days do not fall in rule order |
| `SweepTerminals.AccountPartIgnoresCampaign` | packages/automations/src/meeting-sweep.ts:175-190 | The account part of a sweep does what it would do without any campaign row |
| `SweepTerminals.BothScopesEndBeforeMeeting` | packages/automations/src/meeting-sweep.ts:154-190 | For any hours of both scopes, one sweep in which a campaign and an account rule both get a terminal row for one start |
| `SweepTerminals.BothScopesEndAfterQuiet` | packages/automations/src/sweep.ts:148-178 | For any days of both scopes, two quiet sweeps that give a campaign and an account rule a terminal row for one enrollment |
| `SweepTerminals.HoursAcrossScopesIff` | packages/automations/src/meeting-sweep.ts:79-190 | At most one terminal row per start across both scopes if and only if only one scope has rules and their hours do not rise |
| `SweepTerminals.DaysAcrossScopesIff` | packages/automations/src/evaluate.ts:320-326 | At most one terminal row per enrollment across both scopes of the quiet sweep if and only if only one scope has rules and their days do not fall |
| `RuleGate.PerAgentRules.Evaluate` | packages/automations/src/consumer.ts:35-42 | An ask joins the memoized evaluation or starts and memoizes a new one |
| `RuleGate.PerAgentRules.Handle` | packages/automations/src/consumer.ts:45-57 | A consumer's ask awaits the evaluation and is recorded as returning whatever its end |
| `RuleGate.PerAgentRules.ShouldContinueGraph` | packages/automations/src/consumer.ts:58-61 | A gate's ask awaits the evaluation |
| `RuleGate.PerAgentRules.CleanUp` | packages/automations/src/consumer.ts:40 | Settlement's clean-up deletes by event id |
| `RuleGate.PerAgentRules.Settle` | packages/automations/src/consumer.ts:38-40 | An evaluation ends once, with its flag or with a failure |
| `RuleGate.Serve` | packages/automations/src/consumer.ts:44-62 | The object driven through any interleaving gives every ask what the run specifies |
| `RuleGate.RunKeeps` | packages/automations/src/consumer.ts:33-42 | In every interleaving the memo holds exactly the evaluations not cleaned up, each under its own event |
| `RuleGate.OneInFlight` | packages/automations/src/consumer.ts:9-12 | At most one evaluation of an event is in flight in every reachable state |
| `RuleGate.CleanUpIsOwn` | packages/automations/src/consumer.ts:40 | A clean-up removes the settled evaluation's own entry and no other |
| `RuleGate.OverlapsAnswerAlike` | packages/automations/src/consumer.ts:44-62 | An ask during an evaluation joins it, and whatever follows, gate asks answer the negation of its one flag or throw with it, consumer asks return |
| `RuleGate.GatesAgree` | packages/automations/src/consumer.ts:58-61 | Gate asks that await one evaluation are of one event and never disagree |
| `RuleGate.NoSecondEvaluation` | packages/automations/src/consumer.ts:9-13 | Until the evaluation is cleaned up no other is started for its event |
| `OutboundPacing.OutboundPacer.EnqueueAudio` | apps/voice/src/outbound-pacer.ts:57-65 | Slicing, counting and pumping give the specified next state |
| `OutboundPacing.OutboundPacer.EnqueueSilence` | apps/voice/src/outbound-pacer.ts:69-79 | The rounded pause becomes 0xff frames in the same queue |
| `OutboundPacing.OutboundPacer.PumpQueue` | apps/voice/src/outbound-pacer.ts:116-138 | Frames leave while the lead is below the cap; the timer is armed when some remain |
| `OutboundPacing.OutboundPacer.OnInterval` | apps/voice/src/outbound-pacer.ts:128-134 | A tick pumps and disarms the timer on an empty queue |
| `OutboundPacing.OutboundPacer.ClearNow` | apps/voice/src/outbound-pacer.ts:97-106 | Drops the queue, resets the estimate and reports the rounded queue and lead |
| `OutboundPacing.OutboundPacer.Shutdown` | apps/voice/src/outbound-pacer.ts:108-114 | Close drops the queue and the timer for good |
| `OutboundPacing.OutstandingIsAudio` | apps/voice/src/outbound-pacer.ts:81-90 | What is reported as outstanding is, over any run, the queued bytes' duration plus what the simulated transport still holds, rounded |
| `OutboundPacing.PlayOut` | apps/voice/src/outbound-pacer.ts:57-138 | The object driven through any run puts on the wire what the run specifies |
| `OutboundPacing.FramesJoin` | apps/voice/src/outbound-pacer.ts:59-63 | Slicing loses no byte and yields non-empty frames of at most the frame size |
| `OutboundPacing.RunTracks` | apps/voice/src/outbound-pacer.ts:13-19 | Over any run the positive part of playhead minus now equals the level of a separately simulated draining transport, the lead stays in its window, the count is the queue's and a non-empty queue has its timer armed |
| `OutboundPacing.StepTracks` | apps/voice/src/outbound-pacer.ts:116-138 | Each step keeps that relation and, unless it is an ignored enqueue, leaves the queue empty or the lead at the cap |
| `OutboundPacing.LeadBoundExact` | apps/voice/src/outbound-pacer.ts:10-19 | The lead is always below cap plus one frame if and only if the cap is positive |
| `OutboundPacing.BytesAreConserved` | apps/voice/src/outbound-pacer.ts:57-114 | Bytes sent since the last clear followed by the queue are the bytes offered since then, in order; after close the sent ones are a prefix |
| `OutboundPacing.SilenceAddsPause` | apps/voice/src/outbound-pacer.ts:63-75 | A pause adds nothing but 0xff bytes, eight for each millisecond of its length to the nearest |
| `OutboundPacing.RoundsHalfUp` | apps/voice/src/outbound-pacer.ts:87-89 | Amounts are reported to the nearest millisecond, halves up |
| `OutboundPacing.QueuedMsCountsBytes` | apps/voice/src/outbound-pacer.ts:43-62 | queuedMs times 8 is the number of queued bytes, over any run |
| `OutboundPacing.TicksDrain` | apps/voice/src/outbound-pacer.ts:127-134 | n ticks a frame apart empty a queue of n frames and stop the timer |
| `OutboundPacing.PacingIsSeamless` | apps/voice/src/outbound-pacer.ts:13-19 | Ticks at most the cap apart leave the end of playback where sending everything at once would put it |
| `OutboundPacing.DrainedOnTime` | apps/voice/src/outbound-pacer.ts:13-19 | Both together: drained after n ticks, and the transport runs dry exactly at the end of the audio |
| `SentenceChunking.SentenceChunker.PushDelta` | apps/voice/src/sentence-chunker.ts:19-52 | Boundary loop, run-on cut and eager cut yield the specified pieces, trimmed, and the rest |
| `SentenceChunking.SentenceChunker.Flush` | apps/voice/src/sentence-chunker.ts:55-59 | The trimmed rest, or nothing when it is blank |
| `SentenceChunking.SpeakReply` | apps/voice/src/sentence-chunker.ts:18-59 | A fresh chunker fed with all deltas and flushed says what the stream's pieces say |
| `SentenceChunking.DroppedSpace` | apps/voice/src/sentence-chunker.ts:36-37 | A comma cut leaves out one space, which trimming would remove anyway |
| `SentenceChunking.PiecesPartition` | apps/voice/src/sentence-chunker.ts:19-52 | For every splitting the pieces and the buffer, joined, are the text |
| `SentenceChunking.SaidInFull` | apps/voice/src/sentence-chunker.ts:19-59 | For every splitting what is said has exactly the text's non-white characters in order |
| `SentenceChunking.ChunksEndWell` | apps/voice/src/sentence-chunker.ts:27-29 | No chunk is empty and each ends at a sentence end or a comma |
| `SentenceChunking.NothingHeldBack` | apps/voice/src/sentence-chunker.ts:23-49 | After every push the buffer holds no boundary and no clause that the cuts would take |
| `SentenceChunking.BoundaryIff` | apps/voice/src/sentence-chunker.ts:24-27 | The cut is behind the leftmost sentence end: one of .!? or an ellipsis, a closing quote or bracket or none, and a white space |
| `SentenceChunking.LastCommaIff` | apps/voice/src/sentence-chunker.ts:34 | The comma cut is at the last comma that a space follows |
| `SentenceChunking.CutsIff` | apps/voice/src/sentence-chunker.ts:33-49 | A push cuts at a comma if and only if the rest is over 80 characters with one past 40, or, while nothing was emitted, over 48 with one past 24 |
| `SentenceChunking.SentencesAreStable` | apps/voice/src/sentence-chunker.ts:23-30 | Cutting is on-line: later text only continues from the rest |
| `SentenceChunking.SplitsSaySentencesIff` | apps/voice/src/sentence-chunker.ts:31-49 | Every splitting says exactly the sentences of the text if and only if no prefix of it leaves a clause that would be cut at a comma |
| `SentenceChunking.SplitsAgreeIff` | apps/voice/src/sentence-chunker.ts:23-49 | All splittings of a text say the same if and only if every prefix that would be cut at a comma is cut where the whole text is |
| `SentenceChunking.ShortSplitsAlike` | apps/voice/src/sentence-chunker.ts:31-49 | With stretches of at most 48 characters (80 without the eager cut) all splittings give the same chunks and rest |
| `TranscriptPersist.MessageStore.PersistTranscript` | apps/voice/src/persist.ts:72-93 | Insert with duplicates skipped, then bodies updated when any was skipped |
| `TranscriptPersist.MessageStore.PersistLatestTurn` | apps/voice/src/persist.ts:103-118 | Upsert of the last row only |
| `TranscriptPersist.KeyInjective` | apps/voice/src/persist.ts:54-55 | Row keys determine call and index, whatever characters the call id has |
| `TranscriptPersist.FinalizeAt` | apps/voice/src/persist.ts:79-91 | Finalize key by key: bodies of stored rows updated, missing rows created, all else untouched; skipping the update when nothing was skipped is sound |
| `TranscriptPersist.FinalizeExactIff` | apps/voice/src/persist.ts:68-71 | Finalize stores exactly the transcript's rows if and only if what was there differs at most by bodies and missing rows |
| `TranscriptPersist.RowsGrow` | apps/voice/src/persist.ts:99-101 | Rows of a grown transcript repeat the earlier rows, bodies aside, at the same indices |
| `TranscriptPersist.FinalizeConverges` | apps/voice/src/persist.ts:95-102 | Any live, complete, cut-short, repeated or out-of-order writes of earlier transcripts, then finalize, store exactly the final rows and no others |
| `TranscriptPersist.SettledStays` | apps/voice/src/persist.ts:68-71 | After that a repeated finalize or live write changes nothing |
| `TranscriptPersist.OtherCallsUntouched` | apps/voice/src/persist.ts:54-55 | Writes for one call leave every row of another alone |
| `TranscriptPersist.StoredIsExact` | apps/voice/src/persist.ts:39-66 | The rows stored for the call are the transcript's rows at indices below their number and none above |
| `TranscriptPersist.RowsAreTurns` | apps/voice/src/persist.ts:39-66 | The rows are the turns in which something was said, each once and in order, whoever spoke, with the turn's words, direction, time and provenance |
| `TranscriptPersist.CallIsStored` | apps/voice/src/persist.ts:72-118 | After any writes on the way and a finalize the store holds for each such turn its row at its place, and nothing else for the call |
| `TranscriptPersist.LatestIsStored` | apps/voice/src/persist.ts:103-118 | A live write brings the row of the last such turn up to date, new or stored, and touches no other |
| `SilenceLadder.CallSession.OnSpeechStarted` | apps/voice/src/session.ts:405-411 | Onset clocks and barge-in: gives the specified next state |
| `SilenceLadder.CallSession.BargeIn` | apps/voice/src/session.ts:413-437 | The floor is lost and an agent's last turn is marked interrupted: gives the specified next state |
| `SilenceLadder.CallSession.OnCallerFinal` | apps/voice/src/session.ts:390-400 | Words stamp the clock, end the wordless streak and are merged: gives the specified next state |
| `SilenceLadder.CallSession.OnUtteranceEnd` | apps/voice/src/session.ts:451-470 | Pending text becomes a caller turn and a reply takes the floor: gives the specified next state |
| `SilenceLadder.CallSession.RecordAudioSend` | apps/voice/src/session.ts:238-245 | A frame on the wire stamps the audio clock: gives the specified next state |
| `SilenceLadder.CallSession.BeginDisclosure` | apps/voice/src/session.ts:299-304 | The disclosure takes the floor as the first turn: gives the specified next state |
| `SilenceLadder.CallSession.EndDisclosure` | apps/voice/src/session.ts:369-379 | The disclosure is over and yields the floor it still owns: gives the specified next state |
| `SilenceLadder.CallSession.EndReply` | apps/voice/src/session.ts:584-605 | The reply's text becomes a turn and yields the floor it still owns: gives the specified next state |
| `SilenceLadder.CallSession.Refuse` | apps/voice/src/session.ts:764-776 | A refused sentence hands its speech to the fallback line, pushed as a turn: gives the specified next state |
| `SilenceLadder.CallSession.SayConstantAndEnd` | apps/voice/src/session.ts:858-875 | An open call's goodbye takes the floor and is pushed as a turn: gives the specified next state |
| `SilenceLadder.CallSession.SilenceLadderTick` | apps/voice/src/session.ts:975-981 | Disclosure end stamp, then bridge, then re-engage: gives the specified next state |
| `SilenceLadder.CallSession.TryBridge` | apps/voice/src/session.ts:986-999 | The bridge's guards in order: gives the specified next state |
| `SilenceLadder.CallSession.TryReengage` | apps/voice/src/session.ts:1005-1014 | The re-engage's guards in order: gives the specified next state |
| `SilenceLadder.CallSession.SpeakBridgeLine` | apps/voice/src/session.ts:1017-1029 | The line is marked spoken before anything else and its turn is pushed: gives the specified next state |
| `SilenceLadder.CallSession.SpeakReengageLine` | apps/voice/src/session.ts:1058-1070 | The same for the re-engage line: gives the specified next state |
| `SilenceLadder.CallSession.Shutdown` | apps/voice/src/session.ts:1099-1110 | Close pushes the merged tail and ends the ladder: gives the specified next state |
| `SilenceLadder.PlayCall` | apps/voice/src/session.ts:383-1120 | The object driven through any run of events ends with the run's transcript and prompts |
| `SilenceLadder.PromptsOnce` | apps/voice/src/session.ts:972-974 | Over every run the lines spoken are none, the bridge, the re-engage, or bridge then re-engage, each once, and the bridge only before any reply |
| `SilenceLadder.ClocksAreHistory` | apps/voice/src/session.ts:395-407 | The clocks equal last words, last onset and start of the wordless streak as read off the history of events |
| `SilenceLadder.HoldIsBounded` | apps/voice/src/session.ts:954-970 | The caller activity that holds the ladder is the latest onset while the streak is younger than the grace, and otherwise the last words only |
| `SilenceLadder.PromptsNeedQuiet` | apps/voice/src/session.ts:986-1014 | A tick speaks at most one line, only after that line's own delay of mutual quiet, into an idle call with nothing being merged |
| `SilenceLadder.IdleTickIff` | apps/voice/src/session.ts:1005-1014 | An idle tick past both deadlines speaks, with exactly one exception: nothing was ever said or heard and the bridge is not open |
| `SilenceLadder.NoiseCannotHold` | apps/voice/src/session.ts:137-142 | Whatever noise follows an idle moment, the first tick past the delay and past the grace from the streak's start finds a line spoken or speaks it |
| `SilenceLadder.SilentForeverIff` | apps/voice/src/session.ts:961-1014 | An idle call in which nothing was said or sent stays silent over every run of noise if and only if the bridge is shut and no onset, running or new, can grow as old as the re-engage delay while it counts |
| `SilenceLadder.NoiseStaysUnanswered` | apps/voice/src/session.ts:1010-1012 | Under that condition no run of noise is ever answered, and the condition lasts |
| `SilenceLadder.WindowIsAnswered` | apps/voice/src/session.ts:961-1014 | Without it, with an onset before it or not, a run of noise is answered |
| `SilenceLadder.UnplayedCallIsSilent` | apps/voice/src/session.ts:1011 | Concrete call, cut off before its first frame, that no noise and no tick brings back |
| `SilenceLadder.StepGrows` | apps/voice/src/session.ts:947-952 | Every event leaves the transcript as it was, or extends it by turns or by text of its last turn |
| `SilenceLadder.CallIsRecorded` | apps/voice/src/session.ts:943-952 | Over any run of the session, any writes of transcripts it had on the way and a finalize store exactly the rows of the final transcript |
| `CallTranscript.TranscriptIsTale` | apps/voice/src/session.ts:383-1120 | Over any run every caller turn is the words heard since the one before with single spaces, every agent turn the disclosure, reply, fallback, goodbye or prompt of its event, each at its time and with its reason, marked exactly once when an onset found it being spoken; the floor is held by the newest speech only |
| `CallTranscript.WordsAreKept` | apps/voice/src/turn-gate.ts:51-64 | While the call is open all that was heard is in the caller's turns or pending, character for character and in order, white space aside |
| `CallTranscript.CloseKeepsWords` | apps/voice/src/session.ts:1099-1103 | The end of the call turns what is pending into the caller's last turn, so that nothing heard is missing, and nothing heard later gets in |
| `CallTranscript.AgentClocksAreHistory` | apps/voice/src/session.ts:975-981 | The audio clock is the last frame or reply, the reply count the committed utterances, and the disclosure's end the first tick that finds it over with nothing outstanding |
| `CallTranscript.SessionIsStored` | apps/voice/src/session.ts:943-952 | For every audible thing said in a run of the session the store holds, after any live writes and a finalize, its row with its words, speaker, time and reason, and nothing else for the call |
| `Expressions.ParensWrapWhole` | design_handoff_console_v3/prototypes/support.js:237-247 | The loop computes whether the first parenthesis closes only at the end |
| `Expressions.FindTopLevelEquality` | design_handoff_console_v3/prototypes/support.js:248-262 | The loop finds the first equality outside brackets, triple before double, skipping a second '=' or '!' and an empty left side |
| `Expressions.WalkPath` | design_handoff_console_v3/prototypes/support.js:263-294 | The path loop resolves members and bracketed keys |
| `Expressions.MatchingBracket` | design_handoff_console_v3/prototypes/support.js:275-284 | The inner loop finds the closing bracket |
| `ExpressionPrinting.Agrees` | design_handoff_console_v3/prototypes/support.js:205-236 | Resolving the printed form of any expression tree, however spaced and parenthesised, is evaluating the tree |
| `ExpressionMeaning.OperatorsMean` | design_handoff_console_v3/prototypes/support.js:211-225 | Each of the four operators is the host's strict or loose equality of the operands' values, or its negation |
| `ExpressionMeaning.NegationMeans` | design_handoff_console_v3/prototypes/support.js:226 | A negation is false exactly on truthy operands |
| `ExpressionMeaning.MemberMeans` | design_handoff_console_v3/prototypes/support.js:269-273 | A member is undefined on null and undefined and the host's property otherwise |
| `ExpressionMeaning.IndexMeans` | design_handoff_console_v3/prototypes/support.js:274-288 | The same for a bracketed key, which is resolved itself |
| `ExpressionMeaning.WordsMean` | design_handoff_console_v3/prototypes/support.js:227-230 | The four keywords are their values |
| `ExpressionMeaning.QuotesMean` | design_handoff_console_v3/prototypes/support.js:232-234 | A literal in either quote is its body |
| `ExpressionMeaning.NothingElseMeans` | design_handoff_console_v3/prototypes/support.js:205-236 | A blank text, or one that begins like no form and holds no equality, is undefined |
| `ExpressionMeaning.BrokenPath` | design_handoff_console_v3/prototypes/support.js:268-292 | A path that goes on with anything but a name or a closed bracket is undefined |
| `ExpressionMeaning.ScanIff` | design_handoff_console_v3/prototypes/support.js:248-262 | On any text the scan finds the first equality outside brackets that has a left side and is not the tail of another operator, and reads it right; or nothing when there is none |
| `ExpressionMeaning.IdentIff` | design_handoff_console_v3/prototypes/support.js:203 | Identifiers begin with a letter, underscore or dollar and go on with these and digits |
| `ExpressionMeaning.NumberIff` | design_handoff_console_v3/prototypes/support.js:204 | Numerals are a sign or none, digits, and a dot with digits or none |
| `ExpressionPrinting.WalksPath` | design_handoff_console_v3/prototypes/support.js:263-294 | A printed path followed by anything is walked to its value and on with the rest |
| `ExpressionPrinting.FlatSkips` | design_handoff_console_v3/prototypes/support.js:248-262 | The equality scan passes over any printed tree that is not a bare equality |
| `ExpressionPrinting.WrapsSkips` | design_handoff_console_v3/prototypes/support.js:237-247 | The parenthesis scan passes over any printed tree at its own depth |
| `ExpressionPrinting.CloseSkips` | design_handoff_console_v3/prototypes/support.js:275-284 | The bracket scan passes over any printed tree |
| `ExpressionPrinting.EqualityFound` | design_handoff_console_v3/prototypes/support.js:248-262 | In a printed equality the scan finds that equality, with its operator |
| `ExpressionPrinting.QuotedExact` | design_handoff_console_v3/prototypes/support.js:232-234 | A quoted literal on its own resolves to its body if and only if the equality scan finds nothing in it |
| `ExpressionPrinting.QuotedOperatorLeaks` | design_handoff_console_v3/prototypes/support.js:254-258 | Concrete literal in which the scan finds an operator inside the quotes |
| `Text.TrimKeepsSolid` | apps/voice/src/sentence-chunker.ts:27 | Trimming removes white space only |
| `Text.NumeralInjective` | packages/automations/src/meeting-sweep.ts:39 | Printed integers are different when the integers are |

## Left out

- CrashRecovery.PassAbsorbsCrash: assumes that no rule that loses its mark has a rule behind it that reaches a terminal action; CrashRecovery.ResumesIff shows that this is exact for the plan, LostMarks.LostMarkFiresAgain a state that is missed without it.
- RuleEngine.Engine.ExecuteAction: one action is one crash-atomic step, so a crash between a committed write and its published event or workflow cancel is not a separate point; such a crash loses the event. A worker that dies inside the push of create_crm_deal is left out with it: the delivery's claim stays pending (`packages/integrations/src/crm.ts:129-147`), the replay gets no deal id, and the stored deal id then differs from an uninterrupted run's.
- EventEvaluation.RedeliveryFinishesIff: assumes the same of lost marks; what a lost mark does to the state is not decided exactly.
- ExpressionPrinting.Agrees: trees whose text the resolver cannot tell apart from another tree are excluded: keywords as bare names, brackets or operators inside quotes, an equality as the left operand of an equality or as a bare operand of a negation.
- ActionPaths.KeysIdentifyExecutions: needs ids without '#', which generated ids are; ActionPaths.HashInIdCollides shows two rules that collide without that. Within one rule ActionPaths.KeysAreDistinct needs nothing.
- SentenceChunking.SentenceChunker.PushDelta: lengths count characters, where the source counts UTF-16 code units.
- OutboundPacing.OutboundPacer.EnqueueAudio: durations are exact reals, so the source's guard against floating-point dust never acts; each operation reads the clock once; the frame length is a positive whole number of milliseconds.
- Concurrent deliveries of one event by different workers and the branch for a lost race on the unique key (`packages/automations/src/evaluate.ts:279-285`).
- Errors of the run-row write itself (`packages/automations/src/evaluate.ts:286`): to the store they are a crash before the row.
- The nested AutomationRun history rows, log text, event payloads and timestamps; only whether an event is published is kept.
- What moving an enrollment, sending a webhook or notifying does at the vendor; the workflow-id slug of `dedupeKeyFor`.
- Trigger matching, keyword conditions, rule parsing and the order in which rules are loaded; rules enter in order.
- Contact emails are taken as lower-cased, and a suppression's channels as email and sms only.
- Cascades through set_stage, which are not bounded.
- The batch limits of the sweeps and what starves beyond them, their grouping and sorting of rules; times are whole milliseconds and quiet days exact quotients.
- In the session: the reply loop, its lookups, TTS transports and fallbacks, ack clips, the stall and idle timers, metrics. Their speeches enter as events that end a speech; the outstanding audio enters a tick as a number.
- In the template runtime: everything but expressions; JavaScript's coercions are the host's.
- TranscriptPersist.MessageStore.CreateMany: tenants share one table here; row-level security is not modelled.
