# Workstation controllers: a Dafny model

This project models the parts of the workstation tooling that decide something: which job of an
optimizer is claimed and what its result may be, when a budgeted proxy may still send, what a backup
may scale down, which candidate is faster, which request menu is measured, whether a streamed tool
call is complete, and how bytes, tokens and memory are accounted. Each module models one source file
or one component of it.

## How things are modelled

- **Protocols** (`Exchange`, `OwnerRun`, `Pilot`, `Backup`) are state machines over atomic effects. The
  surroundings are adversarial: any clock, any interleaving, any answer to a read of candidate-owned
  files, any crash. A theorem about a run holds for every sequence of steps.
- **Digests** are free constructors (`Jobs.Sha`), so equal digests mean equal inputs. JSON text is the
  value it decodes to plus a spelling; the parser of the coding evaluation is a parameter.
- **Loops that update variables or objects** are methods with invariants, proved against a
  specification function or an if-and-only-if condition. Objects whose methods update fields
  (`Pilot.LocalModel`, `CacheWalk.TreeBudget`, `Menu.Builder`) are classes.
- **Numbers**: times and medians are exact reals; the geometric means of the latency score are kept as
  a power and a root, so no exponential or logarithm is needed. Python's `/`, `//` and `ceil` are
  written out where rounding decides something.

## Where the code does less, or more, than its promise

Each of these is a lemma with a concrete input, beside the exact condition under which the promise holds.

- The admission window holds of the time a claim records, sampled when the take begins, not of the
  moment the claim is published (`ExchangeFindings.ClaimCanComeOutLate`); it comes out inside the window
  exactly when the clock moved, while the take was under way, by no more than was left of the allowance
  (`ExchangeTiming.OutInWindowWhen`). And a claim digests the request
  file once more than it was inspected, so a take can return a snapshot whose claim binds other text
  (`ExchangeFindings.ClaimCanBindOtherText`). Such a snapshot is never retained:
  `ExchangeSafety.RetainableWhen`.
- The error clauses of the pilot's upstream call name refused connections, timeouts and server errors; a
  truncated body or a broken status line passes them by, the request is settled as over, and the next
  one is sent while the upstream may still work on the first (`Pilot.DroppedReplyOverlaps`). The upstream
  works on at most one request exactly when nothing is sent while it still works on such a one
  (`Pilot.OneInFlightWhen`). That state is the upstream's and nobody here can read it; what an operator can
  check is that no reply was dropped (`Pilot.FlaggedLossesOnly`). The budgets hold regardless
  (`Pilot.BudgetIsDurable`).
- The nested component screen hashes the sources itself, so the screened set can differ from the served
  one (`OwnerRun.ScreenCanSeeOtherSources`); they coincide exactly when the nested pass read the same
  bytes (`OwnerRun.ScreenedSetIsServedSet`).
- `journal.json` is truncated before it is written, so a crash in between forgets deployments already
  scaled down (`Backup.TornJournalForgets`); it happens exactly when a run with something scaled down is,
  or stopped, between the truncation and the writing (`Backup.JournalAtEveryStep`).
- Each writer's pods are looked at once, so a writer that others scale up again can write during the dump
  (`Backup.EditedWriterCanWrite`); what is down stays down exactly when no edit by others scales it up,
  replaces it or gives it pods (`Backup.QuietThroughoutWhen`). Deployments outside the plan can write
  during the archive (`Backup.OutsiderCanWrite`); in runs where others edit no deployment outside the plan and
  scale none of the plan's up again, captures are taken from an empty namespace exactly when every deployment
  outside the plan starts with no replicas (`Backup.EmptyWhen`).
- Stream frames are cut by `splitlines`, which breaks at more characters than the event-stream format
  does: a raw U+2028 inside a JSON string is refused in a stream and accepted outside
  (`ToolMeaning.RawSeparatorIsRefused`, and one call with both verdicts in
  `ToolSeparator.SeparatorSplitsVerdict`); `EventWriting.DataSurvives` is the exact condition.
- An empty tensor strictly inside another one is refused although every byte is held exactly once
  (`Extents.EmptyInsideIsRefused`); `Extents.SweepMeans` is the exact condition.
- What a cache inventory calls reclaimable depends on the order of the registry
  (`CacheInventory.ReclaimableDependsOnOrder`). A namespace's row depends on its place exactly when it is
  disposable, holds bytes of its own, and all its hard-linked content, of which there is some, lies in
  other namespaces too (`CacheOrder.RowOrderFreeWhen`). Where no row does, the total is the same in every
  order (`CacheOrder.ReclaimableOrderFree`), where one alone does it is not (`CacheOrder.OneSwings`), and
  where several do it can still balance (`CacheOrder.SwingsCanBalance`): the total is the same in every order
  exactly when any two namespaces gain as much from standing behind each other, whichever others stand before
  them (`CacheTrades.ReclaimableOrderFreeWhen`). The physical total never depends
  on the order (`CacheInventory.PhysicalOrderFree`).
- A hand-made comparison record can list a failing row before another row of its case, and is validated
  and selected all the same (`Inspection.ForgedRowIgnored`). Every listed row is judged exactly when no
  case is listed with two different rows (`Alignment.EveryRowJudged`); every inspected profile meets that
  condition, because a repeated case makes its serving metrics incomplete (`Inspection.InspectedRowsJudged`).

## Model

| member | source | states |
|---|---|---|
| Base64.RoundTrip | lib/workstation/hyperloom_exchange_host.py:51-71 | decoding what a take encoded gives back every byte string |
| Base64.EncodedLength | lib/workstation/hyperloom_exchange_host.py:105-141 | the encoded size is the one the snapshot bound is computed from |
| Jobs.CheckRows | lib/workstation/hyperloom_exchange.py:105-137 | the row loop accepts exactly distinct simple names with bounded sizes, and totals their bytes |
| Jobs.CheckRequest | lib/workstation/hyperloom_exchange.py:105-137 | a request is accepted exactly when header, envelope, rows, inventory digest and flags hold |
| Snapshot.CopySources | lib/workstation/hyperloom_exchange_host.py:51-71 | the copy succeeds exactly when every byte string read hashes to its row, and encodes those bytes |
| Snapshot.DecodeSources | lib/workstation/hyperloom_exchange_host.py:105-141 | the decode loop accepts exactly rows whose decoded bytes hash to the inventory |
| Snapshot.Retain | lib/workstation/hyperloom_exchange_host.py:105-141 | a snapshot is retained exactly when header and rows check, with the decoded bytes |
| Snapshot.CopiedRowsDecode | lib/workstation/hyperloom_exchange_host.py:51-71 | what a take copied always decodes again, to the very bytes that were copied |
| Snapshot.InventoryOfDecoded | lib/workstation/hyperloom_exchange_host.py:105-141 | decoded sources have exactly the inventory the request names |
| ExchangeSafety.InvRun | lib/workstation/hyperloom_exchange.py:203-223 | every state of every run keeps the exchange invariant |
| ExchangeSafety.AtMostOnce | lib/workstation/hyperloom_exchange.py:85-98 | each job gets at most one reply directory, claim and result, a waiter ends at most once and never both ways, and no job is offered after its reply exists |
| ExchangeSafety.CreateOnce | lib/workstation/hyperloom_exchange.py:85-98 | what was published is never changed by any later run |
| ExchangeSafety.ClaimWindow | lib/workstation/hyperloom_exchange.py:203-223 | every claim was admitted, by its recorded time, inside the admission allowance with the caller and post-release time left |
| ExchangeTiming.OutInWindowWhen | lib/workstation/hyperloom_exchange.py:203-223 | a claim comes out inside the admission allowance exactly when the clock moved, between the start of the take and its publication, by no more than was left of it, and by the expiry likewise |
| ExchangeTiming.LateWhen | lib/workstation/hyperloom_exchange_host.py:24-27 | under a clock never set back, only the time that passed during the take can bring its claim out of the window |
| ExchangeSafety.TakeWithinCampaign | lib/workstation/hyperloom_exchange_host.py:51-71 | a take that returned leaves caller and post-release time before the campaign deadline |
| ExchangeSafety.WaiterGetsItsOwn | lib/workstation/hyperloom_exchange.py:257-272 | a waiter's result carries that waiter's request digest, campaign, config, sources and controller, and a success is sealed and released |
| ExchangeSafety.RetainableWhen | lib/workstation/hyperloom_exchange_host.py:105-141 | a returned snapshot can be retained exactly when its claim binds the request it carries and the configuration digest is canonical |
| ExchangeSafety.RetainedIsWhatWasAsked | lib/workstation/hyperloom_exchange_host.py:105-141 | a retained snapshot and a delivered result of one job speak of one request and of bytes with its source set |
| ExchangeSafety.CancelledIsNeverTaken | lib/workstation/hyperloom_exchange_host.py:51-71 | while a cancellation stands, no take of the job succeeds |
| ExchangeProgress.SubmittedWhen | lib/workstation/hyperloom_exchange.py:140-180 | a request is submitted exactly when it is sound, dated now, over before the deadline and under an unused name; a waiter waits for submitted requests only |
| ExchangeProgress.TakeReturnsWhen | lib/workstation/hyperloom_exchange_host.py:51-71 | an uninterrupted take returns a request and its configuration exactly when the job is open, both looks show them, the bytes match and the window holds; it returns those bytes under the claim it published |
| ExchangeProgress.ResultComesOutWhen | lib/workstation/hyperloom_exchange_host.py:84-101 | a result comes out, once, exactly when it answers the claim of its job, with any of the four statuses |
| ExchangeProgress.PollDeliversWhen | lib/workstation/hyperloom_exchange.py:308-321 | in every reached state a poll that finds a result delivers exactly that result, whatever its status, if it answers the waiter's request, leaves otherwise, and stays when there is none |
| ExchangeProgress.PollRefusesWhen | lib/workstation/hyperloom_exchange.py:257-272 | what a poll can still refuse in a reached state: schema, campaign, configuration, sources, payload, and a claim of other text |
| ExchangeProgress.LeavingCancels | lib/workstation/hyperloom_exchange.py:301-321 | a parked campaign or an abandoned wait ends in a cancellation of the job, published unless one stands |
| ExchangeProgress.ParkedWhen | lib/workstation/hyperloom_exchange.py:285-298 | the campaign parks once, with a bounded reason, and stays parked for it |
| ExchangeProgress.AnswerIsDelivered | lib/workstation/hyperloom_exchange.py:308-321 | every answer to a submitted and faithfully kept request, whatever its status, reaches its waiter without a cancellation |
| ExchangeProgress.FailureIsDelivered | lib/workstation/hyperloom_exchange.py:257-272 | a run in which a failed result, unsealed and unreleased, is what the waiter is given |
| ExchangeFindings.ClaimCanComeOutLate | lib/workstation/hyperloom_exchange.py:203-223 | a run in which a claim is published after its request has expired |
| ExchangeFindings.ClaimCanBindOtherText | lib/workstation/hyperloom_exchange.py:203-223 | a run in which the claim binds text that was not inspected, and the snapshot cannot be retained |
| OwnerRun.SourceSet | lib/workstation/hyperloom_owner_backend.py:293-298 | the digest loop succeeds exactly on readable bounded sources and digests their inventory |
| OwnerRun.SameSetSameBytes | lib/workstation/hyperloom_owner_backend.py:293-298 | two passes have one digest exactly when they read the same bytes |
| Jobs.CheckConfig | lib/workstation/hyperloom_owner_backend.py:107-131 | a configuration is accepted, with its kind, exactly when it only benchmarks the bound workload, screens the fixed geometry without a profiler if at all, and its timeout covers the envelope of that kind |
| Jobs.CheckResult | lib/workstation/hyperloom_exchange.py:257-272 | a result is accepted exactly when it is one of the request, its flags are in order, and a success is sealed and released |
| OwnerRun.CheckComponent | lib/workstation/hyperloom_owner_backend.py:220-237 | a component report is accepted exactly when its owner bound it and its eligibility is what its three findings give |
| OwnerRun.Invoke | lib/workstation/hyperloom_owner_backend.py:301-345 | one invocation, its nested screen included, publishes and returns, event by event, what the run of the specification does |
| OwnerRun.ComponentRunsOnce | lib/workstation/hyperloom_owner_backend.py:324-345 | a component invocation is never screened again, and submits one component job for the set it hashed |
| OwnerRun.ServedOnlyAfterScreen | lib/workstation/hyperloom_owner_backend.py:301-345 | a served job carries the set hashed at the start, and unless selected follows an eligible component job of the same run |
| OwnerRun.ScreenedSetIsServedSet | lib/workstation/hyperloom_owner_backend.py:301-321 | screened and served sets agree exactly when the nested pass read the same bytes |
| OwnerRun.ScreenCanSeeOtherSources | lib/workstation/hyperloom_owner_backend.py:301-321 | a run that screens one source set and serves another |
| Pilot.LocalModel.constructor | lib/workstation/graphrag_pilot.py:187-193 | the shared object starts from the journal on disk |
| Pilot.LocalModel.Save | lib/workstation/graphrag_pilot.py:42-52 | one atomic replacement, as far as it got |
| Pilot.LocalModel.Reserve | lib/workstation/graphrag_pilot.py:198-226 | a request is reserved within budget and journalled before it may be sent |
| Pilot.LocalModel.Account | lib/workstation/graphrag_pilot.py:227-246 | usage is counted once, or counted as missing |
| Pilot.LocalModel.Settle | lib/workstation/graphrag_pilot.py:247-258 | the request is settled, uncertainty kept, and the journal saved |
| Pilot.LocalModel.Close | lib/workstation/graphrag_pilot.py:325-406 | the index outcome is journalled |
| Pilot.InvRun | lib/workstation/graphrag_pilot.py:198-258 | every schedule of handlers, lost and dropped replies, failed saves and crashes keeps the invariant |
| Pilot.BudgetIsDurable | lib/workstation/graphrag_pilot.py:174-258 | what was sent never exceeds the durable journal, the journal never exceeds the budgets, and at most one request is watched, never under a journal a later run accepts |
| Pilot.OneInFlightWhen | lib/workstation/graphrag_pilot.py:227-258 | the upstream works on at most one request throughout a run exactly when nothing is sent while it works on one whose reply was dropped |
| Pilot.FlaggedLossesOnly | lib/workstation/graphrag_pilot.py:247-258 | without a dropped reply at most one request is ever worked on |
| Pilot.DroppedReplyOverlaps | lib/workstation/graphrag_pilot.py:247-258 | a run whose first reply is truncated has two requests worked on at once |
| Pilot.UncertainIsSticky | lib/workstation/graphrag_pilot.py:247-258 | uncertainty on disk is never taken back |
| Pilot.CrashIsFinal | lib/workstation/graphrag_pilot.py:152-184 | after a crash mid-request or mid-index nothing is ever sent or indexed again |
| PilotOutcome.CompleteWhen | lib/workstation/graphrag_pilot.py:380-399 | after every run the journal on disk calls the index complete exactly when one indexing process was judged successful with no request counted as failed since its start and none uncertain, and saved that outcome |
| PilotOutcome.SentOnce | lib/workstation/graphrag_pilot.py:222-231 | a reserved request is sent at most once, and nothing else is sent |
| PilotOutcome.UnansweredIsFlagged | lib/workstation/graphrag_pilot.py:247-258 | a request whose connection failed, sent or not, leaves memory and disk uncertain once settled and saved, and nothing is reserved after it |
| PilotOutcome.OutcomeStands | lib/workstation/graphrag_pilot.py:152-184 | an index once complete on disk stays so, and once begun is never again not run |
| PilotOutcome.FailureEndsQueries | lib/workstation/graphrag_pilot.py:381-399 | after a request counted as failed while an index works, no query is ever started |
| Backup.InvRun | lib/workstation/service_backup.py:584-636 | every step of every capture, whatever others edit, keeps journal, progress and stage order |
| Backup.JournalAtEveryStep | lib/workstation/service_backup.py:596-614 | something scaled down cannot be resumed from disk exactly when the run is, or stopped, between the truncation of the journal and its writing |
| Backup.QuietThroughoutWhen | lib/workstation/service_backup.py:616-636 | what is scaled down stays down and drained throughout a run exactly when every edit by others is harmless |
| Backup.DumpIsQuiet | lib/workstation/service_backup.py:616-636 | no database dump starts while a writer is scaled up or has a pod, as long as others' edits are harmless |
| Backup.CaptureIsQuiet | lib/workstation/service_backup.py:646-717 | from the first archive on all targets are drained, under the same condition, and SQLite is copied only with the server stopped |
| Backup.EmptyWhen | lib/workstation/service_backup.py:584-594 | where a capture can be reached, every capture of every run in which others make only harmless edits, and none outside the plan, is taken from an empty namespace exactly when all deployments outside the plan start with no replicas |
| Backup.TornJournalForgets | lib/workstation/service_backup.py:596-614 | a crash that loses the only record of a scaled deployment |
| Backup.OutsiderCanWrite | lib/workstation/service_backup.py:584-594 | a deployment outside the plan starts a pod between check and archive |
| Backup.EditedWriterCanWrite | lib/workstation/service_backup.py:616-636 | a drained writer that is scaled up by someone else has a pod while the database is dumped |
| BackupCapture.TakenThroughout | lib/workstation/service_backup.py:616-718 | at every state of every run the parts taken so far are exactly those of its stage, in order: dumps, then the volumes, then the server |
| BackupCapture.VolumesOnce | lib/workstation/service_backup.py:700-718 | from the stop of the server on, every volume of the plan but the database's own is archived exactly once, before the pods and containers were gone none, and a finished capture holds its whole plan |
| BackupCapture.WorkFailsWhen | lib/workstation/service_backup.py:596-636 | a step of work fails exactly when what it looks at is not as it must be |
| BackupCapture.OthersMove | lib/workstation/service_backup.py:616-636 | pods and containers start and end, one at a time, exactly where the cluster lets them |
| BackupCapture.CaptureFinishes | lib/workstation/service_backup.py:584-718 | where nobody interferes and every target is as planned, some run finishes, with the whole plan taken |
| Stats.OrderFree | lib/workstation/hyperloom_latency.py:111-123 | median and range do not depend on sample order |
| Stats.StatisticsScale | lib/workstation/hyperloom_latency.py:111-123 | median and range scale with the unit |
| Latency.Collect | lib/workstation/hyperloom_latency.py:62-102 | the sample loop accepts exactly well-formed fresh samples and collects means, walls and token columns |
| Latency.CaseSeries | lib/workstation/hyperloom_latency.py:54-106 | one case is accepted exactly when header and samples fit |
| Latency.Series | lib/workstation/hyperloom_latency.py:39-108 | a record is scored exactly when it is a valid series, and yields its rows and identities |
| Compare.Accumulate | lib/workstation/hyperloom_latency.py:140-176 | the comparison loop accumulates exactly the reports, reasons and ratios of matched cases |
| Compare.CompareLoop | lib/workstation/hyperloom_latency.py:126-179 | the loop compares exactly series with the same cases |
| Compare.CompareRecords | lib/workstation/hyperloom_latency.py:126-179 | two records are compared exactly when both are valid series that bind the same identities, by the program's own loops over axes, work and reasons |
| VerdictMeaning.RowMeans | lib/workstation/hyperloom_latency.py:62-106 | a row holds the single request's time or the mean of the pair's, the wall time, the prompts and the answer counts of each sample |
| VerdictMeaning.VerdictWhen | lib/workstation/hyperloom_latency.py:140-179 | the verdict by medians, ranges, token medians and speedups: inconclusive exactly when an axis is spread beyond the cap or a token median moved beyond its own, else revert exactly when an axis is slower beyond its band, the balanced gain is short or no case is faster beyond its band, else keep |
| VerdictMeaning.RecordVerdictWhen | lib/workstation/hyperloom_latency.py:126-179 | the same of any two records that are compared |
| VerdictMeaning.GainShortWhen | lib/workstation/hyperloom_latency.py:161-175 | the gain is short exactly when the root of the two levels' geometric mean speedups, in percent above one, is below the minimum |
| VerdictMeaning.PairedVerdictWhen | lib/workstation/hyperloom_latency.py:182-211 | the paired verdict by rows: inconclusive where the controls drifted or the own control cannot be judged, revert where the candidate is worse than its control, else the plain one |
| Verdicts.KeepBounds | lib/workstation/hyperloom_latency.py:140-176 | KEEP bounds the candidate median on both axes of every case by the baseline over one minus the spread cap |
| Verdicts.RecordKeepBounds | lib/workstation/hyperloom_latency.py:126-179 | the same bounds between the two records that were compared |
| Verdicts.PairedComparison | lib/workstation/hyperloom_latency.py:182-211 | the paired comparison succeeds exactly when all three comparisons do, and settles their reasons |
| Verdicts.PairingOnlyVetoes | lib/workstation/hyperloom_latency.py:182-211 | pairing never turns another verdict into KEEP |
| Verdicts.PairedKeepBounds | lib/workstation/hyperloom_latency.py:182-211 | a paired KEEP also bounds the candidate by its own control, and the controls agree within the noise band |
| Verdicts.RecordPairedKeepBounds | lib/workstation/hyperloom_latency.py:182-211 | the same bounds between the four records of a paired comparison |
| Scores.ScoreMeaning | lib/workstation/hyperloom_latency.py:161-171 | the power-and-root gain test is the test on the balanced geometric mean |
| Scores.AxisOrderFree | lib/workstation/hyperloom_latency.py:111-123 | an axis does not depend on sample order |
| Scores.ScoreOrderFree | lib/workstation/hyperloom_latency.py:161-168 | the score does not depend on case order |
| Scores.ReplicationFree | lib/workstation/hyperloom_latency.py:161-168 | replicating the ratios of one level scales value and root alike and changes no gain verdict |
| RecordOrder.ComparisonOrderFree | lib/workstation/hyperloom_latency.py:126-180 | two records compare exactly when any rearrangements of their cases and samples do, with the same verdict, score, reports and reasons |
| Scores.ReplicationKeepsVerdict | lib/workstation/hyperloom_latency.py:161-175 | listing every case of either level any number of times changes no verdict |
| Scores.AxisUnitFree | lib/workstation/hyperloom_latency.py:111-123 | scaling all times by one factor changes no flag and no ratio |
| Swaps.SwapInverts | lib/workstation/hyperloom_latency.py:161-168 | swapping baseline and candidate inverts the score |
| Swaps.NeverBothKeep | lib/workstation/hyperloom_latency.py:140-176 | no two series are KEEP in both directions |
| Swaps.RecordsNeverBothKeep | lib/workstation/hyperloom_latency.py:126-179 | no two records are each better than the other |
| Json.EqualMeansSame | lib/workstation/coding_eval.py:233-241 | two values are json_equal exactly when they denote the same thing |
| Json.JsonEquality | lib/workstation/coding_eval.py:233-241 | json_equal is an equivalence and never takes a Boolean for a number |
| EventText.PrefixData | lib/workstation/coding_eval.py:177-193 | a well-formed beginning of a stream reads as the first data of the whole |
| EventWriting.WrittenReadsBack | lib/workstation/coding_eval.py:177-193 | a stream written with either line ending and comments anywhere reads back as its data |
| EventWriting.DataSurvives | lib/workstation/coding_eval.py:184-190 | a line's data are read as written exactly when splitlines finds no boundary in them |
| ToolStream.FeedItem | lib/workstation/coding_eval.py:206-225 | one streamed call item is merged or refused as its identity and fragments say |
| ToolStream.PythonEquality | lib/workstation/coding_eval.py:206-214 | where a streamed identity is compared in Python, a Boolean equals the number it stands for, unlike under json_equal |
| ToolStream.FeedDelta | lib/workstation/coding_eval.py:198-225 | one delta is merged or refused |
| ToolStream.FeedText | lib/workstation/coding_eval.py:194-229 | one chunk moves the running call or refuses the stream |
| ToolStream.CheckStream | lib/workstation/coding_eval.py:177-230 | the frame loop accepts exactly the streams whose data are accepted |
| ToolStream.ProtocolTool | lib/workstation/coding_eval.py:134-230 | a protocol pair is accepted exactly when both halves are |
| ToolStream.CheckedMeans | lib/workstation/coding_eval.py:154-165 | a call is accepted exactly when it is a function call with a bounded identifier whose own name and parsed arguments denote the expected tool and arguments |
| ToolMeaning.AcceptedMeans | lib/workstation/coding_eval.py:177-230 | data are accepted exactly when they are the fragments of one call the plain check accepts, then usage chunks, then one end marker |
| ToolMeaning.SameVerdict | lib/workstation/coding_eval.py:134-230 | for every cutting of a call, with nulls, comments and usage chunks, both checks agree |
| ToolMeaning.EndsOnce | lib/workstation/coding_eval.py:191-194 | an accepted stream holds its end marker once, last |
| ToolMeaning.CutShortIsRefused | lib/workstation/coding_eval.py:177-230 | a beginning of an accepted stream is accepted exactly when it already holds all the data |
| ToolMeaning.RawSeparatorIsRefused | lib/workstation/coding_eval.py:184-190 | a raw U+2028 inside a chunk refuses the whole stream |
| ToolSeparator.SeparatorDivides | lib/workstation/coding_eval.py:184-190 | whatever call a chunk with a raw U+2028 spells, its data are accepted as the plain check accepts the call, and the stream of them is refused |
| ToolSeparator.SeparatorSplitsVerdict | lib/workstation/coding_eval.py:184-190 | one call is accepted as a whole message and as data, and refused as a stream |
| Menu.Builder.constructor | lib/workstation/hyperloom_workload.py:60-61 | the menu starts blank |
| Menu.Builder.Place | lib/workstation/hyperloom_workload.py:68-103 | one request is placed with its salt, seed and policy, or refused |
| Menu.Builder.PlaceAll | lib/workstation/hyperloom_workload.py:63-111 | the requests of a group are placed in order and get consecutive ordinals |
| Menu.Builder.AddGroup | lib/workstation/hyperloom_workload.py:63-124 | one call of the inner group does what the specification says to all lists at once |
| Menu.Builder.AddRepetition | lib/workstation/hyperloom_workload.py:128-130 | the case loop runs every case of one repetition |
| Menu.Derive | lib/workstation/hyperloom_workload.py:126-131 | deriving a menu is the specified run of warmups and repetitions, refusals included |
| MenuProofs.PlacedMeans | lib/workstation/hyperloom_workload.py:68-103 | a group's requests are placed exactly when each could be placed on the seeds before it |
| MenuProofs.DerivableWhen | lib/workstation/hyperloom_workload.py:63-124 | a list of groups becomes a menu exactly when each meets its condition on those before it |
| MenuRows.SaltInjective | lib/workstation/hyperloom_workload.py:84-87 | two requests share a salt exactly when they share family, repetition and position |
| MenuRows.NamespacesAreFresh | lib/workstation/hyperloom_workload.py:84-100 | cold namespaces are all different, and a warm row runs in the namespace of one earlier cold row with the same tokens |
| MenuSchedule.MenuCovers | lib/workstation/hyperloom_workload.py:63-131 | the groups of a derived menu have distinct names, full width, and partition the requests in order |
| MenuSchedule.MenuScoredOnce | lib/workstation/hyperloom_owner_result.py:119-141 | every request after the warmups is scored exactly once |
| MenuSchedule.ScoredOrderFree | lib/workstation/hyperloom_owner_result.py:119-141 | any order of the cases scores the same requests |
| MenuSchedule.MenuSize | lib/workstation/hyperloom_workload.py:131-131 | the menu has three warmups and every case's requests once per repetition |
| MenuPlan.PlanDerives | lib/workstation/hyperloom_workload.py:63-131 | every case list whose warm cases follow their cold partners is derived, partitions its requests in order and scores each once |
| MenuPlan.PlanDerivesWhen | lib/workstation/hyperloom_workload.py:63-131 | a list of cases with its cold partners in place is derived exactly when the corpus holds what each group needs |
| MenuCases.MenuLists | lib/workstation/hyperloom_workload.py:119-130 | the case map lists each case once under its own contract, with one sample a repetition whose requests are given in closed form |
| Arms.JoinGroups | lib/workstation/hyperloom_owner_result.py:76-97 | the group loop accepts exactly groups that match plan, times, tokens and makespan, under distinct names |
| Arms.JoinArm | lib/workstation/hyperloom_owner_result.py:54-97 | one arm joins exactly when rows, groups and schedule do |
| Arms.ProjectCase | lib/workstation/hyperloom_owner_result.py:119-140 | the sample loop of one case accumulates samples, ordinals, seconds and tokens |
| Arms.ScoreArm | lib/workstation/hyperloom_owner_result.py:114-149 | an arm becomes a series exactly when it joins, is scored once, and the comparator accepts it |
| Arms.TokensConserved | lib/workstation/hyperloom_owner_result.py:119-156 | the measured output tokens are the tokens of exactly the requests after the warmups |
| ArmSeries.ComparableWhen | lib/workstation/hyperloom_owner_result.py:159-161 | two scored arms of one job compare exactly when they counted the same prompt tokens, case by case |
| ArmEvidence.SeriesValidWhen | lib/workstation/hyperloom_owner_result.py:119-149 | an arm scored once is a valid series exactly when its identities, counts, names and prompts fit |
| MenuArms.MenuJoins | lib/workstation/hyperloom_owner_result.py:76-97 | an arm joins a derived menu exactly when it executed the menu's groups |
| MenuArms.MenuProjects | lib/workstation/hyperloom_owner_result.py:119-141 | an arm that executed a derived menu projects, and measures exactly the requests after the warmups, each once |
| MenuEvidence.MenuScoredWhen | lib/workstation/hyperloom_owner_result.py:114-149 | such an arm is scored exactly when the list of cases is one the policy scores, each request after the warmups has sound counts, and each repetition counts the prompt tokens of the first |
| MenuEvidence.MenuPromptsWhen | lib/workstation/hyperloom_latency.py:142-148 | two such arms agree on the prompts of every case exactly when they count the same tokens for each request of the first repetition |
| Report.ServingReport | lib/workstation/hyperloom_owner_result.py:100-162 | a serving report is made exactly when the job is admitted and registered, the workload is the bound one of the fixed size, both arms are scored and their prompt counts agree, and it holds their comparison |
| Report.ProfileReport | lib/workstation/hyperloom_owner_result.py:165-202 | a profile report is made exactly when the job is admitted and registered, both arms join the five-request schedule and the capture is complete and of the graded pair |
| Report.PublishResult | lib/workstation/hyperloom_exchange.py:226-246 | a result is published exactly when the claim is of its request and a success is sealed and released, and carries that request's identities |
| Report.CheckReport | lib/workstation/hyperloom_owner_backend.py:134-172 | a report is accepted exactly when it is bound to the request, the seal and the controller, and its content fits its kind |
| Report.ReportOfOneJob | lib/workstation/hyperloom_owner_backend.py:134-172 | a report is valid for one request and one seal only |
| MenuReport.MenuServesWhen | lib/workstation/hyperloom_owner_result.py:100-162 | a serving report of a derived menu is made exactly when the job fits the menu, both arms executed and measured it, and both counted the same prompt tokens in the first repetition |
| MenuReport.MenuReportAccepted | lib/workstation/hyperloom_owner_backend.py:134-172 | from a derived menu to the published result: the report passes the result check and the report check, with the tokens of the requests after the warmups |
| MenuProfile.DeriveProfile | lib/workstation/hyperloom_workload.py:165-209 | the profile menu is cut exactly when the five chosen requests exist and are cold and three groups remain, renumbered |
| MenuProfile.ProfileShapeWhen | lib/workstation/hyperloom_owner_result.py:182-184 | the cut has the shape the profile report asks for exactly when one group of the menu is the pair of requests 5 and 6 |
| MenuProfile.PairProfiles | lib/workstation/hyperloom_workload.py:165-190 | where the case two requests after the warmups is a cold pair, the profile menu is cut and has that shape |
| MenuProfile.ProfileReportAccepted | lib/workstation/hyperloom_owner_backend.py:165-172 | from a derived menu to the published profile result, which is accepted exactly as far as both arms executed the cut menu |
| ShippedMenu.ShippedListed | lib/workstation/hyperloom_workload.py:22-32 | the six cases have names and namespaces of their own, and each warm one follows its cold partner |
| ShippedMenu.ShippedDerivesWhen | lib/workstation/hyperloom_workload.py:126-131 | the fixed menu is derived exactly when the corpus holds what its six groups need, and then has thirty requests, twenty groups and six cases |
| ShippedMenu.ShippedServesWhen | lib/workstation/hyperloom_owner_result.py:100-162 | a serving report of the fixed menu is made exactly when the job fits, both arms executed it and measured its 27 timed requests, and both counted the same prompt tokens for the first nine |
| ShippedMenu.ShippedProfiles | lib/workstation/hyperloom_workload.py:165-190 | the profile menu of the fixed list is always cut, and is the one the profile report asks for |
| Gates.LatencyGate | lib/workstation/performance_profiles.py:883-920 | the gate's lists and status are those of the specification |
| Gates.LatencyMeans | lib/workstation/performance_profiles.py:883-920 | the gate passes exactly when every case's latency and TTFT, median and tail, stay within the allowed regression |
| Gates.StartupMeans | lib/workstation/performance_profiles.py:856-880 | the startup gate passes exactly when both phases are observed, clean and within the allowed regression |
| Gates.ThroughputGate | lib/workstation/performance_profiles.py:951-977 | the throughput loop lists exactly the gains of sound cases |
| Gates.GainsMean | lib/workstation/performance_profiles.py:951-977 | the gate is complete exactly when every case has repeated positive rates |
| Gates.PercentMeans | lib/workstation/performance_profiles.py:849-853 | a percentage change within a limit is the product inequality |
| Decision.IndexRows | lib/workstation/performance_profiles.py:836-837 | the row dictionary keeps the last row of each case |
| Decision.DeclarationTable | lib/workstation/performance_profiles.py:711-745 | which declared variable each identity, producer, coding and experiment field belongs to |
| Decision.ComparesWhen | lib/workstation/performance_profiles.py:698-765 | two profiles are compared at all exactly when they are two, the declarations are known, unrepeated and not of model and hardware both, the thresholds are percentages, and every differing condition and coding field is declared under its variable |
| Decision.ComparisonRecord | lib/workstation/performance_profiles.py:980-1051 | the program's own checks and chain of gates, branch by branch, produce the record whose meaning the lemmas beside it state, refusals included |
| Decision.OutcomesWhen | lib/workstation/performance_profiles.py:1014-1042 | each outcome is given exactly when its step of the chain is the first that applies |
| Decision.CandidateWhen | lib/workstation/performance_profiles.py:980-1051 | a candidate is recommended exactly when conditions, quality, cases and every gate allow it, and then differs in nothing undeclared, in nothing incomparable and in no coding provenance |
| Decision.ValidWhen | lib/workstation/performance_profiles.py:1058-1078 | validation accepts exactly the records some comparison produces |
| Decision.PolicyAgain | lib/workstation/performance_profiles.py:698-704 | a policy read back from a record is the same policy |
| Inspection.ServingMetrics | lib/workstation/performance_profiles.py:119-155 | the cases of a result are observed exactly when every row and summary is sound and no case repeats |
| Inspection.Summarise | lib/workstation/performance_profiles.py:96-116 | a median summary is accepted exactly when its count is positive and its statistics are not negative, and has a tail exactly when it counts at least twenty samples |
| Decision.SelectCandidate | lib/workstation/performance_profiles.py:1058-1087 | the program validates a record by comparing its profiles again, and selects its candidate exactly when that gives the same record and recommends it |
| Inspection.InspectedRowsJudged | lib/workstation/performance_profiles.py:139-143 | every row of an inspected profile is judged |
| Inspection.SelectedWhen | lib/workstation/performance_profiles.py:1081-1087 | a candidate is selected exactly from a record that some comparison produces and that recommends it; its two profiles differ in nothing undeclared |
| Inspection.SelectedIsClean | lib/workstation/performance_profiles.py:1081-1087 | a record selected from inspected profiles lists no failure on either side |
| Alignment.AlignedAlike | lib/workstation/performance_profiles.py:827-846 | alignment depends only on the last row of each case |
| Alignment.EveryRowJudged | lib/workstation/performance_profiles.py:836-846 | every listed row is judged exactly when no case is listed with two different rows |
| Alignment.EarlierRowIgnored | lib/workstation/performance_profiles.py:836-846 | an earlier row of a repeated case never changes the outcome |
| Inspection.ForgedRowIgnored | lib/workstation/performance_profiles.py:1058-1087 | a hand-made record with a failing row before another row of its case is validated and selected |
| CacheWalk.TreeBudget.Add | lib/workstation/inference_cache.py:135-141 | one entry is counted, and refused beyond the bound |
| CacheWalk.List | lib/workstation/inference_cache.py:158-181 | a directory listing is accepted exactly when every entry is safe and fits the budget, and counts its files |
| CacheWalk.SafeTree | lib/workstation/inference_cache.py:148-182 | the stack walk succeeds exactly when every node is safe and the budget covers the tree, and counts the files met |
| CacheWalk.MetIsContent | lib/workstation/inference_cache.py:148-182 | the walk meets each file of the tree exactly as often as the tree holds it |
| CacheSums.CountedMeans | lib/workstation/inference_cache.py:172-182 | the sums are sums over inodes: first met, single-link, and first met with other links |
| CacheInventory.Inventory | lib/workstation/inference_cache.py:185-224 | the inventory succeeds exactly when all trees are safe and fit one budget, and lists the specified rows |
| CacheInventory.PhysicalTotal | lib/workstation/inference_cache.py:202-224 | physical bytes are the bytes of the distinct inodes, each once |
| CacheInventory.PhysicalOrderFree | lib/workstation/inference_cache.py:202-224 | the total does not depend on registry or directory order |
| CacheInventory.ReclaimableTotal | lib/workstation/inference_cache.py:216-223 | reclaimable bytes are those of single-link inodes of disposable namespaces, each once |
| CacheInventory.ReclaimableWithin | lib/workstation/inference_cache.py:216-223 | reclaimable never exceeds physical |
| CacheInventory.KeptForSharing | lib/workstation/inference_cache.py:216-223 | a namespace is kept exactly when it first meets an inode with other links and some bytes |
| CacheInventory.ReclaimableDependsOnOrder | lib/workstation/inference_cache.py:216-223 | two namespaces whose reclaimable bytes change with their order |
| CacheOrder.RowOrderFreeWhen | lib/workstation/inference_cache.py:216-223 | a namespace reclaims the same wherever it stands exactly when it does not swing |
| CacheOrder.ReclaimableOrderFree | lib/workstation/inference_cache.py:216-223 | where no namespace swings the reclaimable total is the same in every order |
| CacheOrder.NothingSharedNoneSwings | lib/workstation/inference_cache.py:216-223 | none swings where no hard-linked content lies in two namespaces |
| CacheOrder.OneSwings | lib/workstation/inference_cache.py:216-223 | one namespace that swings alone changes the total by its own bytes |
| CacheOrder.SwingsCanBalance | lib/workstation/inference_cache.py:216-223 | two namespaces that swing can leave the total the same |
| CacheTrades.ReclaimableOrderFreeWhen | lib/workstation/inference_cache.py:216-223 | the reclaimable total is the same in every order exactly when any two namespaces gain as much from each other |
| CacheInventory.BlockedWhen | lib/workstation/inference_cache.py:264-285 | a plan is blocked exactly when free and disposable bytes fall short of the reserve |
| CacheInventory.MakePlan | lib/workstation/inference_cache.py:264-285 | the plan lists exactly the disposable rows with bytes of their own, and is blocked as specified |
| Extents.Sweep | lib/workstation/model_readiness.py:196-202 | the sweep accepts exactly chains of extents from zero to the end |
| Extents.SweepMeans | lib/workstation/model_readiness.py:196-202 | the sorted sweep accepts exactly tilings in which no empty extent lies strictly inside another |
| Extents.EmptyInsideIsRefused | lib/workstation/model_readiness.py:196-202 | a tiling with an inner empty tensor is refused |
| Tensors.ScanEntries | lib/workstation/model_readiness.py:179-195 | the header loop records exactly new, well-described tensors |
| Tensors.ReadEntry | lib/workstation/model_readiness.py:179-193 | an entry is well described exactly when its bytes are the product of its shape times the width of its type |
| Tensors.ScanShard | lib/workstation/model_readiness.py:164-202 | a shard is accepted exactly when its header is sound, its extents tile it and its names are new |
| Tensors.ScanAll | lib/workstation/model_readiness.py:164-203 | all shards are accepted, in any order, exactly when each is sound and no tensor is in two |
| Tensors.Inventory | lib/workstation/model_readiness.py:140-206 | a checkpoint is accepted exactly when its shards are sound and the index names for every tensor the shard that holds it |
| Tensors.AcceptedByte | lib/workstation/model_readiness.py:196-202 | every data byte lies in exactly one tensor |
| Tensors.AcceptedSize | lib/workstation/model_readiness.py:191-202 | tensor bytes, header and length prefix make up the file |
| StreamTiming.Stream | lib/workstation/serving.py:101-155 | a stream is accepted exactly when sound chunks reach the budget before the end marker, and reports the summary of its arrivals |
| StreamTiming.Absorb | lib/workstation/serving.py:112-135 | one line before the end marker is counted, or refuses the stream when it is an error, an abort or takes tokens back |
| StreamTiming.ReportAccounts | lib/workstation/serving.py:136-155 | tokens and time are conserved, and tpot is the weighted mean between any bounds of the gaps |
| ServingLoop.Measure | lib/workstation/serving.py:277-297 | the nested loops run the planned batches and send every cold variant exactly once, in order, never running out |
| ServingLoop.PassesAlternate | lib/workstation/serving.py:277-283 | every other pass runs the levels backwards |
| ServingLoop.PlanNeeds | lib/workstation/serving.py:277-283 | the plan sends exactly the number of requests the workload declares |
| ServingRuns.CheckRuns | lib/workstation/serving_memory.py:232-254 | runs are accepted exactly when each is sound and their cases are the expected ones, each once |
| ServingRuns.OneRunEach | lib/workstation/serving_memory.py:232-254 | an accepted result has one run a case and nothing else |
| MemoryPlan.Observe | lib/workstation/serving_memory.py:139-202 | a window is accepted exactly when samples and their succession hold, and is summarised by its extremes |
| MemoryPlan.PeakIsLast | lib/workstation/serving_memory.py:180-202 | the lifetime peak is the last one read and bounds every sample |
| MemoryPlan.ObserveAll | lib/workstation/serving_memory.py:287-352 | observations are accepted exactly when each holds, pods differ, and two cold and two warm ones exist within twenty |
| MemoryPlan.Resize | lib/workstation/serving_memory.py:353-360 | a size is proposed exactly when it covers the evidence, is below the baseline and fits the host |
| MemoryPlan.Plan | lib/workstation/serving_memory.py:257-360 | a plan is made exactly when all observations are accepted and the size for the highest peak fits |
| MemoryPlan.ProposedMeans | lib/workstation/serving_memory.py:355-355 | the smallest candidate is the next multiple of 256 MiB at or above the need |
| MemoryPlan.CandidateCovers | lib/workstation/serving_memory.py:353-360 | an accepted candidate covers every window's peak, the shared-memory ceiling and the larger headroom |
| MemoryPatch.PlanRollsBack | lib/workstation/serving_memory.py:361-378 | patch then rollback restores the deployment exactly, and the patch refuses any other specification |
| MemoryPatch.CandidateAsks | lib/workstation/serving_memory.py:361-363 | the candidate requests and limits exactly the selected size |
| Patches.PatchApplies | lib/workstation/serving_memory.py:365-367 | a test-and-replace patch applies exactly to documents that hold what it tests |
| Patches.RollbackRestores | lib/workstation/serving_memory.py:365-367 | the two patches made from two values are inverse |
| PatchMeaning.RollbackAlike | lib/workstation/serving_memory.py:365-367 | on a value equal to the tested one, patch and rollback leave an equal value, and the document itself exactly when the part was spelled as planned |
| PatchMeaning.PlanRollsBackAlike | lib/workstation/serving_memory.py:361-378 | what patch and rollback leave of a live specification equal to the planned one |

## Left out

- Descriptors, links, modes, ownership, `fsync`, HTTP: only atomic create-once publication, atomic replacement and mutual exclusion are kept.
- SHA-256, JSON text, zlib, gzip and tar: injective or inverse by assumption; the JSON parser of the coding evaluation is a parameter.
- Floating-point rounding, and `exp`, `log` and `sqrt`: exact reals, powers and roots instead. Non-finite numbers are absent values.
- kubectl, K3s, Restic, systemd and pg_dump beyond abstract steps.
- Size caps on encoded records (protocol pairs, menu assets, inventories, plans): each is one more refusal on an encoding this model does not have.
- Pilot: releasing the lock of `run` and the end of its process are one step, so a daemon handler that would still save in between is not modelled.
- Backup: loose pods, deployments that others delete, the re-check of volumes, and the ownership walk of the gaming writers; the plan's writers are given.
- Verdicts.PairedComparison: does not model the sorting and de-duplication of paired reasons, which are a concatenation here; the verdict reads only which reasons occur.
- OwnerRun: the read of the candidate report is an accepted or refused answer of the turn; what it checks is the subject of `MenuReport.MenuReportAccepted`.
- Menu: request identifiers, asset paths and the re-packing of assets; what a request's body and answer must contain is one accepted flag a corpus row.
- MenuProfile: the paths, assets and packed encodings of the renumbered rows.
- Arms: `_quality`, and the joins of HTTP rows with native answers, are one flag a row; the identity fields copied from binding to series are kept.
- Arms.ScoreArm: does not model the throughput quotient of tokens by seconds, only the two sums.
- Decision: retained quality runs and their numerical comparison are the parameter `matched`; the lists a report prints beside its gates are kept only where an outcome reads them.
- Inspection: which of its reasons makes serving metrics incomplete, and the re-check of an experimental KV descriptor by a selection.
- CacheInventory: the registry file, its field checks and the private output directory.
- Tensors.Inventory: does not model the JSON of headers and index; duplicate member names and non-object headers are an absent header.
- StreamTiming.Stream: does not model the total rate, a division by the elapsed time, nor cached-token reports.
- ServingLoop.Measure: does not model the concurrent execution of a batch, whose requests are values here, nor the sampling beside it.
- MemoryPlan: identity, image, device, coverage and provenance checks of an observation are one flag; `check_runs` is modelled in `ServingRuns`.
- GEMM, graph, kernel and owner field-equality validators, packaging, rendering, telemetry, sensors, command lines, dashboards and SDK adapters: many conjuncts or plumbing with little state or arithmetic.
