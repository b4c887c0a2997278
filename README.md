# AgroSubsidyAI core in Dafny

AgroSubsidyAI pays crop subsidies to registered farmers when a weather oracle
records a disaster in their district. This project models its core:

- the autonomous agent (`frontend/agents/src/AgentManager.js`). It keeps a
  bounded log and a block cursor. It polls the weather oracle for new events.
  For every farmer of an event's district it evaluates eligibility with the
  rules engine and writes the decision on-chain or simulates the write. It
  pays an eligible farmer once per proof hash and summarises each event;
- its configuration (`frontend/agents/src/config.js`) and its `/logs` query;
- the browser store of registered farmers (`frontend/src/lib/store.ts`);
- the pure parts of the autonomous workflow screen
  (`frontend/src/components/AutonomousWorkflow.tsx`): form validation, the
  disaster-type mapping and label, the farmer list filter, the statistics, the
  progress steps and `resetWorkflow`;
- the geocoding route's table fallback (`frontend/src/app/api/ai/geocode/route.ts`);
- the scripted demonstration (`frontend/src/components/AIDemoSimulation.tsx`).

Parts that mutate state are Dafny classes with `modifies` clauses:
- the agent (`SubsidyAgent.SubsidyAgentManager`), its log buffer, contract
  bindings and random source (`AgentRuntime.Services`, `AgentLog.LogBuffer`,
  `Ledger.Gateway`, `AgentRuntime.Entropy`);
- the store (`Store.WorkflowStore`);
- the workflow screen (`Workflow.AutonomousWorkflow`);
- the demonstration (`Demo.DemoSimulation`).

Each method is proved against a specification function. The properties are
proved as lemmas about those functions. In the agent's functions, a `World`
holds four things: the log lines written, the contract calls made, and how
many random bytes and random numbers have been drawn. `Answers` is an oracle
that fixes what the chain replies to each call, given the calls made before
it.

Modules:
- `Wrappers`: Result, Option and Outcome types;
- `Seqs`: sequence helpers (the last n elements, filtering);
- `Text`: JavaScript string built-ins used by the core;
- `Config`;
- `AgentLog`;
- `Ledger`;
- `AgentRuntime`;
- `VirtualTx`: simulated transaction hashes and confirmations;
- `Pipeline`: eligibility, payment and summary of one farmer or event;
- `SubsidyAgent`: the agent class and its event loop;
- `Store`;
- `Workflow`;
- `Geocode`;
- `Demo`.

## Model

| member | source | states |
|---|---|---|
| Config.EnvOr | frontend/agents/src/config.js:10 | the variable when it is set and non-empty, otherwise the fallback |
| Config.TrueFlagIsExact | frontend/agents/src/config.js:32-33 | a value passes `/^true$/i` exactly when it has four characters that spell "true" in any case |
| Config.ParseNumber | frontend/agents/src/config.js:30-31 | `Number` of a string of decimal digits is that number; any other text is not converted |
| Config.EnvNumberOr | frontend/agents/src/config.js:30-31 | the numeric variable, or the fallback when the variable is unset or empty |
| Config.LoadChainConfig | frontend/agents/src/config.js:5-11 | the network is sepolia with chain id 11155111; the RPC URL is `SEPOLIA_RPC_URL` or the placeholder |
| Config.LoadContractAddresses | frontend/agents/src/config.js:13-26 | each of the four addresses is its variable when that is non-empty, otherwise its deployed fallback |
| Config.UnsetAddressesFallBack | frontend/agents/src/config.js:13-26 | with no address variables set, the four deployed addresses are used |
| Config.LoadRuntimeConfig | frontend/agents/src/config.js:28-36 | the scheme id, both API keys and the agent key are their variable when it is set and non-empty, else "scheme-001" or empty; the poll interval and the port are their variable read as a number, else 15000 and 4001; each switch is on exactly when its variable is "true" in any case |
| Config.EmptyEnvironmentSimulates | frontend/agents/src/config.js:32-35 | with an empty environment, eligibility writes and payments are both simulated |
| Config.CropName | frontend/agents/src/AgentManager.js:104-106 | the crop name at indexes 0..6 of the table, otherwise UNKNOWN |
| Config.CropNameKnownIffInRange | frontend/agents/src/config.js:38-46 | CropName is UNKNOWN exactly when the index is outside 0..6 |
| AgentLog.LogBuffer.constructor | frontend/agents/src/AgentManager.js:21-22 | an empty buffer |
| AgentLog.LogBuffer.AddLog | frontend/agents/src/AgentManager.js:24-33 | push the entry and shift the oldest once over 1000, so the buffer is always the last 1000 entries of everything logged |
| AgentLog.Detections | frontend/agents/src/AgentManager.js:346 | its own contract only bounds the ids by the lines; what they are (one per weather-event line, in order) is stated by AgentLog.DetectionsAppend, AgentLog.QuietHasNone and SubsidyAgent.HandleEventsDetections |
| AgentLog.DetectionsAppend | frontend/agents/src/AgentManager.js:346 | the detections of two logs written one after the other are concatenated |
| AgentLog.QuietHasNone | frontend/agents/src/AgentManager.js:346 | logs with no event or summary lines have no detections and no summaries |
| AgentLog.SliceFrom | frontend/agents/src/AgentManager.js:410 | `slice(start)` with JavaScript's negative start and clamping |
| AgentLog.EffectiveLimit | frontend/agents/src/AgentManager.js:408 | 200 for an absent or non-numeric limit, the limit itself within 0..1000, 1000 above that, 0 for zero or below |
| AgentLog.QueryLogsAsWritten | frontend/agents/src/AgentManager.js:406-413 | the handler as written: never more lines than the buffer; without `since`, always a suffix of the buffer, the newest 200 when no limit is given and the whole buffer for a non-numeric limit |
| AgentLog.QueryLogs | frontend/agents/src/AgentManager.js:406-413 | the corrected handler: without `since`, the newest `EffectiveLimit` lines as a suffix of the buffer |
| AgentLog.QuerySinceExact | frontend/agents/src/AgentManager.js:407-411 | with a non-zero `since`, exactly the lines newer than `since`, in order, each as many times as the buffer holds it |
| AgentLog.QueryLimitNewest | frontend/agents/src/AgentManager.js:408-411 | without `since`, the newest `EffectiveLimit` lines, as a suffix of the buffer |
| AgentLog.QueryAgreesOnPositiveLimit | frontend/agents/src/AgentManager.js:406-413 | the handler as written and the corrected one agree whenever the limit is positive or absent |
| AgentLog.LimitZeroReturnsEverything | frontend/agents/src/AgentManager.js:408-411 | as written, `limit=0` returns the whole buffer |
| AgentLog.NegativeLimitDropsOldest | frontend/agents/src/AgentManager.js:408-411 | as written, `limit=-k` drops the oldest k lines and returns all the rest |
| AgentLog.LimitZeroExample | frontend/agents/src/AgentManager.js:408-411 | a two-line buffer queried with `limit=0`: as written gives two lines, corrected gives none |
| AgentLog.NotANumberLimitReturnsEverything | frontend/agents/src/AgentManager.js:408-411 | as written, a non-numeric limit returns the whole buffer, where the corrected handler returns the newest 200 lines; the two differ on any buffer longer than 200 |
| Ledger.Gateway.constructor | frontend/agents/src/AgentManager.js:44-78 | contract bindings with no calls made yet |
| Ledger.Gateway.BlockNumber | frontend/agents/src/AgentManager.js:282 | records the call and returns the chain's answer for it |
| Ledger.Gateway.Logs | frontend/agents/src/AgentManager.js:319-325 | records the event-log query for the block range and returns the answer |
| Ledger.Gateway.AllEventIds | frontend/agents/src/AgentManager.js:299 | records the call and returns the answer |
| Ledger.Gateway.WeatherEventOf | frontend/agents/src/AgentManager.js:305 | records the call and returns the answer |
| Ledger.Gateway.FarmersByDistrict | frontend/agents/src/AgentManager.js:351 | records the call and returns the answer |
| Ledger.Gateway.FarmerProfile | frontend/agents/src/AgentManager.js:153 | records the call and returns the answer |
| Ledger.Gateway.Preview | frontend/agents/src/AgentManager.js:173-177 | records the static eligibility check and returns the answer |
| Ledger.Gateway.SubmitEligibility | frontend/agents/src/AgentManager.js:197-201 | records the signed eligibility call and returns its transaction |
| Ledger.Gateway.WaitForEligibility | frontend/agents/src/AgentManager.js:206 | records the wait for one block and returns the answer |
| Ledger.Gateway.LatestDecision | frontend/agents/src/AgentManager.js:207 | records the call and returns the stored decision |
| Ledger.Gateway.PaymentExecuted | frontend/agents/src/AgentManager.js:234 | records the idempotency check and returns the answer |
| Ledger.Gateway.ExecutePayment | frontend/agents/src/AgentManager.js:244-248 | records the signed payment and returns its transaction |
| Ledger.Gateway.WaitForPayment | frontend/agents/src/AgentManager.js:253 | records the wait for one block and returns the answer |
| AgentRuntime.Entropy.RandomBytes | frontend/agents/src/AgentManager.js:88 | the next 32 random bytes of the stream; one more byte draw counted |
| AgentRuntime.Entropy.Random | frontend/agents/src/AgentManager.js:87 | the next `Math.random()` value of the stream; one more draw counted |
| AgentRuntime.Services.constructor | frontend/agents/src/AgentManager.js:21-86 | the process state at start-up: nothing logged, no call made, nothing drawn |
| AgentRuntime.Services.AddLog | frontend/agents/src/AgentManager.js:24-33 | the world gains exactly one line, stamped with the clock reading |
| AgentRuntime.EmitAfter | frontend/agents/src/AgentManager.js:24-33 | logging one more line appends it to the lines written since any earlier world |
| VirtualTx.HexOfBytesRoundTrip | frontend/agents/src/AgentManager.js:88 | reading the hex digits of bytes back gives the bytes |
| VirtualTx.FakeTx | frontend/agents/src/AgentManager.js:88 | a simulated hash is 66 characters long: "0x" and 64 lower-case hex digits |
| VirtualTx.FakeTxRecoversBytes | frontend/agents/src/AgentManager.js:88 | the random bytes can be read back from the hash |
| VirtualTx.FakeTxInjective | frontend/agents/src/AgentManager.js:88 | different random bytes give different hashes |
| VirtualTx.GasUsed | frontend/agents/src/AgentManager.js:91 | the simulated gas lies in 45000..129999 |
| VirtualTx.Confirmations | frontend/agents/src/AgentManager.js:97 | the number of confirmations lies in 1..3 |
| VirtualTx.ConfirmLoopExtends | frontend/agents/src/AgentManager.js:98-101 | the loop only writes lines, one per confirmation, and draws one pause after each |
| VirtualTx.ConfirmLoopLines | frontend/agents/src/AgentManager.js:98-101 | the loop's lines are confirmations i..n, in order |
| VirtualTx.ConfirmVirtualTxSpec | frontend/agents/src/AgentManager.js:90-102 | the mined line and one to three confirmations: 2 to 4 lines and no contract call |
| VirtualTx.ConfirmVirtualTxLines | frontend/agents/src/AgentManager.js:90-102 | the mined line with the first drawn gas, then confirmations numbered from 1, as many as the third draw says |
| VirtualTx.NewFakeTx | frontend/agents/src/AgentManager.js:88 | returns FakeTx of the next 32 random bytes and draws nothing else |
| VirtualTx.LogConfirmations | frontend/agents/src/AgentManager.js:98-101 | the loop leaves the world that ConfirmLoop specifies |
| VirtualTx.ConfirmVirtualTx | frontend/agents/src/AgentManager.js:90-102 | leaves the world that ConfirmVirtualTxSpec specifies |
| Pipeline.ReasonOrDefault | frontend/agents/src/AgentManager.js:187-190 | the reason when it is non-empty, otherwise "rule mismatch" |
| Pipeline.SimulateTxSpec | frontend/agents/src/AgentManager.js:218-225 | a simulated approval or payout draws one random hash, announces it and confirms it: 3 to 5 lines and no contract call |
| Pipeline.SimulateTxLastLine | frontend/agents/src/AgentManager.js:218-225 | the last line of a simulated transaction is its mined line or one of its confirmations |
| Pipeline.WriteEligibilityOutcome | frontend/agents/src/AgentManager.js:194-217 | a write ends in an error line with the preview kept, or in a `decision stored` line for the decision read back after the send was mined |
| Pipeline.EvaluateThrowsOnlyOnProfileRead | frontend/agents/src/AgentManager.js:152-228 | an evaluation throws only when the profile read fails, and then nothing else has happened |
| Pipeline.EvaluateSkipsInactive | frontend/agents/src/AgentManager.js:163-169 | an inactive profile gives one warn line, no decision and no call to the rules engine |
| Pipeline.EvaluateNoDecisionIff | frontend/agents/src/AgentManager.js:163-184 | no decision exactly when the profile is inactive or the preview failed |
| Pipeline.EvaluatePreviewFailed | frontend/agents/src/AgentManager.js:171-184 | a failed preview of an active profile gives no decision after exactly the profile and preview calls, with one warning naming the farmer and the error |
| Pipeline.EvaluateIneligiblePreview | frontend/agents/src/AgentManager.js:186-192 | an ineligible preview is the decision; it is logged with its reason and nothing is written |
| Pipeline.EvaluateEligibleNeedsEligiblePreview | frontend/agents/src/AgentManager.js:171-192 | an eligible result needs an active profile and an eligible preview; short of that there is no write and no random hash |
| Pipeline.EvaluateWritesInWriteMode | frontend/agents/src/AgentManager.js:194-217 | with a signer and auto-execution on, the third call submits the decision; the result is the preview or the decision read back |
| Pipeline.EvaluateSimulatesOtherwise | frontend/agents/src/AgentManager.js:218-225 | otherwise an eligible preview is approved with one simulated transaction and kept |
| Pipeline.SettledPersists | frontend/agents/src/AgentManager.js:234 | a settled payment stays settled when more calls follow |
| Pipeline.SettledAfterPayment | frontend/agents/src/AgentManager.js:244-253 | a payment call followed by a successful wait for its transaction settles the payment |
| Pipeline.ExecutePaymentOutcome | frontend/agents/src/AgentManager.js:243-262 | a failed send or wait ends in an error line naming the farmer; otherwise a `subsidy sent` line, and the payment is settled |
| Pipeline.AttemptThrowsOnlyOnCheck | frontend/agents/src/AgentManager.js:230-269 | an attempt throws only when the idempotency check fails, and then only the check has happened |
| Pipeline.AttemptSkipsPaidProof | frontend/agents/src/AgentManager.js:234-237 | a proof reported as paid gets exactly one info line and no payment, real or simulated |
| Pipeline.PaymentSentIff | frontend/agents/src/AgentManager.js:230-262 | a payment call for this decision is made exactly when the result is eligible, the proof is unpaid and the agent signs with auto-payments on; its failure is logged, not thrown |
| Pipeline.VirtualPayoutWhenNotSigning | frontend/agents/src/AgentManager.js:263-268 | without on-chain payments, an unpaid eligible proof gets one simulated payout, announced |
| Pipeline.UnpaidSubsidySent | frontend/agents/src/AgentManager.js:243-262 | an unpaid result's attempt ends in `subsidy sent` only when the payment was executed and settled |
| Pipeline.SubsidySentMeansSettled | frontend/agents/src/AgentManager.js:230-269 | an attempt that ends in `subsidy sent` has settled its payment |
| Pipeline.PaymentIsIdempotent | frontend/agents/src/AgentManager.js:230-269 | once a payment is settled, a later attempt for the same decision only logs that the proof was paid |
| Pipeline.SummaryRequestOf | frontend/agents/src/AgentManager.js:113-135 | the request describes the event and has one row per farmer result, in order |
| Pipeline.SummarizeOutcome | frontend/agents/src/AgentManager.js:108-150 | without a key, the template for the district and farmer count; with a key, the model's reply trimmed; only a failed request writes a line (a warning), and the fallback names the farmer count |
| Pipeline.SimulateTx | frontend/agents/src/AgentManager.js:218-225 | leaves the world that SimulateTxSpec specifies |
| Pipeline.WriteEligibility | frontend/agents/src/AgentManager.js:194-217 | returns and leaves what WriteEligibilitySpec specifies |
| Pipeline.EvaluateFarmerEligibility | frontend/agents/src/AgentManager.js:152-228 | returns and leaves what EvaluateSpec specifies |
| Pipeline.ExecutePayment | frontend/agents/src/AgentManager.js:243-262 | leaves the world that ExecutePaymentSpec specifies |
| Pipeline.AttemptPayment | frontend/agents/src/AgentManager.js:230-269 | returns and leaves what AttemptPaymentSpec specifies |
| Pipeline.Summarize | frontend/agents/src/AgentManager.js:108-150 | returns and leaves what SummarizeSpec specifies |
| SubsidyAgent.FarmerStepPays | frontend/agents/src/AgentManager.js:360-369 | one farmer-loop iteration pays only this farmer, and only its eligible result's proof hash and amount |
| SubsidyAgent.EvaluateFarmersResults | frontend/agents/src/AgentManager.js:358-370 | a completed farmer loop returns one result per farmer, in order |
| SubsidyAgent.EvaluateFarmersPaysAmong | frontend/agents/src/AgentManager.js:358-370 | whatever its outcome, the farmer loop pays only farmers it was given |
| SubsidyAgent.EvaluateFarmersPaysOnlyEligible | frontend/agents/src/AgentManager.js:358-370 | every payment the loop makes pays an eligible result it returns |
| SubsidyAgent.HandleFarmersControlLines | frontend/agents/src/AgentManager.js:358-373 | the farmer loop and its summary write no weather-event line, and one AI-summary line exactly when they complete |
| SubsidyAgent.HandleFarmersSummary | frontend/agents/src/AgentManager.js:372-373 | a completed run ends with its AI-summary line; without a key that summary is the district-and-count template |
| SubsidyAgent.HandleThrowsOnFarmersRead | frontend/agents/src/AgentManager.js:346-351 | a failed district read throws right after the weather-event line |
| SubsidyAgent.HandleEmptyDistrict | frontend/agents/src/AgentManager.js:352-355 | a district without farmers gives one warn line and nothing else |
| SubsidyAgent.HandleWithFarmers | frontend/agents/src/AgentManager.js:345-374 | with farmers in the district: the two opening lines, then the farmer loop and the summary |
| SubsidyAgent.HandleDistrictWithFarmers | frontend/agents/src/AgentManager.js:356-373 | the second line announces how many farmers are evaluated; a completed run ends with the AI-summary line |
| SubsidyAgent.HandleControlLines | frontend/agents/src/AgentManager.js:345-374 | an event always gives exactly one weather-event line; one AI-summary line when it completes with farmers, otherwise none |
| SubsidyAgent.HandlePaysDistrictOnly | frontend/agents/src/AgentManager.js:345-374 | every payment made while handling an event pays a farmer registered in the event's district |
| SubsidyAgent.HandleEventsDetections | frontend/agents/src/AgentManager.js:333-340 | a poll's events give one weather-event line each, in order; all of them when none threw |
| SubsidyAgent.PollWithoutNewBlocks | frontend/agents/src/AgentManager.js:312-315 | a failed head read throws with nothing else done; a head not past the cursor does nothing |
| SubsidyAgent.PollFetchesRange | frontend/agents/src/AgentManager.js:316-342 | a head past the cursor fetches exactly the blocks after the cursor up to the head; on success the cursor is the head and every event was handled |
| SubsidyAgent.ConsecutivePollsAreDisjoint | frontend/agents/src/AgentManager.js:316-342 | two polls in a row never fetch the same block: the second range starts just past the first (a corollary of PollFetchesRange) |
| SubsidyAgent.PollCursorOnlyAdvances | frontend/agents/src/AgentManager.js:312-343 | the cursor never moves back; it moves, to the head, exactly when the poll read a newer head and completed |
| SubsidyAgent.HandleLatestDetections | frontend/agents/src/AgentManager.js:304-309 | the newest event is handled when it can be read (one weather-event line), otherwise none |
| SubsidyAgent.ProcessLatestWithoutEvents | frontend/agents/src/AgentManager.js:297-303 | without a readable, non-empty id list: one line and no other call |
| SubsidyAgent.ProcessLatestHandlesNewest | frontend/agents/src/AgentManager.js:297-310 | only the last event id is fetched, and at most that one event is handled |
| SubsidyAgent.StartOutcome | frontend/agents/src/AgentManager.js:277-291 | start throws exactly when the head read fails, and then keeps the cursor; otherwise the cursor is the head and the catch-up handles at most one event |
| SubsidyAgent.TickOutcome | frontend/agents/src/AgentManager.js:284-290 | a tick is its poll, plus a `polling error` line and an unmoved cursor when the poll threw |
| SubsidyAgent.OrString | frontend/agents/src/AgentManager.js:377-383 | the value when present and non-empty, otherwise the fallback |
| SubsidyAgent.SimulatedEvent | frontend/agents/src/AgentManager.js:376-385 | the event built from a payload: id, district, readings and alert flags from the payload or their defaults, and the time in seconds |
| SubsidyAgent.EmptyPayloadDefaults | frontend/agents/src/AgentManager.js:377-384 | an empty payload gives a drought in DemoDistrict at 30.00 degrees with 5.00 mm of rain, named after the clock |
| SubsidyAgent.SimulateHandlesEvent | frontend/agents/src/AgentManager.js:376-388 | a simulated event is handled like an oracle event and gives exactly one weather-event line, for its own id |
| SubsidyAgent.SubsidyAgentManager.constructor | frontend/agents/src/AgentManager.js:272-275 | the agent starts with cursor 0 |
| SubsidyAgent.SubsidyAgentManager.FarmerStep | frontend/agents/src/AgentManager.js:360-369 | returns and leaves what FarmerStepSpec specifies |
| SubsidyAgent.SubsidyAgentManager.EvaluateFarmers | frontend/agents/src/AgentManager.js:358-370 | the loop returns and leaves what EvaluateFarmersSpec specifies |
| SubsidyAgent.SubsidyAgentManager.HandleFarmers | frontend/agents/src/AgentManager.js:358-373 | returns and leaves what HandleFarmersSpec specifies |
| SubsidyAgent.SubsidyAgentManager.HandleWeatherEvent | frontend/agents/src/AgentManager.js:345-374 | returns and leaves what HandleWeatherEventSpec specifies |
| SubsidyAgent.SubsidyAgentManager.HandleEvents | frontend/agents/src/AgentManager.js:333-340 | the loop returns and leaves what HandleEventsSpec specifies |
| SubsidyAgent.SubsidyAgentManager.PollWeatherEvents | frontend/agents/src/AgentManager.js:312-343 | the outcome, world and cursor are those PollSpec specifies |
| SubsidyAgent.SubsidyAgentManager.ProcessLatestHistoricalEvent | frontend/agents/src/AgentManager.js:297-310 | leaves the world that ProcessLatestSpec specifies |
| SubsidyAgent.SubsidyAgentManager.Start | frontend/agents/src/AgentManager.js:277-291 | the outcome, world and cursor are those StartSpec specifies |
| SubsidyAgent.SubsidyAgentManager.Tick | frontend/agents/src/AgentManager.js:284-290 | the world and cursor are those TickSpec specifies |
| SubsidyAgent.SubsidyAgentManager.SimulateEvent | frontend/agents/src/AgentManager.js:376-388 | returns and leaves what SimulateSpec specifies |
| Store.Merge | frontend/src/lib/store.ts:47 | every key of the update overrides the farmer's value; the farmer is unchanged exactly when no key differs |
| Store.MergeSettles | frontend/src/lib/store.ts:41-47 | after a merge nothing in the same update differs, so merging again changes nothing |
| Store.RegistrationKeepsIdentity | frontend/src/components/AutonomousWorkflow.tsx:310 | marking a farmer registered keeps its wallet and registration fields |
| Store.WithFarmerAdded | frontend/src/lib/store.ts:31-35 | the farmer goes to the end of the list and becomes current; the nonce is kept |
| Store.ReplaceByWallet | frontend/src/lib/store.ts:50 | each entry with the updated wallet is replaced by the updated farmer, and every other entry is kept |
| Store.ReplaceKeepsWallets | frontend/src/lib/store.ts:50 | replacing keeps the wallet column, and so the list's length and order |
| Store.ReplaceIdempotent | frontend/src/lib/store.ts:50 | replacing twice with the same farmer is replacing once |
| Store.WithFarmerUpdated | frontend/src/lib/store.ts:36-52 | no current farmer or no changed key: the state itself; otherwise the merge is current and replaces every entry with its wallet |
| Store.UpdateIdempotent | frontend/src/lib/store.ts:36-52 | applying the same update twice is applying it once |
| Store.UpdateAfterAdd | frontend/src/lib/store.ts:31-52 | after adding a farmer, an update replaces its new list entry |
| Store.WithCurrentFarmer | frontend/src/lib/store.ts:53 | only the current farmer changes |
| Store.WithNonceIncremented | frontend/src/lib/store.ts:54-61 | returns the old nonce plus one, stores it, and changes nothing else |
| Store.NoncesIncrease | frontend/src/lib/store.ts:54-61 | other store operations between two increments never lower the nonce, so the second increment returns more |
| Store.IncrementsStrictlyIncrease | frontend/src/lib/store.ts:54-61 | k increments return strictly increasing values |
| Store.WorkflowStore.constructor | frontend/src/lib/store.ts:27-30 | no farmers, no current farmer, nonce 0 |
| Store.WorkflowStore.AddFarmer | frontend/src/lib/store.ts:31-35 | the new state is WithFarmerAdded of the old |
| Store.WorkflowStore.UpdateFarmer | frontend/src/lib/store.ts:36-52 | the new state is WithFarmerUpdated of the old |
| Store.WorkflowStore.SetCurrentFarmer | frontend/src/lib/store.ts:53 | the new state is WithCurrentFarmer of the old |
| Store.WorkflowStore.IncrementSchemeNonce | frontend/src/lib/store.ts:54-61 | returns and stores the old nonce plus one |
| Store.WorkflowStore.Reset | frontend/src/lib/store.ts:62-67 | back to the initial state |
| Text.TrimEmptyIffBlank | frontend/src/components/AutonomousWorkflow.tsx:475-485 | `trim()` gives the empty string exactly when the text is all whitespace |
| Text.StripWhitespace | frontend/src/app/api/ai/geocode/route.ts:112 | `replace(/\s+/g, "")`: no whitespace is left, the result is never longer, and a blank text becomes empty |
| Text.ToLower | frontend/src/app/api/ai/geocode/route.ts:112-113 | `toLowerCase()` keeps the length and lower-cases each letter A to Z |
| Workflow.FilledIffNotBlank | frontend/src/components/AutonomousWorkflow.tsx:475-485 | a required field passes exactly when it is not made only of whitespace |
| Workflow.CollectFormErrors | frontend/src/components/AutonomousWorkflow.tsx:468-490 | the dictionary holds a key for each failing check, with that check's message, and no other key |
| Workflow.CheckRuns | frontend/src/components/AutonomousWorkflow.tsx:471-489 | running one more check adds its key exactly when that check fails |
| Workflow.ValidIffNoCheckFails | frontend/src/components/AutonomousWorkflow.tsx:471-489 | the form is valid exactly when none of the five checks fails |
| Workflow.NoErrorsIffValid | frontend/src/components/AutonomousWorkflow.tsx:491-492 | the dictionary is empty exactly when every check passes |
| Workflow.InitialFormFailsEveryCheck | frontend/src/components/AutonomousWorkflow.tsx:72-81 | the initial form fails all five checks |
| Workflow.AlertsFor | frontend/src/components/AutonomousWorkflow.tsx:588-598 | the drought flag is on for the five drought-like types, the flood flag for the six flood-like ones |
| Workflow.AlertsExclusive | frontend/src/components/AutonomousWorkflow.tsx:588-598 | no type sets both flags |
| Workflow.DisasterLabel | frontend/src/components/AutonomousWorkflow.tsx:757-763 | the recorded type when there is one; otherwise MULTIPLE for both flags, DROUGHT or FLOOD for that flag alone, NONE for neither |
| Workflow.LabelOfMappedFlags | frontend/src/components/AutonomousWorkflow.tsx:588-598 | labelling a mapped type's flags: never MULTIPLE; DROUGHT exactly for drought-like types, FLOOD exactly for flood-like ones, NONE otherwise |
| Workflow.FilteredFarmers | frontend/src/components/AutonomousWorkflow.tsx:893-905 | each farmer matching the search and the status filter as many times as it is listed, and no other; never longer than the list |
| Workflow.FilteredIsSubList | frontend/src/components/AutonomousWorkflow.tsx:893-905 | the shown list keeps the registry's order and every matching farmer, each as often as it is listed |
| Workflow.EmptySearchShowsAll | frontend/src/components/AutonomousWorkflow.tsx:893-905 | an empty search with the "all" filter shows every farmer |
| Workflow.StatusFiltersPartition | frontend/src/components/AutonomousWorkflow.tsx:900-903 | the "eligible" and "ineligible" lists split the search matches by registration, and add up to the "all" list |
| Workflow.StatsOf | frontend/src/components/AutonomousWorkflow.tsx:908-913 | eligible ≤ registered ≤ total, and the payment count as given |
| Workflow.EligibleIsAllOrNothing | frontend/src/components/AutonomousWorkflow.tsx:911 | the eligible count is either every registered farmer or zero |
| Workflow.WorkflowSteps | frontend/src/components/AutonomousWorkflow.tsx:885-889 | the three steps, each completed and active as its phase and flags say |
| Workflow.FirstActive | frontend/src/components/AutonomousWorkflow.tsx:890 | `findIndex`: the first active index, or -1 when none is active |
| Workflow.CurrentStepIndex | frontend/src/components/AutonomousWorkflow.tsx:890 | the first active step, or 0 when none is active |
| Workflow.CurrentStepByPhase | frontend/src/components/AutonomousWorkflow.tsx:885-890 | which step each phase highlights |
| Workflow.AutonomousWorkflow.constructor | frontend/src/components/AutonomousWorkflow.tsx:123-165 | the screen as first shown, with the initial form |
| Workflow.AutonomousWorkflow.ValidateForm | frontend/src/components/AutonomousWorkflow.tsx:468-493 | stores the error dictionary of the form and returns true exactly when the form is valid; every other field and the store are unchanged |
| Workflow.AutonomousWorkflow.ResetWorkflow | frontend/src/components/AutonomousWorkflow.tsx:847-882 | the form, phase, AI state, weather inputs and one-shot flags return to their initial values and the store forgets its current farmer; the rest is kept |
| Geocode.PropertyOf | frontend/src/app/api/ai/geocode/route.ts:103-110 | a table key gives its coordinates, an inherited member name gives that member, anything else is missing |
| Geocode.NotATableKey | frontend/src/app/api/ai/geocode/route.ts:103-110 | a key that differs from every table key in length or first letter is not in the table |
| Geocode.LookupAsWritten | frontend/src/app/api/ai/geocode/route.ts:112-113 | the first truthy value of the stripped key, the lower-cased key and delhi, inherited members included |
| Geocode.LatLonOf | frontend/src/app/api/ai/geocode/route.ts:116-117 | the coordinates of a table entry; nothing for an inherited member |
| Geocode.DistrictCoords | frontend/src/app/api/ai/geocode/route.ts:112-113 | the table entry of the first key that has one, otherwise Delhi |
| Geocode.LowerCaseInheritedKeys | frontend/src/app/api/ai/geocode/route.ts:112-113 | "constructor" and "__proto__" are the only inherited names a lower-cased district can equal |
| Geocode.LookupAgreesWithoutInheritedKeys | frontend/src/app/api/ai/geocode/route.ts:112-113 | when neither key names an inherited member, the lookup as written gives DistrictCoords |
| Geocode.ConstructorDistrictLosesCoordinates | frontend/src/app/api/ai/geocode/route.ts:112-119 | as written, district "Constructor" gets no coordinates |
| Geocode.ProtoDistrictLosesCoordinates | frontend/src/app/api/ai/geocode/route.ts:112-119 | as written, district "__proto__" gets no coordinates |
| Geocode.SpacedUttarkashiResolves | frontend/src/app/api/ai/geocode/route.ts:107-113 | "Uttar Kashi" is found through the whitespace-free key, so the "uttar kashi" entry is never reached |
| Geocode.UttarkashiDistrictResolvesBySecondKey | frontend/src/app/api/ai/geocode/route.ts:109-113 | "Uttarkashi District" is found only through the lower-cased key |
| Geocode.OrUnknown | frontend/src/app/api/ai/geocode/route.ts:10-11 | the value when present and non-empty, otherwise "Unknown" |
| Geocode.NeverMissingNames | frontend/src/app/api/ai/geocode/route.ts:21-26 | the defaulted names are never empty, so the "required" error is never returned |
| Geocode.FallbackResponses | frontend/src/app/api/ai/geocode/route.ts:101-147 | whenever the model's answer is not used, the response has the district's table coordinates and the location "village, district"; it is flagged as a fallback exactly on the error path |
| Geocode.RouteWith | frontend/src/app/api/ai/geocode/route.ts:4-148 | the route for a given table reading: an error exactly for a readable body without the API key, always the 500 one; the fallback flag exactly when the body was unreadable or the model threw; the model's numbers when it gave some, otherwise the table's coordinates of the defaulted district |
| Geocode.GeocodeRouteAsWritten | frontend/src/app/api/ai/geocode/route.ts:4-148 | the route as written: a located answer has both coordinates or neither, and has neither only when a lookup key of the district names an inherited member |
| Geocode.GeocodeRoute | frontend/src/app/api/ai/geocode/route.ts:4-148 | the route with the table lookup as meant: every located answer carries both coordinates |
| Geocode.RouteAgreesWithoutInheritedKeys | frontend/src/app/api/ai/geocode/route.ts:103-147 | when the defaulted district's keys name no inherited member, the route as written answers exactly as GeocodeRoute |
| Geocode.ConstructorRouteLosesCoordinates | frontend/src/app/api/ai/geocode/route.ts:112-124 | as written, district "Constructor" with no usable model answer is answered without latitude and longitude, where GeocodeRoute gives Delhi's |
| Geocode.UnreadableBodyFallsBackToDelhi | frontend/src/app/api/ai/geocode/route.ts:125-147 | an unreadable body falls back to Delhi for "Unknown, Unknown" |
| Demo.InitialSteps | frontend/src/components/AIDemoSimulation.tsx:55-98 | six pending cards with no hash, data or time, each with its first caption |
| Demo.UpdateSteps | frontend/src/components/AIDemoSimulation.tsx:145-151 | only the card at the index changes: it is merged with the update and stamped |
| Demo.UpdateOutsideIsIdentity | frontend/src/components/AIDemoSimulation.tsx:145-151 | an index outside the list changes nothing |
| Demo.UpdatesOfDifferentStepsCommute | frontend/src/components/AIDemoSimulation.tsx:145-151 | updates of two different cards can be applied in either order |
| Demo.UpdateTwice | frontend/src/components/AIDemoSimulation.tsx:145-151 | two updates of one card are their combination, stamped with the later time |
| Demo.ResetSteps | frontend/src/components/AIDemoSimulation.tsx:276-286 | every card pending with no hash, data or time; ids, titles and descriptions kept |
| Demo.ClearForRun | frontend/src/components/AIDemoSimulation.tsx:171 | every card pending with no hash or data; times, ids, titles and descriptions kept |
| Demo.ResetSettles | frontend/src/components/AIDemoSimulation.tsx:276-289 | resetting twice is resetting once, and resetting after clearing is resetting |
| Demo.AppendAgentLog | frontend/src/components/AIDemoSimulation.tsx:153-158 | the feed is the last 20 entries of the old feed plus the new one, which comes last |
| Demo.AppendKeepsRecent | frontend/src/components/AIDemoSimulation.tsx:153-158 | adding to the last 20 entries of a history gives the last 20 entries of the longer history |
| Demo.AppendAllKeepsRecent | frontend/src/components/AIDemoSimulation.tsx:153-158 | after any number of additions, the feed is the 20 most recent entries, in order |
| Demo.RandomHexDigit | frontend/src/components/AIDemoSimulation.tsx:231 | `Math.floor(Math.random() * 16)` is a digit below 16 |
| Demo.ProofHash | frontend/src/components/AIDemoSimulation.tsx:231 | the proof hash is "0x" and 64 hexadecimal digits |
| Demo.ProofHashDigits | frontend/src/components/AIDemoSimulation.tsx:231 | each digit of the hash reads back as the value drawn for it |
| Demo.ScriptCardsFinal | frontend/src/components/AIDemoSimulation.tsx:173-269 | a script touches each of the six cards once in effect: each card gets its own update, stamped with the run's time |
| Demo.DemoFeedKeepsLastTwenty | frontend/src/components/AIDemoSimulation.tsx:162-273 | a run writes 25 lines, so the feed keeps the last 20: it starts at the farmers-found line and ends at the ready line |
| Demo.DemoScriptLines | frontend/src/components/AIDemoSimulation.tsx:162-273 | the lines do not depend on the wallet address or the payment tag |
| Demo.DemoEndsInSuccess | frontend/src/components/AIDemoSimulation.tsx:168-269 | after a run every card is a success stamped with the run's time; only the proof card carries a hash, the proof hash; each card but the last shows its data |
| Demo.DemoSimulation.constructor | frontend/src/components/AIDemoSimulation.tsx:48-98 | not running, step 0, empty feed, the initial cards |
| Demo.DemoSimulation.UpdateStep | frontend/src/components/AIDemoSimulation.tsx:145-151 | the cards become UpdateSteps of the old cards; nothing else changes |
| Demo.DemoSimulation.AddAgentLog | frontend/src/components/AIDemoSimulation.tsx:153-158 | the feed becomes AppendAgentLog of the old feed, and is still the last 20 entries added |
| Demo.DemoSimulation.ResetDemo | frontend/src/components/AIDemoSimulation.tsx:276-289 | reset cards, step 0, not running, empty feed |
| Demo.DemoSimulation.RunScript | frontend/src/components/AIDemoSimulation.tsx:173-273 | every line of the script is added to the feed; the cards end as ScriptCards says; step 5 is highlighted; the run flag is cleared |
| Demo.DemoSimulation.RunDemo | frontend/src/components/AIDemoSimulation.tsx:162-274 | without a connected wallet on Sepolia nothing changes; otherwise the feed holds exactly the script's lines, the cards end as DemoEndsInSuccess says, step 5 is highlighted and the run flag is cleared |

## Left out

- The HTTP server is not modelled: Express, CORS, the `/status` and `/demo` routes, `startServer` and the process-mode switch (`AgentManager.js:390-461` and `480-498`). `/logs` is modelled as a function over the buffer.
- Cron mode (`AgentManager.js:463-478`) is not modelled, because it calls `manager.processLatestOnBoot()`, which the class does not define.
- `setInterval`, `stop` and overlapping ticks are concurrency. `Tick` models one interval callback run on its own.
- Sleeps, pauses and the demo's `simulationSpeed` are not modelled, because they only delay. The random draws behind the agent's pauses are counted, because they use up values of the random stream.
- `Date.now()` is one clock reading `now` per operation. ISO timestamp prefixes and console output are not modelled.
- Log, card and feed texts are datatypes (`Message`, `Line`, `Caption`) that keep each text's variable parts, instead of the rendered strings. Emoji and `toLocaleString` formatting are not modelled.
- Ether amounts are natural numbers in wei: `formatEther` and floating-point readings are not modelled. Coordinates are exact reals.
- AgentLog.QueryLogsAsWritten: `since` and `limit` are read as integers or NaN (`QueryParam`), so fractional values are not modelled; `slice(-2.5)`, for example, truncates its argument to -2.
- Config.ParseNumber: `Number()` is modelled only for decimal digit strings. Any other text is kept unconverted instead of giving NaN, a fraction or an exponent.
- Text.ToLower: only the letters A to Z are lower-cased; the rest of Unicode case mapping is not modelled. Strings are sequences of characters, with no UTF-16 surrogates.
- SubsidyAgent.SimulatedEvent: the `/simulate` payload is typed (`SimulationPayload`: optional strings, numbers and booleans), so JavaScript's coercions of other JSON values are not modelled: `Boolean(payload.droughtAlert ?? true)` turns the string "false" into true and 0 into false, `||` and `??` keep a value of any type, and `req.body || {}` (`AgentManager.js:439`) replaces a falsy body.
- Decoding of the contract's event logs is inside the chain oracle. With `string indexed eventId` (`abis.js:10`) ethers gives the topic hash rather than the id; the model takes the event id the oracle returns.
- The hosted models are oracles: `Summarizer` for Groq and `ModelAnswer` for Gemini. Their prompts, the JSON and regular-expression parsing of their replies (`route.ts:30-99`), and network failure are modelled only through what the oracle returns.
- `Math.random` and `randomBytes` are infinite streams passed in. The demo's payment hash tag is a parameter.
- The chain is an oracle (`Ledger.Answers`). The ABIs, ethers providers, gas and reverts are modelled as `Result` answers.
- The demo's `alert()`, its icons, the `data: null` of feed entries, the agent-status fetch and the demo effects (`AIDemoSimulation.tsx:101-137`) are not modelled. Rendering is not modelled either.
- The rest of `AutonomousWorkflow.tsx` is not modelled: the wallet, deposit, registration and AI handlers, effects and rendering. Only `validateForm`, `resetWorkflow` and the pure derivations listed above are.
- Several source functions are split into helpers with their own contracts: Say, RunPhase, RunScript, CollectFormErrors, CheckRuns, LogConfirmations, HandleEvents, EvaluateFarmers, FarmerStep, HandleFarmers.

## Findings

| source | as written | input that shows it | evidently intended | confidence | as-written member | corrected member |
|---|---|---|---|---|---|---|
| frontend/agents/src/AgentManager.js:408-411 | `LOGS.slice(-limit)` with `limit = Math.min(Number(limit or 200), 1000)`. `-0` is `0`, so `limit=0` returns the whole buffer, and a negative limit drops the oldest lines instead of returning at most that many; a non-numeric limit gives `slice(NaN)`, which is `slice(0)` | `GET /logs?limit=0` on a buffer of two lines returns both; `GET /logs?limit=abc` makes `Math.min` give NaN and `slice(NaN)` returns the whole buffer | at most `limit` of the newest lines, none for zero or below, the default 200 for a limit that is not a number | not executed | AgentLog.QueryLogsAsWritten (AgentLog.LimitZeroReturnsEverything, AgentLog.NegativeLimitDropsOldest, AgentLog.LimitZeroExample, AgentLog.NotANumberLimitReturnsEverything) | AgentLog.QueryLogs (AgentLog.QueryLimitNewest, AgentLog.QueryAgreesOnPositiveLimit) |
| frontend/src/app/api/ai/geocode/route.ts:112-119 | `defaultCoords[key]` also finds members inherited from `Object.prototype`, so `coords.lat` is `undefined` | district "Constructor" (and "__proto__") gets no latitude or longitude, while any other unknown district falls back to Delhi | unknown districts, these two included, fall back to Delhi | not executed | Geocode.GeocodeRouteAsWritten (Geocode.LookupAsWritten, Geocode.ConstructorRouteLosesCoordinates, Geocode.ConstructorDistrictLosesCoordinates, Geocode.ProtoDistrictLosesCoordinates) | Geocode.GeocodeRoute (Geocode.DistrictCoords, Geocode.RouteAgreesWithoutInheritedKeys, Geocode.LookupAgreesWithoutInheritedKeys, Geocode.FallbackResponses) |
