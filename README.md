# Voice-to-CRM counselling pipeline, modelled in Dafny

The system is a call-centre assistant for a Korean mobile carrier. A
customer's speech is transcribed live. Each finished utterance starts a
manual search, or, when the assistant is waiting for an answer, is read as
yes / no / unknown. The search keywords decide which of six CRM screens is
relevant: roaming, plan change, device change, loss/theft, cancellation, or
data add-ons. A planner then turns the keywords into a scripted sequence of
highlight-and-click steps with one CRM command per step. A runner plays
those steps on a timer and feeds the commands to a reducer that holds the
CRM document. Beside this sit two small text utilities:
- the builder of the text a manual page is embedded under;
- the newline-delimited JSON progress reader of the PDF uploader.

The model has one module per source file, plus the shared pieces:

| module | file | models |
|---|---|---|
| `Text` | text.dfy | `includes`, `trim`, ASCII `toLowerCase`, `split` and `join`, each with its own laws. |
| `Wrappers` | wrappers.dfy | `Option` and `Result`. |
| `Rules` | rules.dfy | The ordered first-match keyword table that every resolver uses. |
| `Selection` | selection.dfy | The min / max / nearest-price scans and the name loops. Each is a method with a loop, proved equal to a function. |
| `Pricing` | pricing.dfy | `parsePriceNumber` and `parseDataGB`, with `Infinity` as `Unlimited`. |
| `CrmTypes` | crm_types.dfy | The command union, the state document and the step shape. |
| `CrmData` | crm_data.dfy | The demo reference data, as constants. |
| `ScreenMapper` | screen_mapper.dfy | The screen resolver. |
| `ConfirmDetector` | confirm_detector.dfy | The yes / no / unknown classifier. |
| `ActionPlanner` | action_planner.dfy | The per-screen resolvers. |
| `PlannerExamples` | planner_examples.dfy | The resolvers evaluated on the demo data. |
| `ActionSequences` | action_sequences.dfy | The six sequence builders and `getActionSequence`. |
| `CrmReducer` | crm_state.dfy | The reducer, and the store class with its highlight. |
| `SequenceEffects` | sequence_effects.dfy | What a planned sequence does to the document. |
| `AutoAction` | auto_action.dfy | The runner: an explicit queue of `(due, event)` timers in a class, with a "fire next" method. The schedule is a function. |
| `Transcription` | transcription.dfy | The realtime transcription event handler, as a class. |
| `ConversationPhase` | phase_controller.dfy | The phase controller of the advanced page, as a class over the runner and the store. |
| `EmbeddingText` | text_utils.dfy | `buildPageEmbeddingText`. |
| `PdfUpload` | pdf_uploader.dfy | The upload read loop, as a class. |

Behaviours of the code that the model keeps as written:
- **Plan intents.** `"비싼"` and `"더 비싼"` are read as the cheapest plan, and so is `"더 싼"`. Each contains `"싼"`, a keyword of the first intent row.
- **Stepping down a plan.** A step down only considers positive prices, because the running best starts at 0.
- **`"MNP"`.** The device-change token `"MNP"` is upper-case, and the keywords are lower-cased before the search, so it never matches.
- **End of speech.** When the suggestion finishes speaking, the controller enters awaiting-confirm from whatever phase it is in.
- **Unfinished uploads.** If the upload stream ends without an "error" or "complete" record, `isUploading` stays true.
- **Empty lists.** The planner indexes element 0 of its product, plan, device and add-on lists without a check, so its members require those lists to be non-empty (`Usable`). The model proves that the demo data meets this (`DemoUsable`).

## Model

| member | source | states |
|---|---|---|
| Text.ContainsIffOccurs | src/lib/crm-screen-mapper.ts:44 | `includes` holds exactly when the needle occurs at some position |
| Text.FirstContained | src/lib/crm-action-sequences.ts:121-125 | the first needle that occurs, with none before it; -1 exactly when no needle occurs |
| Text.Trim | src/lib/confirm-detector.ts:67 | the trimmed text neither starts nor ends with white space |
| Text.TrimIsSlice | src/lib/confirm-detector.ts:67 | `trim` gives the slice of the text between its leading and its trailing white space |
| Text.TrimEmptyIffAllSpace | src/lib/confirm-detector.ts:68 | the trimmed text is empty exactly when the text is all white space |
| Text.TrimIdempotent | src/hooks/useRealtimeTranscription.ts:137 | trimming twice is trimming once |
| Text.TrimLowerCommute | src/lib/confirm-detector.ts:67 | trimming and lower-casing commute |
| Text.LowerIdempotent | src/lib/crm-screen-mapper.ts:42 | lower-casing twice is lower-casing once |
| Text.NoUpperLowerId | src/lib/crm-screen-mapper.ts:42 | lower-casing leaves a string without upper-case letters unchanged |
| Text.SplitJoin | src/components/PdfUploader.tsx:45 | joining the pieces of a split with the separator gives back the text |
| Text.JoinSplit | src/components/PdfUploader.tsx:45 | splitting a join of separator-free pieces gives back the pieces |
| Rules.FirstFiring | src/lib/crm-screen-mapper.ts:43-47 | the first enabled rule with a hit, none before it; -1 exactly when no rule fires |
| Rules.ResolveIsFirstMatch | src/lib/crm-screen-mapper.ts:43-48 | the table lookup yields the earliest enabled rule some token of which occurs in a searched string, or the fallback when none does |
| Rules.HitIffMatches | src/lib/crm-screen-mapper.ts:44 | a rule hits exactly when one of its tokens is a substring of one of the searched strings (one direction only) |
| Rules.ResolveStopsAt | src/lib/crm-screen-mapper.ts:43-46 | the lookup stops at the first rule that fires |
| Rules.ResolveFallsBack | src/lib/crm-screen-mapper.ts:48 | the lookup returns the fallback when no rule fires |
| Rules.ResolveNone | src/lib/crm-screen-mapper.ts:48 | a table none of whose tokens can occur falls back |
| Rules.FirstFiringTag | src/lib/crm-action-sequences.ts:113-118 | the scan with an early `break` returns the tag of the first matching row, else the fallback |
| Pricing.PriceWithoutDigits | src/lib/crm-action-sequences.ts:97-99 | a price without digits reads as 0 |
| Pricing.PriceIgnoresNonDigit | src/lib/crm-action-sequences.ts:98 | dropping a separator or a unit character does not change the value |
| Pricing.PriceRoundTrip | src/lib/crm-action-sequences.ts:97-99 | a decimal rendering of n followed by a digit-free unit reads back as n |
| Pricing.ThousandsPrice | src/lib/crm-action-sequences.ts:97-99 | prices written as "k,000원" read as k × 1000 |
| Pricing.ParseDataGB | src/lib/crm-action-sequences.ts:101-105 | unlimited exactly for "무제한"; otherwise the value of the first maximal digit run, and 0 when there are no digits |
| Pricing.FirstDigitRun | src/lib/crm-action-sequences.ts:103 | the `\d+` match is all digits, and is empty exactly when the text has no digit |
| Pricing.FirstDigitRunAt | src/lib/crm-action-sequences.ts:103 | a non-empty match is a maximal digit run with no digit before it |
| Pricing.DataGreaterIsStrictTotalOrder | src/lib/crm-action-sequences.ts:174-183 | `>` on allowances with `Infinity` on top is a strict total order |
| Selection.FindIndex | src/lib/crm-action-sequences.ts:447 | `findIndex`: the first satisfying index, none before it; -1 exactly when none satisfies |
| Selection.FirstMin | src/lib/crm-action-sequences.ts:130-139 | an index of the smallest price, with every earlier price strictly larger |
| Selection.FirstMax | src/lib/crm-action-sequences.ts:140-149 | an index of the largest price, with every earlier price strictly smaller |
| Selection.FirstMinUnique | src/lib/crm-action-sequences.ts:130-139 | exactly one index satisfies the cheapest-first contract |
| Selection.FirstMaxUnique | src/lib/crm-action-sequences.ts:140-149 | exactly one index satisfies the dearest-first contract |
| Selection.MinIndex | src/lib/crm-action-sequences.ts:132-137 | the loop with `if (p < minPrice)` computes the cheapest-first index |
| Selection.MaxIndex | src/lib/crm-action-sequences.ts:142-147 | the loop with `if (p > maxPrice)` computes the dearest-first index |
| Selection.NearestAbove | src/lib/crm-action-sequences.ts:150-161 | the lowest price strictly above the current one, earliest on ties; -1 exactly when no price is above |
| Selection.NearestBelow | src/lib/crm-action-sequences.ts:162-173 | the highest positive price strictly below the current one, earliest on ties; -1 exactly when there is none |
| Selection.NearestAboveIndex | src/lib/crm-action-sequences.ts:152-157 | the `bestIdx` / `bestPrice = Infinity` loop computes `NearestAbove` |
| Selection.NearestBelowIndex | src/lib/crm-action-sequences.ts:164-169 | the `bestIdx` / `bestPrice = 0` loop computes `NearestBelow` |
| Selection.FirstMaxData | src/lib/crm-action-sequences.ts:174-183 | an index of the largest allowance, with unlimited above every number, and every earlier allowance strictly smaller |
| Selection.MaxDataIndex | src/lib/crm-action-sequences.ts:176-181 | the loop with `if (d > maxData)` computes `FirstMaxData` |
| Selection.MentionLookup | src/lib/crm-action-sequences.ts:121-125 | the name search finds the first name mentioned in the text, and fails exactly when no name is mentioned |
| Selection.NameMatchIndex | src/lib/crm-action-sequences.ts:121-125 | the loop that returns on the first lower-cased name found in the text computes that search |
| ActionPlanner.RoamingRegionIsFirstMatch | src/lib/crm-action-sequences.ts:11-31 | the region is the first region-table row one of whose keywords a lower-cased keyword contains, else 유럽 |
| ActionPlanner.RegionRowsAreScreenRegions | src/lib/crm-action-sequences.ts:11-19 | the region table rows are exactly the regions of the roaming screen, in its order |
| ActionPlanner.RegionIsOffered | src/lib/crm-action-sequences.ts:23-31 | the resolved region is always one the roaming screen offers |
| ActionPlanner.ResolveRoamingProduct | src/lib/crm-action-sequences.ts:33-47 | for the Asian regions the first Asia product; for Europe or the Americas the first product whose region mentions 유럽; otherwise, or when that product is missing, the first worldwide product; 0 when even that is missing |
| ActionPlanner.DetectPlanIntent | src/lib/crm-action-sequences.ts:89-118 | the intent of the first intent row with a keyword in the joined text |
| ActionPlanner.PlanByIntent | src/lib/crm-action-sequences.ts:127-186 | cheapest and dearest plans; a step up is the cheapest price above the current one, else the dearest; a step down is the dearest positive price below it, else the cheapest; the most data; plan 0 without an intent; every scan keeps the first index on ties, as its strict comparison does |
| ActionPlanner.PlanChoice | src/lib/crm-action-sequences.ts:107-188 | a plan named in the text wins, the first one named; only when none is named does the intent decide |
| ActionPlanner.ResolvePlanIndex | src/lib/crm-action-sequences.ts:107-188 | the loops of `resolvePlanIndex` compute `PlanChoice`, and the name is that plan's name |
| ActionPlanner.ResolvePlanByIntent | src/lib/crm-action-sequences.ts:190-210 | the cheapest or the dearest plan, the first one on ties, with its name |
| ActionPlanner.NameBeatsIntent | src/lib/crm-action-sequences.ts:121-125 | a plan named in the text is chosen before any intent is consulted |
| ActionPlanner.BrandIndex | src/lib/crm-action-sequences.ts:251-260 | the first device whose lower-cased name has the brand fragment; -1 exactly when none has it |
| ActionPlanner.BrandResolvesToDevice | src/lib/crm-action-sequences.ts:251-260 | a brand lookup yields -1 or a device whose name has that row's fragment |
| ActionPlanner.DeviceChoice | src/lib/crm-action-sequences.ts:241-283 | the first device named in the text; otherwise the brand row's device, then the first cheapest device for a cheap word, then the first dearest one for a premium word, then device 0 |
| ActionPlanner.ResolveDevice | src/lib/crm-action-sequences.ts:241-283 | the loops of `resolveDevice` compute `DeviceChoice`, with the device's name |
| ActionPlanner.ResolveDeviceOption | src/lib/crm-action-sequences.ts:285-291 | the second option exactly when a discount word occurs, otherwise the first |
| ActionPlanner.ThirdDiscountWordRedundant | src/lib/crm-action-sequences.ts:287 | "선택약정" contains "약정", so that word never decides alone |
| ActionPlanner.ResolveLostStolenOption | src/lib/crm-action-sequences.ts:331-338 | the theft option exactly when a theft word occurs, otherwise the loss option |
| ActionPlanner.ResolveCancellationReason | src/lib/crm-action-sequences.ts:369-386 | the first reason row that the screen lists and that has a keyword in the text; "기타" otherwise |
| ActionPlanner.ReasonIsListed | src/lib/crm-action-sequences.ts:369-386 | the reason is always one the screen lists, as long as the list holds "기타" |
| ActionPlanner.AddonIndexOf | src/lib/crm-action-sequences.ts:430-444 | the first add-on whose name fits the row's test; -1 exactly when none fits |
| ActionPlanner.AddonRuleResolvesToAddon | src/lib/crm-action-sequences.ts:430-444 | the keyword-row lookup yields -1 or an add-on fitting some row |
| ActionPlanner.AddonChoice | src/lib/crm-action-sequences.ts:418-450 | the first add-on named in the text; otherwise the add-on of the first keyword row that has one; then the first inactive add-on; then add-on 0 |
| ActionPlanner.ResolveAddonIndex | src/lib/crm-action-sequences.ts:418-450 | the loops of `resolveAddonIndex` compute `AddonChoice`, with the add-on's name |
| PlannerExamples.CurrentPriceIs69000 | src/lib/crm-dummy-data.ts:27 | the current plan's price reads as 69,000 |
| PlannerExamples.DemoPlanPrices | src/lib/crm-dummy-data.ts:29-32 | the demo plan prices read as 79,000 / 99,000 / 55,000 / 55,000 |
| PlannerExamples.DemoPlanAllowances | src/lib/crm-dummy-data.ts:29-32 | the demo allowances read as 150 / unlimited / 50 / 60 |
| PlannerExamples.CheapestIsLite | src/lib/crm-action-sequences.ts:130-139 | cheapest yields plan 2, the first of the two 55,000 plans |
| PlannerExamples.ExpensiveIsPremium | src/lib/crm-action-sequences.ts:140-149 | dearest yields plan 1 |
| PlannerExamples.UpIsSpecial | src/lib/crm-action-sequences.ts:150-161 | a step up from 69,000 yields plan 0 (79,000) |
| PlannerExamples.DownIsLite | src/lib/crm-action-sequences.ts:162-173 | a step down from 69,000 yields plan 2, the earliest 55,000 |
| PlannerExamples.MostDataIsPremium | src/lib/crm-action-sequences.ts:174-183 | most data yields the unlimited plan 1 |
| PlannerExamples.NoIntentIsFirst | src/lib/crm-action-sequences.ts:184-186 | without an intent, plan 0 |
| PlannerExamples.ExpensiveWordReadsAsCheapest | src/lib/crm-action-sequences.ts:90-91 | "비싼" is read as cheapest |
| PlannerExamples.PricierWordReadsAsCheapest | src/lib/crm-action-sequences.ts:90-92 | "더 비싼" is read as cheapest, not as a step up |
| PlannerExamples.CheaperWordReadsAsCheapest | src/lib/crm-action-sequences.ts:90-93 | "더 싼" is read as cheapest, not as a step down |
| PlannerExamples.RaiseWordIsUp | src/lib/crm-action-sequences.ts:92 | "올려줘" is read as a step up |
| PlannerExamples.ExpensiveRequestGetsCheapestPlan | src/lib/crm-action-sequences.ts:107-188 | asking for "비싼" yields the cheapest plan, 2 |
| PlannerExamples.RaiseRequestGetsSpecial | src/lib/crm-action-sequences.ts:107-188 | asking for "올려줘" yields plan 0 |
| ActionSequences.IndexedIdRoundTrip | src/lib/crm-action-sequences.ts:63 | the row index can be read back from an element id such as `product-2` |
| ActionSequences.IndexedIdInjective | src/lib/crm-action-sequences.ts:63 | distinct rows have distinct element ids |
| ActionSequences.BuildRoamingSequence | src/lib/crm-action-sequences.ts:49-83 | three steps: the resolved region, with `region-` + region matching dispatch 0; then the resolved product, with its id and caption; then apply |
| ActionSequences.BuildPlanChangeSequence | src/lib/crm-action-sequences.ts:212-237 | pick the chosen plan, with its id and caption, then change |
| ActionSequences.BuildDeviceChangeSequence | src/lib/crm-action-sequences.ts:293-327 | pick the resolved option, which is one of the offered options, then the chosen device, then open |
| ActionSequences.BuildLostStolenSequence | src/lib/crm-action-sequences.ts:340-365 | pick loss or theft, then suspend |
| ActionSequences.BuildCancellationSequence | src/lib/crm-action-sequences.ts:388-414 | choose a listed reason in the drop-down, then process |
| ActionSequences.BuildDataAddonSequence | src/lib/crm-action-sequences.ts:452-477 | pick the chosen add-on, then add it |
| ActionSequences.GetActionSequence | src/lib/crm-action-sequences.ts:481-499 | every screen gets a sequence of 2 or 3 steps, one command per step, all aimed at that screen, ending in its commit |
| ActionSequences.MissingKeywordsAreEmpty | src/lib/crm-action-sequences.ts:482 | missing keywords behave as an empty list |
| CrmTypes.CommitOfIsCommit | src/types/crm.ts:47-62 | each screen has one commit command, and the commit commands are exactly those six |
| CrmData.DemoUsable | src/lib/crm-dummy-data.ts:15-84 | the demo data has every list the planner indexes, and lists "기타" |
| CrmReducer.Entries | src/hooks/useCrmState.ts:31-34 | the initial add-on entries copy each add-on's name and active flag |
| CrmReducer.StatusesOfInitialState | src/hooks/useCrmState.ts:7-37 | the initial document is in every screen's initial status, and no terminal status is an initial one |
| CrmReducer.Activate | src/hooks/useCrmState.ts:94-96 | the entry at idx is switched on; every other entry keeps its flag; all names are kept |
| CrmReducer.Reduce | src/hooks/useCrmState.ts:39-107 | RESET yields the initial document; every other command writes only its own screen's sub-state; selections keep every status; commits write their terminal status unconditionally |
| CrmReducer.SelectionSetsOneField | src/hooks/useCrmState.ts:41-90 | each selection sets exactly one field of its sub-state to the command's value |
| CrmReducer.CommitSetsOnlyStatus | src/hooks/useCrmState.ts:45-88 | each status commit changes its status field and nothing else |
| CrmReducer.CommitIdempotent | src/hooks/useCrmState.ts:45-100 | committing twice is committing once |
| CrmReducer.AddAddonWithoutSelection | src/hooks/useCrmState.ts:92-93 | DATA_ADD_ADDON with nothing selected returns the document unchanged |
| CrmReducer.AddAddonActivates | src/hooks/useCrmState.ts:94-100 | switches on only entry idx, keeps the length and the names, and clears the selection |
| CrmReducer.ResetIsInitial | src/hooks/useCrmState.ts:102-103 | RESET returns the initial document from any document |
| CrmReducer.NoRewindWithoutReset | src/hooks/useCrmState.ts:39-106 | only RESET writes a status back to its initial value |
| CrmReducer.TerminalIsSticky | src/hooks/useCrmState.ts:39-106 | without a RESET, a terminal status is kept by any run of commands |
| CrmReducer.RunStaysOnScreen | src/hooks/useCrmState.ts:39-106 | commands aimed at one screen leave every other sub-state alone |
| CrmReducer.ReduceAllSnoc | src/hooks/useCrmState.ts:110 | successive dispatches fold the reducer left to right |
| CrmReducer.CrmStore.constructor | src/hooks/useCrmState.ts:110-111 | the store starts at the initial document with nothing highlighted |
| CrmReducer.CrmStore.Dispatch | src/hooks/useCrmState.ts:110 | one reducer step; the highlight is untouched |
| CrmReducer.CrmStore.SetHighlightedElement | src/hooks/useCrmState.ts:111 | sets the highlight only |
| CrmReducer.CrmStore.ResetState | src/hooks/useCrmState.ts:113-116 | the initial document and no highlight |
| SequenceEffects.SequenceCommitsItsScreen | src/lib/crm-action-sequences.ts:481-499 | replaying any planned sequence changes only its screen, leaves that screen's status terminal, and leaves no add-on selected |
| ScreenMapper.DetermineCrmScreen | src/lib/crm-screen-mapper.ts:14-49 | the screen of the first rule with a token contained in a lower-cased keyword; data-addon when none has one |
| ScreenMapper.EmptyIsDataAddon | src/lib/crm-screen-mapper.ts:48 | no keywords means data-addon |
| ScreenMapper.UnrelatedIsDataAddon | src/lib/crm-screen-mapper.ts:48 | a keyword that hits no rule means data-addon |
| ScreenMapper.NoTokenFallsBack | src/lib/crm-screen-mapper.ts:43-48 | a lower-case keyword that excludes every token falls back |
| ScreenMapper.MnpNeverMatches | src/lib/crm-screen-mapper.ts:29-44 | no lower-cased keyword contains "MNP" |
| ScreenMapper.LowerCaseInvariant | src/lib/crm-screen-mapper.ts:41-49 | lower-casing the keywords beforehand does not change the screen |
| ScreenMapper.OverseasChargeIsRoaming | src/lib/crm-screen-mapper.ts:15-38 | ["해외","요금"] is roaming, because rule order decides overlaps |
| ScreenMapper.RoamingEuropeIsRoaming | src/lib/crm-screen-mapper.ts:15-18 | ["로밍","유럽"] is roaming |
| ScreenMapper.CancellationKeyword | src/lib/crm-screen-mapper.ts:23-26 | ["해지"] is cancellation |
| ScreenMapper.PrefixOfTokenDoesNotMatch | src/lib/crm-screen-mapper.ts:44 | ["로"] is part of 로밍 but does not contain it, so it falls back |
| ScreenMapper.ScreenLabel | src/lib/crm-screen-mapper.ts:51-58 | every screen has a non-empty label |
| ScreenMapper.ScreenLabelsDistinct | src/lib/crm-screen-mapper.ts:51-58 | no two screens share a label |
| ConfirmDetector.Classify | src/lib/confirm-detector.ts:66-79 | "no" exactly when a non-empty reply holds a negative keyword; "yes" exactly when it holds no negative and some positive keyword; otherwise "unknown" |
| ConfirmDetector.DetectConfirm | src/lib/confirm-detector.ts:66-72 | "no" exactly when the trimmed, lower-cased reply is non-empty and holds a negative keyword |
| ConfirmDetector.NormalizeIdempotent | src/lib/confirm-detector.ts:67 | normalizing twice is normalizing once |
| ConfirmDetector.OnlyNormalizedTextMatters | src/lib/confirm-detector.ts:67 | the verdict depends only on `trim(lower(text))` |
| ConfirmDetector.BlankIsUnknown | src/lib/confirm-detector.ts:67-68 | empty or white-space-only replies are "unknown" |
| ConfirmDetector.NoBy | src/lib/confirm-detector.ts:70-72 | a negative keyword makes the reply "no" even when a positive one is present |
| ConfirmDetector.YesBy | src/lib/confirm-detector.ts:74-76 | no negative keyword but a positive one means "yes" |
| ConfirmDetector.UnknownBy | src/lib/confirm-detector.ts:78 | no keyword of either list means "unknown" |
| ConfirmDetector.PleaseDoItIsYes | src/lib/confirm-detector.ts:3-76 | "네 해주세요" is yes |
| ConfirmDetector.NoThanksIsNo | src/lib/confirm-detector.ts:38-72 | "아니요 괜찮아요" is no |
| ConfirmDetector.NegativeBeforePositive | src/lib/confirm-detector.ts:70-76 | "네 아니에요" holds the positive "네" but is no |
| ConfirmDetector.HesitationIsUnknown | src/lib/confirm-detector.ts:78 | "음... 글쎄요" is unknown |
| ConfirmDetector.PaddedOkayIsYes | src/lib/confirm-detector.ts:67-76 | white space around "오케이" is ignored |
| AutoAction.DispatchOf | src/hooks/useCrmAutoAction.ts:55-57 | a step has a command exactly when the sequence has one at that index |
| AutoAction.ScheduleEvents | src/hooks/useCrmAutoAction.ts:41-72 | even timers highlight step i, odd timers dispatch it, and the last one finishes |
| AutoAction.DispatchFollowsShow | src/hooks/useCrmAutoAction.ts:45-53 | each dispatch is due 600 ms after its highlight |
| AutoAction.ScheduleMonotone | src/hooks/useCrmAutoAction.ts:39-72 | due times never decrease, and none is before the starting offset |
| AutoAction.ScheduleFinish | src/hooks/useCrmAutoAction.ts:62-71 | the finish is due at the offset plus every step's before, 600 and after, plus 500 |
| AutoAction.ScheduleSorted | src/hooks/useCrmAutoAction.ts:39-72 | the queue is sorted by due time |
| AutoAction.TimerCount | src/hooks/useCrmAutoAction.ts:41-72 | exactly 2n+1 timers, the last the finish |
| AutoAction.DispatchesInOrder | src/hooks/useCrmAutoAction.ts:42-62 | dispatch times strictly increase in step order, each after its own highlight |
| AutoAction.RoamingFinishesAt5900 | src/hooks/useCrmAutoAction.ts:66-71 | the roaming sequence finishes at 5900 ms |
| AutoAction.FireScheduleFrom | src/hooks/useCrmAutoAction.ts:45-71 | firing the timers of steps i.. applies their commands in order, appends their labels in order, and ends idle with nothing highlighted |
| AutoAction.RunToEnd | src/hooks/useCrmAutoAction.ts:41-71 | once every timer has fired, the completed steps are the labels in order, the document is the commands applied in order, and the runner is idle |
| AutoAction.RunCommitsItsScreen | src/hooks/useCrmAutoAction.ts:28-75 | a run of any screen played to the end leaves only that screen changed, its status terminal, and every label completed |
| AutoAction.QueueTimers | src/hooks/useCrmAutoAction.ts:39-72 | the `forEach` loop with `cumulativeDelay` queues exactly the schedule |
| AutoAction.AutoActionRunner.constructor | src/hooks/useCrmAutoAction.ts:16-20 | idle, step -1, empty label and progress, no timers |
| AutoAction.AutoActionRunner.Cleanup | src/hooks/useCrmAutoAction.ts:22-26 | every pending timer is cancelled and the highlight cleared, nothing else |
| AutoAction.AutoActionRunner.RunSequence | src/hooks/useCrmAutoAction.ts:30-72 | without a sequence nothing changes; otherwise earlier timers are cancelled, the new schedule is the only one pending, the runner is running at step 0 with no progress |
| AutoAction.AutoActionRunner.Run | src/hooks/useCrmAutoAction.ts:28-75 | the schedule of the screen's planned sequence is pending, and the runner is running at step 0 |
| AutoAction.AutoActionRunner.FireNext | src/hooks/useCrmAutoAction.ts:45-71 | the earliest timer fires and leaves the queue |
| AutoAction.AutoActionRunner.FireAllPending | src/hooks/useCrmAutoAction.ts:45-71 | every pending timer fires in queue order |
| AutoAction.AutoActionRunner.Stop | src/hooks/useCrmAutoAction.ts:77-83 | every timer is cancelled and the highlight and progress cleared; commands already applied stay applied |
| Transcription.OnMessageEvent | src/hooks/useRealtimeTranscription.ts:115-156 | transcripts and callbacks only grow, by at most one each and together, exactly for a non-blank completed transcript; only speech events move the status; only server errors touch the error |
| Transcription.CompletedTranscript | src/hooks/useRealtimeTranscription.ts:136-149 | a non-blank trimmed transcript is the one new entry and the one new callback; a blank one adds nothing; the partial text is cleared either way |
| Transcription.CompletedTextIsTrimmed | src/hooks/useRealtimeTranscription.ts:137-144 | every new entry is non-empty and trimmed |
| Transcription.SpeechEvents | src/hooks/useRealtimeTranscription.ts:124-130 | speech start means speaking, speech stop means listening, and nothing else is touched |
| Transcription.IgnoredAndErrorEvents | src/hooks/useRealtimeTranscription.ts:116-155 | a server error sets the message and keeps the status; unparseable and unhandled messages change nothing |
| Transcription.TranscriptsOnlyGrow | src/hooks/useRealtimeTranscription.ts:115-156 | no run of messages removes or rewrites an entry |
| Transcription.DeltasAccumulate | src/hooks/useRealtimeTranscription.ts:132-134 | deltas are appended to the partial text in arrival order |
| Transcription.TokenOutcome | src/hooks/useRealtimeTranscription.ts:49-57 | the token exactly when the response is ok and the token non-empty; otherwise the server's error, or the default, or the empty-token message |
| Transcription.CaughtMessage | src/hooks/useRealtimeTranscription.ts:169-171 | an `Error`'s message, or the default for anything else thrown |
| Transcription.TranscriptionSession.constructor | src/hooks/useRealtimeTranscription.ts:13-21 | idle, no transcripts, no partial text, no error, no handles |
| Transcription.TranscriptionSession.Cleanup | src/hooks/useRealtimeTranscription.ts:23-40 | all four handles released, nothing else |
| Transcription.TranscriptionSession.OnMessage | src/hooks/useRealtimeTranscription.ts:115-156 | the session handles a message as `OnMessageEvent` says |
| Transcription.TranscriptionSession.OnCompleted | src/hooks/useRealtimeTranscription.ts:136-149 | the completed case updates the session as `OnMessageEvent` says |
| Transcription.TranscriptionSession.OnOpen | src/hooks/useRealtimeTranscription.ts:90-91 | listening |
| Transcription.TranscriptionSession.OnSocketError | src/hooks/useRealtimeTranscription.ts:158-162 | the socket error message, the error status, every handle released |
| Transcription.TranscriptionSession.BeginStart | src/hooks/useRealtimeTranscription.ts:44-46 | the error and partial text cleared, connecting |
| Transcription.TranscriptionSession.FailStart | src/hooks/useRealtimeTranscription.ts:169-175 | the message, the error status, every handle released |
| Transcription.TranscriptionSession.StartWithToken | src/hooks/useRealtimeTranscription.ts:42-175 | with a usable token, connecting with it; otherwise the token's error, the error status, and the handles released |
| Transcription.TranscriptionSession.Acquire | src/hooks/useRealtimeTranscription.ts:59-88 | the stream, the audio context, the worklet node and the socket are held, in that order, as far as the set-up got |
| Transcription.TranscriptionSession.FailDuringSetUp | src/hooks/useRealtimeTranscription.ts:59-175 | a set-up that throws part-way releases every handle it had taken, with the caught message and the error status |
| Transcription.TranscriptionSession.Stop | src/hooks/useRealtimeTranscription.ts:178-182 | handles released, idle, no partial text; transcripts kept |
| ConversationPhase.Contexts | src/app/advanced/page.tsx:124 | the first three results, or all of them when fewer |
| ConversationPhase.PhaseAfterRunnerUpdate | src/app/advanced/page.tsx:157-161 | done exactly when already done, or when executing with the runner stopped after completing a step; only executing ever changes |
| ConversationPhase.ManualSearch | src/app/advanced/page.tsx:144-154 | the query and the search box always change; only non-blank text sets auto-select and enters searching |
| ConversationPhase.StartedRunEndsDone | src/app/advanced/page.tsx:73-161 | a started sequence played to the end commits its screen and the next runner update ends done |
| ConversationPhase.ConfirmedRunEndsDone | src/app/advanced/page.tsx:73-161 | a confirmed execution of any snapshot commits that screen, leaves the others alone, and ends done |
| ConversationPhase.RunnerUpdateWaitsForTheRun | src/app/advanced/page.tsx:158 | while running, or before a step completes, the phase stays executing |
| ConversationPhase.ConversationController.constructor | src/app/advanced/page.tsx:30-35 | idle, no auto-select, data-addon screen and snapshot, empty keywords and query |
| ConversationPhase.ConversationController.ExecuteCrmAction | src/app/advanced/page.tsx:73-76 | executing, with the runner started on the snapshot screen and keywords, never on live ones; the snapshot screen is the one its keywords determine, and that stays so |
| ConversationPhase.ConversationController.OnUtterance | src/app/advanced/page.tsx:79-104 | branching on the current phase, as the handler is meant to: while awaiting confirmation, yes executes, no ends with the acknowledgement, and unknown is a new query; in any other phase every utterance is a new query |
| ConversationPhase.ConversationController.OnCapturedUtterance | src/hooks/useRealtimeTranscription.ts:115-156 | the handler the socket actually calls branches on the phase of the render in which `start` ran: any phase but awaiting-confirm makes every utterance a new query, whatever the current phase |
| ConversationPhase.BranchOf | src/app/advanced/page.tsx:79-104 | an utterance executes exactly when the phase read is awaiting-confirm and the reply is yes, and declines exactly when it is awaiting-confirm and the reply is no |
| ConversationPhase.SpokenYesIsSearched | src/app/advanced/page.tsx:79-104 | with the phase of an idle render, a spoken "네 해주세요" is a new query; with the current awaiting-confirm phase it executes |
| ConversationPhase.CapturedIdleAlwaysRequeries | src/app/advanced/page.tsx:79-104 | with the phase of an idle render, no spoken reply executes or declines |
| ConversationPhase.ConversationController.OnReply | src/app/advanced/page.tsx:81-94 | the awaiting-confirm branch for each verdict; only a yes touches the runner |
| ConversationPhase.ConversationController.StartQuery | src/app/advanced/page.tsx:97-100 | query set, search triggered, auto-select set, searching |
| ConversationPhase.ConversationController.OnResults | src/app/advanced/page.tsx:107-138 | handled only with auto-select set and results present; then the flag is cleared, the runner and document reset, the determined screen and the keywords snapshotted, responding, and a suggestion requested from the first three results; the snapshot always agrees with its keywords |
| ConversationPhase.ConversationController.ResetRun | src/app/advanced/page.tsx:112-113 | the runner stopped and the document reset |
| ConversationPhase.ConversationController.TakeSnapshot | src/app/advanced/page.tsx:116-136 | the screen and keywords snapshotted, responding, and a suggestion requested |
| ConversationPhase.ConversationController.OnSpeakEnd | src/app/advanced/page.tsx:132-135 | awaiting-confirm |
| ConversationPhase.ConversationController.OnRunnerUpdate | src/app/advanced/page.tsx:157-161 | the phase as `PhaseAfterRunnerUpdate` decides it |
| ConversationPhase.ConversationController.OnManualSearch | src/app/advanced/page.tsx:144-154 | the controller changes as `ManualSearch` says |
| EmbeddingText.Bullets | src/lib/text-utils.ts:12-14 | one "- " line per question, in input order |
| EmbeddingText.BuildPageEmbeddingText | src/lib/text-utils.ts:4-18 | the `push` loop, then the join, give the embedding text |
| EmbeddingText.NoQuestionsText | src/lib/text-utils.ts:8-17 | without questions, exactly the page heading, a new-line and the page text |
| EmbeddingText.WithQuestionsText | src/lib/text-utils.ts:10-17 | with questions, the page part, then "\n[고객 질문 예시]", then "\n- " + q for each question in order |
| EmbeddingText.StartsWithPage | src/lib/text-utils.ts:8 | the text always starts with the page heading, a new-line and the page text |
| EmbeddingText.LinesOfText | src/lib/text-utils.ts:8-17 | for new-line-free inputs, the lines are recovered by a split, and there are as many bullet lines as questions |
| PdfUpload.ProcessLinesStops | src/components/PdfUploader.tsx:48-66 | the loop stops at the first "error" or "complete" record and finishes the upload with it |
| PdfUpload.ProcessLinesRuns | src/components/PdfUploader.tsx:48-70 | without such a record, every line is handled and the progress is the last record |
| PdfUpload.ProcessLinesAppend | src/components/PdfUploader.tsx:48-70 | handling two blocks of lines is handling their concatenation |
| PdfUpload.BufferKeepsUnfinishedLine | src/components/PdfUploader.tsx:44-46 | after a chunk the buffer is the text after the last new-line, and holds no new-line |
| PdfUpload.CompleteLinesAppend | src/components/PdfUploader.tsx:44-46 | the finished lines of x + y are those of x, then those of x's last line followed by y |
| PdfUpload.FeedTwice | src/components/PdfUploader.tsx:40-46 | two chunks in a row are read as their concatenation |
| PdfUpload.FeedAllIsFeedReceived | src/components/PdfUploader.tsx:40-71 | how the stream is cut into chunks does not matter |
| PdfUpload.FeedAllStaysStopped | src/components/PdfUploader.tsx:54-66 | after the early return, later chunks change nothing |
| PdfUpload.UploadOutcome | src/components/PdfUploader.tsx:16-77 | the first terminal record among the finished lines decides the upload; without one, the progress is the last record and uploading goes on unless a read threw |
| PdfUpload.OnCompleteAtMostOnce | src/components/PdfUploader.tsx:61-66 | `onComplete` is called at most once, and only after a "complete" record, with no error and not uploading |
| PdfUpload.StillUploadingIffUnfinished | src/components/PdfUploader.tsx:40-71 | still uploading afterwards exactly when the stream ended normally without a terminal record |
| PdfUpload.ErrorRecordEndsUpload | src/components/PdfUploader.tsx:54-59 | an "error" record ends the upload with its message or the default, without `onComplete` |
| PdfUpload.TrailingTextIsNeverParsed | src/components/PdfUploader.tsx:40-46 | text after the last new-line at the end of the stream is never parsed |
| PdfUpload.RefusedReadsNothing | src/components/PdfUploader.tsx:30-34 | a refused request sets the request error and reads nothing |
| PdfUpload.PdfUploader.constructor | src/components/PdfUploader.tsx:11-13 | not uploading, no progress, no error |
| PdfUpload.PdfUploader.ProcessLineOf | src/components/PdfUploader.tsx:49-69 | a blank or unparseable line is skipped; a record becomes the progress and, if terminal, finishes the upload |
| PdfUpload.PdfUploader.ProcessChunkLines | src/components/PdfUploader.tsx:48-70 | the line loop does what `ProcessLines` says |
| PdfUpload.PdfUploader.ReadChunk | src/components/PdfUploader.tsx:44-70 | one chunk appended, split, the buffer kept, and the finished lines handled |
| PdfUpload.PdfUploader.ReadBody | src/components/PdfUploader.tsx:40-71 | the read loop does what `FeedAll` says |
| PdfUpload.PdfUploader.HandleUpload | src/components/PdfUploader.tsx:16-77 | the uploader ends as `Upload` says |
| PdfUpload.PdfUploader.HandleDrop | src/components/PdfUploader.tsx:84-89 | only a ".pdf" file is uploaded; anything else sets the PDF-only error |

## Left out

- The audio worklet (`public/worklets/audio-processor.js`), the microphone and `AudioContext` set-up, the WebSocket connection and the base64 audio framing are I/O. The transcription model stops after the token is obtained.
- `ws.onclose` is left out: it reads a stale `status` from its closure, which is React closure semantics.
- The `Date.now()` timestamp and the `item_id` of a transcript entry are inputs that the model does not interpret.
- `fetch` of the token, of the upload and of the search is a parameter: `responseOk`, `serverError` and `token`, or a `Delivery` of chunks.
- `JSON.parse` of an upload line is a parameter `string -> Option<UploadProgress>`. JSON that parses to a non-object is folded into a parse failure.
- `TextDecoder` is left out: the chunks arrive as decoded text.
- `setTimeout` and `clearTimeout` are an explicit queue of timers. `AutoActionRunner.FireNext` and `FireAllPending` stand for the event loop firing them. Two timers due at the same time fire in the order they were set.
- The socket's `onmessage` handler is set once by `start` and keeps the `handleUtteranceComplete` of the render in which the microphone was started, with that render's `phase`. `ConversationController.OnCapturedUtterance` models this, with the captured phase as a parameter, and `OnUtterance` models the current-phase branch the handler is written for (see "## Findings"). Apart from this captured callback, re-rendering is not modelled: each controller method sees the state the previous one left.
- The search, suggestion and speech hooks are recorded as effects: `TriggerSearch`, `QueryChange`, `Generate`, `Speak`. Their network calls and the 300 ms debounce of `handleQueryChange` are not modelled.
- The `onScreenChange` setter of the CRM panel and the file-input `handleFileChange` are left out. They are UI wiring.
- `toLowerCase` lowers ASCII letters only. The keywords and names are Korean or ASCII.
- `trim` uses the fixed ECMAScript white-space set.
- The reference data is a parameter `ReferenceData`. The demo data is its instance `CrmData.Demo`.
- The `null` branch of `getActionSequence` is never taken, because every screen has a sequence. `run`'s early return for a missing sequence is kept in `AutoActionRunner.RunSequence`, which takes the sequence as an `Option`.
- The reducer's `default` branch is unreachable for the closed command union.
- `Infinity` in `parseDataGB` is the `Unlimited` value of `DataAmount`.
- `parsePriceNumber` results are unbounded naturals. JavaScript's double rounding for prices of more than 15 digits is not modelled.
- Rendering, the API routes, the PDF, embedding and LLM libraries, and the seeding scripts are not part of this model.

## Findings

| source | as written | input that shows it | evidently intended | confidence | as-written member | corrected member |
|---|---|---|---|---|---|---|
| src/hooks/useRealtimeTranscription.ts:115-156 | `ws.onmessage` calls the `onUtteranceComplete` passed to the `start` that created the socket, so `handleUtteranceComplete` (page.tsx lines 79-104) sees the phase of the render in which the microphone was started | microphone started while idle; later, while awaiting confirmation, the customer says "네 해주세요": the handler reads idle and searches the reply as a new query (`SpokenYesIsSearched`) | the reply is classified by the current phase, so a yes runs the snapshot | high, not executed | ConversationPhase.ConversationController.OnCapturedUtterance | ConversationPhase.ConversationController.OnUtterance |
