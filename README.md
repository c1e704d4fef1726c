# svelte-scanner: the state-machine engine and its scanner, in Dafny

This project models the core of the QR-code scanner component:

- **The promise-based state-machine engine** (`fsm-as-promised`).
  - It compiles a list of event specifications into an event table (`events[name][from] = to`) and a state table. Each state carries the ids of its outstanding self-loops.
  - For conditional events it adds pseudo-states (`from__name`), pseudo-events (`ps--candidate`, `ps--no-choice`) and a choice callback.
  - It runs every trigger as a promise chain: validation, the guard `canTransition`, the leave hooks and bookkeeping, `on<name>`, the enter hooks, the enter bookkeeping, the entered hooks, then `returnValue` or `revert`.
- **The scanner's own machine**: the states `stopped`, `started`, `active` and `inactive`, the conditional event `activate`, and the `Scanner` object's `start`, `stop` and visibility handler that drive it.
- **`cameraName`**: strips a trailing hexadecimal device id from a camera label.
- **`mediaErrorToMessage`**: the fixed error-text lookup with its formatted fallback.

## Layout

| file | module | what it holds |
|---|---|---|
| `wrappers.dfy` | `Wrappers` | `Option`, `Result` |
| `fsm_tables.dfy` | `FsmTables` | The table builder as pure functions (`addState`, `addBasicEvent`, `addConditionalEvent`, `addEvent`, `init`), with lookup lemmas. |
| `fsm_table_props.dfy` | `FsmTableProps` | What the builder promises: the entries of a conditional event for every origin; every origin and destination is a registered state; a compiled machine has no self-loop outstanding. |
| `fsm_runtime.dfy` | `FsmRuntime` | The pipeline as steps on a snapshot of the instance state, in two semantics: `AsWritten` follows the code; `Corrected` repairs the lock and self-loop bookkeeping (see Findings). |
| `fsm_runtime_props.dfy` | `FsmRuntimeProps` | The queries, the order of the chain, the guard, bookkeeping and `revert` as written, choice resolution and `returnValue`. |
| `fsm_exclusion.dfy` | `FsmExclusion` | The exclusion invariant (`Exclusive`) and its proof for every interleaving under the corrected semantics. |
| `fsm_machine.dfy` | `FsmMachine` | The class `Machine`. Its fields are the tables and the instance state. Its builder methods are loops proved equal to `FsmTables`. Its stage methods are proved equal to `FsmRuntime` and keep `Exclusive`. |
| `fsm_findings.dfy` | `FsmFindings` | Concrete runs of the engine as written that break exclusion. |
| `scanner.dfy` | `ScannerMachine` | The scanner's configuration, its compiled tables, which events are legal where, and the `activate` condition. Also the class `Scanner`, whose machine records its run of the engine so that the exclusion result covers it. |
| `camera.dfy` | `CameraLabels` | `cameraName`: a matcher for the device-id pattern, proved equal to the language of the regular expression, with the leftmost match. |
| `error_messages.dfy` | `ErrorMessages` | `mediaErrorToMessage` and its fallback. |

How concurrency is modelled:

- Each link of a trigger's promise chain is one atomic step.
- Several invocations in flight are any interleaving of such steps (`Apply`, `Run`).
- A user callback is opaque. Its outcome is a `Reply`: it resolves (possibly after setting `res`), throws, awaits another trigger of the same machine, or (a condition function) returns a pick.

Where the code differs from the library's own description of itself, the model follows the code:

- A trigger resolves with `options.res || options`, not with the return value of the last callback (`FsmRuntimeProps.ReturnValueSpec`).
- `can` tests the truthiness of `events[name][current]`, so an empty destination counts as illegal.
- `init`'s renaming of an event to its mapping key never runs, because the events are always a list.
- An undefined destination appears in callback names as `undefined`.
- As written, the guard does not serialise the three fields it is meant to protect; see Findings.

## Model

| member | source | states |
|---|---|---|
| CameraLabels.StripIdSuffix | src/lib/instascan/camera.ts:4 | The replace keeps a prefix of the label. The removed tail is matched by `\s*\([0-9a-f]+(:[0-9a-f]+)?\)\s*$`. No position to the left of the cut starts such a match, so the cut is the leftmost match. |
| CameraLabels.DeviceIdDecides | src/lib/instascan/camera.ts:4 | Splitting at the first colon decides `[0-9a-f]+(:[0-9a-f]+)?` exactly, in both directions. |
| CameraLabels.MatchSound | src/lib/instascan/camera.ts:4 | Where the matcher reports a match, the rest of the label is matched by the pattern. |
| CameraLabels.MatchLeftmost | src/lib/instascan/camera.ts:4 | Every position from which the pattern matches lies at or after the one the matcher reports; if the pattern matches anywhere, the matcher finds a match. |
| CameraLabels.NameIsPrefix | src/lib/instascan/camera.ts:3-7 | The camera name is a prefix of the label, and is empty only for an empty label. |
| CameraLabels.SuffixRemoved | src/lib/instascan/camera.ts:4-6 | A label whose leftmost device-id suffix starts at `j > 0` becomes `label[..j]`. The white space before the parenthesis goes too. |
| CameraLabels.NoSuffixUnchanged | src/lib/instascan/camera.ts:4-6 | A label without a device-id suffix is returned unchanged. |
| CameraLabels.EmptyResultFallsBack | src/lib/instascan/camera.ts:6 | A label that is nothing but a device-id suffix is returned whole (`clean \|\| label`). |
| CameraLabels.ExampleStripped | src/lib/instascan/camera.ts:4-6 | `"Cam (1f:a2) "` becomes `"Cam"`. |
| CameraLabels.ExampleUpperCase | src/lib/instascan/camera.ts:4 | Upper-case hex digits are not an id: `"Cam (AB)"` is unchanged. |
| CameraLabels.ExampleOnlyId | src/lib/instascan/camera.ts:6 | `" (1f)"` is kept, because stripping would leave it empty. |
| ErrorMessages.Unknown | src/lib/mapErrorToHumanMessage.ts:12 | The fallback text is exactly `Unknown Error (`, the message, and `)`. |
| ErrorMessages.KnownMessages | src/lib/mapErrorToHumanMessage.ts:1-7 | Each of the five known messages maps to its fixed text. |
| ErrorMessages.PermissionAliases | src/lib/mapErrorToHumanMessage.ts:2-5 | The platform's NotAllowedError message and "Camera Permission denied" map to the same text, although they are different keys. |
| ErrorMessages.FallbackIffUnknown | src/lib/mapErrorToHumanMessage.ts:12 | The text has the fallback's shape if and only if the message is not in the table. No known text looks like a fallback. |
| ErrorMessages.FallbackRoundTrip | src/lib/mapErrorToHumanMessage.ts:12 | The original message can be read back from a fallback text. |
| ErrorMessages.MediaErrorsAreKnown | src/lib/instascan/camera.ts:16-19 | A MediaError built from NotAllowedError, NotReadableError or NotFoundError carries a message that is a table key, so it never reaches the fallback. |
| FsmTables.PutEdges | src/lib/fsm-as-promised/index.ts:330-333 | The origins loop of addBasicEvent creates no row and removes none. |
| FsmTables.InitAborts | src/lib/fsm-as-promised/index.ts:626-637 | Once an event of init's loop throws, the whole init fails with that same error. |
| FsmTables.AddStatesSpec | src/lib/fsm-as-promised/index.ts:424-432 | addState registers exactly the given names. An already registered state keeps its self-loop set; a new one starts empty. |
| FsmTables.PutEdgesLookup | src/lib/fsm-as-promised/index.ts:328-333 | `events[name][f] = to \|\| f` for every origin `f`, and every other entry is unchanged. |
| FsmTables.PlainEventLookup | src/lib/fsm-as-promised/index.ts:314-334 | A plain addEvent creates the row `name`, sets `to \|\| f` for every origin, and leaves the rest of the table alone. |
| FsmTables.PseudoEventInjective | src/lib/fsm-as-promised/index.ts:166-168 | Two pseudo-events of one pseudo-state are equal exactly when their candidates are. |
| FsmTables.PseudoEventNotEvent | src/lib/fsm-as-promised/index.ts:354-372 | A pseudo-event of a pseudo-state of `name` never equals `name`. |
| FsmTables.AddCandidatesFrame | src/lib/fsm-as-promised/index.ts:374-383 | The candidate loop leaves states, pseudo-states and callbacks alone. |
| FsmTables.AddCandidatesLookup | src/lib/fsm-as-promised/index.ts:374-383 | The candidate loop sets `ps--c : ps -> c` for every candidate and no other entry. |
| FsmTables.AddCandidatesRows | src/lib/fsm-as-promised/index.ts:374-383 | After the candidate loop, a row exists exactly for the old rows and the candidates' pseudo-events. |
| FsmTables.AddCandidatesPseudoEvents | src/lib/fsm-as-promised/index.ts:374-383 | Every candidate's pseudo-event maps back to the conditional event; other entries are kept. |
| FsmTables.ChoiceBaseLookup | src/lib/fsm-as-promised/index.ts:354-370 | Before the candidate loop, addConditionalEvent sets `name: f -> ps` (for a non-empty `f`) and `ps--no-choice: ps -> f`, and nothing else. |
| FsmTables.ChoiceBaseRows | src/lib/fsm-as-promised/index.ts:360-370 | The only new rows are `name` and `ps--no-choice`. |
| FsmTables.AddChoiceLookup | src/lib/fsm-as-promised/index.ts:354-383 | For one origin, all the entries addConditionalEvent writes, each with its value, and no other entry. |
| FsmTables.AddChoiceRows | src/lib/fsm-as-promised/index.ts:354-383 | For one origin, exactly which rows exist afterwards. |
| FsmTables.AddChoiceStates | src/lib/fsm-as-promised/index.ts:354-387 | For one origin, the pseudo-state is registered as a state and maps back to `f`, and `onentered<ps>` becomes the choice callback. Nothing else in these tables changes. |
| FsmTables.AddChoicePseudoEvents | src/lib/fsm-as-promised/index.ts:372-381 | The no-choice event and every candidate's pseudo-event map back to the conditional event. |
| FsmTableProps.PseudoStateInjective | src/lib/fsm-as-promised/index.ts:354 | Two origins of one event give the same pseudo-state exactly when they are equal. |
| FsmTableProps.EnteredKeyInjective | src/lib/fsm-as-promised/index.ts:386-387 | Distinct pseudo-states get distinct `onentered` callback keys. |
| FsmTableProps.AddChoiceRegisters | src/lib/fsm-as-promised/index.ts:354-422 | After addConditionalEvent for origin `f`, every promised entry is in place: the pseudo-state, the state, the callback, every edge, and every pseudo-event link. |
| FsmTableProps.AddChoiceFrame | src/lib/fsm-as-promised/index.ts:354-383 | addConditionalEvent for origin `g` changes no entry except row `name` at `g` and the rows at `g`'s pseudo-state. |
| FsmTableProps.AddChoicePreserves | src/lib/fsm-as-promised/index.ts:343-353 | A later origin does not disturb the entries of an earlier, different origin. |
| FsmTableProps.AddChoicesRegister | src/lib/fsm-as-promised/index.ts:343-353 | Every origin of a list-valued `from` ends up with its choice registered. |
| FsmTableProps.EnsureRowLookup | src/lib/fsm-as-promised/index.ts:315 | Creating the row of an event changes no lookup. |
| FsmTableProps.ConditionalEventRegisters | src/lib/fsm-as-promised/index.ts:314-320 | addEvent of a conditional event never fails, creates its row, and registers the choice of every origin. |
| FsmTableProps.PlainEventSpec | src/lib/fsm-as-promised/index.ts:314-334 | addEvent without a condition fails, with "Ambigous transition", if and only if `to` is a list. Otherwise it sets `events[name][f] = to \|\| f` for every origin and changes no other entry or table. |
| FsmTableProps.AddChoicesStates | src/lib/fsm-as-promised/index.ts:354-358 | The origins loop keeps every state and registers every origin's pseudo-state. |
| FsmTableProps.InitOneClosed | src/lib/fsm-as-promised/index.ts:630-635 | One iteration of init (addEvent, addState(from), addState(to)) keeps every origin and destination in the table registered as a state. |
| FsmTableProps.InitClosed | src/lib/fsm-as-promised/index.ts:626-637 | init's whole loop keeps the tables closed. |
| FsmTableProps.BuildClosed | src/lib/fsm-as-promised/index.ts:616-639 | In a compiled configuration, every `events[n][s] = v` has both `s` and `v` registered as states. |
| FsmTableProps.BuildIdle | src/lib/fsm-as-promised/index.ts:424-432 | Every state of a compiled configuration starts with an empty self-loop set. |
| FsmTableProps.PlainStepSpec | src/lib/fsm-as-promised/index.ts:626-637 | An init iteration for an event with a scalar `to` succeeds and writes only its own row. It keeps the states and leaves the pseudo tables and callbacks alone. |
| FsmTableProps.AddChoicesNameRow | src/lib/fsm-as-promised/index.ts:343-364 | The row of a conditional event maps every non-empty origin to its pseudo-state. |
| FsmTableProps.ConditionalStepRow | src/lib/fsm-as-promised/index.ts:626-637 | An init iteration for a conditional event succeeds. It writes its own row as above and keeps the rows of names too short to be its pseudo-events. |
| FsmTableProps.ConditionalStepChoice | src/lib/fsm-as-promised/index.ts:626-637 | An init iteration for a conditional event registers the choice of every origin. |
| FsmTableProps.PlainStepKeepsChoice | src/lib/fsm-as-promised/index.ts:626-637 | A later plain event whose name cannot be one of a choice's pseudo-events leaves that choice registered. |
| FsmRuntime.TypeOf | src/lib/fsm-as-promised/index.ts:149-157 | NOOP exactly when `to` is undefined or equals `from`. GENERAL exactly when it is not NOOP and `from` is `*`. Otherwise INTER. So `* -> *` is NOOP. |
| FsmRuntimeProps.CanLeadsToState | src/lib/fsm-as-promised/index.ts:223-228 | In closed tables, a legal event starts from a registered state and leads to one. `cannot` is the negation of `can`. |
| FsmRuntimeProps.CannotCases | src/lib/fsm-as-promised/index.ts:223-228 | `can` fails for an unknown event and for a missing origin. Otherwise it holds if and only if the destination is non-empty. |
| FsmRuntimeProps.IsFinalSpec | src/lib/fsm-as-promised/index.ts:235-241 | An absent or empty argument asks about `current`. Otherwise the argument must equal a single `final`, or be in a list of them. Without a `final` no state is final. |
| FsmRuntimeProps.InitialSpec | src/lib/fsm-as-promised/index.ts:639 | A new instance is in `initial`, unlocked, with nothing in flight and nothing emitted, and knows exactly the compiled states. |
| FsmRuntimeProps.StagesOrder | src/lib/fsm-as-promised/index.ts:515-572 | The chain runs in this order: validation, then the guard, then the leave hooks, the leave bookkeeping, `on<name>` and the enter hooks, then the enter bookkeeping, then the entered hooks. Only configured hooks appear. `onenter`/`onentered` are skipped for a pseudo-state. |
| FsmRuntimeProps.IdSpec | src/lib/fsm-as-promised/index.ts:503-505 | As written, an id is assigned exactly when `from == to`; corrected, exactly for a NOOP. The id is the trigger's own token. |
| FsmRuntimeProps.GuardAsWritten | src/lib/fsm-as-promised/index.ts:196-222 | canTransition as written, in both directions: when each kind passes, that only a passing INTER sets the lock, the error a failure raises, and that nothing else changes. |
| FsmRuntimeProps.GuardError | src/lib/fsm-as-promised/index.ts:200-217 | The guard's error is a TypeError exactly when an INTER runs from an unregistered state. Otherwise it is the FsmError canTransition raises first. |
| FsmRuntimeProps.LeaveAsWritten | src/lib/fsm-as-promised/index.ts:268-280 | onleavestate adds a NOOP's id to the current state's set; for other kinds it changes nothing. |
| FsmRuntimeProps.EnterAsWritten | src/lib/fsm-as-promised/index.ts:250-267 | onenterstate as written. A NOOP removes its id from the current state's set. Any other kind clears the lock and moves to `to`, emitting `to` unless it is a pseudo-state. Nothing else changes. |
| FsmRuntimeProps.RevertAsWritten | src/lib/fsm-as-promised/index.ts:284-306 | This instance's own invalid-event error skips the cleanup. Otherwise an INTER clears the lock and a NOOP deletes its id from the current state. The original error is rethrown, unless the deletion itself throws. |
| FsmRuntimeProps.RevertCorrected | src/lib/fsm-as-promised/index.ts:284-306 | Corrected revert rethrows the original error and releases only the lock and slot the invocation holds. |
| FsmRuntimeProps.SkipsCleanupSpec | src/lib/fsm-as-promised/index.ts:179-195 | Cleanup is skipped exactly for an FsmError "Invalid event in current state" carrying this instance's id. |
| FsmRuntimeProps.ResolveSpec | src/lib/fsm-as-promised/index.ts:403-409 | A number selects the candidate at that index if there is one. A string selects itself if it is a candidate. Anything else, including a negative or out-of-range index, selects nothing. |
| FsmRuntimeProps.ChoiceLeadsTo | src/lib/fsm-as-promised/index.ts:399-421 | With a registered choice, the fired pseudo-event goes from the pseudo-state to the picked candidate, or back to the origin when nothing was picked. Either way it maps back to the conditional event. |
| FsmRuntimeProps.NoChoiceFails | src/lib/fsm-as-promised/index.ts:410-413 | After the no-choice event resolves, the choice callback fails with "Choice index out of range". |
| FsmRuntimeProps.ResumeContinues | src/lib/fsm-as-promised/index.ts:414-418 | A resolved nested trigger lets the awaiting chain go on to its next link. |
| FsmRuntimeProps.ChoiceSpawnsChild | src/lib/fsm-as-promised/index.ts:410-418 | The choice callback fires its pseudo-event as a nested trigger and waits for it. A chosen candidate's pseudo-event gets the invocation's arguments; the no-choice event gets none. The wait fails afterwards exactly when nothing was chosen. |
| FsmRuntimeProps.RunSnoc | src/lib/fsm-as-promised/index.ts:476-574 | Running one more action after a run of the engine, under either semantics. |
| FsmRuntimeProps.RunAppend | src/lib/fsm-as-promised/index.ts:476-574 | A run of `xs + ys` is a run of `xs` followed by a run of `ys`, under either semantics. |
| FsmRuntimeProps.ReturnValueSpec | src/lib/fsm-as-promised/index.ts:281-283 | The trigger resolves with `res` when it is set and non-empty, and with the options object otherwise. |
| FsmExclusion.StagesShaped | src/lib/fsm-as-promised/index.ts:515-572 | Every chain starts with validation and the guard, has no second guard, and enters its state once after them. |
| FsmExclusion.TriggerPreserves | src/lib/fsm-as-promised/index.ts:484-514 | Triggering an event keeps the exclusion invariant: the lock is set exactly while one INTER holds it, and the self-loop sets hold exactly the ids of the NOOPs registered in them. |
| FsmExclusion.ValidatePreserves | src/lib/fsm-as-promised/index.ts:242-248 | isValidEvent keeps the invariant. |
| FsmExclusion.GuardPreserves | src/lib/fsm-as-promised/index.ts:196-222 | The corrected guard keeps the invariant. |
| FsmExclusion.LeavePreserves | src/lib/fsm-as-promised/index.ts:268-280 | The corrected onleavestate keeps the invariant. |
| FsmExclusion.EnterPreserves | src/lib/fsm-as-promised/index.ts:250-267 | The corrected onenterstate keeps the invariant. |
| FsmExclusion.AssignPreserves | src/lib/fsm-as-promised/index.ts:433-475 | A callback setting `res` keeps the invariant. |
| FsmExclusion.SpawnPreserves | src/lib/fsm-as-promised/index.ts:411-418 | A callback awaiting a nested trigger keeps the invariant. |
| FsmExclusion.CallPreserves | src/lib/fsm-as-promised/index.ts:521-569 | Every outcome of a hook keeps the invariant: resolve, set `res`, throw, await, or pick. |
| FsmExclusion.AdvancePreserves | src/lib/fsm-as-promised/index.ts:515-572 | Any link of any chain keeps the invariant. |
| FsmExclusion.RevertReleases | src/lib/fsm-as-promised/index.ts:284-306 | The corrected revert releases exactly what the invocation holds and leaves other invocations' holdings alone. |
| FsmExclusion.ResumePreserves | src/lib/fsm-as-promised/index.ts:411-418 | Resuming or failing an awaiting chain keeps the invariant. |
| FsmExclusion.SettlePreserves | src/lib/fsm-as-promised/index.ts:570-571 | `returnValue` and `catch(revert)` keep the invariant. |
| FsmExclusion.InitialExclusive | src/lib/fsm-as-promised/index.ts:616-639 | A new instance over tables with empty self-loop sets satisfies the invariant. |
| FsmExclusion.StepPreserves | src/lib/fsm-as-promised/index.ts:476-574 | Triggering, advancing any chain and settling any chain all keep the invariant. |
| FsmExclusion.InterGuard | src/lib/fsm-as-promised/index.ts:206-217 | Under the invariant, an INTER passes the guard exactly when `current` is a known state, no other invocation holds the lock, and no NOOP is registered in `current`. |
| FsmExclusion.NoopGuard | src/lib/fsm-as-promised/index.ts:201-205 | Under the invariant, a NOOP passes the guard exactly when `current` is known and no other invocation holds the lock. |
| FsmExclusion.Quiescent | src/lib/fsm-as-promised/index.ts:207-216 | With nothing in flight, the lock is clear and no self-loop id is left in any state. |
| FsmExclusion.ApplyPreserves | src/lib/fsm-as-promised/index.ts:476-574 | Every enabled action keeps the invariant. |
| FsmExclusion.RunPreserves | src/lib/fsm-as-promised/index.ts:476-574 | Every interleaving of actions keeps the invariant. |
| FsmExclusion.ReachableExclusive | src/lib/fsm-as-promised/index.ts:616-643 | Every state reachable from a freshly built machine satisfies the invariant. |
| FsmMachine.Machine.constructor | src/lib/fsm-as-promised/index.ts:131-143 | Before init the object has empty tables except the user's callbacks, `current == initial`, and nothing in flight. It already satisfies `Valid`. |
| FsmMachine.Machine.AddState | src/lib/fsm-as-promised/index.ts:424-432 | The loop leaves `states` equal to the addState specification and changes no other field. |
| FsmMachine.Machine.AddBasicEdges | src/lib/fsm-as-promised/index.ts:330-333 | The origins loop leaves `events` equal to the addBasicEvent specification. |
| FsmMachine.Machine.AddPlain | src/lib/fsm-as-promised/index.ts:314-334 | A plain addEvent: the row, then the edges. |
| FsmMachine.Machine.AddPseudoState | src/lib/fsm-as-promised/index.ts:354-358 | Records the pseudo-state's origin and registers it as a state. |
| FsmMachine.Machine.AddChoiceBase | src/lib/fsm-as-promised/index.ts:354-372 | The fields equal the specification of addConditionalEvent up to the candidate loop. |
| FsmMachine.Machine.AddCandidateEvents | src/lib/fsm-as-promised/index.ts:374-383 | The candidate loop leaves the tables equal to its specification. |
| FsmMachine.Machine.AddCandidateEvent | src/lib/fsm-as-promised/index.ts:375-381 | One iteration of the candidate loop. |
| FsmMachine.Machine.AddChoiceAt | src/lib/fsm-as-promised/index.ts:354-422 | addConditionalEvent for one origin, including the choice callback. |
| FsmMachine.Machine.AddConditional | src/lib/fsm-as-promised/index.ts:343-353 | The origins loop of a list-valued `from`. |
| FsmMachine.Machine.AddEvent | src/lib/fsm-as-promised/index.ts:314-334 | addEvent. The new tables on success, or the "Ambigous transition" error, as the specification gives them. |
| FsmMachine.Machine.Init | src/lib/fsm-as-promised/index.ts:622-637 | init's loop. The tables equal the compiled configuration, or the first error is returned. The instance state is unchanged. |
| FsmMachine.Machine.Proceed | src/lib/fsm-as-promised/index.ts:515-569 | A link succeeded: the chain moves on. |
| FsmMachine.Machine.Reject | src/lib/fsm-as-promised/index.ts:571 | A link threw: the chain goes to its `catch`. |
| FsmMachine.Machine.Register | src/lib/fsm-as-promised/index.ts:484-514 | A trigger captures `from`, `to`, the id and the chain, resets a shared `res`, and gets the next token. |
| FsmMachine.Machine.Enqueue | src/lib/fsm-as-promised/index.ts:446-447 | The invocation is queued; a pseudo-state destination's `res` starts over. |
| FsmMachine.Machine.TriggerEvent | src/lib/fsm-as-promised/index.ts:484-514 | Calling an event's method keeps `Valid` (the exclusion invariant) and starts a running chain at its first link. |
| FsmMachine.Machine.ValidateStage | src/lib/fsm-as-promised/index.ts:242-248 | isValidEvent when the chain reaches it. |
| FsmMachine.Machine.GuardStage | src/lib/fsm-as-promised/index.ts:196-222 | The corrected canTransition. |
| FsmMachine.Machine.EnterStage | src/lib/fsm-as-promised/index.ts:250-267 | The corrected onenterstate. |
| FsmMachine.Machine.MoveTo | src/lib/fsm-as-promised/index.ts:258-263 | Clears the lock if held, sets `current := to`, and emits `to` unless it is a pseudo-state. |
| FsmMachine.Machine.AssignRes | src/lib/fsm-as-promised/index.ts:433-475 | A callback set `res`. For `pOptions` and pseudo-state destinations it goes into `responses`, otherwise onto the invocation. |
| FsmMachine.Machine.SpawnChild | src/lib/fsm-as-promised/index.ts:411-418 | A callback awaits a nested trigger of the same machine. |
| FsmMachine.Machine.CallStage | src/lib/fsm-as-promised/index.ts:521-569 | A hook link with the callback's outcome. |
| FsmMachine.Machine.AdvanceStage | src/lib/fsm-as-promised/index.ts:515-572 | Any link of any chain keeps `Valid` and equals the step specification. |
| FsmMachine.Machine.Release | src/lib/fsm-as-promised/index.ts:284-306 | The corrected revert. |
| FsmMachine.Machine.ResumeParent | src/lib/fsm-as-promised/index.ts:411-418 | A settled nested trigger resumes or fails the chain awaiting it. |
| FsmMachine.Machine.SettleInvocation | src/lib/fsm-as-promised/index.ts:570-571 | The end of a chain keeps `Valid` and equals the settle specification. |
| FsmMachine.Machine.Conclude | src/lib/fsm-as-promised/index.ts:570-571 | `returnValue` or `revert`, then the invocation leaves the machine. |
| FsmMachine.Create | src/lib/fsm-as-promised/index.ts:616-643 | Creating a machine succeeds exactly when the configuration compiles, and otherwise returns the builder's error. A new machine has the compiled tables, is in its initial state and is `Valid`. |
| FsmFindings.FirstGoLocks | src/lib/fsm-as-promised/index.ts:206-217 | As written, a `go` from A passes its guard and takes the lock. |
| FsmFindings.SecondGoFails | src/lib/fsm-as-promised/index.ts:213-215 | A second `go` fails its guard with "Previous inter-state transition started". |
| FsmFindings.FailedRevertUnlocks | src/lib/fsm-as-promised/index.ts:290-295 | The failed `go`'s revert clears the lock the first `go` holds. |
| FsmFindings.ThirdGoPasses | src/lib/fsm-as-promised/index.ts:206-217 | A third `go` then passes its guard. |
| FsmFindings.GuardFailureUnlocks | src/lib/fsm-as-promised/index.ts:284-306 | Counterexample F1: two INTER invocations past their guards at once. |
| FsmFindings.SelfLoopLeaks | src/lib/fsm-as-promised/index.ts:250-280 | Counterexample F2: a self-loop's id stays in A after every invocation has settled. |
| FsmFindings.LateFailureUnlocks | src/lib/fsm-as-promised/index.ts:556-571 | Counterexample F3: two `back` invocations past their guards at once. |
| ScannerMachine.BuildsScannerTables | src/lib/instascan/scanner.ts:317-363 | The scanner's configuration compiles without error to the tables built event by event. |
| ScannerMachine.StartLegal | src/lib/instascan/scanner.ts:321-325 | `start` is legal only from `stopped`, and leads to `started`. |
| ScannerMachine.StopLegal | src/lib/instascan/scanner.ts:326-330 | `stop` is legal exactly from `started`, `active` and `inactive`, not from `stopped`, and leads to `stopped`. |
| ScannerMachine.ActivateLegal | src/lib/instascan/scanner.ts:331-342 | `activate` is legal exactly from `started` and `inactive`, and leads to that origin's choice pseudo-state. |
| ScannerMachine.DeactivateLegal | src/lib/instascan/scanner.ts:343-347 | `deactivate` is legal exactly from `started` and `active`, and leads to `inactive`. |
| ScannerMachine.ActivateChoices | src/lib/instascan/scanner.ts:331-342 | From both origins, `activate` goes through a registered choice over `active` and `inactive`. |
| ScannerMachine.ActivateCondition | src/lib/instascan/scanner.ts:335-341 | The condition picks a candidate by name, and picks `active` exactly when the page is visible or the receiver's `backgroundScan` is truthy. |
| ScannerMachine.ConditionAsCalled | src/lib/instascan/scanner.ts:335-341 | The condition as the engine calls it, with the machine's target as `this`. |
| ScannerMachine.ConditionIgnoresBackgroundScan | src/lib/instascan/scanner.ts:336 | As called, the condition picks `active` exactly when the page is visible, whatever `backgroundScan` is. |
| ScannerMachine.BackgroundScanIgnored | src/lib/instascan/scanner.ts:336 | Counterexample F4: on a hidden page with background scanning on, the condition as called picks `inactive`; the intended condition picks `active`. |
| ScannerMachine.ActivateResolves | src/lib/instascan/scanner.ts:331-342 | With the scanner as receiver, `activate` from either origin fires the pseudo-event leading to `active` when the page is visible or background scanning is on, and to `inactive` otherwise. |
| ScannerMachine.FirstArg | src/lib/instascan/scanner.ts:359 | `options.args[0]` is the first argument, or `undefined` when there is none. |
| ScannerMachine.StartedHook | src/lib/instascan/scanner.ts:358-360 | Entering `started` awaits `activate`, with the camera the machine was started with. |
| ScannerMachine.StartedHookLegal | src/lib/instascan/scanner.ts:358-360 | That `activate` is legal in `started`. |
| ScannerMachine.EnteredActiveHook | src/lib/instascan/scanner.ts:350-353 | `onenteractive` fails exactly when enabling the scan fails, and otherwise resolves without a result. |
| ScannerMachine.LeaveActiveHook | src/lib/instascan/scanner.ts:354-357 | `onleaveactive` resolves without a result. |
| ScannerMachine.StartAlwaysLegal | src/lib/instascan/scanner.ts:216-217 | A fresh scanner machine is in `stopped`, where `start` is legal, so the stop-then-start branch never runs. |
| ScannerMachine.ScannerExclusive | src/lib/instascan/scanner.ts:317-363 | Every run of the scanner's machine, under the corrected engine, keeps transitions mutually exclusive. |
| ScannerMachine.StopHeadsForStopped | src/lib/instascan/scanner.ts:326-330 | A legal `stop` starts an invocation headed for `stopped`. |
| ScannerMachine.Fresh | src/lib/instascan/scanner.ts:216 | A freshly created machine over the given tables is in its initial state `stopped`, unlocked, with nothing in flight, and carries the given number. |
| ScannerMachine.FireOn | src/lib/instascan/scanner.ts:218 | Firing an event adds one running invocation at its first link, from the current state towards the table's destination, and changes nothing else. |
| ScannerMachine.ScannerStartReady | src/lib/instascan/scanner.ts:317-325 | The scanner's compiled tables have no self-loop outstanding, and `start` leads from `stopped` to `started`. |
| ScannerMachine.TracedFirst | src/lib/fsm-as-promised/index.ts:476-514 | On a machine in its initial state, with no transition outstanding, the first legal event fired starts its run. That snapshot keeps transitions exclusive. |
| ScannerMachine.TracedStart | src/lib/instascan/scanner.ts:216-218 | `start` on a fresh machine over ready tables is the first action of the machine's run, keeps it exclusive, and heads for `started`. |
| ScannerMachine.TracedFire | src/lib/instascan/scanner.ts:187-193 | Calling a legal event's method, as the scanner does, is exactly the engine's `Fire` action. It extends the machine's run and keeps it exclusive. |
| ScannerMachine.TracedRun | src/lib/fsm-as-promised/index.ts:515-572 | Any enabled actions of the engine (links, settlements, nested triggers) extend the machine's run and keep it exclusive. |
| ScannerMachine.Scanner.constructor | src/lib/instascan/scanner.ts:173 | `backgroundScan` is on unless the option is exactly `false`. There is no machine yet, and the object is `Valid`: its tables are ready for `start`. |
| ScannerMachine.Scanner.Condition | src/lib/instascan/scanner.ts:335-341 | The condition with the scanner as receiver picks `active` exactly when the page is visible or `backgroundScan` is on. |
| ScannerMachine.Scanner.Start | src/lib/instascan/scanner.ts:215-223 | Builds a fresh machine and fires `start` with the camera, headed for `started`. The fallback branch is unreachable, because `start` is legal in a fresh machine. Afterwards the machine's run is recorded and exclusive (`Valid`). |
| ScannerMachine.Scanner.Progress | src/lib/fsm-as-promised/index.ts:515-572 | The engine runs the given actions on the scanner's current machine. This succeeds exactly when there is a machine and every action is enabled. Success gives the snapshot the run reaches, extends the recorded run and keeps the machine exclusive; otherwise nothing changes. |
| ScannerMachine.Scanner.FireIfLegal | src/lib/instascan/scanner.ts:226-228 | `if (can(name)) fsm[name]()`: fires the event exactly when it is legal in the current state, and keeps the machine's run recorded and exclusive. |
| ScannerMachine.Scanner.Stop | src/lib/instascan/scanner.ts:225-229 | Fires `stop` only when it is legal. Without a machine the call fails. Keeps the machine's run recorded and exclusive. |
| ScannerMachine.Scanner.VisibilityChanged | src/lib/instascan/scanner.ts:184-196 | Visible: fires `activate` if it is legal. Hidden: fires `deactivate` if background scanning is off and it is legal. Without a machine the call fails, unless the page is hidden with background scanning on. Keeps the machine's run recorded and exclusive. |

## Left out

- Promises, microtasks and `setTimeout`. Each link of a chain is one atomic step, and concurrency is any interleaving of steps. The deferred `activate` of the visibility handler is fired directly.
- The bodies of user callbacks and condition functions. Their outcomes are parameters (`Reply`). What the scanner's own hooks do to the video element and the scan loop is left out.
- `uuid` ids: a NOOP's id is its invocation's token. The instance id is a parameter.
- `EventEmitter.emit`: the emitted states are recorded in `emitted`.
- stampit composition, `initTarget`, and the getters and setters of `preprocessPseudoState`/`preprocessPseudoEvent`:
  - Triggering by name takes the event name as an argument.
  - `res` lives either on the invocation or in `responses`, as the getters direct it.
  - stampit is not part of this model.
- The per-instance tables. stampit shares the `pseudoStates`, `pseudoEvents`, `callbacks` and `responses` objects between all machines made from the same factory. The model gives each machine its own tables.
- `addEvents` (index.ts:309-313): it calls a method that does not exist and is never used.
- The fields other than the message and the instance id that `error` (index.ts:172-178) copies onto an `FsmError`.
- ScannerMachine.Scanner.constructor: it takes the tables as a parameter, required to be ready for `start`, rather than compiling them from the fixed configuration. The scanner's own compiled tables (`ScannerTables`) meet that requirement by `ScannerStartReady`, and `BuildsScannerTables` ties them to the configuration.
- JavaScript prototype keys (`constructor` and the like) as event names, state names or messages.
- FsmRuntime.Can: for an event name that is not in the table, the code throws a TypeError; the model answers `false`. The engine itself only consults configured events.
- `ScanProvider`, `Analyzer`, the video element, the canvas and the refractory timer in scanner.ts, and the camera I/O in camera.ts (`start`, `stop`, `getCameras`): browser I/O.
- store.ts: `localStorage` and JSON.
- The `console` calls.
- ScannerMachine.Scanner.Start: the fallback (scanner.ts:219-222, `stop` and then `start`) is not modelled. It is unreachable because a fresh machine is in `stopped`, where `start` is legal (`StartAlwaysLegal`, `StartReady`). The model therefore also does not capture that the fallback would wait for `stop` to settle, and would call nothing more if `stop` rejected.
- ScannerMachine.StartedHook: `onenteredstarted` triggers `activate` on `this._fsm`, the scanner's current machine (scanner.ts:359). A second `start` replaces that machine (scanner.ts:216), so after a restart before the hook runs, the hook triggers the new machine. The model's `Await` always triggers the machine whose hook is running.
- FsmMachine.Machine: the class runs the corrected semantics only. The as-written semantics exists as functions (`FsmRuntime`, with `AsWritten`) and is what the findings are stated about.

## Findings

| source | as written | input that shows it | evidently intended | confidence | as-written member | corrected member |
|---|---|---|---|---|---|---|
| src/lib/fsm-as-promised/index.ts:290-295 | The revert of an INTER whose guard failed clears `inTransition`, although the lock belongs to another INTER. | Machine A→B with `go`. Fire `go` and run it past its guard. Fire a second `go` (it fails with "Previous inter-state transition started") and settle it. Fire a third `go`: it passes its guard while the first is still running. | A failing invocation releases only the lock it took. | not executed | FsmFindings.GuardFailureUnlocks | FsmRuntimeProps.RevertCorrected, FsmExclusion.ReachableExclusive |
| src/lib/fsm-as-promised/index.ts:250-280 | A self-loop registers its id in onleavestate, a link after the guard, and removes it from whatever state is current at onenterstate. An INTER that passes its guard in between moves the machine, so the id stays behind in the old state. | Fire `stay` (A→A) and run it through its guard. Fire `go` and run it through its guard. Then `stay` leaves, `go` leaves and enters B, and `stay` enters and settles. The id of `stay` remains in A forever, and every later INTER out of A fails with "Previous transition pending". | The id is registered in the guard itself and removed from the state it was registered in. | not executed | FsmFindings.SelfLoopLeaks | FsmExclusion.NoopGuard, FsmExclusion.Quiescent, FsmExclusion.ReachableExclusive |
| src/lib/fsm-as-promised/index.ts:556-571 | A hook that fails after onenterstate makes revert clear `inTransition`, which by then belongs to another INTER. | `go` enters B. `back` takes the lock. `go`'s `onenteredB` throws and its revert clears the lock. A second `back` passes its guard beside the first. | Only a lock the failing invocation still holds is released. | not executed | FsmFindings.LateFailureUnlocks | FsmRuntimeProps.RevertCorrected, FsmExclusion.ReachableExclusive |
| src/lib/instascan/scanner.ts:335-341 | The condition of `activate` reads `this.backgroundScan`, but the engine calls it with the machine's own target as `this`, so the scanner's option is never seen. | Hidden page, `backgroundScan` on: `activate` resolves to `inactive`. | The scanner's `backgroundScan` decides, as the visibility handler does. | not executed | ScannerMachine.BackgroundScanIgnored | ScannerMachine.ActivateResolves, ScannerMachine.Scanner.Condition |
