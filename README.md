# Escape-room session model

A Dafny model of the escape-room game backend and of the small pure rules in its web client.

The backend keeps one `GameSession` entity per play-through. It holds a stage string (`CELL`, then
`DESK`, then `ESCAPED`), three inventory flags, four lock flags and a map of inspection counts. The
player moves it with four actions:

- opening one of four combination locks, each with a fixed code and a prerequisite;
- using the rod to fish the desk key through the bars;
- inspecting an area, which counts the inspection and picks a text by stage, flags and count. A request with stage CELL, sent while the drawer is open and no rod is held, also grants the rod once that (stage, area) count reaches 5 or more;
- two free-form endpoints: an explicit stage transition and a partial state overwrite.

A separate trivia service records finished runs after checking them.

The model keeps the source's form:

- `GameSession` is a class whose fields the service methods update in place (`modifies session`).
- The repositories are classes holding maps and lists: `SessionStore` and `EscapeRunStore`.
- Each mutating method is proved against a pure function of the old state. Examples are `CellDoorAttempt`, `RodUse`, `InspectEffect`, `Merge` and `Transition`.
- The properties are proved about those functions.

The central invariant is `GameSessionModel.Consistent`. It says the stage is one of the three names,
the locks open in order, the rod and key are held only after the drawer opens, and the cell door and
final door flags match the stage. `Progressed` says no lock is relocked, no item is lost and the stage
never moves back. Every lock validator, item use and inspection keeps `Consistent` and is `Progressed`.
`GameController.ReplayPreserves` extends this to any sequence of those actions. The two free-form
endpoints keep neither: `MergeCanSkipLocks`, `MergeCanRelock`, `TransitionBackToCell` and
`TransitionToUnknownStage` give concrete inputs that break them. `TransitionConsistentOnlyAsNoOp`
shows that a transition which keeps a consistent session consistent changes nothing.

Where the code and the design description of the system differ, the model follows the code:

- Lock answers are trimmed (Java `trim`) before comparison.
- An already-open lock is re-evaluated, not accepted unconditionally. A wrong code for an open lock returns false. Once the session is `ESCAPED`, resubmitting the desk-drawer or final-door code returns false (`DeskLocksAfterEscape`).
- There are no stage-mismatch, terminal-session or item-not-held errors. Inspection uses the stage sent with the request, so the rod can be granted whatever the session's stage is. Item use on an escaped session simply fails.
- `transitionStage` checks only the DESK and ESCAPED targets, and `updateGameState` writes whatever the client sends (up to the stage column's 20-character limit, see "Left out").

A save of a stored session (`GameSession.Save`) runs the timestamp hook only when some game field
changed since the session was stored, as JPA's dirty check does; `SavedAt` states the timestamps
after such a save. The clock is a `now: nat` parameter of every operation that saves. The random text choice is a
nondeterministic pick (`:|`) from the list. The frontend's JSON game state (`GameStateDTO`) has
nullable fields, modelled as `Option`. Truthiness of a boolean that may be missing is `Truthy`.

## Model

| member | source | states |
|---|---|---|
| LockValidationService.CellDrawerAttempt | backend/src/main/java/com/escaperoom/backend/Service/LockValidationService.java:19-27 | correct iff the trimmed answer is "1247"; keeps `Consistent`; never relocks or moves back |
| LockValidationService.ValidateCellDrawer | backend/src/main/java/com/escaperoom/backend/Service/LockValidationService.java:19-27 | on success only `cellDrawerUnlocked` is set and the session is saved at `now`; on failure the session is untouched |
| LockValidationService.CellDoorAttempt | backend/src/main/java/com/escaperoom/backend/Service/LockValidationService.java:30-48 | correct iff the drawer is open and the trimmed answer is "3589"; success opens the door and moves CELL to DESK, nothing else changing; failure changes nothing; keeps `Consistent`; progresses |
| LockValidationService.ValidateCellDoor | backend/src/main/java/com/escaperoom/backend/Service/LockValidationService.java:30-48 | with the drawer locked: false and no change; on success exactly the door flag is set and CELL becomes DESK (any other stage is kept), saved at `now`; otherwise untouched |
| LockValidationService.DeskDrawerAttempt | backend/src/main/java/com/escaperoom/backend/Service/LockValidationService.java:51-63 | correct iff stage is DESK and the trimmed answer is "4729"; keeps `Consistent`; progresses |
| LockValidationService.ValidateDeskDrawer | backend/src/main/java/com/escaperoom/backend/Service/LockValidationService.java:51-63 | on success only `deskDrawerUnlocked` is set and saved; otherwise untouched |
| LockValidationService.FinalDoorAttempt | backend/src/main/java/com/escaperoom/backend/Service/LockValidationService.java:66-89 | correct iff desk drawer open, stage DESK and trimmed answer "8264"; success ends in ESCAPED; keeps `Consistent`; progresses |
| LockValidationService.ValidateFinalDoor | backend/src/main/java/com/escaperoom/backend/Service/LockValidationService.java:66-89 | on success exactly `finalDoorUnlocked` and stage ESCAPED change, saved at `now`; otherwise untouched |
| LockValidationService.GetLockName | backend/src/main/java/com/escaperoom/backend/Service/LockValidationService.java:91-99 | the four lock ids map to their camel-case names; every other id maps to null |
| LockValidationService.LockNamesDistinct | backend/src/main/java/com/escaperoom/backend/Service/LockValidationService.java:91-99 | two ids with the same non-null name are the same id |
| LockValidationService.CellLocksIdempotent | backend/src/main/java/com/escaperoom/backend/Service/LockValidationService.java:19-48 | resubmitting a correct cell-drawer or cell-door code returns true again and changes nothing more |
| LockValidationService.DeskLocksAfterEscape | backend/src/main/java/com/escaperoom/backend/Service/LockValidationService.java:51-89 | a correct desk-drawer code can be repeated in DESK; after the final door the same final-door code is refused, and in ESCAPED the desk drawer refuses every answer |
| LockValidationService.CellDoorBeforeDrawer | backend/src/main/java/com/escaperoom/backend/Service/LockValidationService.java:30-34 | on a new session the cell door refuses every answer and nothing changes |
| ItemUsageService.ItemUse | backend/src/main/java/com/escaperoom/backend/Service/ItemUsageService.java:19-27 | "rod" in any case goes to the rod rule; "deskKey"/"key" go to the key rule; anything else fails with no change; keeps `Consistent`; progresses |
| ItemUsageService.UseItem | backend/src/main/java/com/escaperoom/backend/Service/ItemUsageService.java:19-27 | the session ends as `ItemUse` says; saved on success, untouched on failure |
| ItemUsageService.RodUse | backend/src/main/java/com/escaperoom/backend/Service/ItemUsageService.java:29-51 | succeeds iff stage CELL, rod held, drawer open, no key and target null, "desk" or "key" (ignoring case); success grants the key |
| ItemUsageService.UseRod | backend/src/main/java/com/escaperoom/backend/Service/ItemUsageService.java:29-51 | on success exactly `hasDeskKey` becomes true and the session is saved; otherwise untouched |
| ItemUsageService.SecondRodUseFails | backend/src/main/java/com/escaperoom/backend/Service/ItemUsageService.java:41-50 | after a successful rod use, using it again fails and changes nothing |
| ItemUsageService.DeskKeyUse | backend/src/main/java/com/escaperoom/backend/Service/ItemUsageService.java:53-67 | the desk key always fails and leaves the state as it was |
| ItemUsageService.UseDeskKey | backend/src/main/java/com/escaperoom/backend/Service/ItemUsageService.java:53-67 | returns false and does not modify the session |
| ItemUsageService.RodAcquired | backend/src/main/java/com/escaperoom/backend/Service/ItemUsageService.java:69-75 | the rod is held afterwards iff it was held or the drawer is open; nothing else changes; keeps `Consistent` |
| ItemUsageService.RodAcquiredIdempotent | backend/src/main/java/com/escaperoom/backend/Service/ItemUsageService.java:69-75 | acquiring the rod twice is the same as once |
| ItemUsageService.AcquireRod | backend/src/main/java/com/escaperoom/backend/Service/ItemUsageService.java:69-75 | sets the rod and saves only when the drawer is open and no rod is held; otherwise untouched |
| InspectionService.InspectionText | backend/src/main/java/com/escaperoom/backend/Service/InspectionService.java:28-34 | CELL and DESK use their own rules; every other stage, null included, gets "You look around, but nothing stands out." |
| InspectionService.CellText | backend/src/main/java/com/escaperoom/backend/Service/InspectionService.java:37-82 | count ≤ 3 gives one of five flavour texts; drawer locked at count 4 gives the drawer hint; drawer open, no rod, count ≥ 5 gives the rod hint; rod without key at count ≥ 6 gives the key hint; key held at count ≥ 7 gives the key text; past 3 with no hint due, an open cell door gives the door text and a closed one a default text |
| InspectionService.DeskText | backend/src/main/java/com/escaperoom/backend/Service/InspectionService.java:84-119 | count ≤ 3 gives one of five flavour texts; drawer locked at 4 gives the drawer hint; past 3 an open drawer with the final door closed gives the note, an open final door the escape text |
| InspectionService.FirstInspectionsAreFlavour | backend/src/main/java/com/escaperoom/backend/Service/InspectionService.java:37-95 | the first three inspections of a CELL or DESK area offer exactly that stage's flavour list |
| InspectionService.RandomText | backend/src/main/java/com/escaperoom/backend/Service/InspectionService.java:121-123 | the returned text is an element of the non-empty list |
| InspectionService.GetInspectionText | backend/src/main/java/com/escaperoom/backend/Service/InspectionService.java:23-35 | the count of (stage, area) goes up by one before it is read; no flag changes; the text is one the rules allow for the new count |
| GameSessionService.AreaKeysDistinct | backend/src/main/java/com/escaperoom/backend/Service/GameSessionService.java:118 | different areas of one stage get different count keys |
| GameSessionService.SceneKeyShared | backend/src/main/java/com/escaperoom/backend/Service/GameSessionService.java:118 | an inspection without an area shares its counter with the area named "scene" |
| GameSessionService.Incremented | backend/src/main/java/com/escaperoom/backend/Service/GameSessionService.java:119 | the key's count goes up by exactly one, missing counting as 0; every other key keeps its count |
| GameSessionService.IncrementInspectionCount | backend/src/main/java/com/escaperoom/backend/Service/GameSessionService.java:115-122 | only the counts change, by `Incremented`; the session is saved at `now` |
| GameSessionService.GetInspectionCount | backend/src/main/java/com/escaperoom/backend/Service/GameSessionService.java:124-128 | a key never counted reads 0; otherwise its stored count |
| GameSessionService.ParseInspectionCounts | backend/src/main/java/com/escaperoom/backend/Service/GameSessionService.java:96-105 | null, blank or undecodable JSON gives the empty map; otherwise the decoded map |
| GameSessionService.ConvertToDTO | backend/src/main/java/com/escaperoom/backend/Service/GameSessionService.java:79-94 | every field is present: the id, stage, each of the seven flags and the counts are copied unchanged |
| GameSessionService.SessionStore.StartNewSession | backend/src/main/java/com/escaperoom/backend/Service/GameSessionService.java:33-51 | unknown user: error and nothing stored; otherwise a fresh session at CELL, all flags false, no counts, both timestamps `now`, stored under a new id |
| GameSessionService.SessionStore.GetSession | backend/src/main/java/com/escaperoom/backend/Service/GameSessionService.java:53-61 | with a user id only that user's session is found, and an unknown user is an error; without one the lookup is by id |
| GameSessionService.SessionStore.GetSessionById | backend/src/main/java/com/escaperoom/backend/Service/GameSessionService.java:63-65 | found iff the id is stored, and then it is that entity |
| GameSessionService.SessionStore.GetLatestSession | backend/src/main/java/com/escaperoom/backend/Service/GameSessionService.java:67-71 | unknown user: error; otherwise the user's session with the greatest `lastUpdated`, and nothing only when the user has no session |
| GameSessionModel.GameSession.constructor | backend/src/main/java/com/escaperoom/backend/model/GameSession.java:29-66 | stage CELL, every flag false, counts empty, timestamps not yet set |
| GameSessionModel.InitialStateIsConsistent | backend/src/main/java/com/escaperoom/backend/model/GameSession.java:29-66 | the default state satisfies the session invariant |
| GameSessionModel.StartAfterSave | backend/src/main/java/com/escaperoom/backend/model/GameSession.java:77-79 | a save always leaves a start time: it keeps one that is already set and sets a null one to `now` |
| GameSessionModel.GameSession.UpdateTimestamp | backend/src/main/java/com/escaperoom/backend/model/GameSession.java:74-81 | `startTime` is set only when null; `lastUpdated` becomes `now`; no game field changes |
| GameSessionModel.GameSession.SetProgress | backend/src/main/java/com/escaperoom/backend/Controller/GameController.java:77-97 | the stage, rod, key and four lock fields take the given values; the metal piece, counts and timestamps keep theirs |
| GameSessionModel.GameSession.Save | backend/src/main/java/com/escaperoom/backend/model/GameSession.java:74-81 | no game field changes; the hook runs at `now` iff the state differs from the one last stored, otherwise nothing changes |
| GameController.Merge | backend/src/main/java/com/escaperoom/backend/Controller/GameController.java:77-97 | each non-null stage, rod, key and lock field replaces the stored one, null ones keep it; the metal piece and counts never change |
| GameController.MergeEmpty | backend/src/main/java/com/escaperoom/backend/Controller/GameController.java:77-97 | an all-null request changes nothing |
| GameController.MergeOfConvert | backend/src/main/java/com/escaperoom/backend/Controller/GameController.java:77-97 | sending back a converted state restores it, except the metal piece and counts |
| GameController.MergeCanSkipLocks | backend/src/main/java/com/escaperoom/backend/Controller/GameController.java:89-91 | a request can open the cell door of a new session without the drawer, breaking the invariant |
| GameController.MergeCanRelock | backend/src/main/java/com/escaperoom/backend/Controller/GameController.java:86-88 | a request can relock the cell drawer |
| GameController.UpdateGameState | backend/src/main/java/com/escaperoom/backend/Controller/GameController.java:69-102 | unknown user: 500; not the owner's session: 404; otherwise the session becomes `Merge` of the request, is saved and returned |
| GameController.Transition | backend/src/main/java/com/escaperoom/backend/Controller/GameController.java:248-257 | refused iff the target is DESK with the cell door shut or ESCAPED with the final door shut; otherwise the result is the session with its stage set to the target and nothing else changed |
| GameController.TransitionConsistentOnlyAsNoOp | backend/src/main/java/com/escaperoom/backend/Controller/GameController.java:248-257 | a transition that keeps a consistent session consistent leaves it unchanged |
| GameController.TransitionBackToCell | backend/src/main/java/com/escaperoom/backend/Controller/GameController.java:248-257 | from DESK, a transition to CELL is accepted, breaks the invariant and moves the stage back |
| GameController.TransitionToUnknownStage | backend/src/main/java/com/escaperoom/backend/Controller/GameController.java:256 | an unknown stage name of at most 20 characters ("LOBBY") is stored, breaking the invariant |
| GameController.TransitionStage | backend/src/main/java/com/escaperoom/backend/Controller/GameController.java:236-259 | unknown session: 404; refused transition: 400 and no change; otherwise the stage is set, saved and returned |
| GameController.LockAttempt | backend/src/main/java/com/escaperoom/backend/Controller/GameController.java:169-185 | each lock type goes to its validator; any other type gives false with no change; keeps `Consistent`; progresses |
| GameController.LockMessage | backend/src/main/java/com/escaperoom/backend/Controller/GameController.java:193-197 | "Correct!" iff correct, "Incorrect. Try again." iff not |
| GameController.ValidateLock | backend/src/main/java/com/escaperoom/backend/Controller/GameController.java:164-208 | unknown session: 404; otherwise the lock attempt's state, verdict, message and converted state |
| GameController.ItemMessage | backend/src/main/java/com/escaperoom/backend/Controller/GameController.java:222-224 | "Item used successfully." iff the use succeeded |
| GameController.UseItemEndpoint | backend/src/main/java/com/escaperoom/backend/Controller/GameController.java:210-234 | unknown session: 404; otherwise the item use's state, message and converted state |
| GameController.InspectEffect | backend/src/main/java/com/escaperoom/backend/Controller/GameController.java:109-126 | the count goes up by one; the rod is granted iff the request stage is CELL, the drawer open and the new count ≥ 5; keeps `Consistent`; progresses |
| GameController.RodHintIffRodGranted | backend/src/main/java/com/escaperoom/backend/Controller/GameController.java:117-126 | in the cell, the rod hint text is shown exactly when the same inspection grants the rod |
| GameController.InspectScene | backend/src/main/java/com/escaperoom/backend/Controller/GameController.java:104-142 | unknown session: 404; otherwise the state is `InspectEffect`, saved, and the text is one the rules allow |
| GameController.LookupReply | backend/src/main/java/com/escaperoom/backend/Controller/GameController.java:53-67 | an error is a 500, a missing session 404, a found one its converted state |
| GameController.StartGameSession | backend/src/main/java/com/escaperoom/backend/Controller/GameController.java:42-51 | unknown user: 400 and nothing stored; otherwise a fresh session in the initial state is added under the new id, every other session kept, and returned |
| GameController.ReplayPreserves | backend/src/main/java/com/escaperoom/backend/Controller/GameController.java:104-234 | any sequence of inspections, lock attempts and item uses keeps a consistent session consistent and never moves it back |
| GameController.EscapedMeansAllUnlocked | backend/src/main/java/com/escaperoom/backend/Service/LockValidationService.java:66-89 | a consistent escaped session has all four locks open |
| GameController.Walkthrough | backend/src/main/java/com/escaperoom/backend/Service/LockValidationService.java:19-89 | the four codes in order take a new session to ESCAPED |
| EscapeRunService.ValidateParameters | backend/src/main/java/com/escaperoom/backend/Service/EscapeRunService.java:88-108 | null difficulty, missing or empty ids, a count other than 6, a duplicate id and a non-positive time are rejected in that order, each with its own error; passes iff difficulty given, 6 distinct ids and positive time |
| EscapeRunService.AllResolvedIffFullSize | backend/src/main/java/com/escaperoom/backend/Service/EscapeRunService.java:54-59 | for distinct ids, the resolved map has one entry per id iff every id resolves |
| EscapeRunService.CheckRun | backend/src/main/java/com/escaperoom/backend/Service/EscapeRunService.java:40-68 | a null user id is rejected first, then the parameter checks, then an unknown user; past those, an unresolvable id gives the invalid-ids error and, when all resolve, a question of another difficulty gives the mismatch error; accepted iff all pass |
| EscapeRunService.RecordedRunIsWellFormed | backend/src/main/java/com/escaperoom/backend/Service/EscapeRunService.java:40-79 | an accepted run has six distinct resolvable ids, a positive time and only questions of its difficulty |
| EscapeRunService.EscapeRunStore.RecordRun | backend/src/main/java/com/escaperoom/backend/Service/EscapeRunService.java:40-79 | a rejected run stores nothing; an accepted one is appended with the ids in submitted order and `finishedAt` = `now` |
| EscapeRunService.EscapeRunStore.LatestRun | backend/src/main/java/com/escaperoom/backend/Service/EscapeRunService.java:81-86 | a null difficulty is an error; otherwise the user's run of that difficulty with the latest `finishedAt`, nothing only when there is none |
| Collections.DistinctCountIsSize | backend/src/main/java/com/escaperoom/backend/Service/EscapeRunService.java:102-104 | the distinct count equals the size iff the list has no duplicates |
| Collections.ResolvedCount | backend/src/main/java/com/escaperoom/backend/Service/EscapeRunService.java:57-59 | for distinct ids, the number that resolve is at most the size, and equals it iff all resolve |
| Collections.MaxKey | backend/src/main/java/com/escaperoom/backend/Service/GameSessionService.java:70 | a non-empty map has a key of greatest value |
| Text.TrimBy | backend/src/main/java/com/escaperoom/backend/Service/LockValidationService.java:21 | the result is a slice of the input with no trimmable first or last character, and everything cut off is trimmable |
| Text.TrimIdempotent | backend/src/main/java/com/escaperoom/backend/Service/LockValidationService.java:21 | trimming twice is trimming once |
| CreateAccountPage.FilterUnmet | frontend/src/components/CreateAccPage.jsx:33-35 | the result holds exactly the failing requirements of the list, and no more than the list |
| CreateAccountPage.FilterUnmetSingle | frontend/src/components/CreateAccPage.jsx:33-35 | a one-element list keeps its element iff it fails |
| CreateAccountPage.FilterUnmetAppend | frontend/src/components/CreateAccPage.jsx:33-35 | filtering a concatenation is the concatenation of the filtered parts, so order and repetitions are kept |
| CreateAccountPage.UnmetRequirements | frontend/src/components/CreateAccPage.jsx:15-35 | length, capital, number, each included iff it fails, in that order |
| CreateAccountPage.PasswordValidIff | frontend/src/components/CreateAccPage.jsx:15-36 | valid iff at least 8 characters, an ASCII capital and an ASCII digit |
| CreateAccountPage.SignUpForm.SubmitPreChecks | frontend/src/components/CreateAccPage.jsx:39-50 | the request is sent iff the password is valid and the two entries are equal; otherwise the first failing check's error is set |
| LoginPage.MaskPassword | frontend/src/components/LoginPage.jsx:13-17 | same length; empty and one-character passwords unchanged; otherwise all stars but the last character |
| LoginPage.MaskedInputValue | frontend/src/components/LoginPage.jsx:20-36 | show mode stores the raw input; masked mode drops the last character on a shorter input, otherwise appends the input's last character |
| LoginPage.TypeThenDelete | frontend/src/components/LoginPage.jsx:13-36 | typing a character after the mask and deleting it again restores the password |
| LoginPage.PasswordField.HandleMaskedInput | frontend/src/components/LoginPage.jsx:20-36 | the stored value becomes `MaskedInputValue` of the input |
| LockPanel.VisibleLocks | frontend/src/components/game/LockPanel.jsx:16-54 | CELL: cell drawer first, cell door iff the drawer is open; DESK: desk drawer first, final door iff it is open; other stages none; all with max length 10 |
| LockPanel.GetVisibleLocks | frontend/src/components/game/LockPanel.jsx:16-54 | the pushes build exactly `VisibleLocks` |
| LockPanel.PanelAgreesWithServer | frontend/src/components/game/LockPanel.jsx:16-54 | for a consistent session, every shown lock accepts its code, and every lock that accepts its code and is not open is shown |
| LockInput.IsUnlocked | frontend/src/components/game/LockInput.jsx:13-28 | the lock type's flag strictly true; false without a state or for an unknown type |
| LockInput.Clamp | frontend/src/components/game/LockInput.jsx:83 | a prefix of the input of at most `maxLength` characters, the input itself when it fits |
| LockInput.SubmitGuard | frontend/src/components/game/LockInput.jsx:33-41 | a request is made iff the trimmed answer is non-empty, the lock closed and nothing in flight; it carries the trimmed answer |
| LockInput.BlankAnswerNotSent | frontend/src/components/game/LockInput.jsx:33-35 | an all-whitespace answer is never sent |
| LockInput.ShownMessage | frontend/src/components/game/LockInput.jsx:43 | a non-empty result message is shown as it is; a thrown call, a missing or an empty message shows nothing |
| LockInput.LockInputState.OnChange | frontend/src/components/game/LockInput.jsx:83 | the stored answer is the clamped input, so never longer than `maxLength` |
| LockInput.LockInputState.BeginSubmit | frontend/src/components/game/LockInput.jsx:30-41 | a refused submit changes nothing; an accepted one marks the submission in flight and hides the message |
| LockInput.LockInputState.CompleteSubmit | frontend/src/components/game/LockInput.jsx:43-64 | the message is shown, a correct result clears the answer, and the submission ends |
| InventoryPanel.InventoryItems | frontend/src/components/game/InventoryPanel.jsx:8-30 | no state gives no list; each item listed iff its flag is true, in the order rod, desk key, metal piece, without duplicates; empty iff no flag is set |

## Left out

- JSON serialisation of the inspection counts is a library call. The counts are a `map<string, int>`; only the empty-map fallback of the parser is modelled, with the decoder as a function parameter.
- The JPA repositories, `save` and `@Transactional` are in-memory maps and lists. Transactions, concurrency and the re-read after each service call are not modelled. The re-read returns the same entity object.
- GameSessionModel.SavedAt: the dirty check compares the game fields with their values at the start of the service call; when Hibernate actually flushes, and its comparison of the serialised counts column, are not modelled.
- `Instant.now()` becomes the `now` parameter. The entity hook reads the clock twice; the model uses one value for both fields.
- `java.util.Random` becomes a nondeterministic choice.
- A null `answer` to a lock validator is not modelled; the model takes a non-null string. In the source it throws a `NullPointerException` (a 500) only once the lock's prerequisite checks have passed; a validator that returns false at a prerequisite never reads the answer.
- GameController.Transition / GameController.Merge: the 20-character limit of the stage column (`length = 20` in GameSession.java:29) is not modelled; the source fails at save with a 500 for a longer stage name, the model stores it.
- EscapeRunService.CheckRun: a null question id is not modelled, since ids are integers; the source throws a `NullPointerException` at `List.copyOf` once the parameter checks and the user lookup pass.
- A null `gameSessionId` in an inspection, lock or item request is not modelled; session ids are integers. The request field is a `Long` with no `@NotNull`, and `findById(null)` throws, so the source answers 500.
- A null user id to `startNewSession`, and the users' own records, are not modelled. A user is an id in a set.
- GameSessionService.Incremented: counts are unbounded integers; Java's 32-bit `Integer` wrap-around after 2^31 - 1 inspections is not modelled.
- Text.TrimBy: Java and JavaScript string lengths count UTF-16 code units. The model's strings are sequences of Unicode scalar values.
- Text.EqualsIgnoreCase: folds ASCII letters only. Java's `equalsIgnoreCase` also folds other characters, such as the long s and the Kelvin sign, to "s" and "k".
- LoginPage.MaskedInputValue: the same UTF-16 simplification applies to `slice(-1)` and `input[input.length - 1]`.
- LoginPage.MaskPassword: the star count and the kept last character are per Unicode scalar value, not per UTF-16 code unit.
- LockInput.Clamp: `maxLength` counts Unicode scalar values here, UTF-16 code units in the browser.
- CreateAccountPage.Meets: the 8-character length rule counts Unicode scalar values, not UTF-16 code units.
- LockInput.ShownMessage: the fallback labels `lockCorrect`, `lockIncorrect` and `lockValidationError` are not defined in the text constants. The model shows nothing (`None`, JavaScript `undefined`) in their place.
- The lock labels and item names come from missing text constants as well, so they are omitted from `LockEntry` and `Item`.
- The `setTimeout` message hiding in LockInput is UI timing.
- React rendering, routing, `fetch`, `localStorage` and the game context are I/O plumbing.
- The thin controllers and services are plain delegation: AuthController, UserService, QuestionService, QuestionController, EscapeRunController.
- The enum `DifficultyLevel` is not part of this model. Its values follow the comment in `Question` (EASY, MEDIUM, HARD). `EnumSet.allOf(…).contains` is always true for a non-null value, so only null is an unknown difficulty.
- In masked mode, an empty input with nothing stored appends the text "undefined". `MaskedInputValue` keeps this as written.
