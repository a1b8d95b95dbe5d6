# LifeinCharacter: a Dafny model of the quiz scoring and character stores

LifeinCharacter is a gamified habit tracker. A player answers a two-part
questionnaire for each of six stats (strength, dexterity, constitution,
intelligence, wisdom, charisma). The answers become the starting stats of a
character. The character then earns experience, levels and stat points by
completing habits, dailies and todos.

This project models the logic behind that and proves properties of it:

- the quiz scoring helpers (`src/utils/quizHelpers.ts`) and the older strength
  scorer (`src/utils/calculateStats.ts`);
- the two quiz components as state machines (`CharacterQuiz.tsx`,
  `StrengthQuiz.tsx`);
- the reward table of TaskForm (`TaskForm.tsx`);
- the four client stores:
  - the pure debug character store;
  - the in-place character store;
  - the user store and the avatar store, over one shared localStorage map;
- the two Express routers, each over its in-memory map.

Layout: one module per source file (`quiz_helpers.dfy`, `calculate_stats.dfy`,
`character_quiz.dfy`, `strength_quiz.dfy`, `task_form.dfy`,
`debug_character_store.dfy`, `character_store.dfy`, `user_store.dfy`,
`avatar_store.dfy`, `avatar_routes.dfy`, `auth_routes.dfy`). The shared record
types are in `character_types.dfy` and `avatar_types.dfy`, the question tables
in `question_data.dfy`, browser storage in `local_storage.dfy`, JSON values in
`json.dfy`, and Option/Result in `wrappers.dfy`.

How the source's form is kept:

- Pure reducer code is Dafny functions over datatypes: the debug store, the
  scoring helpers and TaskForm.
- State that the source updates in place is a class whose methods reassign its
  fields: the character store, the user and avatar stores, the quiz
  components' state variables, and the routers' module-level maps.
- `resetDailyHabits` keeps its loop.
- React/zustand/pinia machinery is taken as plain field assignment.
- A component callback (`onComplete`) is a method's return value.
- Random ids and clock readings are parameters.
- JSON stringify/parse is the identity.

Some behaviours of the code are easy to assume otherwise. The model follows the code:

- `completeDaily` has no idempotence guard and no weekday check.
  `DebugCharacterStore.CompleteDailyTwiceCountsTwice` proves that a second
  completion raises the streak again.
- `gainExperience` levels up at most once per call and never grows max
  health or mana. `DebugCharacterStore.LargeGainLevelsOnce` shows that a
  500-point grant leaves experience above the new threshold.
- `calculateStatScore` takes `max(part1, part2)` with no base of 8 for
  strength and constitution. The base of 8 exists only in
  `calculateStrengthScore`.
- No stat buffs are derived from task state anywhere in the code.

`src/utils/calculateStats.ts` reads `strengthQuestions` without importing it.
The model takes that name to be the table of
`src/data/questions/strength.ts`.

## Model

| member | source | states |
|---|---|---|
| QuizHelpers.GetQuestions | src/utils/quizHelpers.ts:5-27 | an unregistered stat is an error; otherwise part 1 is the registered one, and in short mode part 2 is the prefix of length floor(n/2) of the full list, while any other version returns the full set unchanged |
| QuizHelpers.ShortIsPrefixOfLong | src/utils/quizHelpers.ts:19-26 | short and long versions share part 1, and the short part 2 is a prefix of at most half the long one |
| QuizHelpers.Clamp8To18 | src/utils/quizHelpers.ts:46 | the clamp lies in [8,18], is the identity inside it and saturates at either end |
| QuizHelpers.CalculateStatScore | src/utils/quizHelpers.ts:29-49 | strength/constitution score the larger part sum (at least both sums); intelligence/wisdom score s/2 rounded half up (s <= 2r <= s+1); dexterity, charisma and every other name score the total clamped into [8,18] |
| QuizHelpers.SumConcat | src/utils/quizHelpers.ts:33-34 | the `reduce` sum of a concatenation is the sum of the parts |
| QuizHelpers.AverageRoundsHalfUp | src/utils/quizHelpers.ts:41-43 | an even total is halved exactly and an odd one is rounded up |
| QuizHelpers.ScoreSymmetricInParts | src/utils/quizHelpers.ts:37-48 | every scoring rule gives the same score with the two parts swapped |
| CalculateStats.Part2Score | src/utils/calculateStats.ts:3-8 | the fold is defined exactly when every yes-answer has a question, and is then 8 plus the values of the yes-answered questions |
| CalculateStats.CalculateStrengthScore | src/utils/calculateStats.ts:1-12 | the score is max(part1, part2 score): at least both, equal to one, and defined exactly when part 2 is |
| CalculateStats.AllNoIsBase | src/utils/calculateStats.ts:4-8 | answers that are all "no" add nothing: part 2 stays at 8 |
| CalculateStats.StrengthAtLeastBase | src/utils/calculateStats.ts:8-11 | with the table's non-negative values the strength score is at least 8 |
| CalculateStats.YesNeverLowers | src/utils/calculateStats.ts:3-11 | turning any answer with a question into "yes" never lowers the strength score |
| CalculateStats.AppendYesNeverLowers | src/utils/calculateStats.ts:3-11 | appending one more "yes" answer that has a question never lowers the strength score |
| CalculateStats.CalculateFinalStats | src/utils/calculateStats.ts:14-24 | strength is calculateStrengthScore of the strength answers (so at least part 1) and the other five stats are exactly 10 |
| CharacterQuiz.StatNamesAreStatOrder | src/components/CharacterQuiz.tsx:19-22 | the quiz's stat list is strength, dexterity, constitution, intelligence, wisdom, charisma in that order |
| CharacterQuiz.StatNamesRegistered | src/utils/quizHelpers.ts:6-13 | every stat the quiz visits has a registered question set, so the lookup in handleAnswer never throws |
| CharacterQuiz.IndexOf | src/components/CharacterQuiz.tsx:49 | indexOf gives the first position of the stat, or -1 exactly when it is absent |
| CharacterQuiz.Record | src/components/CharacterQuiz.tsx:33-39 | the answer is appended to the current part of the current stat (starting from empty lists); the other part and all other stats are unchanged |
| CharacterQuiz.NextPosition | src/components/CharacterQuiz.tsx:41-53 | a part ends when the count including this answer reaches its question count (a single part-1 question counts 1); after part 1 the quiz moves to part 2 only if part 2 is non-empty; after a stat's last part it moves to the next stat's part 1; after the last stat it ends |
| CharacterQuiz.StatsInOrder | src/components/CharacterQuiz.tsx:49-53 | finishing stat i leads to part 1 of stat i+1, and finishing charisma ends the quiz |
| CharacterQuiz.FinalStats | src/components/CharacterQuiz.tsx:54-57 | each final stat is calculateStatScore of that stat's answers, or of empty lists when it has none |
| CharacterQuiz.FinalStatsOfNothing | src/components/CharacterQuiz.tsx:54-57 | with no answers the clamped stats are 8 and the others 0 |
| CharacterQuiz.FinalAnswerIsDropped | src/components/CharacterQuiz.tsx:33-56 | a concrete quiz, ending with a "yes" (worth 1), in which scoring the pre-append answers gives charisma 10 where all answers give 11 |
| CharacterQuiz.FinalAnswerCounts | src/components/CharacterQuiz.tsx:33-56 | scoring after the append scores charisma from every answer including the last |
| CharacterQuiz.Quiz.constructor | src/components/CharacterQuiz.tsx:13-17 | no version, version-select state, no stat, part 1, no answers |
| CharacterQuiz.Quiz.HandleVersionSelect | src/components/CharacterQuiz.tsx:24-28 | the chosen version is stored, the quiz is in progress and starts at the first stat |
| CharacterQuiz.Quiz.Advance | src/components/CharacterQuiz.tsx:30-53 | the answer is recorded and the stat/part move to the next position; the result says the quiz ended |
| CharacterQuiz.Quiz.HandleAnswer | src/components/CharacterQuiz.tsx:30-63 | handleAnswer as written: records, moves on, and on the last answer completes with the stats of the answers before that answer |
| CharacterQuiz.Quiz.HandleAnswerIntended | src/components/CharacterQuiz.tsx:30-63 | the same transition, completing with the stats of all answers including the last |
| StrengthQuiz.Part1OrDefault | src/components/quiz/StrengthQuiz.tsx:28 | a recorded non-zero part-1 value is passed on; none (or a falsy 0) becomes 8 |
| StrengthQuiz.CompletedScoresAreScorable | src/components/quiz/StrengthQuiz.tsx:26-30 | a completed quiz hands on 12 answers, whose strength score is defined, at least 8 and at least part 1 |
| StrengthQuiz.Quiz.constructor | src/components/quiz/StrengthQuiz.tsx:10-14 | part 1, nothing chosen, one false answer per part-2 question |
| StrengthQuiz.Quiz.HandlePart1Selection | src/components/quiz/StrengthQuiz.tsx:16-19 | the value is recorded and the quiz moves to part 2 |
| StrengthQuiz.Quiz.HandlePart2Answer | src/components/quiz/StrengthQuiz.tsx:21-32 | only position `index` changes; completion fires exactly on the last index, with part 1 defaulted and the updated answers |
| TaskForm.ImpactFor | src/components/TaskForm.tsx:36-40 | health 10/5/2, mana 8/4/1, experience 20/10/5 for hard/medium/anything else |
| TaskForm.ImpactMonotone | src/components/TaskForm.tsx:37-39 | every impact component is non-decreasing in difficulty rank, and trivial earns what easy earns |
| TaskForm.HandleSubmit | src/components/TaskForm.tsx:26-74 | the new task has the form's name, description and difficulty, is not completed, has no lastCompleted and the table's impact; a habit has count 0 and the chosen sign; a daily has streak 0 and the chosen schedule; a todo has no due date exactly when the input is empty, and the input otherwise |
| DebugCharacterStore.ResetCharacter | src/stores/debugCharacterStore.ts:4-32 | the default is a well-formed character 'debug-character' named 'Debug Character', a Human Fighter, at level 1 with 0 experience, threshold 100, 100/100 health, 50/50 mana, all stats 10, no tokens and no tasks |
| DebugCharacterStore.UpdateStats | src/stores/debugCharacterStore.ts:56-64 | given stats are overwritten, the others kept, and nothing outside the stats changes |
| DebugCharacterStore.UpdateStatsIdempotent | src/stores/debugCharacterStore.ts:56-64 | merging the same patch twice equals merging it once; the empty patch changes nothing |
| DebugCharacterStore.AddHabit | src/stores/debugCharacterStore.ts:66-79 | exactly one habit is appended, with count 0, id `debug-habit-<uuid>` and the given fields; the existing habits are kept |
| DebugCharacterStore.AddDaily | src/stores/debugCharacterStore.ts:81-95 | exactly one daily is appended, not completed, streak 0, id `debug-daily-<uuid>`; the existing dailies are kept |
| DebugCharacterStore.CompleteDaily | src/stores/debugCharacterStore.ts:97-111 | an unknown id changes nothing; each daily with the id becomes completed with streak + 1; all others are unchanged |
| DebugCharacterStore.CompleteDailyTwiceCountsTwice | src/stores/debugCharacterStore.ts:97-111 | there is no idempotence guard: two completions add 2 to the streak |
| DebugCharacterStore.ToggleHabit | src/stores/debugCharacterStore.ts:113-127 | an unknown id changes nothing; each habit with the id counts +1 (positive) or -1 (negative); all others are unchanged |
| DebugCharacterStore.ToggleUndo | src/stores/debugCharacterStore.ts:113-127 | a positive toggle followed by a negative one restores the character |
| DebugCharacterStore.Grown | src/stores/debugCharacterStore.ts:137 | floor(t*1.5) for integer t: never below t when t >= 1, above t when t >= 2 |
| DebugCharacterStore.GainExperience | src/stores/debugCharacterStore.ts:129-147 | below the threshold only experience rises; at or above it, exactly one level-up: level + 1, experience = new - threshold, threshold floor(x1.5), nothing else changes |
| DebugCharacterStore.GainExperienceKeepsWellFormed | src/stores/debugCharacterStore.ts:129-147 | a non-negative gain short of two thresholds keeps 0 <= experience < threshold and raises the level by 0 or 1 |
| DebugCharacterStore.LargeGainLevelsOnce | src/stores/debugCharacterStore.ts:129-147 | a 500-point grant to the default character levels once to 2 and leaves experience 400 above the threshold 150 |
| DebugCharacterStore.LevelUp | src/stores/debugCharacterStore.ts:149-156 | level + 1, experience 0, threshold grown, nothing else changes, well-formedness kept |
| DebugCharacterStore.GainMissingIsLevelUp | src/stores/debugCharacterStore.ts:129-156 | gaining exactly the missing experience equals levelUp |
| DebugCharacterStore.UpdateBattleTokens | src/stores/debugCharacterStore.ts:158-163 | tokens change by exactly the amount, nothing else changes |
| DebugCharacterStore.Clamped | src/stores/debugCharacterStore.ts:170-173 | max is unchanged; with max >= 0 the current value lies in [0, max]; it moves exactly by the amount inside the range and saturates outside it |
| DebugCharacterStore.ClampedIsStable | src/stores/debugCharacterStore.ts:170-173 | clamping a clamped resource by 0 changes nothing |
| DebugCharacterStore.UpdateHealth | src/stores/debugCharacterStore.ts:165-176 | only health.current changes, clamped into [0, max]; well-formedness kept |
| DebugCharacterStore.UpdateMana | src/stores/debugCharacterStore.ts:178-189 | only mana.current changes, clamped into [0, max]; well-formedness kept |
| DebugCharacterStore.TaskActionsKeepWellFormed | src/stores/debugCharacterStore.ts:56-127 | completing, toggling, merging stats and adding tasks keep a well-formed character well formed |
| CharacterStore.Initialized | src/stores/characterStore.ts:23-41 | every field left out of characterData takes its default (level 1, experience 0, tokens 0, stats all 10, no habits) and every supplied field wins |
| CharacterStore.ExpGainAsWritten | src/stores/characterStore.ts:73-77 | the written experience table gives easy 10, medium 25 and hard 50, and has no entry for 'trivial', which reads undefined |
| CharacterStore.StatGainAsWritten | src/stores/characterStore.ts:79-83 | the written stat table gives easy 1, medium 2 and hard 3, and has no entry for 'trivial', which reads undefined |
| CharacterStore.ExpGain | src/stores/characterStore.ts:73-77 | agrees with the written table 10/25/50 wherever it has an entry, and gives trivial the easy reward |
| CharacterStore.StatGain | src/stores/characterStore.ts:79-83 | agrees with the written table 1/2/3 wherever it has an entry, and gives trivial the easy reward |
| CharacterStore.GainsMonotone | src/stores/characterStore.ts:73-83 | both rewards are non-decreasing in difficulty rank |
| CharacterStore.FindHabit | src/stores/characterStore.ts:66 | find returns the first habit with the id, and nothing exactly when no habit has it |
| CharacterStore.AfterCompletion | src/stores/characterStore.ts:69-93 | the habit is completed with streak + 1; experience and the associated stat rise by the difficulty's reward and other stats stay; at experience >= level*100 level and tokens rise by exactly 1; experience is never reduced |
| CharacterStore.AfterCompletionAsWritten | src/stores/characterStore.ts:69-93 | completion with the written tables: the habit is always completed with streak + 1; experience and the stat become NaN exactly for a 'trivial' habit, which then keeps level and tokens; for every other difficulty it agrees with the corrected completion |
| CharacterStore.TrivialCompletion | src/stores/characterStore.ts:73-86 | for a 'trivial' habit the written completion leaves experience NaN and the level unchanged, while the corrected one adds 10 experience and 1 stat point |
| CharacterStore.Store.GetCharacterStats | src/stores/characterStore.ts:12 | the character's stats exactly when there is a character |
| CharacterStore.Store.GetHabits | src/stores/characterStore.ts:13 | the habits, or an empty list without a character |
| CharacterStore.Store.GetBattleTokens | src/stores/characterStore.ts:14 | the tokens, or 0 without a character |
| CharacterStore.Store.GetLevel | src/stores/characterStore.ts:15 | the level, or 1 without a character or for a falsy level 0 |
| CharacterStore.Store.constructor | src/stores/characterStore.ts:5-9 | no character, not loading, no error |
| CharacterStore.Store.InitializeCharacter | src/stores/characterStore.ts:19-48 | the character is the initialized one and loading ends false |
| CharacterStore.Store.AddHabit | src/stores/characterStore.ts:50-61 | with a character, exactly one not-completed habit with streak 0 is pushed; without one, nothing changes |
| CharacterStore.Store.CompleteHabit | src/stores/characterStore.ts:63-94 | no character or unknown id changes nothing; otherwise the character becomes its completion at the first habit with the id |
| CharacterStore.Store.ResetDailyHabits | src/stores/characterStore.ts:96-104 | every habit with frequency 'daily' becomes not completed; every other habit and every other field is unchanged |
| LocalStorage.Storage.GetItem | src/stores/userStore.ts:49 | the stored item exactly when the key is present |
| LocalStorage.Storage.SetItem | src/stores/userStore.ts:62 | the key now maps to the value and every other key is unchanged |
| UserStore.CreateInitialCharacter | src/stores/userStore.ts:20-41 | level 1, experience 0, threshold 100, health 50/50, mana 30/30, the given stats, 0 tokens, no tasks; the result is well formed |
| UserStore.Store.constructor | src/stores/userStore.ts:44-45 | no user, not authenticated |
| UserStore.Store.Signup | src/stores/userStore.ts:47-68 | fails and writes nothing exactly when the email is taken; otherwise stores {email, username, password, no character} under the email and authenticates |
| UserStore.Store.Login | src/stores/userStore.ts:70-88 | succeeds exactly when a user record with that password is stored under the email, then sets the user and authenticates; otherwise changes nothing |
| UserStore.Store.Logout | src/stores/userStore.ts:90-92 | no user and not authenticated |
| UserStore.Store.SetCharacter | src/stores/userStore.ts:94-108 | without a user nothing changes; otherwise the user gets a fresh initial character and is persisted under its email |
| UserStore.SignupThenLogin | src/stores/userStore.ts:47-88 | signing up with a new email and logging in with its password succeeds and authenticates that user |
| AvatarStore.MergeColors | src/stores/avatarStore.ts:35-37 | given colour keys are overwritten and the others kept |
| AvatarStore.MergeFeatures | src/stores/avatarStore.ts:39-41 | given feature keys are overwritten and the others kept |
| AvatarStore.MergesIdempotent | src/stores/avatarStore.ts:35-41 | merging a patch a second time changes nothing |
| AvatarStore.Equip | src/stores/avatarStore.ts:43-51 | a truthy id fills the slot, a falsy one (absent or '') empties it; other slots are unchanged |
| AvatarStore.EquipThenRemove | src/stores/avatarStore.ts:43-51 | filling an empty slot and emptying it again gives back the same equipment |
| AvatarStore.Store.constructor | src/stores/avatarStore.ts:18-32 | the initial avatar: warrior, human, other, the default colours and features, no equipment, level 1 |
| AvatarStore.Store.UpdateColors | src/stores/avatarStore.ts:35-37 | only the colours change, to the merge |
| AvatarStore.Store.UpdateFeatures | src/stores/avatarStore.ts:39-41 | only the features change, to the merge |
| AvatarStore.Store.EquipItem | src/stores/avatarStore.ts:43-51 | only the equipment changes, as Equip says |
| AvatarStore.Store.LevelUp | src/stores/avatarStore.ts:53-55 | level rises by exactly 1 and nothing else changes |
| AvatarStore.Store.UpdateClass | src/stores/avatarStore.ts:57 | only the class changes |
| AvatarStore.Store.UpdateRace | src/stores/avatarStore.ts:59 | only the race changes |
| AvatarStore.Store.UpdateGender | src/stores/avatarStore.ts:61 | only the gender changes |
| AvatarStore.Store.SaveAvatar | src/stores/avatarStore.ts:71-82 | the seven fields are stored under 'avatar'; other keys are unchanged |
| AvatarStore.Store.LoadAvatar | src/stores/avatarStore.ts:63-69 | a saved avatar record is taken over whole; with nothing saved the state is unchanged |
| AvatarStore.SaveChangeLoad | src/stores/avatarStore.ts:63-82 | save, then changes, then load restores the saved seven fields |
| AvatarRoutes.ValidChanges | server/routes/avatar.js:20 | a body passes only with both race and class present and neither null, false, 0 nor '' |
| AvatarRoutes.Merged | server/routes/avatar.js:25-29 | body fields win, fields the body leaves out are kept, and lastUpdated is the new time |
| AvatarRoutes.MergedStaysValid | server/routes/avatar.js:20-29 | a stored record still has a truthy race and class |
| AvatarRoutes.Router.constructor | server/routes/avatar.js:5 | no avatar data |
| AvatarRoutes.Router.Get | server/routes/avatar.js:8-12 | the stored record, or an empty object for an unknown user |
| AvatarRoutes.Router.Post | server/routes/avatar.js:15-32 | without a truthy race or class: 400 and no change; otherwise only this user's entry becomes the merge, and the response is that entry |
| AvatarRoutes.PostThenGet | server/routes/avatar.js:7-32 | a GET after a successful POST returns what the POST answered; other users' entries are unchanged |
| AuthRoutes.PublicView | server/routes/auth.js:17-21 | the body has exactly email, username and character, never the password |
| AuthRoutes.PublicViewDeterminesUser | server/routes/auth.js:17-21 | two users with the same response body differ at most in the password |
| AuthRoutes.Router.constructor | server/routes/auth.js:5 | no users |
| AuthRoutes.Router.Login | server/routes/auth.js:8-22 | 401 unless the email is known and the password matches; then the stored user's public view |
| AuthRoutes.Router.Signup | server/routes/auth.js:25-46 | a taken email gives 400 and no change; otherwise {email, password, username, character: null} is stored under the email and its public view returned |
| AuthRoutes.SignupThenLogin | server/routes/auth.js:8-46 | sign-up with a new email then login with the same password succeeds with the same body |

## Findings

| source | as written | input that shows it | evidently intended | confidence | as-written member | corrected member |
|---|---|---|---|---|---|---|
| src/components/CharacterQuiz.tsx:33-56 | the final stats are computed from `answers` as captured before the last `setAnswers`, so the last answer of the quiz is never scored | charisma part 1 answered 10, then nine "no" answers (0), then a final "yes" (1): scored 10 instead of 11 | score all answers, including the one just given | high, not executed | CharacterQuiz.Quiz.HandleAnswer (exhibited by CharacterQuiz.FinalAnswerIsDropped) | CharacterQuiz.Quiz.HandleAnswerIntended (CharacterQuiz.FinalAnswerCounts) |
| src/stores/characterStore.ts:73-86 | the experience and stat tables have no 'trivial' entry, so a trivial habit adds `undefined` and experience and the stat become NaN | completeHabit on a habit with difficulty 'trivial' | every difficulty the Habit type allows earns a number; trivial earns the lowest (easy) tier, as the table of TaskForm.tsx does | medium, not executed | CharacterStore.AfterCompletionAsWritten (exhibited by CharacterStore.TrivialCompletion) | CharacterStore.AfterCompletion (with CharacterStore.ExpGain, CharacterStore.StatGain and CharacterStore.GainsMonotone) |

## Left out

- Numbers are unbounded integers. JavaScript doubles, NaN and float rounding are not modelled. Every value the code computes is integral.
- CharacterStore.AfterCompletion: uses the corrected gain tables. The NaN that a 'trivial' habit produces in the source is modelled only by CharacterStore.AfterCompletionAsWritten and recorded under Findings.
- CharacterStore.Store.CompleteHabit: completes through CharacterStore.AfterCompletion, so a 'trivial' habit earns the easy reward instead of the source's NaN. A NaN stored in the character is not modelled.
- CalculateStats.Part2Score: calculateStats.ts uses `strengthQuestions` (and `CharacterStats`) without importing them, so as written any "yes" answer throws a ReferenceError. The model takes `strengthQuestions` to be the table of src/data/questions/strength.ts.
- CharacterQuiz.Quiz.HandleAnswer: requires a chosen version and a current stat. The component renders the question, and so can call handleAnswer, only in that state. The component also stops rendering once a part's questions run out, which the model does not need.
- AvatarRoutes.Router: `avatarData` is a plain object. User ids that are Object prototype keys (such as `__proto__` or `constructor`) would read, and on POST replace, inherited properties. The model keys a map by user id and does not capture this.
- QuizHelpers.GetQuestions: stat names that are Object prototype keys (such as 'constructor') are not modelled. In JavaScript they would find a truthy non-question-set value.
- StrengthQuiz.Quiz.HandlePart2Answer: requires `index` to be a question index. The component only passes the indices of its question list. Writing past the end of a JavaScript array is not modelled.
- The question texts and descriptions are left out. Only their point values are kept.
- StrengthQuiz.Quiz.constructor: StrengthQuiz.tsx imports its questions from `src/data/quizQuestions`, which is not part of this model. The model takes its part-2 question count to be the 12 questions of src/data/questions/strength.ts.
- The character store keeps only the character fields its actions read or write. Other fields that `characterData` may carry through the spread are not modelled.
- AvatarStore.Store.LoadAvatar: if a user record is stored under the key 'avatar', the source's merge adds that record's unrelated keys to the store. The model keeps only the avatar fields, which do not change.
- `isDebugMode`, `loading` and `error` have no logic beyond their initial values. The try/catch of initializeCharacter cannot fail in the model.
- React rendering, the view components, the avatar SVG renderer, the fetch client, logging and the Express wiring are not part of this model.
- Request parsing is not modelled: request bodies are JSON records. A missing `email` or `password` in an auth request is not modelled.
