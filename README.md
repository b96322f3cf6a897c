# Secret Santa's Magical Tree: a Dafny model of the app's core

The app asks six questions. It turns the answers into a preference record, normalising
the ornament shape and colour from keywords. It sends the record to a text-generation
service for a star message and five ornament messages, then shows a tree. This project
models the three pieces that decide what the user ends up with:

- **The quiz** (`quiz.dfy`, module `QuizComponent`). This covers `handleNext` in
  `components/Quiz.tsx`. An answer is trimmed, and blank answers are refused. The shape
  answer maps to `star`, `gingerbread` or `circle`, and the colour answer to one of four
  Tailwind classes, by case-insensitive keyword search. The answer is written into the
  record under the current question's key. The quiz then either moves to the next
  question or calls `onComplete`. The handler is the method `Quiz.HandleNext` on a class
  with the component's state. It is proved against the function `Advance`, and the
  properties are lemmas about `Advance` and about `Run`, which folds it over a sequence of
  inputs.
- **The JavaScript string operations the quiz uses** (`js_string.dfy`, module
  `JsString`): `trim`, `toLowerCase` and `includes`, each defined and characterised.
- **Building the generation result** (`gemini_service.dfy`, module `GeminiService`).
  This covers `generateOrnamentMessages` from the point where the service has answered.
  The call's outcome is an input: it threw, or it gave a response text together with
  what `JSON.parse` made of it. The model covers the `||` fallback for the star message,
  the length check on the ornament list, and the catch-all fallback.
- **The app's stage machine** (`app.dfy`, module `AppComponent`). This covers `App.tsx`:
  START → QUIZ → GROWING → TREE → START. The start button, the quiz's completion, the
  awaited generation call settling, the 2500 ms timer firing and the reset button are
  events. `Next` is the step function and `App` is the class whose methods perform it.
  The TREE view is guarded by `stage === TREE && userPrefs && genData`.

Shared types (`types.dfy`, module `Types`) follow `types.ts`.

Two behaviours of the code shape the model:

- The reset button only sets the stage back to START. It keeps `userPrefs` and `genData`
  from the finished run (`App.tsx:114`).
- The timer to TREE is scheduled after the generation call settles
  (`App.tsx:37-46`). TREE therefore appears 2500 ms after the call settles, so the
  wait adds to the call's own time.

## Model

| member | source | states |
|---|---|---|
| JsString.LeadingWhitespace | components/Quiz.tsx:55 | the count of leading characters `trim` removes: all of them are whitespace, and the next character is not |
| JsString.TrailingWhitespace | components/Quiz.tsx:58 | the count of trailing characters `trim` removes: all of them are whitespace, and the character before them is not |
| JsString.IsWhitespace | components/Quiz.tsx:55 | the characters `trim` removes: ECMAScript's WhiteSpace and LineTerminator code points (no contract; used by TrimSpec) |
| JsString.Trim | components/Quiz.tsx:58 | `inputValue.trim()`: the input with its leading and trailing whitespace cut off (no contract of its own; characterised by TrimSpec) |
| JsString.TrimSpec | components/Quiz.tsx:55-58 | `trim` returns a piece of the input with only whitespace before and after it and none at either end; it is empty exactly when the input is all whitespace |
| JsString.TrimIdempotent | components/Quiz.tsx:58 | trimming a trimmed answer changes nothing |
| JsString.ToLower | components/Quiz.tsx:63 | lower-casing keeps the length |
| JsString.ToLowerSpec | components/Quiz.tsx:63-68 | lower-casing folds each capital to its small letter, keeps every other character and leaves no capital |
| JsString.ToLowerSlice | components/Quiz.tsx:68 | lower-casing commutes with taking a piece of the string |
| JsString.ToLowerIdempotent | components/Quiz.tsx:68 | lower-casing twice is lower-casing once |
| JsString.Includes | components/Quiz.tsx:63-71 | `lower.includes(keyword)`, searching window by window from the front (no contract of its own; characterised by IncludesSpec) |
| JsString.IncludesSpec | components/Quiz.tsx:63-71 | `includes` holds exactly when some window of the string spells the keyword |
| QuizComponent.IncludesLowerIffMentions | components/Quiz.tsx:63-71 | searching the lower-cased answer finds a keyword exactly when some window of the answer spells it, ignoring case |
| QuizComponent.MapShape | components/Quiz.tsx:62-65 | the shape chosen from the trimmed answer (no contract of its own; characterised by MapShapeByKeyword) |
| QuizComponent.MapShapeByKeyword | components/Quiz.tsx:62-65 | the shape is `star` exactly when the answer mentions "star"; otherwise `gingerbread` exactly when it mentions "ginger"; otherwise `circle` |
| QuizComponent.MapColor | components/Quiz.tsx:66-72 | the colour class chosen from the trimmed answer (no contract of its own; characterised by MapColorByKeyword and MapColorRange) |
| QuizComponent.MapColorByKeyword | components/Quiz.tsx:66-72 | the colour is yellow exactly when the answer mentions "gold" or "yellow"; otherwise blue for "blue"; otherwise green for "green"; otherwise red |
| QuizComponent.MapColorRange | components/Quiz.tsx:66-72 | a mapped colour is one of the four classes and never the initial `bg-red-500` of line 18 |
| QuizComponent.MappingIgnoresCase | components/Quiz.tsx:63-68 | answers that agree once lower-cased map to the same shape and colour |
| QuizComponent.QuestionsAskEachKeyOnce | components/Quiz.tsx:21-52 | there are six questions, and every field of the record is asked for exactly once |
| QuizComponent.Assign | components/Quiz.tsx:61-75 | `{ ...prefs, [currentKey]: finalValue }` with the shape and colour mapped (no contract of its own; characterised by AnswerWritesOnlyCurrentKey) |
| QuizComponent.IsBlank | components/Quiz.tsx:55 | `!inputValue.trim()` (no contract of its own; BlankAnswerChangesNothing shows it holds exactly for all-whitespace input) |
| QuizComponent.Advance | components/Quiz.tsx:54-84 | the step index stays within the six questions |
| QuizComponent.BlankAnswerChangesNothing | components/Quiz.tsx:55 | `handleNext` leaves the state unchanged and does not complete exactly when the answer is blank, i.e. all whitespace |
| QuizComponent.AnswerWritesOnlyCurrentKey | components/Quiz.tsx:57-76 | an accepted answer stores the trimmed (or shape- or colour-mapped) answer under the current question's key and changes no other field |
| QuizComponent.AnswerAdvances | components/Quiz.tsx:77-83 | an accepted answer clears the text box; before the last question it moves on by one, and on the last it calls `onComplete` with the updated record |
| QuizComponent.Run | components/Quiz.tsx:54-84 | pressing Next after each of a sequence of inputs keeps the step within the six questions; RunFollowsAnswers says what it emits |
| QuizComponent.RunBlanks | components/Quiz.tsx:55 | a run of blank inputs moves nothing and completes nothing |
| QuizComponent.BlankKeepsFollowing | components/Quiz.tsx:55 | a blank input does not disturb a run that follows its answers |
| QuizComponent.AnswerKeepsFollowing | components/Quiz.tsx:75-80 | an answer before the last question, followed by a run that follows its answers, gives a run that follows its answers |
| QuizComponent.LastAnswerCompletes | components/Quiz.tsx:79-83 | the answer to the last question completes the quiz with the record so far plus that answer |
| QuizComponent.RunFollowsAnswers | components/Quiz.tsx:54-84 | any run takes its non-blank inputs as the answers to the next questions in order and calls `onComplete` once, with the full record, exactly when the last question is answered |
| QuizComponent.AnsweredFirstThree | components/Quiz.tsx:21-37 | the first three answers set activity, flavour and shape, in question order |
| QuizComponent.AnsweredLastThree | components/Quiz.tsx:37-52 | the last three answers set colour, vibe and wish, in question order |
| QuizComponent.AnsweredSix | components/Quiz.tsx:12-52 | six answers from the initial record give each field from the answer at that key's place in the question order |
| QuizComponent.SixAnswersCompleteOnce | components/Quiz.tsx:12-84 | from a fresh quiz, six non-blank answers among any inputs lead to exactly one `onComplete`, with the expected record and a colour other than the initial one |
| QuizComponent.Quiz.constructor | components/Quiz.tsx:10-19 | the quiz starts at the first question with an empty box and the initial record |
| QuizComponent.Quiz.OnInputChange | components/Quiz.tsx:106 | typing replaces the text box and changes nothing else |
| QuizComponent.Quiz.HandleNext | components/Quiz.tsx:54-84 | the handler's new state and completion are exactly those of `Advance`, and the step stays in range |
| GeminiService.GenerateOrnamentMessages | services/geminiService.ts:44-66 | the result always has a non-empty star message and at least five ornament messages |
| GeminiService.Truthy | services/geminiService.ts:44-46 | a string is truthy, and so kept by the star message's fallback, when present and non-empty (no contract; used by StarMessageChoice) |
| GeminiService.ParsedData | services/geminiService.ts:44 | the text `JSON.parse` reads: a missing or empty text parses as an empty object (no contract; used by EmptyTextGivesFallback) |
| GeminiService.StarMessageChoice | services/geminiService.ts:44-46 | the star message is the service's own when it sent a non-empty one, and the fixed fallback otherwise |
| GeminiService.OrnamentMessagesChoice | services/geminiService.ts:44-53 | the ornament list is the service's list, whole and in order, when it has at least five entries; a shorter or missing list is replaced by the fallback list |
| GeminiService.FailuresGiveFallback | services/geminiService.ts:55-66 | a thrown call, a failed parse or a `null` value all give the catch fallback |
| GeminiService.EmptyTextGivesFallback | services/geminiService.ts:44-53 | a missing or empty response text gives both fallbacks, the same result as a failure |
| GeminiService.FallbackListsAgree | services/geminiService.ts:47-65 | the two fallback lists are the same five messages in the same order, the first ending in ":)" |
| AppComponent.ViewOf | App.tsx:68-120 | the tree view is shown exactly at TREE with both the record and the messages present, and it shows those two |
| AppComponent.Enabled | App.tsx:68-120 | an event can happen only when what fires it exists: the start button, the mounted quiz, the pending call, the scheduled timer, the reset button (no contract; used by every App method's requires) |
| AppComponent.Next | App.tsx:28-114 | each handler's state updates (no contract of its own; characterised by StageChanges, GenDataOnlyOnResolve, QuizCompleteStartsGrowing and ResetKeepsData) |
| AppComponent.ServiceSettlement | services/geminiService.ts:12-67 | the awaited generation call always resolves, with a non-empty star message and at least five ornament messages |
| AppComponent.ServiceTrusted | services/geminiService.ts:12-67 | every settlement the real service produces meets the condition RunConsistent places on generation results |
| AppComponent.InitialConsistent | App.tsx:11-14 | the app starts at START with no record and no messages, in a consistent state |
| AppComponent.NextConsistent | App.tsx:28-114 | every event whose generation result is displayable keeps the app consistent |
| AppComponent.StageChanges | App.tsx:28-114 | the stage moves only START→QUIZ on the start button, QUIZ→GROWING on completion, GROWING→TREE on the timer and TREE→START on reset |
| AppComponent.TreeOnlyAfterSettled | App.tsx:37-46 | TREE is entered only by the timer, never while the generation call is still pending |
| AppComponent.GenDataOnlyOnResolve | App.tsx:37-42 | the messages change only when the generation call resolves, and then to its result; a rejection keeps them |
| AppComponent.QuizCompleteStartsGrowing | App.tsx:32-35 | completing the quiz stores the record and shows GROWING with "Consulting the magic list..." before generation settles |
| AppComponent.ResetKeepsData | App.tsx:103-114 | reset returns to START and keeps the record and the messages |
| AppComponent.RejectionWithoutDataStrands | App.tsx:37-103 | a rejection with no earlier messages would lead to a TREE that shows nothing and enables no event |
| AppComponent.Run | App.tsx:28-114 | events applied one after another, failing on the first one that cannot happen (no contract; RunConsistent and Journey are about it) |
| AppComponent.RunConsistent | App.tsx:28-120 | along any run with the real service, the app stays consistent, and at TREE the tree is always shown with at least five ornament messages and a non-empty star |
| AppComponent.Journey | App.tsx:28-114 | start, completion, the service's answer and the timer show exactly the user's record and the service's result; reset then returns to START keeping the record |
| AppComponent.App.constructor | App.tsx:11-14 | the app starts in the initial state |
| AppComponent.App.StartJourney | App.tsx:28-30 | the start button's handler performs `Next` for that event |
| AppComponent.App.HandleQuizComplete | App.tsx:32-35 | the completion handler, up to its `await`, performs `Next` for that event |
| AppComponent.App.ResumeAfterGeneration | App.tsx:37-46 | the continuation after the `await` performs `Next` for the settlement |
| AppComponent.App.OnTreeTimer | App.tsx:44-46 | the timer's callback performs `Next` for the timer |
| AppComponent.App.OnReset | App.tsx:113-114 | the reset button's handler performs `Next` for reset |

## Left out

- The generation request itself is left out: the prompt text, the client, the model name and the response schema (`services/geminiService.ts:13-42`). The call's outcome is an input, `CallOutcome`.
- `JSON.parse` is not modelled. Its result is part of the input (`Parsed`), and fields of a type other than string or string list are not represented.
- `console.error` in both catch blocks is left out, because it has no effect on state.
- The mouse-move parallax, the snowfall, the progress bar, the loading spinner and all styling are left out; none of them affects the state.
- `ChristmasTree` and `MusicPlayer` are not part of this model, beyond the tree view receiving the record and the messages.
- Real time is left out. The 2500 ms timer is the `TimerFired` event, and the model says only that it fires after it is scheduled.
- JsString.ToLower: folds only the ASCII capitals A–Z, not the full Unicode case mapping of `toLowerCase`. Only the Kelvin sign and the dotted capital I lower-case to something containing an ASCII letter (`k`, and `i` followed by a combining dot). Neither can complete one of the searched keywords, so the shape and colour mappings come out the same.
- The `prefs` argument is used only to build the prompt, which is left out.
- After the last answer, the quiz stays on the last question. Pressing Next again would call `onComplete` again, but the app leaves the QUIZ stage on the first call, so that case is outside `Enabled`.
- Enter in the text box calls the same handler as the Next button (`components/Quiz.tsx:107-108`), so it is not modelled separately.
