# MindGuard Youth: a Dafny model of the quiz and chat components

This project models the behavioural core of the MindGuard Youth training app, a React front end. The app has five parts:

- a scored exam over mental-health first-aid scenarios (`App.jsx`);
- the answer card of each scenario, with its fetch-once coaching hint (`ScenarioCard.jsx`);
- a mocked roleplay chat (`ChatInterface.jsx`);
- a floating help chat that queries a knowledge-base webhook (`FloatingChatbot.jsx`);
- an eight-direction sprite that turns on a timer (`AnimatedSprite.jsx`).

Each stateful component is modelled the same way:

- a datatype holds a snapshot of the component's state;
- pure transition functions on that datatype are the specification, and lemmas state and prove the component's properties about them;
- a class holds the same state in fields, and each handler is a method whose `ensures` ties the new state to the matching transition.

An asynchronous handler is split at its `await` into two steps:

- the start step returns what the handler keeps across the await (the trimmed text, the `isOpen` it closed over, the scenario answered);
- the completion step takes the outcome of the round trip as a parameter.

The outcome is a datatype with one case per path through the code: transport failure, non-2xx status, body that is not JSON, and parsed fields.

Two support modules model the JavaScript semantics the components rely on:

- `JsValues`: truthiness, the `||` chain, integer numbers with NaN under `Math.min`, `Math.max` and `+`, and the truncating `%` operator;
- `JsStrings`: `String.prototype.trim` over the ECMAScript white-space set, and `replace(/literal/g, '')`.

| file | module | models |
|---|---|---|
| js_values.dfy | JsValues | JS values, truthiness, `||`, `Math.min`/`Math.max`/`+` with NaN, `%` |
| js_strings.dfy | JsStrings | `trim`, blank test, substring search, global literal removal |
| floating_chatbot.dfy | FloatingChatbot | src/components/FloatingChatbot.jsx |
| exam_flow.dfy | ExamFlow | src/App.jsx |
| roleplay_chat.dfy | RoleplayChat | src/components/ChatInterface.jsx |
| scenario_card.dfy | ScenarioCard | src/components/ScenarioCard.jsx |
| animated_sprite.dfy | AnimatedSprite | src/components/AnimatedSprite.jsx |

## Model

| member | source | states |
|---|---|---|
| JsValues.OrChain | src/components/FloatingChatbot.jsx:85-86 | `a \|\| b \|\| … \|\| last` is the first truthy operand, or `last` when every other operand is falsy; the result is `last` or a truthy operand |
| JsValues.MathMin | src/App.jsx:109 | `Math.min` is NaN iff an argument is NaN; otherwise it is one of its arguments and no larger than either |
| JsValues.MathMax | src/App.jsx:109 | `Math.max` is NaN iff an argument is NaN; otherwise it is one of its arguments and no smaller than either |
| JsValues.Plus | src/App.jsx:188 | numeric `+` is NaN iff an operand is NaN, otherwise the integer sum |
| JsValues.JsRem | src/components/AnimatedSprite.jsx:54 | JS `%` agrees with the mathematical remainder for a non-negative dividend; for a negative dividend it is the negated remainder of the magnitude, so it lies in (-b, 0], and a dividend in (-b, 0) is returned unchanged |
| JsStrings.Trim | src/components/FloatingChatbot.jsx:54-56 | `trim()` returns a contiguous slice of its input with no white space at either end, and only white space is removed |
| JsStrings.BlankIffAllWhiteSpace | src/components/FloatingChatbot.jsx:54 | `!text.trim()` holds exactly when every character of the text is white space |
| JsStrings.TrimIdempotent | src/components/FloatingChatbot.jsx:56 | trimming a trimmed string changes nothing |
| JsStrings.RemoveAll | src/App.jsx:99 | `replace(/p/g, '')` never lengthens the string |
| JsStrings.RemoveAbsent | src/App.jsx:99 | removing a pattern that does not occur leaves the string unchanged |
| JsStrings.NoFenceAfterRemoval | src/App.jsx:99 | after every "```" is removed, no "```" remains, even where removal joins two partial fences |
| FloatingChatbot.BotText | src/components/FloatingChatbot.jsx:85-86 | the reply chain `data.reply \|\| data.output \|\| data.message \|\| data.response \|\| <apology>`; what it yields is stated by ReplyPicksFirstTruthyField and ReplyIsTruthy |
| FloatingChatbot.ReplyText | src/components/FloatingChatbot.jsx:73-86 | the reply text of a round trip, or none on transport failure, non-2xx, invalid JSON or a `null` body; an empty body reads as `{}`; stated by CompletionAppendsOneBotMessage and EmptyReplyFallsThrough |
| FloatingChatbot.StartSend | src/components/FloatingChatbot.jsx:53-60 | the synchronous part of `handleSendMessage`; its guard and effect are stated by SendIsNoOpIffRejected and AcceptedSend |
| FloatingChatbot.CompleteSend | src/components/FloatingChatbot.jsx:88-110 | the completion step with the corrected counter (see Findings); stated by CompletionAppendsOneBotMessage and UnreadCountsOnlyClosedReplies |
| FloatingChatbot.CompleteSendAsWritten | src/components/FloatingChatbot.jsx:88-110 | the completion step as written, the counter reading the captured `isOpen`; stated by AsWrittenCounterIgnoresOpenSends and StaleOpenFlagMissesReply |
| FloatingChatbot.ClearChat | src/components/FloatingChatbot.jsx:124-127 | `clearChat`; stated by ClearChatResets |
| FloatingChatbot.ToggleChat | src/components/FloatingChatbot.jsx:129-132 | `toggleChat` with the counter-zeroing effect of lines 47-51; stated by ToggleChatFlips and UnreadCountsOnlyClosedReplies |
| FloatingChatbot.ToggleMinimize | src/components/FloatingChatbot.jsx:134-137 | `toggleMinimize`: flips `isMinimized` only; kept well formed by TransitionsKeepWellFormed |
| FloatingChatbot.SuggestionsVisible | src/components/FloatingChatbot.jsx:254 | the render condition of the suggested questions; stated by SuggestionsOnlyOnFreshTranscript |
| FloatingChatbot.SendIsNoOpIffRejected | src/components/FloatingChatbot.jsx:53-54 | a send leaves the whole state unchanged exactly when the text is all white space or a call is loading |
| FloatingChatbot.AcceptedSend | src/components/FloatingChatbot.jsx:54-60 | an accepted send appends one user message holding the trimmed, non-empty text; it clears the input, sets loading, hides the suggestions and leaves the open, minimised and unread state alone |
| FloatingChatbot.CompletionAppendsOneBotMessage | src/components/FloatingChatbot.jsx:73-110 | a completed turn appends exactly one bot message and keeps every earlier message; loading is false afterwards; the message is an error (with the connection text) exactly on transport failure, non-2xx, invalid JSON or a `null` body |
| FloatingChatbot.ReplyIsTruthy | src/components/FloatingChatbot.jsx:85-86 | the reply text of a successful turn is always truthy |
| FloatingChatbot.ReplyPicksFirstTruthyField | src/components/FloatingChatbot.jsx:85-86 | the reply is the first truthy of `reply`, `output`, `message`, `response`, else the fixed apology |
| FloatingChatbot.EmptyReplyFallsThrough | src/components/FloatingChatbot.jsx:77-86 | an empty-string `reply` acts as a missing one; an empty body is read as `{}` and gives the apology |
| FloatingChatbot.UnreadCountsOnlyClosedReplies | src/components/FloatingChatbot.jsx:95-98 | with the corrected counter, a completed turn raises the unread count by one exactly on a successful reply that lands while the chat is closed, and otherwise leaves it; toggling the chat open sets it to 0 |
| FloatingChatbot.AsWrittenCounterIgnoresOpenSends | src/components/FloatingChatbot.jsx:95-98 | as written, a reply to a send started from the open chat never changes the counter; the transcript is the same as with the corrected counter |
| FloatingChatbot.StaleOpenFlagMissesReply | src/components/FloatingChatbot.jsx:95-98 | as written: from any closed, idle state, open the chat, send, close it, and a reply arrives; the reply is in the transcript but the unread count is 0 |
| FloatingChatbot.CorrectedCounterCountsScenario | src/components/FloatingChatbot.jsx:95-98 | the same sequence with the corrected counter leaves exactly one unread reply |
| FloatingChatbot.ClearChatResets | src/components/FloatingChatbot.jsx:124-127 | clearing leaves exactly the welcome message with suggestions on, and is idempotent |
| FloatingChatbot.ToggleChatFlips | src/components/FloatingChatbot.jsx:129-132 | toggling flips `isOpen`, always clears `isMinimized` and leaves the conversation alone; toggling twice restores `isOpen` |
| FloatingChatbot.SuggestionsOnlyOnFreshTranscript | src/components/FloatingChatbot.jsx:254 | visible suggestions imply a transcript of the welcome message alone and nothing loading |
| FloatingChatbot.TransitionsKeepWellFormed | src/components/FloatingChatbot.jsx:53-137 | every handler keeps the welcome message first in the transcript |
| FloatingChatbot.FullTurn | src/components/FloatingChatbot.jsx:53-110 | an accepted send followed by its completion adds the user message and then one bot message; loading is false and the input empty |
| FloatingChatbot.SendEnabledIffAccepted | src/components/FloatingChatbot.jsx:292 | the send button is enabled exactly when the handler would accept the current input |
| FloatingChatbot.Chatbot.constructor | src/components/FloatingChatbot.jsx:19-26 | the component starts closed, with the welcome message, empty input, suggestions on and no unread replies |
| FloatingChatbot.Chatbot.SendMessage | src/components/FloatingChatbot.jsx:53-60 | performs the start step and returns the pending turn exactly when the send is accepted |
| FloatingChatbot.Chatbot.CompleteTurn | src/components/FloatingChatbot.jsx:73-110 | performs the completion step, with the unread counter corrected (see Findings and "## Left out") |
| FloatingChatbot.Chatbot.Clear | src/components/FloatingChatbot.jsx:124-127 | performs `clearChat` |
| FloatingChatbot.Chatbot.Toggle | src/components/FloatingChatbot.jsx:129-132 | performs `toggleChat` and the effect that zeroes the counter on opening |
| FloatingChatbot.Chatbot.ToggleMinimized | src/components/FloatingChatbot.jsx:134-137 | flips `isMinimized` |
| FloatingChatbot.Chatbot.SetInputText | src/components/FloatingChatbot.jsx:284 | stores the typed text |
| ExamFlow.Evaluate | src/App.jsx:96-109 | the evaluation stored after a round trip, or none when the handler throws; stated by StoredScoreClamped, ParseFailureStillRecorded and ServiceFailureKeepsResults |
| ExamFlow.HintText | src/App.jsx:57-61 | what `handleGetHint` returns; stated by HintFallbackIsTruthy |
| ExamFlow.SumScores | src/App.jsx:188 | the `reduce` fold of the scores from a start value; stated by SumScoresAppend, SumScoresBounds and SumScoresNaN |
| ExamFlow.TotalScore | src/App.jsx:188 | the fold started at 0; stated by TotalScoreBounds and TotalScoreNaN |
| ExamFlow.MaxScore | src/App.jsx:189 | 20 points per scenario; stated by TotalWithinMax |
| ExamFlow.Start | src/App.jsx:21-25 | `handleStart`; stated by StartAndRestartReset |
| ExamFlow.Restart | src/App.jsx:27-34 | `handleRestart`; stated by StartAndRestartReset |
| ExamFlow.BeginEvaluation | src/App.jsx:64-65 | the synchronous part of `evaluateAnswer`; kept well formed by TransitionsKeepWellFormed |
| ExamFlow.FinishEvaluation | src/App.jsx:111-126 | the part of `evaluateAnswer` after the await; stated by CompletionAppendsAtMostOne and ServiceFailureKeepsResults |
| ExamFlow.NextQuestion | src/App.jsx:129-136 | `handleNextQuestion`; stated by NextQuestionAdvances |
| ExamFlow.CleanEvaluatorText | src/App.jsx:99 | the cleaned evaluator text contains no "```" and has no white space at either end |
| ExamFlow.CleanPlainText | src/App.jsx:99 | model text without any backtick comes out of the cleaning only trimmed |
| ExamFlow.CleanFencedReply | src/App.jsx:99 | a reply wrapped in "```json" ... "```" around backtick-free text comes out as that text trimmed |
| ExamFlow.TrimKeepsNoFence | src/App.jsx:99 | trimming cannot create a fence |
| ExamFlow.ClampScore | src/App.jsx:109 | the clamped score is NaN iff the parsed score is; otherwise it lies in 0..20, equals an in-range score, and is 0 or 20 for scores below or above |
| ExamFlow.StoredScoreClamped | src/App.jsx:99-109 | every stored evaluation has a clamped score; for a parsed object the score is NaN only if the parsed one was, and it is kept when already in range |
| ExamFlow.ParseFailureStillRecorded | src/App.jsx:102-118 | unparseable model text yields score 10, the parse-error feedback and pass false, and one result is still appended |
| ExamFlow.ServiceFailureKeepsResults | src/App.jsx:92-126 | transport failure, non-2xx, a body that is not JSON, a missing or non-string text, or a parsed non-object all show the score-0 fallback and leave results, phase and index unchanged |
| ExamFlow.CompletionAppendsAtMostOne | src/App.jsx:111-126 | a completed evaluation keeps earlier results, appends one result exactly when an evaluation was stored, sets feedback, lowers the flag and keeps the state well formed |
| ExamFlow.StartAndRestartReset | src/App.jsx:21-34 | start gives phase quiz, index 0 and no results; restart gives phase intro, index 0, no results and the initial scenarios |
| ExamFlow.NextQuestionAdvances | src/App.jsx:129-136 | moving on clears the feedback, then advances the index when a later scenario exists and otherwise goes to the results phase; the index stays in range |
| ExamFlow.TransitionsKeepWellFormed | src/App.jsx:14-34 | the initial state, start, restart and the start of an evaluation keep the index in range and every stored score clamped |
| ExamFlow.SumScoresAppend | src/App.jsx:188 | folding one more result adds its score to the running total |
| ExamFlow.SumScoresBounds | src/App.jsx:188 | with numeric clamped scores, the fold stays numeric and grows by 0..20 per result |
| ExamFlow.SumScoresNaN | src/App.jsx:188 | the fold is NaN exactly when its start value or some score is NaN |
| ExamFlow.TotalScoreBounds | src/App.jsx:188 | the total of numeric clamped scores lies between 0 and 20 times the number of results |
| ExamFlow.TotalScoreNaN | src/App.jsx:188 | the total is NaN exactly when some stored score is NaN |
| ExamFlow.TotalWithinMax | src/App.jsx:188-189 | in a well-formed state with numeric scores, the total lies in 0..20 per result, and the maximum is 20 times the number of scenarios and positive |
| ExamFlow.HintFallbackIsTruthy | src/App.jsx:57-61 | a failed hint call returns the fixed, truthy ALGEE reminder; otherwise the candidate text is returned as is |
| ExamFlow.App.constructor | src/App.jsx:14-19 | the app starts in the intro phase with the initial scenarios, index 0, no results, no feedback |
| ExamFlow.App.HandleStart | src/App.jsx:21-25 | performs `handleStart` and keeps the state well formed |
| ExamFlow.App.HandleRestart | src/App.jsx:27-34 | performs `handleRestart` and keeps the state well formed |
| ExamFlow.App.BeginEvaluateAnswer | src/App.jsx:64-67 | raises `isEvaluating` and returns the scenario answered with the answer |
| ExamFlow.App.FinishEvaluateAnswer | src/App.jsx:92-126 | performs the completion of `evaluateAnswer` and keeps the state well formed |
| ExamFlow.App.HandleNextQuestion | src/App.jsx:129-136 | performs `handleNextQuestion` and keeps the state well formed |
| RoleplayChat.StartSend | src/components/ChatInterface.jsx:27-35 | the synchronous part of `handleSendMessage`; stated by SendIsNoOpIffBlank and AcceptedSendKeepsText |
| RoleplayChat.CompleteSend | src/components/ChatInterface.jsx:55-75 | the part after the await; stated by CompletionAppendsOneBotMessage |
| RoleplayChat.InitialTranscript | src/components/ChatInterface.jsx:5-13 | the transcript starts as the single opening line of the bot, nothing is pending and the send button is disabled |
| RoleplayChat.SendIsNoOpIffBlank | src/components/ChatInterface.jsx:28-29 | a send changes nothing exactly when the input is all white space |
| RoleplayChat.AcceptedSendKeepsText | src/components/ChatInterface.jsx:27-35 | a non-blank input is appended untrimmed, the input is cleared and the typing flag raised, even if a reply is still pending |
| RoleplayChat.CompletionAppendsOneBotMessage | src/components/ChatInterface.jsx:55-75 | a completed turn appends exactly one bot message (mock reply or error text), keeps earlier messages and lowers the typing flag |
| RoleplayChat.EnabledSendIsAccepted | src/components/ChatInterface.jsx:147-151 | the button is disabled exactly when the input is blank or a reply is pending; an enabled button starts a turn |
| RoleplayChat.FullTurn | src/components/ChatInterface.jsx:27-75 | a turn from a non-blank input adds the user line and then one bot line, and the typing flag is down again |
| RoleplayChat.Roleplay.constructor | src/components/ChatInterface.jsx:5-13 | starts with the opening line, empty input, not typing |
| RoleplayChat.Roleplay.SendMessage | src/components/ChatInterface.jsx:27-35 | performs the start step and reports whether it went ahead |
| RoleplayChat.Roleplay.CompleteReply | src/components/ChatInterface.jsx:55-75 | performs the completion step |
| RoleplayChat.Roleplay.SetInputText | src/components/ChatInterface.jsx:144 | stores the typed text |
| ScenarioCard.Submitted | src/components/ScenarioCard.jsx:11-14 | the argument `handleSubmit` passes to `onSubmit`, if any; stated by BlankSubmitIsNoOp and SubmitPassesUntrimmedResponse |
| ScenarioCard.Submit | src/components/ScenarioCard.jsx:11-17 | the state after `handleSubmit`; stated by BlankSubmitIsNoOp and SubmitPassesUntrimmedResponse |
| ScenarioCard.StartHint | src/components/ScenarioCard.jsx:19-21 | `handleHintClick` up to its await; stated by HintClickWithHintIsNoOp and HintFetchCycle |
| ScenarioCard.CompleteHint | src/components/ScenarioCard.jsx:23-24 | `handleHintClick` after its await; stated by HintFetchCycle |
| ScenarioCard.BlankSubmitIsNoOp | src/components/ScenarioCard.jsx:11-13 | a submit calls `onSubmit` exactly when the response has a non-white-space character; a blank submit changes nothing |
| ScenarioCard.SubmitPassesUntrimmedResponse | src/components/ScenarioCard.jsx:14-16 | a non-blank submit passes the response as typed, then clears the response and the hint |
| ScenarioCard.HintClickWithHintIsNoOp | src/components/ScenarioCard.jsx:19-20 | a click while a truthy hint is shown does nothing and fetches nothing |
| ScenarioCard.HintFetchCycle | src/components/ScenarioCard.jsx:21-24 | a fetch raises the loading flag, then stores the result and lowers it; a falsy result lets the next click fetch again |
| ScenarioCard.SubmitDisabledIff | src/components/ScenarioCard.jsx:100 | the submit button is disabled exactly when the response is blank or a submission runs |
| ScenarioCard.Card.constructor | src/components/ScenarioCard.jsx:7-9 | starts with an empty response, a null hint, not loading |
| ScenarioCard.Card.HandleSubmit | src/components/ScenarioCard.jsx:11-17 | performs `handleSubmit` and returns the `onSubmit` argument, if any |
| ScenarioCard.Card.BeginHintClick | src/components/ScenarioCard.jsx:19-22 | performs `handleHintClick` up to its await and says whether the hint handler is called |
| ScenarioCard.Card.FinishHintClick | src/components/ScenarioCard.jsx:23-24 | stores the hint and lowers the flag |
| ScenarioCard.Card.SetResponse | src/components/ScenarioCard.jsx:91 | stores the typed response |
| AnimatedSprite.SpriteRotation | src/components/AnimatedSprite.jsx:4-13 | the image table `spriteRotations`; stated by EveryDirectionHasSprite |
| AnimatedSprite.CurrentIn | src/components/AnimatedSprite.jsx:51-57 | the `currentDirection` memo over any list; stated by ManualDirectionIn, CurrentOfKnown, AdvanceIn and UnknownDirectionIn |
| AnimatedSprite.CurrentDirection | src/components/AnimatedSprite.jsx:51-57 | the memo over `directionOrder`; stated by ManualDirection, StartsAtGivenDirection, EachTickAdvancesOne and UnknownDirection |
| AnimatedSprite.NextTick | src/components/AnimatedSprite.jsx:97 | the interval callback's update; stated by TicksCycle |
| AnimatedSprite.Ticks | src/components/AnimatedSprite.jsx:94-98 | the counter after n callbacks; stated by TicksCycle and FullTurnReturns |
| AnimatedSprite.Successor | src/components/AnimatedSprite.jsx:15-24 | the next entry of `directionOrder`, wrapping; stated by EachTickAdvancesOne and SuccessorWraps |
| AnimatedSprite.IndexOf | src/components/AnimatedSprite.jsx:53 | `indexOf` is -1 exactly for an absent name; otherwise it is a position holding the name |
| AnimatedSprite.IndexOfFirst | src/components/AnimatedSprite.jsx:53 | `indexOf` returns the first position holding the name |
| AnimatedSprite.IndexOfDistinct | src/components/AnimatedSprite.jsx:53 | in a list without repeats, each name's index is its position |
| AnimatedSprite.DirectionsDistinct | src/components/AnimatedSprite.jsx:15-24 | the order lists eight distinct directions |
| AnimatedSprite.TicksCycle | src/components/AnimatedSprite.jsx:97 | the counter starts at 0 and after n callbacks equals n mod 8, so it stays in 0..7 and repeats every eight callbacks |
| AnimatedSprite.ManualDirectionIn | src/components/AnimatedSprite.jsx:51-57 | without auto-rotation the memo is the `direction` prop, for any list |
| AnimatedSprite.ManualDirection | src/components/AnimatedSprite.jsx:51-57 | without auto-rotation the sprite faces the `direction` prop whatever the counter |
| AnimatedSprite.CurrentOfKnown | src/components/AnimatedSprite.jsx:52-54 | with auto-rotation and a listed direction, the shown entry is at (index + counter) mod 8 |
| AnimatedSprite.StartsAtGivenDirectionIn | src/components/AnimatedSprite.jsx:52-54 | with auto-rotation and a listed direction, counter 0 shows that direction, for any eight-entry list |
| AnimatedSprite.StartsAtGivenDirection | src/components/AnimatedSprite.jsx:52-54 | with auto-rotation and a known direction, counter 0 shows that direction |
| AnimatedSprite.AdvanceIn | src/components/AnimatedSprite.jsx:54 | in any list of eight distinct names, one counter step moves the shown name one place on, wrapping around |
| AnimatedSprite.DefaultPropsStartSouth | src/components/AnimatedSprite.jsx:37-40 | with the default props (`direction = 'south'`, `autoRotate = true`) the sprite first faces south and turns south-east at the first callback |
| AnimatedSprite.EachTickAdvancesOne | src/components/AnimatedSprite.jsx:54 | each callback turns a known direction exactly one step on along the order |
| AnimatedSprite.SuccessorWraps | src/components/AnimatedSprite.jsx:15-24 | the step after south-west is south |
| AnimatedSprite.FullTurnReturns | src/components/AnimatedSprite.jsx:97 | after eight more callbacks the sprite faces where it faced before |
| AnimatedSprite.UnknownDirectionIn | src/components/AnimatedSprite.jsx:53-54 | for a name outside a list of eight, counter 0 shows nothing (the remainder is -1) and counter t in 1..7 shows entry t-1 |
| AnimatedSprite.UnknownDirection | src/components/AnimatedSprite.jsx:53-54 | the same for the component's order |
| AnimatedSprite.EveryDirectionHasSprite | src/components/AnimatedSprite.jsx:4-24 | a key has an image in the table exactly when it is one of the eight directions in the order |
| AnimatedSprite.ImageShown | src/components/AnimatedSprite.jsx:118 | a known direction has an image at every counter value; an unknown one has none without auto-rotation, and none at counter 0 with it |
| AnimatedSprite.Sprite.constructor | src/components/AnimatedSprite.jsx:45 | the counter starts at 0 |
| AnimatedSprite.Sprite.Tick | src/components/AnimatedSprite.jsx:97 | one callback sets the counter to `(prev + 1) % 8` and keeps it in 0..7 |

## Left out

- Network calls (`fetch` to the generative-language endpoint and to the knowledge-base webhook) and `JSON.parse`. They are parameters: an outcome datatype per round trip, and a `parse` function for the evaluator text.
- Parsed JSON values are abstracted to the fields the code reads. The parsed `score` is taken as already converted by `Math.min`'s ToNumber.
- Floating-point numbers: scores are integers or NaN. Fractional scores, the results percentage, the progress-bar width and the `Math.sin` bob animation (src/components/AnimatedSprite.jsx:60-91) are not modelled.
- Message ids from `Date.now()`, the `crypto.randomUUID()` session id, request timestamps and the `sources` list of a bot reply are not modelled.
- Timers are not modelled: the 1.5-second mock delay, the rotation interval, the focus timeout and scrolling. Only their effects (the completion step, one counter step) are.
- React batching and concurrent turns are not modelled; turns are sequential. Each component's render gating is taken into account only through the disabled-button predicates.
- FloatingChatbot.Chatbot.CompleteTurn: the class follows the corrected unread counter (`CompleteSend`), which reads whether the chat is open when the reply lands. The source reads the `isOpen` captured when the send started, so in the source the counter never grows. That as-written behaviour is modelled only by `CompleteSendAsWritten` (see Findings).
- FloatingChatbot.Chatbot.Toggle: the effect that zeroes the unread counter when `isOpen` becomes true runs after render in the source. The model folds it into the toggle.
- RoleplayChat.CompleteSend: the error branch is unreachable with the mock in the source (the awaited delay never rejects). It is kept as a `Failed` outcome.
- ExamFlow.Evaluate: a parsed primitive is treated as throwing on `evaluation.score = …`, as in module (strict-mode) code. A sloppy-mode script would instead ignore the assignment.
- AnimatedSprite.SpriteRotation: keys inherited from `Object.prototype` (such as `"toString"`) are read as `undefined`. In the source they would yield a non-image value.
- The prompt templates, the scenario data and system prompt, the CORS proxies under `api/` and the dev-server configuration are not part of this model.
- `FeedbackModal.jsx`, `ResultsScreen.jsx`, `ProgressBar.jsx`, `IntroScreen.jsx` and `LoadingOverlay.jsx` are presentational and are not part of this model.

## Findings

| source | as written | input that shows it | evidently intended | confidence | as-written member | corrected member |
|---|---|---|---|---|---|---|
| src/components/FloatingChatbot.jsx:95-98 | after a reply, `if (!isOpen)` reads the `isOpen` the send handler closed over; sends can only be made from the open chat (src/components/FloatingChatbot.jsx:140-156), so it is always true and the counter never grows | open the chat, send "What is the ALGEE framework?", close the chat, and a 2xx reply `{"reply": "…"}` arrives: the closed chat's badge shows no unread reply | count a reply that lands while the chat is closed, reading the current open state | not executed | FloatingChatbot.StaleOpenFlagMissesReply | FloatingChatbot.UnreadCountsOnlyClosedReplies |
