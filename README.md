# Portfolio widgets: a Dafny model

This project models the parts of a personal portfolio site that hold state and
make decisions.

- **Chat assistant** (`chatbot.dfy`). It keeps a transcript that starts with a greeting, an input buffer, a loading flag and the resume text. The resume is fetched once, when the component mounts. A submit rejects blank input, then appends the user's message. It checks first for the API key and then for the resume, builds a prompt from the resume and the current question only, and calls the model. It then appends either the reply or an error explanation. The widget's visibility comes from two flags: open and minimized.
- **Accordion** (`accordion.dfy`). Opening one item closes any other.
- **Loading screen** (`loading_screen.dfy`). A progress counter is clamped at 100. A visibility flag is cleared once. A callback runs after the screen is hidden.
- **Navigation bar** (`navigation.dfy`). It holds the mobile-menu flag and the section-link click handler.
- **JavaScript string operations** (`js_text.dfy`). `trim`, number-to-string and `substring`, defined exactly, so the operations above can be stated exactly.

Each component is a `class` whose fields are the component's state fields, plus fields that record what React and the browser hold for it: the chat's in-flight request and whether the resume load has settled, and the loading screen's pending timers, its callback count and whether it is still mounted.
Each method's `ensures` ties the new state to a pure transition function of the
old state (`View() == Begin(old(View()), ...)` in the chatbot, `View() ==
Step(old(View()), ...)` on the loading screen). The properties are proved as
lemmas about those transition functions. This includes invariants over any
sequence of enabled events (`Run`).

The outside calls are inputs:
- the resume `fetch` is a `FetchOutcome`: an ok response with its body, a response that is not ok, or a thrown error;
- `generateContent` gives a `ModelOutcome`: the reply text, or a thrown value, which either is an `Error` with a message or is not an `Error`;
- `Date.now()` is a clock reading passed to each step;
- `import.meta.env.VITE_GEMINI_API_KEY` is a constructor argument of the widget;
- `document.getElementById` is the set of element ids on the page;
- the media query is the `isDesktop` argument;
- timers are events.

The async `handleSendMessage` is split at its first `await`:
- `BeginSend` runs the synchronous part. It covers the blank check, the user message, clearing the input, setting loading, and both precondition checks. When a check fails, the thrown `Error` is caught in the same step. The send then finishes there, and no model request is ever opened.
- `CompleteSend(outcome)` runs the rest once the model answers.

Behaviour of the code worth knowing:

- The widget's visibility is two independent flags, `isOpen` and `isMinimized`. Closing does not reset `isMinimized`, so a widget closed while minimized reopens minimized. `ReopenAfterMinimizedClose` shows this.
- Message ids are `Date.now().toString()` and `(Date.now() + 1).toString()`. Nothing makes them unique or increasing. The model takes the clock as input and proves nothing about their order.
- "At most one request in flight" is enforced only by the disabled input and send button. The handler does not test `isLoading`. It is a precondition of `BeginSend` and a condition of `Enabled`, and the handler is not claimed to enforce it.
- The code has no transport/upstream error classification. A thrown `Error` shows its `message`; any other thrown value shows one fixed apology.

## Model

| member | source | states |
|---|---|---|
| `Chatbot.Init` | src/components/Chatbot.tsx:13-25 | The widget starts closed and not minimized. The transcript is exactly the bot greeting with id `'1'`. Input is empty, loading is off and the resume is `''`. The invariant holds. |
| `Chatbot.ChatWidget.constructor` | src/components/Chatbot.tsx:12-25 | Mounting gives the initial state and keeps the configured API key. |
| `JsText.TrimStartSpec` | src/components/Chatbot.tsx:55 | The result is a suffix of the input. Everything removed is JavaScript white space, and the result does not start with white space. |
| `JsText.TrimEndSpec` | src/components/Chatbot.tsx:55 | The result is a prefix of the input. Everything removed is JavaScript white space, and the result does not end with white space. |
| `JsText.BlankIffAllWhiteSpace` | src/components/Chatbot.tsx:55 | `!s.trim()` holds exactly when every character of `s` is white space or a line terminator. |
| `Chatbot.BlankSubmitIsNoOp` | src/components/Chatbot.tsx:55 | A submit whose input is empty or only white space leaves the whole state unchanged. No message is added, input and loading stay as they were, and no model request is opened. |
| `Chatbot.Submitted` | src/components/Chatbot.tsx:57-66 | A non-blank submit appends one user message holding the untrimmed input, clears the input and sets loading. Nothing else changes. |
| `JsText.NatToString` | src/components/Chatbot.tsx:58 | A clock value prints as a non-empty string of decimal digits with no leading zero. |
| `JsText.NatToStringRoundTrip` | src/components/Chatbot.tsx:58 | Reading the printed digits back gives the clock value. |
| `JsText.NatToStringInjective` | src/components/Chatbot.tsx:100 | Different clock values give different id strings. Equal clock readings, and therefore equal ids, are not ruled out. |
| `Chatbot.Prepare` | src/components/Chatbot.tsx:69-93 | A model call is made exactly when the key is present and the resume is non-empty. It sends model `gemini-2.5-flash` and the grounded prompt. A failed check is a thrown `Error`, and its message is the key text exactly when the key is missing, so the key is checked first. |
| `Chatbot.MissingKeyFailsFast` | src/components/Chatbot.tsx:69-73 | When the key is missing, whatever the resume, the send appends the user message then exactly the "Gemini API key not found..." text, and ends not loading. No model request is opened. |
| `Chatbot.MissingResumeFailsFast` | src/components/Chatbot.tsx:75-77 | When the key is present and the resume is empty, the send appends the user message then exactly the "Resume content not loaded yet..." text, and ends not loading. No model request is opened. |
| `Chatbot.CallStartsLoading` | src/components/Chatbot.tsx:64-95 | When both checks pass, the state after the user message stays loading. The one request in flight carries exactly `BuildPrompt(resume, question)`. |
| `Chatbot.PromptLayout` | src/components/Chatbot.tsx:82-93 | The prompt is the fixed instruction, then the resume, then the fixed "USER QUESTION" lines, then the question, then the closing whitespace, each at a stated offset. |
| `Chatbot.PromptDeterminesQuestion` | src/components/Chatbot.tsx:82-93 | For a fixed resume, two prompts are equal only when their questions are equal. The question reaches the model unaltered. |
| `Chatbot.PromptDeterminesResume` | src/components/Chatbot.tsx:82-93 | For a fixed question, two prompts are equal only when their resumes are equal. |
| `Chatbot.GroundingWindowIsOne` | src/components/Chatbot.tsx:82-93 | The request sent depends on the input and the resume, not on the transcript. Earlier messages never enter it. |
| `Chatbot.ExpectedAnswer` | src/components/Chatbot.tsx:69-111 | The answer without the pipeline: the key text, else the resume text, else the model's text, else a thrown `Error`'s message, else the fixed "Sorry, I encountered an error..." apology. |
| `Chatbot.Complete` | src/components/Chatbot.tsx:95-118 | Once the model answers, exactly one bot message is appended with the reply text, with id `(now + 1).toString()`. Loading is off, no request is in flight, and the other fields are unchanged. |
| `Chatbot.SendAppendsExchange` | src/components/Chatbot.tsx:54-119 | Whatever the outcome, a non-blank send ends with the transcript exactly two longer: earlier messages unchanged, then the user message, then the bot message whose text is `ExpectedAnswer`. Loading ends off. |
| `Chatbot.LoadResume` | src/components/Chatbot.tsx:29-44 | The resume becomes the fetched body only for an ok response. A response that is not ok, or a thrown error, leaves it as it was. The load is then settled, and every other field is unchanged. |
| `Chatbot.ChatWidget.ResumeLoaded` | src/components/Chatbot.tsx:29-44 | The loader runs once (`[]` dependencies). Before it settles the resume is `''`. After it, the resume is the body of an ok response and `''` otherwise. |
| `Chatbot.Open` | src/components/Chatbot.tsx:128-131 | The launcher sets `isOpen`, keeps `isMinimized` and changes nothing else. |
| `Chatbot.ToggleMinimize` | src/components/Chatbot.tsx:156 | The header button flips `isMinimized` and changes nothing else. |
| `Chatbot.Close` | src/components/Chatbot.tsx:163 | Close clears `isOpen` without resetting `isMinimized`, and changes nothing else. |
| `Chatbot.MinimizeKeepsTranscript` | src/components/Chatbot.tsx:128-156 | After opening, the header button minimizes and then restores the widget. The transcript stays as it was throughout, `isMinimized` returns to its old value, and from a non-minimized widget the chat area is hidden and then shown again. |
| `Chatbot.ReopenAfterMinimizedClose` | src/components/Chatbot.tsx:163 | After open, minimize and close, the widget is closed and minimized. Reopening shows it minimized, with no chat area. |
| `Chatbot.BeginPreservesValid` | src/components/Chatbot.tsx:54-93 | Starting a send from an idle valid state keeps the invariant and only appends to the transcript. |
| `Chatbot.StepPreservesValid` | src/components/Chatbot.tsx:128-222 | Each event that the rendered widget accepts keeps these facts: the greeting comes first, user and bot messages alternate, loading holds exactly while a request is in flight, and the resume is `''` until the loader settles. Each event only appends to the transcript. |
| `Chatbot.RunPreservesValid` | src/components/Chatbot.tsx:12-233 | Over any sequence of enabled events, the invariant holds and the transcript only grows. |
| `Chatbot.FirstQuestionScenario` | src/components/Chatbot.tsx:15-119 | A fresh widget has one message. Opening it and sending "What languages do you know?" gives three messages, the third from the bot. |
| `Chatbot.ChatWidget.OpenWidget` | src/components/Chatbot.tsx:131 | The fields change as `Open` says. |
| `Chatbot.ChatWidget.ToggleMinimized` | src/components/Chatbot.tsx:156 | The fields change as `ToggleMinimize` says. |
| `Chatbot.ChatWidget.CloseWidget` | src/components/Chatbot.tsx:163 | The fields change as `Close` says. |
| `Chatbot.ChatWidget.InputChanged` | src/components/Chatbot.tsx:214 | The input's `onChange` replaces the input and nothing else. |
| `Chatbot.ChatWidget.BeginSend` | src/components/Chatbot.tsx:54-95 | The fields after the synchronous part of `handleSendMessage` are `Begin` of the old ones, and the invariant is kept. |
| `Chatbot.ChatWidget.AppendUserMessage` | src/components/Chatbot.tsx:64-66 | The three state updates of a non-blank submit change the fields as `Submitted` says. |
| `Chatbot.ChatWidget.Settle` | src/components/Chatbot.tsx:69-118 | A passed check puts the request in flight. A failed check is caught at once: its bot message is appended and loading is cleared. |
| `Chatbot.ChatWidget.CompleteSend` | src/components/Chatbot.tsx:95-118 | The fields after the model answers are `Complete` of the old ones, and the invariant is kept. |
| `Chatbot.ChatWidget.KeyPress` | src/components/Chatbot.tsx:121-126 | Enter without Shift starts a send. Any other key leaves the state unchanged. |
| `Accordion.Toggle` | src/components/ui/Accordion.tsx:20-22 | Toggling the expanded item leaves no item expanded. Toggling any other item makes it the only expanded one, whatever was expanded before. |
| `Accordion.AtMostOneExpanded` | src/components/ui/Accordion.tsx:27 | At most one item is expanded. It is exactly the item at `expandedIndex`, or none when the index is null or out of range. |
| `Accordion.ToggleTwiceFromNone` | src/components/ui/Accordion.tsx:20-22 | Toggling the same index twice from none expanded returns to none expanded. |
| `Accordion.RenderedContents` | src/components/ui/Accordion.tsx:73-102 | An item's content is rendered exactly when that item is expanded, and it is that item's own content. |
| `Accordion.ContentShownForOneItem` | src/components/ui/Accordion.tsx:74 | No two items show their content at the same time. |
| `Accordion.AccordionState.constructor` | src/components/ui/Accordion.tsx:18 | Initially no item is expanded. |
| `Accordion.AccordionState.ToggleItem` | src/components/ui/Accordion.tsx:20-22 | A header click sets `expandedIndex` as `Toggle` says. Afterwards at most one item is expanded. |
| `LoadingScreen.NextProgress` | src/components/LoadingScreen.tsx:26-32 | A tick below 100 adds exactly 2. A tick at or above 100 yields 100. |
| `LoadingScreen.ProgressAfterValue` | src/components/LoadingScreen.tsx:20-32 | After `n` ticks from 0 the progress is `min(2n, 100)`. It stays in [0, 100] and is even. |
| `LoadingScreen.ProgressMonotone` | src/components/LoadingScreen.tsx:26-32 | Progress never decreases across ticks. |
| `LoadingScreen.FullIsStable` | src/components/LoadingScreen.tsx:27-29 | Once progress reaches 100, further ticks leave it at 100. |
| `LoadingScreen.Init` | src/components/LoadingScreen.tsx:19-20 | At mount the screen is visible, progress is 0, and the interval and dismiss timer are running. |
| `LoadingScreen.StepPreservesValid` | src/components/LoadingScreen.tsx:23-47 | Every timer event keeps these facts: progress is even and in [0, 100], and the interval runs until it has seen 100. The callback is called at most once, only after the screen is hidden. Each event also keeps progress from decreasing and keeps a hidden screen hidden. |
| `LoadingScreen.RunPreservesValid` | src/components/LoadingScreen.tsx:23-47 | Over any sequence of timer events, the invariant holds and progress does not decrease. A hidden screen never becomes visible again. |
| `LoadingScreen.TicksFollowProgressAfter` | src/components/LoadingScreen.tsx:25-33 | Ticks alone move a mounted screen's progress along `ProgressAfter`, including after the interval has been cleared. |
| `LoadingScreen.TicksStopInterval` | src/components/LoadingScreen.tsx:25-33 | Under ticks alone, the interval is still running exactly while the progress seen by the last tick was below 100. It is cleared by the first tick that sees 100, and it stays cleared. |
| `LoadingScreen.IntervalRunsFiftyTicks` | src/components/LoadingScreen.tsx:20-33 | From mount, the interval is still running after `n` ticks exactly when `n <= 50`. |
| `LoadingScreen.TicksFromMount` | src/components/LoadingScreen.tsx:20-33 | From mount, `n` ticks give progress `min(2n, 100)`. |
| `LoadingScreen.LoadingScreenState.constructor` | src/components/LoadingScreen.tsx:19-20 | The fields start as `Init` says. |
| `LoadingScreen.LoadingScreenState.Tick` | src/components/LoadingScreen.tsx:25-33 | One interval firing applies the clamped updater. It clears the interval when the previous progress was already 100. |
| `LoadingScreen.LoadingScreenState.Dismiss` | src/components/LoadingScreen.tsx:36-41 | The dismiss timer hides the screen and starts the completion timer. |
| `LoadingScreen.LoadingScreenState.FireCompletion` | src/components/LoadingScreen.tsx:38-40 | `onLoadingComplete?.()` is called, if given, and only when the screen is already hidden. |
| `LoadingScreen.LoadingScreenState.Unmount` | src/components/LoadingScreen.tsx:43-46 | Cleanup clears the interval and the dismiss timer. A completion timer already started still fires. |
| `Navigation.TargetId` | src/components/Navigation.tsx:23 | `targetId` is `href` with its first character removed, and `''` for an empty `href`. |
| `JsText.Substring` | src/components/Navigation.tsx:23 | `s.substring(k)` with `k` in range is what follows the first `k` characters. The start index is clamped. |
| `Navigation.NavLinksRoundTrip` | src/components/Navigation.tsx:7-14 | For every entry in `navLinks`, `"#" + targetId == href`, and the target id is not empty. |
| `Navigation.MenuAfterClick` | src/components/Navigation.tsx:26-29 | A click whose target exists closes the menu. A click whose target is missing leaves the menu state unchanged. |
| `Navigation.SectionClickClosesMenu` | src/components/Navigation.tsx:21-30 | A section link whose section is on the page always leaves the menu closed. |
| `Navigation.NavigationState.constructor` | src/components/Navigation.tsx:17 | The mobile menu starts closed. |
| `Navigation.NavigationState.ToggleMenu` | src/components/Navigation.tsx:76 | The menu button flips `isMobileMenuOpen`. |
| `Navigation.NavigationState.HandleNavClick` | src/components/Navigation.tsx:21-30 | The handler scrolls to the target id exactly when its element exists, and closes the menu in that case only. |
| `Navigation.MenuShownAfterClick` | src/components/Navigation.tsx:99 | After a link click, the mobile menu is still rendered exactly when the viewport is not desktop, the menu was open and the target was missing. A desktop viewport never renders it. |

## Left out

- Timestamps and the scroll-to-bottom effect are wall-clock and DOM side effects, so they are not modelled. `Message` has no timestamp.
- Message ids are not asserted unique or increasing, because they come from `Date.now()`. The clock is an input.
- `Date.now()` values of 10^21 or more, where `toString` switches to exponent notation, are not modelled. Clock values are unbounded naturals.
- The network and SDK calls (`fetch`, `GoogleGenerativeAI`, `getGenerativeModel`, `generateContent`) are foreign calls. They appear only as outcome inputs. An exception from constructing the client is folded into `Thrown`.
- `console.error` diagnostics are not modelled, because they have no effect on state.
- JavaScript strings are UTF-16 sequences; the model uses Unicode scalar values (`char`). `trim` is modelled on code points.
- Timer periods (50 ms, 2500 ms, 500 ms) are not modelled; only the order of events is kept. For example, progress reaches 100 after 50 ticks, which is about when the dismiss timer fires, but that timing is not stated.
- The loading screen's effect re-running when a new `onLoadingComplete` is passed is not modelled. It would restart the timers without resetting progress. Only a single mount is modelled.
- React StrictMode's double effect run in development is not modelled. The resume loader is modelled as settling once.
- `useScrollProgress`, the `Card` tilt and `ThreeBackground` are not modelled. They are floating-point geometry and rendering.
- The purely presentational components, the class-name strings and the JSX layout carry no logic, so they are not modelled.
- `Chatbot.ChatWidget.BeginSend`: the single-send rule is a precondition, standing for the disabled controls. The handler itself does not enforce it.
