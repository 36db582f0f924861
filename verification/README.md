# Self-care client: the state machines of its two views

This project models, in Dafny, the request and state orchestration of a small
React client for a self-care content service. Two views hold all of the
client's logic:

- the **content view** (`App`, src/App.jsx) keeps a profile, an active focus
  category, the routines and tips of that category, and two creation forms.
  Its handlers are `fetchData` (refresh), `saveProfile`, `createRoutine` and
  `createTip`. The routine form turns its free-text box into steps: split on
  line feeds, trim each line, drop the empty lines.
- the **analysis view** (`Front`, src/Front.jsx) takes one photo through
  choose, preview, analyse, then result or error. It derives three display
  fields from the result's guidance: the palette and the neutrals joined with
  ", ", and the list of shape tips.

Each view is a class whose fields are the component's `useState` hooks.
Each asynchronous handler becomes two methods:

- a `Begin…` method does what the handler does before its first `await` and
  returns what it sends;
- a `Complete…` method takes the outcome of the network call and does the
  rest, `finally` block included. The outcome is a response (ok or not, with
  its parsed body) or an exception.

A ghost `State()` function collects all fields into one value. Each method
states its whole new state as an update of `old(State())`, so every
postcondition also says what did not change.

The JavaScript string operations (`trim`, `split`, `join`, `||` on strings)
are functions in `Text`. Step derivation is in `Steps`. Concrete runs of both
views are in `Scenarios`.

The content view runs its `activeCat` effect once on mount (src/App.jsx:39-42).
So the first call on a new `ContentView` is `Refresh()`, and its completion
comes back like any other. `Scenarios.MountedView` builds a view this way, and
every content-view scenario starts from it.

In these places the code's behaviour is easy to misread:

- After a successful save or creation, the handler calls the `fetchData` of
  the render in which the form was submitted. So the follow-up refresh is
  scoped to the category that was active at submission, not the one active
  when the response arrives. `RefreshRequest.category` records this, and
  `Scenarios.CreateThenSwitchScenario` shows it.
- The code neither tags nor drops stale refresh responses. Any completed
  refresh overwrites both lists, and the model claims no ordering between
  refreshes.
- A successful save awaits its refresh before the `finally` block arms the
  status timer. So in that case the timer is armed when that refresh
  completes (`RefreshRequest.armsStatusTimer`), not when the save completes.
- Choosing the active category again does not re-run the effect keyed on it,
  so no refresh starts.
- The preview URL is never revoked.

## Model

| member | source | states |
|---|---|---|
| Text.TrimStart | src/App.jsx:88 | leading-whitespace removal never lengthens the string |
| Text.TrimStartSpec | src/App.jsx:88 | the result is a suffix of the input that does not start with whitespace, and every dropped character is whitespace |
| Text.TrimEnd | src/App.jsx:88 | trailing-whitespace removal never lengthens the string |
| Text.TrimEndSpec | src/App.jsx:88 | the result is a prefix of the input that does not end with whitespace, and every dropped character is whitespace |
| Text.Trim | src/App.jsx:93 | `trim` leaves no whitespace at either end and never lengthens the string |
| Text.TrimIsSlice | src/App.jsx:93 | `trim` returns the slice of the input between its leading and trailing whitespace, and removes only whitespace |
| Text.IsBlank | src/App.jsx:88 | `!s.trim()`: `BlankIffAllSpace` states it holds exactly for all-whitespace strings, and the guards of `BeginCreateRoutine` and `BeginCreateTip` use it |
| Text.BlankIffAllSpace | src/App.jsx:88 | `!s.trim()` holds exactly when every character of `s` is whitespace |
| Text.TrimFixesTrimmed | src/App.jsx:93 | `trim` leaves a string with no whitespace at either end unchanged |
| Text.TrimIdempotent | src/App.jsx:93 | trimming twice is trimming once |
| Text.TrimKeepsAbsent | src/App.jsx:93 | trimming never adds a character, so a trimmed line has no line feed if the line had none |
| Text.Split | src/App.jsx:92 | `split(c)` gives one more piece than there are separators, and no piece contains the separator |
| Text.JoinSplit | src/App.jsx:92 | joining the pieces of a split with the separator gives back the original string |
| Text.SplitWithoutSeparator | src/App.jsx:92 | a string without the separator splits into itself alone |
| Text.SplitAround | src/App.jsx:92 | splitting `a + sep + b` gives the pieces of `a` followed by the pieces of `b` |
| Text.SplitJoin | src/App.jsx:92 | splitting pieces joined with the separator gives the pieces back, when no piece contains the separator |
| Text.Join | src/Front.jsx:49-50 | `Array.prototype.join`: `JoinSplit` and `SplitJoin` make it the inverse of `Split`, `JoinAppend` gives its append law, and `JoinEmptyIff` says when it is `""` |
| Text.JoinEmptyIff | src/Front.jsx:49-50 | joining with a non-empty separator gives `""` exactly when the list is empty or holds one empty string |
| Text.JoinAppend | src/Front.jsx:49-50 | joining a list with one more element appends the separator and that element |
| Text.OrElse | src/App.jsx:77 | the `detail`-or-fallback status is never empty, is the detail when the detail is non-empty, and is otherwise the fallback |
| Steps.TrimEach | src/App.jsx:93 | `map(s => s.trim())` keeps the number of lines and trims each line in place |
| Steps.DropEmpty | src/App.jsx:94 | `filter(Boolean)` never lengthens the list and keeps only non-empty strings taken from it; `DropEmptyOfOne` and `DropEmptyAppend` determine it completely |
| Steps.DropEmptyOfOne | src/App.jsx:94 | a one-string list keeps its string exactly when that string is non-empty |
| Steps.DropEmptyKeeps | src/App.jsx:94 | a string is in the filtered list exactly when it is in the list and non-empty |
| Steps.TrimEachAppend | src/App.jsx:93 | trimming distributes over concatenating lists of lines |
| Steps.DropEmptyAppend | src/App.jsx:94 | the filter distributes over concatenating lists, so order is kept |
| Steps.DeriveSteps | src/App.jsx:91-94 | every derived step is non-empty, has no whitespace at either end and holds no line feed, and there are never more steps than lines |
| Steps.DeriveStepsAcrossLines | src/App.jsx:91-94 | the steps of `a + "\n" + b` are the steps of `a` followed by the steps of `b`, so steps keep the order of their lines |
| Steps.DeriveStepsOfLine | src/App.jsx:91-94 | a single line gives no step when it is blank and otherwise exactly its trimmed text |
| Steps.StepsAreFixed | src/App.jsx:93-94 | trimming and filtering leave a list of well-formed steps unchanged |
| Steps.DeriveStepsOfJoined | src/App.jsx:91-94 | well-formed steps written one per line derive back to themselves |
| Steps.DeriveStepsIdempotent | src/App.jsx:91-94 | re-deriving from the derived steps joined with `"\n"` gives the same steps |
| Steps.DeriveStepsOfLines | src/App.jsx:91-94 | the steps of text written as separate lines are those lines trimmed, with the empty ones dropped |
| Scenarios.StepsExampleLines | src/App.jsx:91-92 | the text "Cleanse\n\nTone\n  \nMoisturize" consists of the five lines "Cleanse", "", "Tone", "  ", "Moisturize" |
| Scenarios.StepsExampleTrimmed | src/App.jsx:93 | trimming those five lines empties only the blank one |
| Scenarios.StepsExample | src/App.jsx:91-94 | "Cleanse\n\nTone\n  \nMoisturize" gives exactly ["Cleanse", "Tone", "Moisturize"] |
| ContentView.ContentView.constructor | src/App.jsx:14-37 | the initial state: category skin, blank profile, empty status, empty lists, not loading, blank drafts, no creation running |
| ContentView.ContentView.SelectCategory | src/App.jsx:39-42 | selecting another category sets it and starts a refresh scoped to it with loading set; selecting the active category changes nothing and starts nothing |
| Scenarios.MountedView | src/App.jsx:39-42 | a new view runs its refresh once on mount; after two empty arrays it is in its initial state with nothing loading |
| ContentView.ArrayOrEmpty | src/App.jsx:53-54 | `Array.isArray(d) ? d : []`: the `CompleteRefresh` ensures give each list its body when that is an array and `[]` otherwise |
| ContentView.RoutinePayloadFor | src/App.jsx:98-103 | the routine body: the `BeginCreateRoutine` ensures give its title, category, `owner_email` and steps |
| ContentView.TipPayloadFor | src/App.jsx:122-127 | the tip body: the `BeginCreateTip` ensures give its category, title, body and empty `tags` |
| ContentView.ContentView.Refresh | src/App.jsx:44-50 | a refresh sets `loading`, is scoped to the active category, and changes nothing else |
| ContentView.ContentView.CompleteRefresh | src/App.jsx:51-59 | once both bodies parse, each list becomes its body if that is an array and `[]` otherwise; a failure in either read leaves both lists unchanged; `loading` ends false in every case; the status timer is armed only after the refresh that a successful save awaits |
| ContentView.ContentView.EditProfile | src/App.jsx:160-189 | the profile inputs replace the profile and nothing else |
| ContentView.ContentView.EditRoutineDraft | src/App.jsx:244-245 | the routine inputs replace the routine draft and nothing else |
| ContentView.ContentView.EditTipDraft | src/App.jsx:277-278 | the tip inputs replace the tip draft and nothing else |
| ContentView.ContentView.BeginSaveProfile | src/App.jsx:62-71 | the status is "Saving..." while the request runs; the whole profile is sent; the profile is not modified |
| ContentView.ContentView.CompleteSaveProfile | src/App.jsx:71-83 | ok sets "Saved ✓" and starts a refresh scoped to the category captured at submission; non-ok sets the detail text, or "Failed" when it is absent or empty; an exception sets "Network error"; the status is never empty afterwards and the profile is never modified |
| ContentView.ContentView.StatusTimerFired | src/App.jsx:82 | the timer resets the status to `""` and changes nothing else |
| ContentView.ContentView.BeginCreateRoutine | src/App.jsx:86-104 | a whitespace-only title sends nothing and changes no state; otherwise `creating` is set and the payload carries the title as typed, the active category, `owner_email` absent exactly when the profile email is empty (and otherwise that email), and the derived steps, each non-empty, trimmed and single-line |
| ContentView.ContentView.CompleteCreateRoutine | src/App.jsx:105-111 | ok clears the draft and starts a refresh scoped to the category the routine was sent with; non-ok and exceptions keep the draft; `creating` ends false in every case |
| ContentView.ContentView.BeginCreateTip | src/App.jsx:114-128 | a whitespace-only title or body sends nothing and changes no state; otherwise `creatingTip` is set and the tip payload carries the active category, the title and body as typed, and empty `tags` |
| ContentView.ContentView.CompleteCreateTip | src/App.jsx:129-135 | ok clears the draft and starts a refresh; non-ok and exceptions keep the draft; `creatingTip` ends false in every case |
| AnalysisView.ShapeTips | src/Front.jsx:51 | the shape tips are the guidance's `shape_tips` list when a result with guidance has one, and `[]` when the result, its guidance or the list is missing |
| AnalysisView.Colors | src/Front.jsx:49 | the palette text is `""` exactly when the palette is missing, empty, or a single empty name; a one-colour palette shows that colour alone |
| AnalysisView.Neutrals | src/Front.jsx:50 | the neutrals text follows the same rule as the palette |
| AnalysisView.DisplayWithoutGuidance | src/Front.jsx:49-51 | with no result, or no guidance, all three display fields are empty instead of failing |
| AnalysisView.ColorsAppend | src/Front.jsx:49 | one more colour appends ", " and its name to the palette text |
| AnalysisView.NeutralsAppend | src/Front.jsx:50 | one more neutral appends ", " and its name to the neutrals text |
| Scenarios.GuidanceDisplayExample | src/Front.jsx:49-51 | the palette ["navy","white"] shows "navy, white", no neutrals show `""`, and the shape tips ["x"] are shown as ["x"] |
| AnalysisView.AnalysisView.constructor | src/Front.jsx:11-15 | the initial state: no file, empty preview, not analysing, no result, no error; the view invariant holds |
| AnalysisView.AnalysisView.OnFile | src/Front.jsx:17-28 | choosing a file stores it, sets the preview to its non-empty object URL, and clears the result and the error; clearing the choice sets the file to none, the preview to `""`, the result to none and the error to `""`; the invariant (a preview exactly when a file is present, never a result and an error together) is kept |
| AnalysisView.AnalysisView.AnalyzeEnabled | src/Front.jsx:125 | the Analyze button is enabled when a file is chosen and no analysis is running; the `BeginAnalyze` ensures state that it uploads exactly then |
| AnalysisView.AnalysisView.BeginAnalyze | src/Front.jsx:30-39 | without a file it is a no-op; with one it sets `analyzing`, clears the result and the error, and uploads the file; it uploads exactly when the button is enabled (line 125) |
| AnalysisView.AnalysisView.CompleteAnalyze | src/Front.jsx:39-46 | ok sets the result and leaves the error empty; non-ok sets the error to the detail or "Failed to analyze"; an exception sets the error to its message; `analyzing` ends false; the file and the preview are unchanged; a result and an error are never both set |

## Left out

- HTTP, JSON parsing, `FormData` and the backend base URL (src/App.jsx:13, src/Front.jsx:4) are foreign I/O and configuration. Each call is a Begin/Complete pair, and the response is an abstract outcome.
- `URL.createObjectURL` (src/Front.jsx:23) is a browser API. The object URL is a parameter of `OnFile`, and the browser guarantees it is non-empty. The code never revokes it, so the model claims no release.
- The two-second `setTimeout` delay (src/App.jsx:82) is timing. The model counts armed timers and lets `StatusTimerFired` fire one at any later point.
- Interleavings of concurrent handlers are left to the caller of the methods. Any completion may arrive at any time, because the code drops no stale response. The model states no ordering guarantee.
- Protection against a second submit or a second analysis exists only as a disabled button (src/App.jsx:247, src/App.jsx:280, src/Front.jsx:125). It is the precondition `!creating`, `!creatingTip` or `!analyzing` of the Begin method.
- Markup, styling, the category buttons' labels, the `colors || '—'` placeholder, and the Quick Questions inputs (`started`, `goal`, `days`, `sens`, src/Front.jsx:6-9) are presentation with no logic.
- The router in src/main.jsx is declarative. The Test view is not part of this model.
- `console.error` in `fetchData` is a diagnostic log.
- The exception that escapes `createRoutine` and `createTip` when the POST throws is an unhandled rejection. Only its effect on state is modelled: `creating` ends false and the draft is kept.
- Text.IsSpace: `trim` uses a fixed set of whitespace (ASCII blanks, no-break space, byte-order mark, line and paragraph separators). The other Unicode space separators that JavaScript also trims are not included.
- AnalysisView.CompleteAnalyze: an ok response whose body is JSON `null` (which the code would store as "no result") and a `detail` that is not a string are not modelled. The outcome carries a parsed result or an optional string.
- ContentView.ContentView.CompleteSaveProfile: a `detail` that is not a string (src/App.jsx:77) is not modelled either. `SaveOutcome.detail` is an optional string, so a non-string truthy detail shown as the status has no counterpart.
- Server records (routines, tips) are opaque values. The client never inspects them except to render them.
