# Gaza Rebuild Hub: a Dafny model of its logic

Gaza Rebuild Hub is a browser front end that lists reconstruction projects
and shows their funding. It also has an assistant dialog that forwards
questions to a hosted generative-AI model. This project models the parts
of it that make decisions:

- **Assistant dialog** (`gemini_assistant.dfy`, module `GeminiAssistant`).
  The class `AssistantDialog` holds the mode, prompt, response slot,
  loading flag and image size. `Submit` is `handleSubmit`. It ignores a
  blank (trimmed) prompt. Otherwise it makes exactly one gateway call for
  the mode and turns the call's outcome into one response string.
  `BeginSubmit` and the three `Settle…` methods are the two halves around
  the `await`. The mode buttons, the resolution buttons, "Ask another
  question" and the prompt box each change one field. The gateway
  functions are parameters, and each returns `Resolved(value)` or
  `Rejected` (a thrown error).
- **Status tracker** (`project_status_tracker.dfy`). The (phase, category)
  description table has its row default and a global fallback. Each phase
  is rendered as completed, active or future, with one icon and a
  connecting line.
- **Project detail page** (`project_detail.dfy`). This covers the funded
  percentage, the loading / not-found / loaded choice, and the empty-list
  messages for updates and expert needs. The class `DetailPage` holds the
  page's `project` and `loading` state, which the route effect writes.
- **Mock repository** (`mock_data.dfy`). This is the four fixture
  projects, `getProjects`, and `getProjectById` as a first-match search.
- **AI gateway** (`gemini_service.dfy`). This is the four request
  functions, with the remote call as a parameter
  `remote: Request -> Result<Response, RemoteError>`. The model covers the
  prompt templates, the fixed fallbacks on failure, the
  `groundingChunks || []` normalisation, and the scan for the first
  inline image (a `while` loop in `GenerateProjectRender`).
- Helpers: `wrappers.dfy` (Option, Result) and `types.dfy` (the records).
  `js_strings.dfy` holds the JavaScript string behaviour the code relies
  on: `trim`, number interpolation, and concatenation with an
  `undefined` operand.

Where the code's behaviour is surprising, the model keeps it as written:

- The submit button tests the raw prompt (`!prompt`), but the handler
  tests the trimmed one. So a prompt of spaces enables the button, and
  submitting it does nothing (`WhitespacePromptIgnored`).
- A search reply with no text is shown as the word "undefined". A reply
  with empty text and no sources stores `""`, and the dialog then shows
  its intro again (`EmptySearchReplyShowsIntro`).
- The gateway functions never throw. Their failures therefore reach the
  dialog as the gateway's own fallback texts, never as the dialog's
  connection-error message (`GatewayFailuresShowFallbacks`).
- The response view follows the current mode, not the mode the request
  was made in.

## Model

| member | source | states |
|---|---|---|
| JsStrings.Trim | components/GeminiAssistant.tsx:21 | the trimmed text is a slice of the input with only whitespace before and after it; it is empty exactly when every character is JavaScript whitespace, and otherwise neither starts nor ends with whitespace |
| JsStrings.OrUndefined | components/GeminiAssistant.tsx:31 | concatenating `undefined` contributes the text "undefined"; a present string contributes itself |
| JsStrings.NatToString | components/GeminiAssistant.tsx:31 | the interpolated count is a non-empty run of decimal digits with no leading zero; zero is "0" |
| JsStrings.ParseNatToString | components/GeminiAssistant.tsx:31 | reading the interpolated count back gives the count, so distinct counts give distinct texts |
| GeminiAssistant.IsBlank | components/GeminiAssistant.tsx:21 | `!prompt.trim()` holds exactly when the prompt is empty or all whitespace |
| GeminiAssistant.CallFor | components/GeminiAssistant.tsx:26-33 | analysis mode calls the analysis gateway, chat mode the search gateway, image mode the render gateway with the chosen size; each gets the untrimmed prompt |
| GeminiAssistant.Reply | components/GeminiAssistant.tsx:25-41 | the response text for one call's outcome: the outcome of the mode's own gateway, turned into text by that mode's rule (AnalysisResponse, SearchResponse or ImageResponse); never empty for analysis and image calls; for a search call empty exactly when the reply is empty text with no sources; a thrown error gives the connection message in every mode |
| GeminiAssistant.IntroText | components/GeminiAssistant.tsx:86-88 | each mode has a non-empty intro sentence |
| GeminiAssistant.AnalysisResponse | components/GeminiAssistant.tsx:26-41 | analysis mode shows the reply text; an absent or empty text gives "No analysis generated."; a thrown error gives the connection message; the result is never empty |
| GeminiAssistant.SourcesNote | components/GeminiAssistant.tsx:31 | the note is empty exactly when there are no sources; otherwise it is the fixed prefix and suffix around exactly the count's decimal text, from which the count reads back |
| GeminiAssistant.SearchResponse | components/GeminiAssistant.tsx:29-41 | search mode shows the text ("undefined" when absent) as a prefix; the sources note is appended exactly when there are sources; a thrown error gives the connection message |
| GeminiAssistant.ImageResponse | components/GeminiAssistant.tsx:32-41 | image data gives an img tag whose src recovers to that data; no data gives "Failed to generate image."; a thrown error gives the connection message; never empty |
| GeminiAssistant.SubmitDisabled | components/GeminiAssistant.tsx:148 | the submit button is enabled exactly when not loading and the raw prompt is non-empty |
| GeminiAssistant.ResponseView | components/GeminiAssistant.tsx:64-91 | an absent or empty response shows the mode's intro; any other response is shown as markup in image mode and as text otherwise |
| GeminiAssistant.AssistantDialog.constructor | components/GeminiAssistant.tsx:13-17 | the dialog starts in analysis mode with an empty prompt, no response, not loading, at size 1K |
| GeminiAssistant.AssistantDialog.View | components/GeminiAssistant.tsx:64-91 | the content area shows the current mode's intro exactly when the response is absent or empty; otherwise it shows the response itself, as markup exactly in image mode and as text in the others |
| GeminiAssistant.AssistantDialog.SubmitButtonDisabled | components/GeminiAssistant.tsx:148 | the button is enabled exactly when not loading and the raw prompt is non-empty |
| GeminiAssistant.AssistantDialog.InputDisabled | components/GeminiAssistant.tsx:144 | the input is disabled exactly while loading |
| GeminiAssistant.AssistantDialog.SetPrompt | components/GeminiAssistant.tsx:137 | typing changes the prompt only |
| GeminiAssistant.AssistantDialog.SetMode | components/GeminiAssistant.tsx:99-111 | a mode button changes the mode only |
| GeminiAssistant.AssistantDialog.SetImageSize | components/GeminiAssistant.tsx:124 | a resolution button changes the size only |
| GeminiAssistant.AssistantDialog.AskAnother | components/GeminiAssistant.tsx:74 | "Ask another question" empties the response and returns to the intro; prompt, mode, size and loading are kept |
| GeminiAssistant.AssistantDialog.BeginSubmit | components/GeminiAssistant.tsx:19-23 | a blank prompt changes nothing and makes no call; otherwise loading starts, the response is cleared, the mode's call is chosen, and the submit button and input become disabled |
| GeminiAssistant.AssistantDialog.SettleAnalysis | components/GeminiAssistant.tsx:26-43 | the analysis outcome becomes the response and loading ends |
| GeminiAssistant.AssistantDialog.SettleSearch | components/GeminiAssistant.tsx:29-43 | the search outcome becomes the response and loading ends |
| GeminiAssistant.AssistantDialog.SettleRender | components/GeminiAssistant.tsx:32-43 | the render outcome becomes the response and loading ends |
| GeminiAssistant.AssistantDialog.Submit | components/GeminiAssistant.tsx:19-45 | a blank prompt is a no-op; otherwise exactly the mode's gateway function is called with the prompt (and size), its outcome becomes the response, and loading is false whatever the outcome; mode, prompt and size are unchanged |
| GeminiAssistant.WhitespacePromptIgnored | components/GeminiAssistant.tsx:21 | every non-empty all-whitespace prompt enables the button but is blank to the handler |
| GeminiAssistant.EmptySearchReplyShowsIntro | components/GeminiAssistant.tsx:31 | the search response is empty exactly for empty text with no sources, and the dialog then shows the intro |
| GeminiAssistant.GatewayFailuresShowFallbacks | components/GeminiAssistant.tsx:25-41 | wired to the gateway, a failed remote call shows the gateway's fallback for analysis, search and image modes |
| GeminiAssistant.AnalysisFailureScenario | components/GeminiAssistant.tsx:19-45 | a fresh dialog in analysis mode whose remote calls all fail ends showing the gateway's analysis fallback as text, not loading |
| ProjectStatusTracker.DescriptionRow | components/ProjectStatusTracker.tsx:13-41 | the table has a row exactly for phases 0 to 3 |
| ProjectStatusTracker.Entry | components/ProjectStatusTracker.tsx:44 | an entry is present exactly when the row exists, has the key and its text is non-empty |
| ProjectStatusTracker.DescriptionLookup | components/ProjectStatusTracker.tsx:44-45 | for any row: the key's entry, else the row's default, else "Proceeding with scheduled works."; never empty |
| ProjectStatusTracker.GetPhaseDescription | components/ProjectStatusTracker.tsx:12-45 | the description is never empty, and any phase outside 0 to 3 gets the global fallback |
| ProjectStatusTracker.RowsWellFormed | components/ProjectStatusTracker.tsx:13-41 | every row has exactly the four category keys and "default", all texts non-empty, and no category text equal to the default |
| ProjectStatusTracker.PhaseDescriptionIsSpecific | components/ProjectStatusTracker.tsx:13-45 | for phases 0 to 3 each category gets its own entry, which is not the row default |
| ProjectStatusTracker.MissingKeyGetsRowDefault | components/ProjectStatusTracker.tsx:44-45 | a key missing from a row gets that row's default |
| ProjectStatusTracker.RenderPhase | components/ProjectStatusTracker.tsx:51-94 | each phase shows exactly one icon: the check when completed, the spinner when active, the circle otherwise |
| ProjectStatusTracker.Tracker | components/ProjectStatusTracker.tsx:51-94 | one row per phase in order; completed, active and future are index below, equal to and above the current phase; one matching icon; a line under every phase but the last, green exactly when completed; the phase's description |
| ProjectStatusTracker.ExactlyOneState | components/ProjectStatusTracker.tsx:52-54 | exactly one of completed, active and future holds for each phase |
| ProjectStatusTracker.AtMostOneActive | components/ProjectStatusTracker.tsx:53 | at most one phase is active, and none when the current phase is outside the list's indices |
| ProjectStatusTracker.TrackerAtPhaseTwo | components/ProjectStatusTracker.tsx:52-80 | with four phases at phase 2: phases 0 and 1 completed with green lines, 2 active, 3 future with no line |
| ProjectDetail.JsRound | pages/ProjectDetail.tsx:25 | Math.round gives the integer within one half below or strictly less than one half above its argument, so halves round up |
| ProjectDetail.PercentFunded | pages/ProjectDetail.tsx:25 | the percentage is clamped at 100 |
| ProjectDetail.PercentFundedIntegerForm | pages/ProjectDetail.tsx:25 | for a positive budget the percentage is min(100, (200 raised + budget) div (2 budget)) |
| ProjectDetail.FullyFundedShowsHundred | pages/ProjectDetail.tsx:25 | raised at or above a positive budget shows exactly 100 |
| ProjectDetail.PercentFundedBoundedAndMonotone | pages/ProjectDetail.tsx:25 | with a positive budget and non-negative raised, the percentage lies in 0..100 and does not drop as raised grows |
| ProjectDetail.DisplayedPercent | pages/ProjectDetail.tsx:25 | any non-zero budget gives the percentage; a zero budget gives 100 when something was raised and a non-number otherwise |
| ProjectDetail.UpdatesFeed | pages/ProjectDetail.tsx:107-129 | "No updates posted yet." exactly when updates are absent or empty; otherwise the updates in order |
| ProjectDetail.ExpertNeedsList | pages/ProjectDetail.tsx:147-166 | "All expert roles currently filled!" exactly when expert needs are absent or empty; otherwise the needs in order |
| ProjectDetail.Render | pages/ProjectDetail.tsx:22-45 | loading shows the loading message; otherwise a missing project shows "Project not found."; otherwise the dashboard with the status ribbon's label, the percentage and both panels |
| ProjectDetail.DetailPage.View | pages/ProjectDetail.tsx:22-23 | the loading page exactly while loading; the not-found page exactly when not loading with no project; otherwise the dashboard of the stored project |
| ProjectDetail.PageView.Message | pages/ProjectDetail.tsx:22-23 | a full-page message exactly for the loading and not-found pages: "Loading Project Data..." and "Project not found." |
| ProjectDetail.UpdatesPanel.Message | pages/ProjectDetail.tsx:128 | the timeline is replaced by "No updates posted yet." exactly when there are no updates to show |
| ProjectDetail.ExpertsPanel.Message | pages/ProjectDetail.tsx:164 | the role list is replaced by "All expert roles currently filled!" exactly when no role is open |
| ProjectDetail.PageFor | pages/ProjectDetail.tsx:13-23 | once a lookup resolves the page is not loading, and it is not found exactly when no fixture has the id |
| ProjectDetail.DetailPage.constructor | pages/ProjectDetail.tsx:10-11 | the page starts with no project and loading |
| ProjectDetail.DetailPage.LoadProject | pages/ProjectDetail.tsx:13-20 | with no route id, or an empty (falsy) one, nothing changes; with a non-empty id the lookup result is stored, loading ends and the page is the resolved page for that id |
| ProjectDetail.FixturePageOne | services/mockData.ts:4-36 | project "1" shows 70 percent, two updates and two open roles |
| ProjectDetail.FixturePageTwo | services/mockData.ts:38-63 | project "2" shows 38 percent (37.5 rounded up) |
| ProjectDetail.FixturePageThree | services/mockData.ts:65-81 | project "3" shows 100 percent with the no-updates and all-filled messages |
| ProjectDetail.FixturePageFour | services/mockData.ts:82-101 | project "4" shows 8 percent and no updates |
| ProjectDetail.UnknownIdNotFound | pages/ProjectDetail.tsx:23 | id "999" ends in the not-found page, showing "Project not found." |
| Types.ProjectCategory.Value | types.ts:4-9 | each category's string value is non-empty and is not the table's "default" key |
| Types.CategoryValuesDistinct | types.ts:4-9 | distinct categories have distinct string values |
| Types.ProjectStatus.Value | types.ts:11-16 | each status has a non-empty label |
| Types.StatusValuesDistinct | types.ts:11-16 | distinct statuses have distinct labels |
| MockData.FindById | services/mockData.ts:113 | the first project in list order with that id; none exactly when no project has it |
| MockData.GetProjects | services/mockData.ts:104-109 | the four fixtures, whole and in order |
| MockData.GetProjectById | services/mockData.ts:111-114 | a fixture with that id, or none exactly when no fixture has it |
| MockData.FindByIdOfListed | services/mockData.ts:113 | with unique ids, looking up a listed project's id returns that project |
| MockData.FixturesWellFormed | services/mockData.ts:3-101 | fixture ids are pairwise distinct; every budget is positive with 0 <= raised <= budget |
| MockData.ListedProjectsAreFoundById | services/mockData.ts:104-114 | every project getProjects lists is returned by getProjectById for its id |
| MockData.FixtureLookups | services/mockData.ts:5-113 | the ids are "1" to "4" in order and "999" finds nothing |
| GeminiService.Template | services/geminiService.ts:13 | a request text is the fixed prefix, then the input, then the fixed suffix |
| GeminiService.Untemplate | services/geminiService.ts:13 | text is recovered exactly when it has the prefix and suffix |
| GeminiService.TemplateRoundTrip | services/geminiService.ts:52 | the user's text is recovered exactly from the request text |
| GeminiService.UntemplateRoundTrip | services/geminiService.ts:13 | any text of the template's shape is the template applied to what it recovers |
| GeminiService.AnalysisPrompt | services/geminiService.ts:13 | the feasibility prompt, from which the description is recovered exactly |
| GeminiService.RenderPrompt | services/geminiService.ts:52 | the render prompt, from which the user's text is recovered exactly |
| GeminiService.NearbyPrompt | services/geminiService.ts:80 | "Find ", the resource type, " near ", the location, " in Gaza." |
| GeminiService.ImageSize.Value | services/geminiService.ts:56 | the size is sent as a two-character text ending in "K" |
| GeminiService.ImageSizeValuesDistinct | services/geminiService.ts:47 | distinct sizes are sent as distinct texts |
| GeminiService.EffectiveSize | services/geminiService.ts:47 | a given size is used as is; a missing one becomes 1K |
| GeminiService.AnalysisRequest | services/geminiService.ts:11-17 | the pro model with a 32768-token thinking budget, sent a text from which the description is recovered |
| GeminiService.SearchRequest | services/geminiService.ts:28-34 | the flash model with web search, sent the query unchanged |
| GeminiService.RenderRequest | services/geminiService.ts:49-60 | the image model, one text part from which the prompt is recovered, at the effective size's text and a 16:9 aspect ratio |
| GeminiService.NearbyRequest | services/geminiService.ts:78-84 | the 2.5 flash model with map grounding, sent the nearby prompt |
| GeminiService.FirstCandidate | services/geminiService.ts:38 | the first candidate, absent when the list is missing or empty |
| GeminiService.GroundingSources | services/geminiService.ts:38 | the first candidate's grounding chunks, or empty when any link of that path is missing |
| GeminiService.ResponseParts | services/geminiService.ts:63 | the first candidate's content parts when that whole path is present, and empty otherwise |
| GeminiService.DataUrl | services/geminiService.ts:65 | the data: URL prefix, then the image data, or the text "undefined" when the data is missing |
| GeminiService.FirstInlineImage | services/geminiService.ts:63-68 | none exactly when no part has inline data; otherwise the URL of the first part that has it |
| GeminiService.FirstInlineImageIgnoresLaterParts | services/geminiService.ts:63-67 | parts after the first image part never change the result |
| GeminiService.AnalyzeProjectFeasibility | services/geminiService.ts:9-23 | a failed call gives the fixed analysis fallback; otherwise the reply text |
| GeminiService.GetConstructionStatus | services/geminiService.ts:26-44 | a failed call gives "Search unavailable." with no sources; otherwise the reply text with the normalised sources |
| GeminiService.RenderResult | services/geminiService.ts:47-73 | a failed call gives none; otherwise the first inline image of the first candidate's parts |
| GeminiService.RenderSizeDefaultsTo1K | services/geminiService.ts:47 | leaving the size out requests 1K |
| GeminiService.GenerateProjectRender | services/geminiService.ts:47-73 | the scan loop returns the specified result, and any URL starts with the data: prefix |
| GeminiService.FindNearbyResources | services/geminiService.ts:76-90 | a failed call gives "Map data unavailable."; otherwise the reply text |

## Left out

- The generative-AI SDK and its network calls. Each call is the `remote` parameter, which returns a response or fails. The SDK's `text` getter is taken as an opaque field of the response.
- The API key plumbing, `console.error` logging, JSX markup, CSS classes, icons, animations, and the HTML injection of the image tag. Only the strings and branch choices are modelled.
- Async timing. The repository's simulated delays, promise scheduling, and a late result arriving after the dialog has closed are not modelled. `Submit` is one atomic step; `BeginSubmit` and `Settle…` only show its two halves.
- ProjectDetail.PercentFunded: computed in exact rational arithmetic, not in IEEE doubles. The rounding of `raised / budget * 100` in floating point is not captured.
- ProjectDetail.DisplayedPercent: for a zero budget, NaN and -Infinity are not told apart. Both are `None`.
- The route table, the modal flag, and the `Expert`, `Donation` and `MapLocation` records. These have no logic of their own.
- `PROJECT_PHASES` is not part of this model. The phase list is a parameter of `Tracker`.
- ProjectStatusTracker.Tracker: `currentPhase` is a JavaScript number, but the model takes an integer. With NaN all three comparisons are false, so a phase gets no state and no icon. With a fractional value no phase is active. ExactlyOneState and RenderPhase's one-icon contract therefore hold only for integer phases.
- ProjectStatusTracker.MissingKeyGetsRowDefault: each description row is a map. A JavaScript object lookup also finds inherited members such as "constructor" or "toString". For those names the lemma states a fall-through to the row default that JavaScript would not make. The tracker only ever passes the four category values, which every row holds (RowsWellFormed).
- ProjectDetail.PercentFunded: `budget` and `raised` are JavaScript numbers, but the model uses integers. Fractional and non-finite amounts are not covered.
- The `location` and `imageUrl` fields, and the free-text fields, are carried as data only.
