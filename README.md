# LogiRisk AI — a Dafny model of the route-risk client and its page

LogiRisk AI is a single-page web application. A form collects a shipment
route (origin and destination country and port, transport mode, cargo type,
shipment date, and the user's role). The route goes into a fixed prompt that
is sent to Google's Gemini model together with a response schema. The JSON
that comes back is shown on a risk dashboard. The risk itself is computed
remotely, so this model covers the local logic around that call:

- **Types** (`types.dfy`): the `UserRole`, `TransportMode` and `RiskLevel`
  enumerations and the `riskTrend` literal union, each with its exact wire
  strings and a recogniser; the `RouteData`, `AlternativeRoute` and
  `AnalysisResult` records; and `FormState`. Enumeration-typed fields hold
  their wire strings, because nothing checks them at run time. The form stores
  the raw `<select>` value, and the analysis is an unchecked `JSON.parse` cast.
  The ranges "1-10" and "0-100" are stated only in comments and in the schema
  descriptions sent to the remote model, and nothing enforces them, so the
  model states them as a separate predicate, `InDocumentedRanges`.
- **GeminiService** (`gemini_service.dfy`): `cleanJsonString` is the regular
  expression replace `/```json\n?|\n?```/g`, modelled as a left-to-right scan
  that tries the alternatives in order (`FenceMatch`, `StripFences`), followed
  by ECMAScript `trim`. The prompt is a template filled with the eight route
  fields. The request carries the prompt, the model name and the schema's
  enumerations and required fields. `analyzeRouteRisk` is a method whose
  remote call (`generate`) and `JSON.parse` (`parse`) are function parameters.
  The API key is an optional-string parameter. The `sent` out-parameter records
  the request that was made, so "no request without a key" is stated directly.
- **RiskDashboard** (`risk_dashboard.dfy`): the colour and badge mappings with
  their defaults, the two-slice gauge, the "faster" highlight, the trend icon,
  and order-preserving list rendering.
- **InputForm** (`input_form.dfy`): a class holding the form record. It has
  `handleChange` (a keyed single-field update), `handleSubmit`, and a submit
  that is gated by the disabled button and the `required` inputs. The module
  also holds the initial record and the option lists of the two selects.
- **App** (`app.dfy`): a class holding the four `FormState` fields. Its
  transition methods are the submit step, success, failure, reset and dismiss.
  Every method preserves the invariant `Consistent`: while loading there is
  neither a result nor an error; a result never stands beside an error; an
  error is never empty. `Render` chooses the error banner and the form or
  dashboard. `SubmitRoute` chains submit, service call and outcome.
- **JsString** (`js_string.dfy`) and **Wrappers** (`wrappers.dfy`): the
  JavaScript string built-ins used (`trim`, `toLowerCase`, `includes`), and
  `Option`/`Result` for `null` and thrown errors.

Two behaviours of the source are stated as proved lemmas. First, the fence
removal is global: "a```b" becomes "ab". Second, a newline directly before the
opening fence is consumed by the second alternative together with the
backticks. So "\n```json\n{}\n```" becomes "json\n{}", and that text then
fails to parse.

The outcome handlers `ResolveSuccess` and `ResolveFailure` require that the
page is loading. In the source they run only after the submit step's `await`,
and while loading the page offers no other action: the submit button is
disabled, the dashboard with its reset button is not shown, and there is no
error to dismiss.

The service only casts the result of `JSON.parse`
(services/geminiService.ts:106), so a document that parses but lacks a
required field is still returned. The prompt template embeds all eight route
fields (services/geminiService.ts:34-41).

## Model

| member | source | states |
|---|---|---|
| `Types.UserRoleFromWire` | types.ts:1-4 | recognises exactly the two role strings "Importer/Exporter" and "Logistics Manager", and maps each back to its role |
| `Types.UserRoleCases` | types.ts:1-4 | exactly two roles, distinct, and a string names a role iff it is that role's wire string |
| `Types.TransportModeFromWire` | types.ts:6-10 | recognises exactly "Sea Freight", "Air Freight", "Land/Rail" |
| `Types.TransportModeCases` | types.ts:6-10 | exactly three pairwise-distinct modes; wire string and recogniser agree both ways |
| `Types.RiskLevelFromWire` | types.ts:12-16 | recognises exactly "Low", "Medium", "High" |
| `Types.RiskLevelCases` | types.ts:12-16 | exactly three pairwise-distinct levels; wire string and recogniser agree both ways |
| `Types.RiskTrendFromWire` | types.ts:42 | recognises exactly "Increasing", "Stable", "Decreasing" |
| `Types.RiskTrendCases` | types.ts:42 | exactly three pairwise-distinct trend values; wire string and recogniser agree both ways |
| `JsString.Trim` | services/geminiService.ts:6 | `trim` result has no white space at either end, and it is the slice of the input left after removing only white space at both ends |
| `JsString.TrimKeepsTrimmed` | services/geminiService.ts:6 | `trim` leaves text without surrounding white space unchanged |
| `JsString.TrimIdempotent` | services/geminiService.ts:6 | trimming twice is trimming once |
| `JsString.Lower` | components/RiskDashboard.tsx:206 | ASCII-only lower-casing: no upper-case ASCII letter is left, each becomes its lower-case letter, and every other character is kept in place |
| `JsString.LowerIgnoresCase` | components/RiskDashboard.tsx:206 | texts that differ only in the ASCII case of their letters lower-case to the same text |
| `JsString.LowerIdempotent` | components/RiskDashboard.tsx:206 | lower-casing twice is lower-casing once |
| `JsString.Includes` | components/RiskDashboard.tsx:206 | `includes` is true iff the needle occurs as a contiguous block |
| `GeminiService.FenceMatch` | services/geminiService.ts:6 | the pattern matches at the start iff the text starts with "```" or with a newline and "```"; it takes "```json\n" (8), else "```json" (7), else "\n```" (4), else "```" not followed by "json" (3) |
| `GeminiService.StripFences` | services/geminiService.ts:6 | the global replacement never lengthens the text |
| `GeminiService.StripDeletesOnly` | services/geminiService.ts:6 | the replacement only deletes characters: the output is a subsequence of the input, hence also a sub-multiset of its characters |
| `GeminiService.CleanJsonString` | services/geminiService.ts:5-7 | the cleaned text has no leading or trailing white space and is no longer than its input |
| `GeminiService.KeepsCleanPrefix` | services/geminiService.ts:6 | a prefix without "```" that does not run into a fence passes through unchanged and the scan resumes after it |
| `GeminiService.StripKeepsPlainText` | services/geminiService.ts:6 | text without "```" passes the replacement unchanged |
| `GeminiService.CleanKeepsPlainText` | services/geminiService.ts:6 | text without "```" and without surrounding white space is returned unchanged |
| `GeminiService.CleanUnwrapsFencedBody` | services/geminiService.ts:4-6 | "```json\n" + body + "\n```" cleans to exactly body, for every trimmed body without "```" |
| `GeminiService.StripRemovesInnerFence` | services/geminiService.ts:6 | removal is global: a "```" in the middle of the text is deleted and the scan goes on |
| `GeminiService.CleanInnerFenceExample` | services/geminiService.ts:6 | "a```b" cleans to "ab" |
| `GeminiService.CleanLeadingNewlineKeepsTag` | services/geminiService.ts:6 | a newline before the opening fence is consumed with it, so "\n```json\n{}\n```" cleans to "json\n{}" |
| `GeminiService.FillSlot` | services/geminiService.ts:34-44 | in a filled template each value sits verbatim in its slot, followed by exactly the next literal piece and then the next slot |
| `GeminiService.PromptEmbedsRoute` | services/geminiService.ts:34-44 | the prompt holds all eight route fields verbatim, in the order origin country, origin port, destination country, destination port, mode, cargo, date, role |
| `GeminiService.Prompt` | services/geminiService.ts:34-44 | the prompt opens with the route header and closes with the instruction to answer in the schema's JSON |
| `GeminiService.BuildRequest` | services/geminiService.ts:47-101 | the request names "gemini-2.5-flash", carries the key and the route's prompt, asks for JSON, limits risk level and trend to the types' wire strings, and requires ten distinct fields |
| `GeminiService.SchemaEnumsMatchTypes` | services/geminiService.ts:53-98 | the schema's risk-level and trend enumerations are exactly the wire strings of `RiskLevel` and of the trend union |
| `GeminiService.AnalyzeRouteRisk` | services/geminiService.ts:9-112 | without a key (absent or empty): the missing-key error and no request; with one: the request for this route is sent, success returns exactly what `parse` gave for a non-empty response text, after cleaning, and every other outcome is the single "Failed to analyze route. Please try again." |
| `RiskDashboard.RiskColor` | components/RiskDashboard.tsx:26-33 | Low, Medium and High get their emerald, amber and red colours; every other string, and only those, gets "#64748b" |
| `RiskDashboard.RiskBg` | components/RiskDashboard.tsx:35-42 | the three levels get their emerald, amber and red classes; every other string, and only those, gets "bg-slate-700" |
| `RiskDashboard.RiskStylesDistinct` | components/RiskDashboard.tsx:26-42 | among the three levels, colour and badge each identify the level |
| `RiskDashboard.ValidResultIsStyled` | components/RiskDashboard.tsx:26-42 | an analysis with legal levels gets no fallback colour or badge, for itself or any alternative; an illegal level gets both fallbacks |
| `RiskDashboard.GaugeSlices` | components/RiskDashboard.tsx:44-47 | exactly two slices, "Risk" equal to the score and "Safety", summing to 10, filled with the level's colour and the neutral colour |
| `RiskDashboard.GaugeUnguarded` | components/RiskDashboard.tsx:44-47 | both slices are non-negative iff the score is in 0..10, so a score above 10 gives a negative slice |
| `RiskDashboard.IsFaster` | components/RiskDashboard.tsx:206 | a time impact is highlighted iff its lower-cased text contains "faster" |
| `RiskDashboard.IsFasterIgnoresCase` | components/RiskDashboard.tsx:206 | two time impacts that differ only in the ASCII case of their letters are highlighted alike |
| `RiskDashboard.IsFasterExamples` | components/RiskDashboard.tsx:206 | "Faster" is highlighted and "+2 days" is not |
| `RiskDashboard.TrendIcons` | components/RiskDashboard.tsx:118-120 | exactly one icon, the matching one, for each of the three trend values, and none for any other string |
| `RiskDashboard.RenderFrom` | components/RiskDashboard.tsx:133 | mapping from a start index renders one item per remaining element, keyed by its index, in order |
| `RiskDashboard.RenderList` | components/RiskDashboard.tsx:133 | one item per element, in input order, keyed by position, with nothing filtered or truncated |
| `RiskDashboard.AlternativeRows` | components/RiskDashboard.tsx:199-217 | one row per alternative in order, showing its fields, highlighted iff faster, badged by its level |
| `RiskDashboard.InsightItems` | components/RiskDashboard.tsx:133-138 | every actionable insight is rendered, in order |
| `RiskDashboard.RiskFactorItems` | components/RiskDashboard.tsx:164-169 | every risk factor is rendered, in order |
| `InputForm.WithField` | components/InputForm.tsx:22-25 | the keyed update sets the named field and leaves the other seven unchanged |
| `InputForm.WithFieldIsUnique` | components/InputForm.tsx:22-25 | the keyed update is the only record with that property; writing a field's own value back changes nothing |
| `InputForm.InitialFormData` | components/InputForm.tsx:11-20 | the initial record has the five text fields empty, sea freight, logistics manager and the given date |
| `InputForm.OptionsAreTheEnums` | components/InputForm.tsx:119-176 | the transport select offers exactly the three modes, the role select exactly the two roles |
| `InputForm.ChangesKeepEnums` | components/InputForm.tsx:11-25 | the initial record holds legal modes and roles, and any change the form can deliver keeps them legal |
| `InputForm.InitialNeedsInput` | components/InputForm.tsx:11-20 | the initial text fields are empty, so the initial form cannot be submitted |
| `InputForm.RouteForm.constructor` | components/InputForm.tsx:11-20 | the form starts with empty text fields, sea freight, logistics manager and today's date |
| `InputForm.RouteForm.HandleChange` | components/InputForm.tsx:22-25 | a change event replaces exactly the named field of the form record |
| `InputForm.RouteForm.HandleSubmit` | components/InputForm.tsx:27-30 | the current record is passed on unchanged, without validation |
| `InputForm.RouteForm.Submit` | components/InputForm.tsx:42-186 | a submission happens iff the page is not loading and the six required inputs are non-empty, and it carries the current record |
| `App.Consistent` | App.tsx:9-38 | the page invariant: while loading there is a route and neither result nor error, a result comes with a route and no error, and an error is never empty |
| `App.FailureText` | App.tsx:22-27 | the shown failure text is the error's message, or "An unexpected error occurred." when that is empty; never empty |
| `App.Render` | App.tsx:67-93 | the form iff there is no result (carrying the loading flag), the dashboard iff there is one; in a consistent state the banner iff there is an error, never above a dashboard |
| `App.Page.constructor` | App.tsx:9-14 | the page starts with no route, not loading, no result, no error |
| `App.Page.HandleRouteSubmit` | App.tsx:17 | submit records the route, starts loading, clears result and error, keeping the invariant |
| `App.Page.ResolveSuccess` | App.tsx:20-21 | success stops loading and sets the result; route and error are unchanged, and there is no error |
| `App.Page.ResolveFailure` | App.tsx:22-27 | failure stops loading and sets the failure text; route and result are unchanged, and there is no result |
| `App.Page.HandleReset` | App.tsx:31-38 | reset restores exactly the initial state |
| `App.Page.DismissError` | App.tsx:70 | dismiss clears the error and changes nothing else |
| `App.Page.SubmitRoute` | App.tsx:16-29 | after a submission the page is not loading and shows either the accepted analysis for this route or exactly one of the service's two messages, never both; a key plus an accepted answer ends with a result, and the failure message only when no answer is accepted |

## Left out

- The Gemini SDK (`GoogleGenAI`, `generateContent`) is a foreign network call. It is the `generate` parameter, which answers a request by throwing or with optional text.
- `JSON.parse` and its cast are not re-implemented. They are the `parse` parameter.
- AnalyzeRouteRisk: the `parse` parameter yields a complete `AnalysisResult` or nothing. In the source, a JSON document that parses but lacks fields, or is not an object, is still returned as a partial value. The model cannot represent such a value. On the page such a value behaves differently from every modelled outcome. A falsy one, from the text "null", is stored as the result (App.tsx:21), and `!state.result` (App.tsx:74) then shows the form again with neither a result nor an error, which the clause `result.Some? <==> error.None?` of `SubmitRoute` excludes. An object missing its lists, from "{}", makes the dashboard throw at `result.actionableInsights.map` (components/RiskDashboard.tsx:133).
- The system instruction text and the descriptive parts of the response schema are constant data for the remote model. Only the schema's enumerations and required-field list are kept.
- A failure of the `GoogleGenAI` constructor, which sits outside the `try`, is not modelled. The model assumes the client can always be built.
- `process.env.API_KEY` is an optional-string parameter.
- `new Date()` is the `today` parameter of the form. The footer year is not modelled.
- Async interleaving and concurrent submissions are left out. A submission is a submit step followed by one outcome step.
- `console.error` logging is left out.
- JSX markup, layout classes other than the risk badges, chart geometry and icon components are presentation and are left out.
- No local code computes or checks the risk score, its consistency with the risk level, or the number of alternatives. The model adds no such check.
- `riskScore` and `delayProbability` are JavaScript numbers. The model takes them as integers, which is what the schema asks the remote model for.
- Lower: the model lower-cases ASCII letters only. Real `toLowerCase` applies the full Unicode mapping and can lengthen the text ("İ"). The model does not capture that.
- IsFaster: the model implements `toLowerCase` with the ASCII case mapping only. No other Unicode case mapping produces any letter of "faster", so the highlight is unaffected.
- The App's initial `{} as RouteData` placeholder is modelled as `None`, meaning "no route yet".
