# A landing page with an A/B title experiment and a Google Sheets back end, in Dafny

This project models the moving parts of a landing page that tests eight
title variations against each other and stores form submissions in a
Google Sheet:

- **The variant store** (`js/ab-testing.js`, module `ABTesting`, class
  `ABTestingSystem`). It makes a sticky weighted draw of a title
  variation, keeps an append-only event log in local storage, counts per
  variation and applies the winner rule.
- **The form glue** (`js/form-ab-integration.js`, module
  `FormIntegration`). It covers:
  - which forms get a submit listener;
  - how a submission is dispatched to the automation, contact or generic
    handler, and what each handler checks;
  - how `sendToServer` turns the submitted FormData into the one record
    handed to the Sheets client.
- **The Sheets client** (`js/google-sheets-integration.js`, module
  `SheetsClient`, class `GoogleSheetsIntegration`). It covers:
  - the enabled flag;
  - the order of the guards of `submitToGoogleSheets`;
  - the request body it posts;
  - how every path ends in a `{success, message}` reply;
  - `testConnection`.
- **The two Apps Script endpoints** (`google-apps-script.js`, module
  `AppsScript`, and `google-apps-script-fixed.js`, module
  `AppsScriptFixed`). Each has:
  - a `doPost` that may upload a file to Drive, appends one row and
    replies;
  - a `doGet` status reply;
  - the header row of `setupSheetHeaders`.

  What the two endpoints share is in `ScriptCommon`:
  - JavaScript truthiness and `||` on the parsed record;
  - the Drive file name;
  - the sheet columns by field;
  - the reply;
  - the JSON and JSONP text.

  A few lemmas set the two endpoints side by side.

`Common` holds the JavaScript semantics the modules share:
- truthiness and `||`;
- `String.prototype.trim`, `includes` and `join`;
- plain objects as key-ordered property lists with unique keys;
- property assignment;
- `Object.fromEntries` and `FormData.getAll`.

Everything outside the page and the scripts is a parameter:
- `Math.random()` is a real `u` in [0, 1);
- the clock, the page URL and the user agent are strings;
- the page protocol is a flag;
- whether a Sheets integration object exists and is enabled is a value;
- what `fetch`, `FileReader`, `JSON.parse`, `SpreadsheetApp` and
  `DriveApp` give or throw are values.

Exceptions that escape a handler are modelled as results, for example
`Threw`, `Rejected` or `Err`.

## Model

| member | source | states |
|---|---|---|
| Common.ContainsIff | js/form-ab-integration.js:84 | `includes` is true exactly when the substring occurs at some index |
| Common.TrimEmptyIffBlank | js/form-ab-integration.js:152 | a value trims to the empty string exactly when every character is JavaScript whitespace |
| Common.Set | js/google-sheets-integration.js:49-50 | property assignment sets the key and leaves every other key as it was; an existing key keeps its position, a new key goes last, and keys stay unique |
| Common.FromEntriesKeepsLast | js/form-ab-integration.js:197 | `Object.fromEntries` over FormData holds, under each name, the last of the values `getAll` returns, and nothing when there is none |
| Common.DecimalRoundTrip | js/google-sheets-integration.js:69 | the decimal text of a status code parses back to the same number |
| ABTesting.ConfiguredIsValid | js/ab-testing.js:9-50 | the eight configured variations have positive weights and distinct, non-empty ids |
| ABTesting.FindVariation | js/ab-testing.js:140 | `find` by id returns a configured variation with that id, and returns nothing exactly when no variation has it |
| ABTesting.DrawIsConfigured | js/ab-testing.js:76-89 | every draw names a configured variation |
| ABTesting.SumWeightsGrows | js/ab-testing.js:77 | the running weight sum strictly increases along the configuration |
| ABTesting.DrawSlice | js/ab-testing.js:76-89 | for a threshold in (0, total], variation k is drawn exactly when the threshold falls in its slice, and the slice is as long as k's weight, so k is drawn with probability weight / total |
| ABTesting.ThresholdBelowTotal | js/ab-testing.js:77-78 | `Math.random() * totalWeight` never exceeds the total weight |
| ABTesting.DrawNeverFallsBack | js/ab-testing.js:80-88 | with `Math.random()` in [0, 1), some variation always covers the threshold, so the fallback to the first variation is never reached |
| ABTesting.NewEventAttribution | js/ab-testing.js:116-124 | an event carries its variation and type, and every extra field, unless the extra data overrides them; the extras the store passes never do |
| ABTesting.CountAppend | js/ab-testing.js:205-207 | appending one event raises a count by one exactly when the event matches it |
| ABTesting.LoggedEventCounted | js/ab-testing.js:116-137 | the event `trackEvent` appends (NewEvent) raises, for its own variation, both the count of its type and the count of all its events by one |
| ABTesting.ViewsAndSubmissionsWithinEvents | js/ab-testing.js:205-207 | page views plus form submissions of a variation never exceed its events |
| ABTesting.Rate | js/ab-testing.js:208 | the conversion rate is never negative; with at least one view, rate times views is the submission count; with none, the submissions are divided by one |
| ABTesting.ResultsCoverConfig | js/ab-testing.js:201-220 | Results gives one entry per configured variation, in order, with its id and title; the counts of a variation with no events are zero |
| ABTesting.BestIsUnique | js/ab-testing.js:222-236 | at most one entry is the best, so the winner is determined by the results |
| ABTesting.SelectWinner | js/ab-testing.js:222-236 | the winner is none exactly when no variation with at least ten views converts at a positive rate; otherwise it is the first variation with the highest rate among those |
| ABTesting.ABTestingSystem.constructor | js/ab-testing.js:7-74 | a non-empty stored text assignment is reused, otherwise a weighted draw is made; a page view is logged after the stored log; the assignment and log are persisted |
| ABTesting.ABTestingSystem.Init | js/ab-testing.js:57-74 | the same for a later call: a non-empty stored text assignment or a draw, one page view appended, the assignment and log persisted, other storage untouched |
| ABTesting.ABTestingSystem.AssignVariation | js/ab-testing.js:76-89 | the result is the draw for threshold `u * totalWeight`: the first variation whose running sum reaches it |
| ABTesting.ABTestingSystem.TrackEvent | js/ab-testing.js:116-137 | exactly one event is appended for the current variation, the whole log is persisted, and the assignment is unchanged |
| ABTesting.ABTestingSystem.SaveAnalytics | js/ab-testing.js:193-199 | the analytics key holds the in-memory log and nothing else in storage changes |
| ABTesting.ABTestingSystem.TrackFormSubmission | js/ab-testing.js:139-157 | the entries gain `ab_test_variation` and `ab_test_title` last, and a form_submission event is logged; an assignment no variation has throws before anything is logged |
| ABTesting.ABTestingSystem.GetWinner | js/ab-testing.js:222-236 | the winner of the current results, as SelectWinner states it |
| ABTesting.ABTestingSystem.SetVariation | js/ab-testing.js:239-246 | a configured id becomes the persisted assignment and one manual change is logged; an unknown id changes nothing |
| ABTesting.ABTestingSystem.ResetTest | js/ab-testing.js:249-255 | the assignment and log are removed, then a fresh draw is persisted with a log of a single page view |
| ABTesting.ReloadResumes | js/ab-testing.js:57-61 | a later load of the page reads back what the store keeps: StoredVariation gives the current assignment and LoadAnalytics (lines 184-191) the in-memory log, so the assignment is sticky |
| FormIntegration.FormElement.constructor | js/form-ab-integration.js:48-49 | a form starts with its id and marker and no listeners |
| FormIntegration.EnhanceForm | js/form-ab-integration.js:48-72 | the form is marked and gains exactly one submit listener |
| FormIntegration.EnhanceEach | js/form-ab-integration.js:34-37 | every contact form is marked, and gains one listener per time the query lists it |
| FormIntegration.EnhanceUnmarked | js/form-ab-integration.js:40-45 | every form ends up marked; only the forms unmarked beforehand gain a listener |
| FormIntegration.SetupFormHandlers | js/form-ab-integration.js:26-46 | every form is marked; the automation and contact forms gain a listener unconditionally; any other form gains one only when it was unmarked |
| FormIntegration.Dispatch | js/form-ab-integration.js:74-91 | the exact id `automation-form` goes to the automation handler, any other id containing `contact` to the contact handler, everything else (a missing id included) to the generic one |
| FormIntegration.NoContactInUnknown | js/form-ab-integration.js:75 | the fallback id `unknown-form` never contains `contact` |
| FormIntegration.ValidateRequired | js/form-ab-integration.js:147-163 | an input is flagged exactly when its trimmed value is empty, and the form proceeds exactly when none is |
| FormIntegration.SendMeansChecksPassed | js/form-ab-integration.js:74-192 | a form is sent only under its own handler's form type, and only when that handler's checks passed: for the automation form a checked improvement, `#submit-form` and `#confirmation`; for a contact form no blank required value and a submit button; the generic form always sends |
| FormIntegration.HandleFormSubmission | js/form-ab-integration.js:74-192 | the handling is Decision: the automation form is blocked without a checked improvement, throws without `#submit-form`, then throws in its timer without `#confirmation`, and otherwise sends; the contact form is blocked when a required value is blank and sends only when it has a submit button; the generic form always sends; the contact handler flags exactly the blank required inputs, and no other handler flags any |
| FormIntegration.GetAllAsValues | js/form-ab-integration.js:200-201 | `getAll('improvements')` gives the same values, in order, whether read from the entries or from their JavaScript values |
| FormIntegration.FromFormData | js/form-ab-integration.js:197 | the object built from the form holds the last value submitted under each name |
| FormIntegration.PreparedGet | js/form-ab-integration.js:197-220 | the data Prepared builds holds the whole checkbox group under `improvements`, the chosen file's fields, and the last submitted value under every other name |
| FormIntegration.FirstNonEmpty | js/form-ab-integration.js:224-234 | the result is the first non-empty alias value, and is empty exactly when every alias is |
| FormIntegration.PreparedKeepsSubmitted | js/form-ab-integration.js:197-220 | preparing the data only touches improvements and the file fields, so each form field keeps what the form submitted |
| FormIntegration.OrSubmitted | js/form-ab-integration.js:224-240 | one `\|\|` link over a submitted name gives that text when it is non-empty, else the rest of the chain |
| FormIntegration.Chain2 | js/form-ab-integration.js:226-234 | a two-alias chain gives the first non-empty submitted value, or `''` |
| FormIntegration.Chain3 | js/form-ab-integration.js:224 | the name chain `firstname \|\| fullname \|\| name` gives the first non-empty submitted value, or `''` |
| FormIntegration.FormFieldsResolve | js/form-ab-integration.js:223-243 | every field MapFields gives that the form supplies resolves to the first non-empty value under its aliases, in chain order, or `''`; `form_type` and `url` are the arguments |
| FormIntegration.PreparedFieldsResolve | js/form-ab-integration.js:200-238 | `improvements` is the whole checkbox group joined with `", "`; the file fields come from the chosen file, else from the form |
| FormIntegration.TrackedFieldsWin | js/form-ab-integration.js:239-240 | the A/B fields appended by the tracker win over any the form carried: the record names the current variation and its title |
| FormIntegration.SendToServer | js/form-ab-integration.js:195-264 | the exits in order: a file that cannot be read stops the send; a `file:` page only logs; only an existing, enabled integration is given the mapped record |
| FormIntegration.OnSubmit | js/form-ab-integration.js:56-71 | the listener passes the form through the tracker: on success it logs exactly one form_submission event for the current variation, persists the log, sends the enhanced entries, and the handling is Decision for the form; a tracker throw sends nothing and logs nothing |
| SheetsClient.WithMetadata | js/google-sheets-integration.js:48-50 | `form_type` and `url` are set to the arguments, overriding same-named properties; every other property is unchanged |
| SheetsClient.KeptIndex | js/google-sheets-integration.js:56-61 | an entry is in the body exactly when a property with that name has a non-null, non-undefined value with that text |
| SheetsClient.KeptNamesAreProperties | js/google-sheets-integration.js:56-61 | the body's names are property names, each at most once |
| SheetsClient.BuildBody | js/google-sheets-integration.js:56-61 | the append loop builds exactly the kept entries, in property order |
| SheetsClient.BodyContents | js/google-sheets-integration.js:38-61 | the posted body is exactly the data's real-valued properties as text, each once, with `form_type` and `url` among them |
| SheetsClient.FetchOutcome | js/google-sheets-integration.js:63-85 | success exactly when the response is ok and its JSON says success; a non-ok status, a network failure or unreadable JSON becomes `Network error: ` plus the message; an endpoint failure passes its message on |
| SheetsClient.HttpStatusRecoverable | js/google-sheets-integration.js:68-70 | the status of a rejected response can be read back from the failure message |
| SheetsClient.SubmitAsWritten | js/google-sheets-integration.js:20-86 | as written, the client never posts: local mode succeeds only on FormData; elsewhere it always resolves with a failure, and when enabled with the ReferenceError of the shadowed `formData` |
| SheetsClient.TdzCounterexample | js/google-sheets-integration.js:38-56 | on the call `sendToServer` makes, the code as written fails without posting, although a stored row answers success |
| SheetsClient.GoogleSheetsIntegration.constructor | js/google-sheets-integration.js:7-18 | the deployed URL differs from the placeholder, so the integration starts enabled |
| SheetsClient.GoogleSheetsIntegration.SetWebAppUrl | js/google-sheets-integration.js:122-129 | the URL is stored, and the integration is enabled exactly when the URL is non-empty and not the placeholder |
| SheetsClient.GoogleSheetsIntegration.SubmitToGoogleSheets | js/google-sheets-integration.js:20-86 | local mode is checked first, then the enabled flag; invalid input fails with its message; otherwise the metadata-extended body is posted and the reply is the fetch outcome; a request is made exactly when not local, enabled and the input is valid |
| SheetsClient.GoogleSheetsIntegration.TestConnection | js/google-sheets-integration.js:89-119 | disabled: no request; enabled: it posts `test` and `timestamp` and succeeds exactly when the response is ok and readable, whatever the endpoint answers |
| ScriptCommon.OrEmpty | google-apps-script.js:63-79 | a row cell is the field when the field is truthy and the empty text otherwise, so a cell is falsy exactly when its field is missing or falsy, and is then the empty text |
| ScriptCommon.Sanitize | google-apps-script.js:42 | replacing `:` and `.` keeps the length and every other character, and leaves neither character |
| ScriptCommon.SanitizeFixedPoints | google-apps-script.js:42 | a timestamp is unchanged exactly when it has nothing to replace; sanitizing is idempotent |
| ScriptCommon.SplitFirst | google-apps-script.js:43 | splitting at the first separator recovers the whole text, with a prefix free of the separator |
| ScriptCommon.UploadNameSplits | google-apps-script.js:42-43 | when the owner has no underscore, the Drive file name UploadName builds splits back into the owner, the sanitized time and the original name |
| ScriptCommon.AcceptedWith | google-apps-script.js:86-92 | a success reply reports an upload exactly when the File Upload cell is non-empty, and adds ` with file upload` exactly then |
| ScriptCommon.EscapeChar | google-apps-script.js:87 | ordinary characters are written as themselves |
| ScriptCommon.UnescapeChar | google-apps-script.js:87 | every escaped character reads back as itself |
| ScriptCommon.EscapeRoundTrip | google-apps-script.js:87 | parsing a string literal that `JSON.stringify` wrote gives back the original string |
| ScriptCommon.Stringify | google-apps-script.js:87-91 | the JSON text of a flat object is enclosed in braces |
| ScriptCommon.JsonpUnwraps | google-apps-script.js:126 | stripping the callback wrapper recovers the JSON text |
| AppsScript.FileInfo | google-apps-script.js:28-59 | the cell is empty exactly when no upload is wanted; otherwise it is the stored name and link, or the failure text |
| AppsScript.ImprovementsCell | google-apps-script.js:73 | improvements that are truthy but not an array make `join` throw; an array is joined with `", "`; a missing value gives `''` |
| AppsScript.RowMatchesHeaders | google-apps-script.js:62-80 | the row has 17 cells, and each holds what its header in setupSheetHeaders names |
| AppsScript.HeadersKnownDistinct | google-apps-script.js:154-172 | the 17 headers are distinct known columns |
| AppsScript.DoPost | google-apps-script.js:18-103 | the open error comes first, then the parse error; the upload is attempted exactly when it is wanted, even when the row later throws on improvements; a row is appended exactly when the reply is a success; every failure is `Error: ` plus the message |
| AppsScript.UploadFlagMeansAttempt | google-apps-script.js:86-92 | a stored row reports an upload exactly when one was attempted, a failed one included, and the File Upload cell starts with the outcome |
| AppsScript.PreflightIsNotStatus | google-apps-script.js:105-145 | DoOptions answers the preflight with empty JSON text, never with the status report DoGet gives, as JSON or as JSONP |
| AppsScript.DoGet | google-apps-script.js:112-145 | with a non-empty callback, JavaScript text that unwraps to the status JSON; otherwise the status JSON itself |
| AppsScript.SetupSheetHeaders | google-apps-script.js:148-189 | the header row is written exactly when the sheet opens, and it is the 17 distinct headers the rows are laid out by |
| AppsScriptFixed.FileInfo | google-apps-script-fixed.js:19-55 | the cell is empty exactly when name, content and type are not all given; otherwise it is the file name and link, or the failure text |
| AppsScriptFixed.RowMatchesHeaders | google-apps-script-fixed.js:58-72 | the row has 13 cells ending in Timestamp, and each holds what its header names, with improvements stored as received |
| AppsScriptFixed.HeadersKnownDistinct | google-apps-script-fixed.js:120-134 | the 13 headers are distinct known columns |
| AppsScriptFixed.DoPost | google-apps-script-fixed.js:9-97 | the parse error comes first, then the open error; only appendRow can fail after that; a row is appended exactly when the reply is a success |
| AppsScriptFixed.UploadFlagMeansAttempt | google-apps-script-fixed.js:80-86 | a stored row reports an upload exactly when one was attempted, and cell 12 starts with the outcome |
| AppsScriptFixed.CallbackIgnored | google-apps-script-fixed.js:99-107 | this DoGet ignores a callback: the answer is the same plain JSON, which a JSONP client cannot unwrap, where the first endpoint answers with script |
| AppsScriptFixed.SetupSheetHeaders | google-apps-script-fixed.js:110-150 | the header row is written exactly when the sheet opens, and it is the 13 distinct headers, ending in Timestamp, the rows are laid out by |
| AppsScriptFixed.FieldColumnsShared | google-apps-script-fixed.js:58-72 | every field column of this sheet is a column of the first sheet, and a record fills both with the same value |
| AppsScriptFixed.ColumnInFirst | google-apps-script-fixed.js:120-134 | the position in the first sheet's header row of each field header of this sheet |
| AppsScriptFixed.SameReply | google-apps-script-fixed.js:79-86 | with a file type and joinable improvements, both endpoints reply alike and upload under the same name |
| AppsScriptFixed.ErrorOrderDiffers | google-apps-script-fixed.js:12-15 | when both opening and parsing fail, the first endpoint reports the open error and this one reports the parse error |
| AppsScriptFixed.JoinedImprovementsStored | google-apps-script-fixed.js:66 | improvements that arrive as one string are refused by the first endpoint without a row, and stored as received by this one |

## Left out

- `applyVariation` (js/ab-testing.js:91-114) rewrites DOM titles and sets a body attribute. The DOM is not modelled.
- `sendToAnalytics` (js/ab-testing.js:159-182) forwards events to gtag, ga and fbq. Those are calls into third-party code, and they change no state here.
- The `gtag` form_submit event (js/form-ab-integration.js:134-142) is left out for the same reason.
- The polling `setInterval` in FormABIntegration's init (js/form-ab-integration.js:11-23) is left out. The set-up is modelled from the point `window.abTesting` exists.
- The `setTimeout` delays of the handlers, and the button texts, alerts, scrolling and `form.reset()` they run, are left out. Only the decision to send, and under which form type, is modelled.
- `fileToBase64` (js/form-ab-integration.js:286-297) is not modelled as a FileReader. Its result is a parameter: the base64 text, or none when reading fails.
- Local storage is a map. The JSON text of the stored analytics object is not serialised: a stored log is a value of its own kind, and any other stored text stands for text that does not parse. The unused `conversions` property is left out.
- `Math.random()`, `new Date().toISOString()`, `location.href`, `navigator.userAgent`, fetch's outcome, `JSON.parse`, SpreadsheetApp and DriveApp are parameters.
- `testConnection` in google-apps-script.js (lines 192-217) appends a fixed 17-cell test row to the sheet and returns nothing. It is not modelled: it is a manual check run from the script editor, not part of the endpoint.
- `testConnection` in google-apps-script-fixed.js (lines 153-165) returns `Connection successful! Sheet name: ` followed by the sheet's name. It is not modelled: the sheet's name is a value of SpreadsheetApp.
- The Drive folder lookup and the sharing call are folded into one upload outcome.
- ScriptCommon.UploadName: the name reported by `file.getName()` in the fixed endpoint is taken to be the blob's name.
- ScriptCommon.Json: parsed values are simplified. Arrays hold strings only, numbers are integers, and nested objects are not modelled, since the form sends only flat text fields.
- The client posts multipart FormData, while both endpoints call `JSON.parse` on the body. Parsing is a parameter, so this mismatch is not modelled.
- The JSON text of doPost's replies is modelled structurally (`Accepted`/`Refused`). Only doGet's reply is modelled as text.
- ScriptCommon.EscapeChar: characters above U+001F are written as themselves. `JSON.stringify`'s escaping of lone surrogates is not modelled.
- ABTesting.ABTestingSystem.constructor: a value under the variation key that is not stored text (for example the serialised event log, whose JSON text is non-empty and which the source would reuse as the assignment) is treated as no assignment, so a new draw is made. Local storage keeps typed values rather than JSON text.
- ABTesting.ABTestingSystem.Init: the same as for the constructor; only a non-empty stored text counts as an assignment.
- ABTesting.ABTestingSystem.SaveAnalytics: storage reads and writes never throw in the model, so the stored log always equals the in-memory one (the `Valid()` clause that ReloadResumes relies on). In the source a failing `setItem` in `saveAnalytics` (js/ab-testing.js:194-198) is caught and the in-memory log goes on without it, so the stored log can fall behind. The `getItem`/`setItem`/`removeItem` calls of `init` (lines 59 and 66), `setVariation` (line 242) and `resetTest` (lines 250-251) are not guarded, so a failure there leaves the call with an exception.
- ABTesting.DrawNeverFallsBack: weights, the threshold `Math.random() * totalWeight` and the conversion rate are exact reals; IEEE rounding is not modelled. The statement that the fallback is never reached is about exact arithmetic; it carries over to the eight configured weights of 1, but not to arbitrary weights.
- SheetsClient.BuildBody: "in property order" is the order in which properties were added. `Object.keys` would list integer-like keys first, in ascending order; the only caller (js/form-ab-integration.js:264) passes fixed, non-numeric names, so the order is the same there.
- ABTesting.ABTestingSystem.AssignVariation requires a non-empty configuration. The configuration is the constant list of eight variations, and with an empty one the source would throw on `this.variations[0]`.
- ABTesting.ABTestingSystem.GetResults: the results are a sequence in configuration order rather than an object keyed by id. The ids are distinct and none is an integer-like key, so `Object.keys` visits them in the same order.
- The admin dashboard page and the HTML pages are not part of this model.

## Findings

| source | as written | input that shows it | evidently intended | confidence | as-written member | corrected member |
|---|---|---|---|---|---|---|
| js/google-sheets-integration.js:38-56 | `const formData` at line 56 is block-scoped to the whole `try`, so the `formData instanceof FormData` read at line 38 is in its temporal dead zone and throws a ReferenceError, which the catch turns into a failure reply | any call on an http(s) page with the integration enabled, e.g. the mapped record `sendToServer` passes | build the request body under a name of its own, so the parameter is read, the data posted and the server's verdict returned | not executed | SheetsClient.SubmitAsWritten (SheetsClient.TdzCounterexample) | SheetsClient.GoogleSheetsIntegration.SubmitToGoogleSheets |
| google-apps-script.js:73 | `data.improvements.join(', ')` is called on any truthy value, but the page sends improvements already joined into one string, so `join` throws and no row is stored | a record with `improvements: "Sales, Support"` | store the text as received, as google-apps-script-fixed.js:66 does | not executed | AppsScript.DoPost (AppsScriptFixed.JoinedImprovementsStored) | AppsScriptFixed.DoPost |
