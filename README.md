# FitscoreAI core in Dafny

FitscoreAI is built from separate pieces for a medical-report fitness
assessment:

- an upload handler that stores a report in a Cloud Storage bucket and
  answers with its `gs://` path;
- an analysis service that runs OCR on a stored report and asks a
  generative model for a JSON assessment;
- a database service that saves an assessment in a Firestore `reports`
  collection.

Nothing in the code joins these steps. index.js routes `/upload` to the
upload handler and imports neither `analyzeMedicalReport` nor `saveReport`.
Neither function has a caller.

Two browser clients display whatever assessment the server sends back. The
React client (frontend/src/App.jsx) shows a coloured wellness score and
recommendation cards. The static client (public/app.js) shows a dashboard
and the user's history.

This project models the logic of each piece. Every foreign service is a
parameter of the model:

- **analysis_service.dfy** (`AnalysisService`) models analysisService.js.
  - The OCR step: a rejected call is rethrown, a missing or empty detection
    list raises "No text found ...", and a first detection without a
    description fails when its `length` is read.
  - The prompt, with the OCR text placed verbatim between `"""` lines.
  - The cleanup of the model's answer: `replace(/```json/g, '')`, then
    `replace(/```/g, '')`, then `trim()`. The global replace of a literal is
    modelled as a left-to-right, non-overlapping deletion. `trim` removes
    exactly the ECMAScript WhiteSpace and LineTerminator characters.
- **upload_handler.dfy** (`UploadHandler`) models uploadHandler.js.
  - The 400 reply when no file was sent.
  - The object key `${Date.now()}-${originalname}` and the path `gs://bucket/key`.
  - The four callbacks that race to answer (stream `error`, stream `finish`,
    the 5-second timer, `catch`). Each is a method of `PendingUpload`, and
    each writes to the `Response` only while `headersSent` is false. The
    handler runs them over an arbitrary sequence of events.
- **db_service.dfy** (`DbService`) models dbService.js. `saveReport` builds
  the record `{userId: userId || 'anonymous', timestamp, ...reportData}` and
  appends it to an in-memory collection. It returns the new id, or null when
  the write fails.
- **react_client.dfy** (`ReactClient`) models frontend/src/App.jsx:
  - the score bands of `getScoreColor` and `getScoreBg` (30 / 60 / 80);
  - the first class of the colour, which styles the score;
  - `RecCard`'s items-or-placeholder rule;
  - the state changes of `handleAnalyze`.
- **static_client.dfy** (`StaticClient`) models public/app.js:
  - `currentUser`;
  - the dashboard fallbacks `score || "--"` and `summary || "No summary available."`;
  - `fillList` and the rule that lists are left alone without `recommendations`;
  - `loadHistory`: its guard, its messages, and the history `scoreClass` (80 / 50 / >0).
- **js.dfy** (`Js`) holds JavaScript values, truthiness, `||`, and
  `String(v)`, including the decimal text of numbers. The JSON bodies that
  flow between these modules are built from these values.
- **wrappers.dfy** (`Wrappers`) holds `Option` and `Result`.

What the code does, and the model with it:

- No normaliser fills in missing fields of the assessment, and no fallback
  report absorbs inference errors: analysisService.js:89-92 rethrows every
  error.
- dbService.js:32 exports only `saveReport`. There is no history query:
  the `/history/:userId` route (index.js:25-29) calls `getUserHistory`,
  which index.js:6 imports from dbService.js but is undefined there.
- uploadHandler.js never calls the analysis service, and nothing calls
  `saveReport`.
- The model proves at most
  one reply over any order of callbacks, and exactly one once any callback
  has fired (`AtMostOneReply`). In the code, the try block always ends by
  arming the 5-second timer, and the catch block answers when the block
  throws, so some callback always fires. That certainty is not modelled:
  the events are an arbitrary sequence, which may be empty.
- The prompt (analysisService.js:63-67) asks for a `dietPlan` array. Both
  clients read `recommendations.diet`, `.exercise` and `.lifestyle` instead.
  The model takes each side as written.

## Model

| member | source | states |
|---|---|---|
| AnalysisService.RemoveAll | analysisService.js:82 | a global literal replace never lengthens the text |
| AnalysisService.RemoveAllIsSubsequence | analysisService.js:82 | a global replace with '' only deletes characters: the result is a subsequence of its input |
| AnalysisService.RemoveAllAbsent | analysisService.js:82 | when the pattern does not occur, the replace leaves the text as it is |
| AnalysisService.NoFenceAfterRemoval | analysisService.js:82 | once every "```" is deleted in one pass, no "```" is left, including one formed where two pieces meet |
| AnalysisService.TrimStartSpec | analysisService.js:82 | trimStart drops a prefix made only of white space and stops at the first other character |
| AnalysisService.TrimEndSpec | analysisService.js:82 | trimEnd drops a suffix made only of white space and stops at the last other character |
| AnalysisService.TrimSpec | analysisService.js:82 | trim keeps the slice between two white-space-only ends, and that slice neither begins nor ends with white space |
| AnalysisService.TrimIdempotent | analysisService.js:82 | trimming twice is trimming once |
| AnalysisService.TrimStart | analysisService.js:82 | the leading white space `trim` drops never lengthens the text; its full contract is TrimStartSpec |
| AnalysisService.TrimEnd | analysisService.js:82 | the trailing white space `trim` drops never lengthens the text; its full contract is TrimEndSpec |
| AnalysisService.Trim | analysisService.js:82 | `trim()` never lengthens the text; its full contract is TrimSpec |
| AnalysisService.TrimWrapped | analysisService.js:82 | white space at both ends of a text does not change its trimmed form |
| AnalysisService.Clean | analysisService.js:82 | the cleanup, two global deletions and a trim, never lengthens the answer; its promises are the Clean lemmas below |
| AnalysisService.CleanIsFenceFree | analysisService.js:82 | the cleaned answer contains no "```" and has no leading or trailing white space |
| AnalysisService.CleanIsSubsequence | analysisService.js:82 | the cleanup only deletes characters |
| AnalysisService.CleanIdempotent | analysisService.js:82 | cleaning a cleaned answer changes nothing |
| AnalysisService.CleanWithoutBackticks | analysisService.js:82 | an answer with no backtick is only trimmed |
| AnalysisService.CleanFenced | analysisService.js:82 | an answer wrapped as "```json\n" + b + "\n```" cleans to the same text as b, which is trim(b), for backtick-free b |
| AnalysisService.BuildPrompt | analysisService.js:34-71 | the prompt holds the OCR text verbatim, between an opening and a closing `"""` line |
| AnalysisService.Respond | analysisService.js:73-92 | the request is the prompt; a model error is rethrown; a model success gives Success of the cleaned answer; a Success result always comes from a model success and holds no "```" |
| AnalysisService.ExtractText | analysisService.js:23-31 | a rejected OCR call passes its error on; missing or empty detections give "No text found ..."; a first detection without a description gives the TypeError of reading its `length`; otherwise the text is the first detection's description |
| AnalysisService.AnalyzeMedicalReport | analysisService.js:17-92 | no request exists exactly when the OCR step fails, and its error is then rethrown unchanged; otherwise the outcome is Respond to the prompt built from the OCR text |
| Js.Truthy | dbService.js:17 | a value is falsy exactly when it is undefined, null, false, 0 or "" (ECMAScript ToBoolean) |
| Js.Or | public/app.js:86-87 | `a || b` is a when a is truthy and b otherwise |
| Js.OrIsLogicalOr | dbService.js:17 | `a || b` is one of its operands, and it is truthy exactly when a or b is |
| Js.Get | frontend/src/App.jsx:64 | `v.key` is the field's value when v is an object that has the key, and undefined otherwise |
| Js.ToString | frontend/src/App.jsx:64 | `String(v)`: "undefined", "null", "true" or "false", a number's decimal text, a string itself, "" for an empty array, and "[object Object]" for an object |
| Js.ElementText | frontend/src/App.jsx:64 | inside an array's text, undefined and null print as nothing and every other element as its String() |
| Js.ArrayText | frontend/src/App.jsx:64 | `String([x, ...rest])` is x's element text, then a comma and the text of rest when rest is non-empty |
| Js.Decimal | uploadHandler.js:20 | Date.now() is printed as a non-empty run of decimal digits with no leading zero |
| Js.DecimalRoundTrip | uploadHandler.js:20 | reading the printed digits back gives the timestamp |
| UploadHandler.LeadingDigits | uploadHandler.js:20 | finds the run of digits at the start of a key, followed by a non-digit or the end |
| UploadHandler.ObjectKey | uploadHandler.js:20 | the key is the timestamp's digits, then "-", then the original name, unchanged |
| UploadHandler.KeyRoundTrip | uploadHandler.js:20 | the key splits back into the timestamp and the original name, unchanged and unsanitised |
| UploadHandler.FilePath | uploadHandler.js:34 | the path is "gs://", the bucket, "/" and the key, in that order |
| UploadHandler.Answer | uploadHandler.js:29-58 | a stream error and a throw answer 500 with status 'error' and their fixed message plus err.message; finish answers 200 'uploaded' with the path; the timer answers 200 'timeout' with its message |
| UploadHandler.Guarded | uploadHandler.js:28-57 | the `headersSent` guard: a callback adds its reply only when none was sent, and otherwise leaves the replies as they were |
| UploadHandler.Replay | uploadHandler.js:26-59 | the replies after a sequence of callbacks; some reply is sent exactly when some callback has fired |
| UploadHandler.AtMostOneReply | uploadHandler.js:26-59 | over any order of callbacks at most one reply is sent, and one is sent once any callback has fired |
| UploadHandler.FirstEventDecides | uploadHandler.js:26-59 | the callback that fires first decides the status and body |
| UploadHandler.LaterEventsIgnored | uploadHandler.js:26-59 | callbacks that fire after the first leave the reply unchanged |
| UploadHandler.StorageErrorFirst | uploadHandler.js:26-31 | a storage error that fires first is answered with 500 'Upload failed' and the error's message |
| UploadHandler.TimeoutFirst | uploadHandler.js:45-53 | a timer that fires first is answered with 200 status 'timeout', even when finish arrives later |
| UploadHandler.FinishFirst | uploadHandler.js:20-38 | a finish that fires first is answered with 200 'uploaded' and the path "gs://" + bucket + "/" + timestamp + "-" + name |
| UploadHandler.Response.Send | uploadHandler.js:28-58 | writing a reply sets headersSent, and that reply is the only one sent |
| UploadHandler.PendingUpload.OnError | uploadHandler.js:26-31 | the stream's error callback answers 500 'Upload failed' only while no reply was sent |
| UploadHandler.PendingUpload.OnFinish | uploadHandler.js:33-39 | the finish callback answers 200 with the gs:// path only while no reply was sent |
| UploadHandler.PendingUpload.OnTimeout | uploadHandler.js:45-53 | the timer answers 200 'timeout' only while no reply was sent |
| UploadHandler.PendingUpload.OnCatch | uploadHandler.js:55-60 | the catch block answers 500 'Internal server error' only while no reply was sent |
| UploadHandler.PendingUpload.Fire | uploadHandler.js:26-59 | firing any callback changes the replies exactly as the guard with that callback's answer does |
| UploadHandler.HandleUpload | uploadHandler.js:11-61 | without a file, the reply is 400 'No file uploaded' and no object is created; otherwise one upload is started under the timestamped key (whether the object comes to exist is up to the storage events), and the replies are those of the callbacks in the order they fired |
| DbService.ReportRecord | dbService.js:16-20 | the record has the report's keys plus userId and timestamp; every report value is kept; without a report userId, a truthy userId is stored as given and a falsy one as 'anonymous'; without a report timestamp, the server timestamp is stored |
| DbService.FalsyUserIdIsAnonymous | dbService.js:17 | an undefined, null or empty userId is stored as 'anonymous' |
| DbService.ReportStore.SaveReport | dbService.js:14-30 | a successful write appends exactly one record, keeps the earlier ones and returns its id; a failed write stores nothing and returns null instead of throwing |
| ReactClient.BandOf | frontend/src/App.jsx:33-38 | scores up to 30 are red, up to 60 orange, up to 80 lime, and above 80 green |
| ReactClient.BandMonotone | frontend/src/App.jsx:33-38 | a higher score never falls in a lower band |
| ReactClient.GetScoreColor | frontend/src/App.jsx:33-38 | the colour classes are those of the score's band |
| ReactClient.GetScoreBg | frontend/src/App.jsx:40-45 | the background classes are those of the score's band |
| ReactClient.ClassesOfBand | frontend/src/App.jsx:33-45 | each colour literal is the band's text class, a space and its stroke class, and each background literal is its background and border classes, all four naming the band's colour |
| ReactClient.NameInColorClasses | frontend/src/App.jsx:34-37 | in a band's text class, a space and its stroke class, the colour name stands right after "text-" |
| ReactClient.NameInBackground | frontend/src/App.jsx:41-44 | in a band's background and border classes, the colour name stands right after "bg-" |
| ReactClient.ClassesDistinguishBands | frontend/src/App.jsx:33-45 | the band's whole colour name stands right after "text-" in the colour classes and right after "bg-" in the background classes |
| ReactClient.ColorAndBackgroundAgree | frontend/src/App.jsx:33-45 | two scores get the same colour exactly when they get the same background, exactly when they are in the same band |
| ReactClient.FirstToken | frontend/src/App.jsx:276 | `split(' ')[0]` is the space-free prefix that ends at the first space or at the end |
| ReactClient.TextClassIsOneClass | frontend/src/App.jsx:34-37 | the text class has no space in it and begins with "text-" |
| ReactClient.FirstTokenOfJoin | frontend/src/App.jsx:276 | the first token of "a b" is a for a space-free a |
| ReactClient.ScoreTextClass | frontend/src/App.jsx:276 | the score's number is styled with its band's `text-` class |
| ReactClient.Items | frontend/src/App.jsx:344 | a card shows one item per recommendation, in order |
| ReactClient.RecCard | frontend/src/App.jsx:344 | the card shows the single placeholder 'No specific notes' exactly when the items are missing or empty; otherwise it shows one entry per item, in order |
| ReactClient.RecCardShowsItems | frontend/src/App.jsx:344 | the texts on a non-empty card are exactly its items |
| ReactClient.FailureMessage | frontend/src/App.jsx:64 | a failed response's error is String() of a truthy message (the message itself when it is a non-empty string), 'Analysis failed' when the message is falsy, and the TypeError of reading `message` from a null or undefined body |
| ReactClient.NonStringMessages | frontend/src/App.jsx:64 | a numeric message is shown as its digits and a `true` message as "true" |
| Js.NumberText | frontend/src/App.jsx:64 | an integer prints as its decimal digits, with "-" before a negative one |
| Js.IntegerTextRoundTrip | frontend/src/App.jsx:64 | a non-negative integer's text reads back as that integer |
| ReactClient.AfterAnalyze | frontend/src/App.jsx:47-72 | with no file nothing changes; otherwise loading ends false; an OK response shows the dashboard with the data and no error; a non-OK response or a thrown error returns to the upload view with its message and keeps the old analysis |
| ReactClient.App.HandleAnalyze | frontend/src/App.jsx:47-72 | the new view, loading flag, analysis and error are AfterAnalyze of the old ones |
| StaticClient.ScoreDisplay | public/app.js:86 | every falsy score (0, missing, null, false, "") displays "--"; a truthy score displays itself |
| StaticClient.SummaryDisplay | public/app.js:87 | every falsy summary (missing, null, "", false, 0) displays "No summary available."; a truthy one displays itself |
| StaticClient.Lis | public/app.js:107 | one `<li>` per item, in order |
| StaticClient.ListEntries | public/app.js:103-111 | the list holds the placeholder alone exactly when the items are missing or empty; otherwise it holds one `<li>` per item, in order |
| StaticClient.ListEntriesShowItems | public/app.js:106-107 | the `<li>` texts of a non-empty list are exactly its items |
| StaticClient.EmptyListShowsNoItems | public/app.js:108-110 | a missing or empty list shows no item text |
| StaticClient.FillList | public/app.js:103-111 | the element's previous contents are cleared, and it then holds ListEntries of the list |
| StaticClient.ScoreClass | public/app.js:142-145 | history scores of 80 and up are green, 50 to under 80 yellow, above 0 to under 50 red, and 0 or less gray |
| StaticClient.ScoreClassMonotone | public/app.js:142-145 | a higher history score never gets a worse colour |
| StaticClient.Cards | public/app.js:141-159 | one card per history entry, in order, styled by its score class |
| StaticClient.HistoryEntries | public/app.js:131-163 | a failed request shows 'Failed to load.'; an empty history shows 'No reports found.' alone; otherwise one card per entry |
| StaticClient.EmptyHistoryShowsOnlyMessage | public/app.js:136-138 | an empty history shows only the "No reports found." message and no card |
| StaticClient.HistoryShowsEveryEntry | public/app.js:141-159 | a non-empty history shows exactly one card per entry, in order |
| StaticClient.Page.OnAuthStateChanged | public/app.js:18-31 | currentUser becomes the signed-in user, or null on sign-out |
| StaticClient.Page.RenderDashboard | public/app.js:82-118 | score and summary get their fallbacks; without recommendations none of the three lists is touched; with them each list is refilled from its own array |
| StaticClient.HistoryPath | public/app.js:132 | the history request's path is "/history/" followed by the user's uid |
| StaticClient.HistoryPathInjective | public/app.js:132 | two users get the same history path exactly when they are the same user |
| StaticClient.Page.LoadHistory | public/app.js:121-164 | with no current user nothing changes; otherwise the history list ends as HistoryEntries of how the request for the user's history path ended |

## Left out

- The Vision, Vertex AI, Cloud Storage, Firestore and Firebase Auth SDKs are
  foreign calls. Their outcomes, failures included, are parameters: the OCR
  call's annotations or rejection, the `generate` function, the event
  sequence, the `WriteResult`, and the `User`.
- AnalysisService.ExtractText: a description is present (a string) or
  missing. A description that is null or another non-string value is not
  modelled.
- `JSON.parse` of the cleaned text (analysisService.js:84) is not modelled.
  The model stops at the string that would be parsed.
- index.js (the Express routing and the `getUserHistory` import it names)
  is not part of this model. No history query exists in dbService.js.
- Time and concurrency are not modelled. `Date.now()` is the parameter
  `now`, which may be any natural number; no upper bound is assumed. The callbacks' interleaving
  is an arbitrary event sequence, so the event loop is not modelled.
- UploadHandler.HandleUpload: the file's bytes and `blobStream.end` are not
  modelled. A `catch` is one more event in the sequence, not an exception
  raised at a specific line.
- Js.NumberText prints fixed notation with at most 20 digits after the
  point. The exponent forms JavaScript uses below 1e-6 and from 1e21 are
  not modelled, and neither is rounding to the nearest double.
- UploadHandler.Answer: `err.message` is always a string here. A thrown
  value with no message, whose `error` key JSON.stringify would drop, is
  not modelled.
- DbService.ReportRecord: the record is a map, so its key order is not
  modelled. The served timestamp stays the `ServerTimestamp` placeholder.
- Logging (`console.*`), `alert` and `location.reload` are left out.
- JSX markup, CSS strings and `classList` toggling are left out. So are the
  `strokeDashoffset` arithmetic (frontend/src/App.jsx:274), login and
  logout, and the React client's own `loadHistory`.
- The static client's upload click handler (public/app.js:54-80) is left
  out. It only shows alerts, reloads, or calls `renderDashboard`.
- The vitals grid (public/app.js:90-100, frontend/src/App.jsx:288-293) is
  left out. It walks `Object.entries` in insertion order, which a Dafny map
  does not have.
- ReactClient.BandOf and StaticClient.ScoreClass take the score as a real
  number. A score that is missing, null or a string would be compared after
  JavaScript's numeric conversion, which is not modelled.
- StaticClient.ScoreDisplay and StaticClient.SummaryDisplay return the value
  that is shown. Its conversion to text (`textContent`) is not modelled.
- StaticClient.ListEntries and ReactClient.RecCard take a list or its
  absence. A truthy non-array value is not an input of the model. One whose
  `length` passes the test (`length > 0` at public/app.js:106, a truthy
  `length` at frontend/src/App.jsx:344) would make `forEach` or `map` throw.
  One whose `length` fails it, such as `{}`, `5` or `true`, gets the
  placeholder, as a missing list does.
- StaticClient.Page.LoadHistory: the history is a list of entries or a
  failure. A non-array body falls under the failure, except one whose
  `length` is 0, which shows "No reports found." (public/app.js:136-137).
  The model has no input for that body.
  "Loading history..." is set first and replaced when the request ends.
- The raw HTML injection of `${txt}` and `${item.*}` into `innerHTML` is
  not modelled. Each item is kept as a value inside its node.
