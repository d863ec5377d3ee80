# Anti-extortion app: a verified model of its logic

The app lets citizens of Colombia report extortion attempts to the police, look up the status of
a report, and record suspicious phone calls. Most of the app is screens and styling. This project
models the five places where its logic lives:

- **Report service** (`ReportsService`, `ReportsApi`). It validates the report form field by
  field. It formats the form into the request payload (phone and time normalisation; reporter
  fields only for reports that are not anonymous). It strips empty values before sending. Its
  three calls are reduced to the request they build and how they settle, and transport failures
  are mapped to user-facing messages.
- **Report screen** (`ReportScreen`). The submit handler validates, formats and sends the form,
  then turns the outcome into an alert by first-match keyword classification. It also has the
  reset handler.
- **Report-status modal** (`ReportStatus`). A search by case number or by report id. The
  service's answer is read tolerantly: three response shapes and `||` field fallbacks. Errors are
  classified by substring. The modal also maps a status to its label and colour.
- **Call recording** (`CallRecording`). A ledger of recorded calls persisted under one storage
  key and reconciled with the files that still exist on the device. Three settings are stored as
  text flags. Gates decide when a recording may start and stop.
- **API configuration** (`ApiConfig`). URL assembly, header merging and the per-environment
  settings.

`JsText` and `JsValue` hold the JavaScript string operations and the JSON value model: `trim`,
`split`, `includes`, digit filtering, `parseInt` on digit strings, truthiness, `?.` and `||`.
`Wrappers` holds `Option` and `Result`.

State that a screen mutates is a `class` whose methods state their whole new state, for example
`ReportScreen.ReportForm`, `ReportStatus.StatusModal` and `CallRecording.CallRecorder`. The
device's file system is a `set<string>` of existing paths. Its key-value storage is a
`map<string, Stored>`. Whatever the platform reports (a reply from the server, a recorder that
fails to start, a file that cannot be deleted) is a parameter of the method that receives it.

Three behaviours of the code worth noting:

- A time without a colon is not clamped. `930` becomes `09:30`, but `999` becomes `09:99`
  (`ReportsService.TimeExampleBare`).
- An absent or malformed recordings blob leaves the list in memory as it was. It is not replaced
  by an empty list (`CallRecording.CallRecorder.LoadRecordings`).
- An absent "record suspicious calls" flag defaults to `true`, not `false`
  (`CallRecording.Decoded`).

## Model

| member | source | states |
|---|---|---|
| ApiConfig.QueryString | constants/ApiConfig.js:49-50 | the query string is empty exactly when there are no parameters |
| ApiConfig.BuildApiUrl | constants/ApiConfig.js:45-55 | with no parameters the URL is the base URL plus the endpoint; otherwise a `?` and the query string follow |
| ApiConfig.ParseBuildApiUrl | constants/ApiConfig.js:45-55 | for an endpoint without `?`, the endpoint and the query can be read back from the built URL |
| ApiConfig.GetApiHeaders | constants/ApiConfig.js:58-63 | the keys are the defaults' and the additional ones; additional headers win; other defaults are kept |
| ApiConfig.GetApiHeadersDefault | constants/ApiConfig.js:58-63 | with no additional headers the result is exactly the defaults |
| ApiConfig.GetCurrentConfig | constants/ApiConfig.js:85-93 | development settings under `__DEV__`, production settings otherwise; staging is never chosen |
| ReportsService.ValidateReportData | services/reportsService.js:280-345 | the collected errors are those of the seven checks, in check order, reporter checks only when not anonymous; lengths count UTF-16 code units |
| ReportsService.ValidatePhoneNumber | services/reportsService.js:285-295 | required, then the Colombian pattern on the number without white space or ten digits starting with `3` |
| ReportsService.ValidateDate | services/reportsService.js:297-302 | required, then exactly `dd/dd/dddd` with no calendar check |
| ReportsService.ValidateTime | services/reportsService.js:304-309 | required, then the 24-hour `H:MM`/`HH:MM` pattern |
| ReportsService.ValidateDescription | services/reportsService.js:311-316 | trimmed length, in UTF-16 code units, at least 10, then at most 1000 |
| ReportsService.ValidateTerms | services/reportsService.js:318-321 | an error unless the terms were accepted |
| ReportsService.ValidateReporter | services/reportsService.js:323-336 | name trimmed length 2 to 100 and contact 7 to 50, in UTF-16 code units, each with its own error |
| ReportsService.CheckField | services/reportsService.js:285-336 | each check reports an error of its own field, and reports none exactly when that field's rule holds (the length rules in UTF-16 code units) |
| JsText.Length | services/reportsService.js:312 | `.length` counts UTF-16 code units: between one and two per character, zero exactly for the empty text |
| JsText.LengthAppend | services/reportsService.js:312 | the length of a concatenation is the sum of the lengths |
| ReportsService.AstralCharactersCountTwice | services/reportsService.js:311-336 | one emoji is an accepted name and five are an accepted description, since each counts two code units |
| ReportsService.TimeShapeIsClockReading | services/reportsService.js:307 | the time pattern accepts exactly one or two hour digits worth at most 23, a colon, and two minute digits worth at most 59 |
| ReportsService.ValidationErrorsPerField | services/reportsService.js:283-344 | errors come in check order with at most one per field, and a field has an error exactly when its rule fails |
| ReportsService.ValidationEmptyIffAccepted | services/reportsService.js:283-344 | the error list is empty exactly when every rule holds |
| ReportsService.FormatPhone | services/reportsService.js:219-230 | the phone number sent is the normalised one |
| ReportsService.NormalizedPhone | services/reportsService.js:219-230 | the normalised number is digits only |
| ReportsService.NormalizedPhoneKeepsOtherDigits | services/reportsService.js:220-230 | unless it is 12 digits starting `57` or 13 starting `575`, a number keeps all of its digits |
| ReportsService.AcceptedPhoneNormalizes | services/reportsService.js:220-230 | a number validation accepts is sent as a ten-digit local number, the last ten of its digits |
| ReportsService.ThirteenDigitBranchKeepsEleven | services/reportsService.js:227-229 | 13 digits starting `575` keep 11 digits, and validation accepts no such number |
| ReportsService.FormatTime | services/reportsService.js:232-258 | the time sent is the normalised one |
| ReportsService.NormalizedTimeWithColon | services/reportsService.js:236-249 | with a colon among the kept characters, the result is always a valid five-character `HH:MM` |
| ReportsService.NormalizedValidTime | services/reportsService.js:233-258 | a time validation accepts is sent as itself, with a one-digit hour padded |
| ReportsService.NormalizedTimeIdempotent | services/reportsService.js:236-249 | normalising a time that had a colon a second time changes nothing |
| ReportsService.NormalizedTimeNotIdempotent | services/reportsService.js:250-257 | a colon-free input is not clamped, so normalising its output again changes it |
| ReportsService.TimeExampleShortParts | services/reportsService.js:238-248 | `9:3` becomes `09:03` |
| ReportsService.TimeExampleClamped | services/reportsService.js:238-248 | `25:61` becomes `23:59` |
| ReportsService.TimeExampleMinuteClamped | services/reportsService.js:238-248 | `09:99` becomes `09:59` |
| ReportsService.TimeExampleBare | services/reportsService.js:250-257 | `930` becomes `09:30` and `999` becomes `09:99`, unclamped |
| ReportsService.TimeExampleNoise | services/reportsService.js:236-257 | `9h30` becomes `09:30` |
| ReportsService.FormatReportData | services/reportsService.js:218-278 | the formatted object is the payload of the form |
| ReportsService.PayloadKeys | services/reportsService.js:260-274 | seven common keys; the two reporter keys are present exactly when the report is not anonymous |
| ReportsService.Cleaned | services/reportsService.js:347-365 | keys are a subset of the input's; a key stays exactly when its value is kept; no null or undefined value; strings trimmed and non-empty; other values unchanged |
| ReportsService.CleanReportData | services/reportsService.js:347-365 | the key-by-key deletion and trimming yields the cleaned object |
| ReportsService.CleanedIdempotent | services/reportsService.js:347-365 | cleaning a cleaned object changes nothing |
| ReportsService.AcceptedPayloadClean | services/reportsService.js:260-365 | a validated form is formatted into a payload that cleaning leaves unchanged |
| ReportsApi.EntryText | services/reportsService.js:181-188 | a validation entry yields a text unless it is `null`, on which reading `message` throws |
| ReportsApi.EntryTexts | services/reportsService.js:181-188 | the texts of all entries, one per entry, or a failure exactly when some entry is `null` |
| ReportsApi.FriendlyError | services/reportsService.js:173-216 | the mapping is total: it fails only on a 400 whose error list holds a `null`, with the engine's `TypeError` message |
| ReportsApi.TooManyRequestsReported | services/reportsService.js:198-199 | a 429 response gives the fixed rate-limit message |
| ReportsApi.ConnectionReported | services/reportsService.js:209-211 | a request without a response gives the connection message |
| ReportsApi.FixedStatusIgnoresBody | services/reportsService.js:192-205 | 401, 403, 429, 500 and 502 to 504 give a fixed message whatever the body |
| ReportsApi.TooManyRequestsDistinct | services/reportsService.js:198-205 | the rate-limit message differs from every server-failure message |
| ReportsApi.ServerMessagePreferred | services/reportsService.js:196-207 | a 404, or a status without its own case, shows the server's truthy `message` |
| ReportsApi.ServerMessageFallback | services/reportsService.js:196-207 | without that message a 404 says the report was not found, and other statuses name the status |
| ReportsApi.BadRequestLines | services/reportsService.js:178-189 | a 400 with entries is the validation title followed by the entry texts, one per line, read back by splitting |
| ReportsApi.CreateReportRequest | services/reportsService.js:49-59 | a POST of the cleaned data to the reports endpoint with the default headers |
| ReportsApi.StatusRequest | services/reportsService.js:97-104 | a GET of the status endpoint, `/` and the id, with the default headers |
| ReportsApi.CaseRequest | services/reportsService.js:135-142 | a GET of the case endpoint, `/` and the case number, with the default headers |
| ReportsApi.Settle | services/reportsService.js:59-93 | a call resolves with the response body exactly when there is one, and otherwise rejects with the mapped message |
| ReportsApi.StatusRequestTarget | services/reportsService.js:99 | the id looked up can be read back from the URL |
| ReportsApi.LookupsDistinct | services/reportsService.js:99-137 | a status lookup and a case lookup never request the same URL |
| ReportsApi.AcceptedFormSentWhole | services/reportsService.js:55-59 | a validated form is sent as exactly its formatted payload |
| ReportScreen.Messages | app/reportar.tsx:51 | one line per validation error, its message |
| ReportScreen.RateLimitNotRecognised | app/reportar.tsx:85-105 | the service's 429 message matches no keyword and gets the generic alert |
| ReportScreen.ConnectionNotRecognised | app/reportar.tsx:85-105 | the service's connection message matches no keyword and gets the generic alert |
| ReportScreen.BadRequestRecognised | app/reportar.tsx:85-89 | a 400 with validation entries is reported as invalid data |
| ReportScreen.SentOnlyOnSuccess | app/reportar.tsx:65-78 | the success alert appears exactly for a body with a truthy `success` and a `data` value |
| ReportScreen.MissingCaseDataUnexpected | app/reportar.tsx:65-105 | a truthy `success` without `data` throws reading `caseNumber` and gets the generic alert |
| ReportScreen.InvalidFormIgnoresReply | app/reportar.tsx:49-54 | a form that fails validation shows its non-empty error list, whatever the service would answer |
| ReportScreen.FailedCallKeepsForm | app/reportar.tsx:65-105 | a failed call never shows the alert whose OK resets the form |
| ReportScreen.ReportForm.constructor | app/reportar.tsx:23-32 | all fields empty or false, not loading, nothing sent |
| ReportScreen.ReportForm.HandleSubmit | app/reportar.tsx:34-109 | an invalid form is neither formatted nor sent; a valid one sends exactly its payload once and ends not loading; the alert is the submission's notice |
| ReportScreen.ReportForm.Send | app/reportar.tsx:56-108 | one request with the formatted payload, the answer's alert, loading false at the end |
| ReportScreen.ReportForm.ShowAnswer | app/reportar.tsx:65-105 | the alert for the answer or for the classified failure; nothing else changes |
| ReportScreen.ReportForm.PressOk | app/reportar.tsx:66-75 | only the success alert's OK resets the form |
| ReportScreen.ReportForm.HandleReset | app/reportar.tsx:111-121 | the six text fields are empty and the three flags false; nothing else changes |
| ReportStatus.StatusColor | components/ReportStatusModal.tsx:140-153 | one of the four palette colours; unknown and closed statuses get the secondary text colour |
| ReportStatus.StatusText | components/ReportStatusModal.tsx:155-168 | the four statuses get a label that is not itself a status; anything else is returned unchanged |
| ReportStatus.KnownStatusesDistinct | components/ReportStatusModal.tsx:155-168 | the four statuses get four different labels |
| ReportStatus.StatusTextIdempotent | components/ReportStatusModal.tsx:155-168 | labelling a label changes nothing |
| ReportStatus.StatusTextCollision | components/ReportStatusModal.tsx:140-168 | a status spelled `Cerrado` is displayed exactly like `CLOSED` |
| ReportStatus.ReportInfo | components/ReportStatusModal.tsx:61-76 | a truthy `data`, else the answer itself if it has `id` or `caseNumber`, else the first element of a non-empty array, else `null` |
| ReportStatus.FormatStatus | components/ReportStatusModal.tsx:80-88 | each field is the first truthy of its spellings, in order (`id`/`reportId` for the report id, `caseNumber`/`case_number`, `status`, `phoneNumber`/`phone_number`, `description`, `createdAt`/`created_at`/`incidentDate`, `updatedAt`/`updated_at`), else `N/A`, `UNKNOWN` or `Sin descripción`; the creation date is truthy exactly when one of its three spellings is; the dates may stay undefined |
| ReportStatus.MissingStatusShownUnknown | components/ReportStatusModal.tsx:83-168 | a report without a status is shown as `UNKNOWN` in the closed colour |
| ReportStatus.NotFoundRecognised | components/ReportStatusModal.tsx:108-110 | the service's own not-found message is classified as not found |
| ReportStatus.ServiceConnectionNotRecognised | components/ReportStatusModal.tsx:108-126 | the service's connection message is not classified as a connection failure |
| ReportStatus.NoInformationNotRecognised | components/ReportStatusModal.tsx:99-126 | the modal's own "no information" error is not classified as not found |
| ReportStatus.FailureNotice | components/ReportStatusModal.tsx:106-126 | the not-found, connection or generic alert, each exactly for its class of message |
| ReportStatus.LookupRequest | components/ReportStatusModal.tsx:52-56 | a search by case uses the case lookup, any other the status lookup |
| ReportStatus.RecordOnlyWhenFound | components/ReportStatusModal.tsx:78-128 | a record is shown exactly when the alert says it was found, with the same case number |
| ReportStatus.EmptyAnswerGeneric | components/ReportStatusModal.tsx:99-125 | an answer holding no report ends with the generic alert and no record |
| ReportStatus.NoResponseGeneric | components/ReportStatusModal.tsx:115-125 | a lookup that got no response ends with the generic alert, not the connection one |
| ReportStatus.MissingReportNotFound | components/ReportStatusModal.tsx:108-114 | a 404 without its own message ends with the not-found alert for what was asked |
| ReportStatus.StatusModal.constructor | components/ReportStatusModal.tsx:33-36 | empty search by case, not loading, no record |
| ReportStatus.StatusModal.HandleSearch | components/ReportStatusModal.tsx:38-132 | a blank search only alerts; any other sends one lookup for the trimmed value, shows the outcome, and ends not loading |
| ReportStatus.StatusModal.ShowAnswer | components/ReportStatusModal.tsx:58-128 | the record and the alert are those of the outcome; nothing else changes |
| ReportStatus.StatusModal.HandleClose | components/ReportStatusModal.tsx:134-138 | the search value and the record are cleared and the parent is asked to close the modal (`closeRequested`); nothing else changes |
| CallRecording.Existing | app/grabacion.tsx:156-162 | no more entries than listed, each with an existing file |
| CallRecording.ExistingMembers | app/grabacion.tsx:156-162 | an entry survives exactly when it was listed and its file exists |
| CallRecording.ExistingAppend | app/grabacion.tsx:156-162 | reconciliation keeps the order of the entries |
| CallRecording.ExistingAll | app/grabacion.tsx:156-167 | nothing is dropped exactly when every file exists, and then the list is unchanged |
| CallRecording.ReloadStable | app/grabacion.tsx:150-167 | a second load against the same files drops nothing more and so writes nothing |
| CallRecording.Without | app/grabacion.tsx:361 | no entry left carries the deleted id |
| CallRecording.WithoutMembers | app/grabacion.tsx:361 | exactly the entries with the deleted id are dropped |
| CallRecording.WithoutAbsent | app/grabacion.tsx:361 | deleting an id no entry carries changes nothing |
| CallRecording.FormatTimeRoundTrip | app/grabacion.tsx:184-188 | a formatted duration reads back as the seconds it came from |
| CallRecording.FormatTimeExample | app/grabacion.tsx:184-188 | 65 seconds are `1:05` |
| CallRecording.Written | app/grabacion.tsx:140-148 | the three flag keys are written and every other key is kept |
| CallRecording.Decoded | app/grabacion.tsx:116-138 | with no stored flag the settings are the defaults: no consent, not all calls, suspicious calls |
| CallRecording.SettingsRoundTrip | app/grabacion.tsx:116-148 | saved settings load back as they were |
| CallRecording.AcceptedConsentForgotten | app/grabacion.tsx:411-415 | as written, a first acceptance of consent is not persisted |
| CallRecording.AcceptedConsentRemembered | app/grabacion.tsx:411-415 | saving the accepted flag makes the next launch start with consent given and the other settings kept |
| CallRecording.MountSaveForgetsConsent | app/grabacion.tsx:426-428 | whatever was stored, the save at mount leaves storage that loads as the first render's settings, consent not given |
| CallRecording.CorrectedConsentLastsOneLaunch | app/grabacion.tsx:411-428 | with both switches at their first-render values, a corrected acceptance loads as given once, and the next mount save forgets it |
| CallRecording.CallRecorder.constructor | app/grabacion.tsx:44-58 | the initial state: no consent, record suspicious calls only, nothing recorded |
| CallRecording.CallRecorder.LoadSettings | app/grabacion.tsx:116-138 | each flag set only when its stored value says so; on a fresh screen the settings are the decoded ones |
| CallRecording.CallRecorder.SaveSettings | app/grabacion.tsx:140-148 | the storage holds the current flags as text |
| CallRecording.CallRecorder.HandleAcceptConsent | app/grabacion.tsx:411-415 | consent accepted, the modal closed, and the accepted flag persisted |
| CallRecording.CallRecorder.HandleRejectConsent | app/grabacion.tsx:417-424 | the modal closes with a warning; consent unchanged |
| CallRecording.CallRecorder.SetRecordAllCalls | app/grabacion.tsx:426-428 | the switch sets its flag; the settings are saved exactly when it changed |
| CallRecording.CallRecorder.SetRecordSuspiciousCalls | app/grabacion.tsx:426-428 | the switch sets its flag; the settings are saved exactly when it changed |
| CallRecording.CallRecorder.LoadRecordings | app/grabacion.tsx:150-172 | a readable ledger becomes its entries with existing files, rewritten only if one was dropped; otherwise nothing changes |
| CallRecording.CallRecorder.SaveRecording | app/grabacion.tsx:174-182 | the new entry goes first and the stored ledger equals the list on screen |
| CallRecording.CallRecorder.DeleteRecording | app/grabacion.tsx:355-369 | if the file deletion fails nothing changes but the alert; otherwise the file is gone, the entries with the id are dropped, and the list is saved |
| CallRecording.CallRecorder.Tick | app/grabacion.tsx:75-77 | one more second of recording time |
| CallRecording.CallRecorder.StartRecording | app/grabacion.tsx:206-243 | permission is checked before consent; without either nothing starts; otherwise recording starts or the failure alert shows |
| CallRecording.CallRecorder.Entry | app/grabacion.tsx:260-291 | a new entry's path is the recordings directory followed by its file name |
| CallRecording.CallRecorder.EndRecording | app/grabacion.tsx:251-293 | the recorder is released; a file it left is moved into the recordings directory and becomes the newest entry, with the elapsed time as duration |
| CallRecording.CallRecorder.StopRecording | app/grabacion.tsx:245-307 | without a recorder nothing happens; otherwise it ends the recording and a saved file is announced |
| CallRecording.CallRecorder.HandleRecordPress | app/grabacion.tsx:309-315 | the button stops a running recording and starts one otherwise |
| CallRecording.CallRecorder.StartAutoRecording | app/grabacion.tsx:538-575 | a no-op without permission and consent; a failed start clears the auto-recording flag |
| CallRecording.CallRecorder.StopAutoRecording | app/grabacion.tsx:577-641 | a no-op unless a recorder exists and auto-recording is active; otherwise it ends like a manual stop and clears the flag |
| CallRecording.CallRecorder.HandleSimulatedCall | app/grabacion.tsx:430-464 | answering starts auto-recording only if one of the two settings is on, and the alert names the number shown before the call |

## Left out

- Network, logging and the HTTP client's interceptors are left out (services/reportsService.js:6-46 and the `console` calls). The outcome of a call is an input: a response body, an error status with its body, no response, or a request that could not be made.
- The percent-encoding of `URLSearchParams` is a library call. It is a function parameter of `ApiConfig.QueryString`.
- The platform APIs of the recording screen (`expo-av`, `FileSystem`, `Sharing`, `MediaLibrary`, `Notifications`, permission dialogs) are foreign calls. Only their effects on the file set and the storage are kept. A recorder that fails to start, a file URI left by a recorder, and a deletion the platform refuses are parameters.
- The permission re-request inside `startRecording` is left out: it is a platform dialog. Failures of `stopAndUnloadAsync` and of the file move inside the stop handlers are left out too.
- The one-second `setInterval` timer is left out. It is modelled only as `CallRecording.CallRecorder.Tick`.
- `formatFileSize` uses floating-point logarithms. The formatted size, the clock-derived file name, the id and the locale date and time strings are one `Stamp` parameter.
- `generateTestData` in the status modal uses `Math.random` and is left out.
- The `AppState` listener is left out. It is registered once at mount, so its handler sees `autoRecordingActive` as it was then, and its route to `stopAutoRecording` is not modelled.
- Interleavings of the asynchronous handlers are left out; the model runs them one at a time. The stale captured list in `saveRecording` and the delete handler is not modelled.
- The save effect at mount (app/grabacion.tsx:426-428) is not a step of `CallRecording.CallRecorder`. By the closure, not the interleaving, it writes the first render's flags (consent `false`, record-all `false`, suspicious `true`), so a stored consent `'true'` is overwritten with `'false'` unless loading changes a switch and triggers a save of the loaded values. `CallRecording.MountSaveForgetsConsent` states the write, and `CallRecording.CorrectedConsentLastsOneLaunch` shows that even the corrected acceptance of the finding below is then remembered for one launch only. This is a reading of the source, not executed.
- The settings save that `loadSettings` triggers by changing a switch's value is left out. It writes back the values just loaded, which `CallRecording.SettingsRoundTrip` shows decode to the same settings.
- Storage reads and writes are assumed to succeed, so the `catch` blocks of `loadSettings`, `saveSettings`, `loadRecordings`, `saveRecording` and the delete handler are not modelled (app/grabacion.tsx:135-137, 145-147, 169-171, 179-181, 366-369). In the delete handler, a write that fails after the file was deleted leaves the list updated and the file gone while the stored list still names the recording, and the deletion-error alert shows; the model does not capture this state.
- A stored recordings value that is text rather than a list is treated like a parse failure: the list is left unchanged.
- The wording of alerts on the recording screen is reduced to which alert shows and the values it names.
- JSON numbers are integers; fractional numbers and `NaN` are not modelled. The `TypeError` raised by reading a property of `null` or `undefined` uses the wording of the Hermes engine.
- ReportsService.NormalizedPhone: its own contract says only that the result is digits; its branches are stated by ReportsService.AcceptedPhoneNormalizes, ReportsService.NormalizedPhoneKeepsOtherDigits and ReportsService.ThirteenDigitBranchKeepsEleven.
- CallRecording.CallRecorder.HandleRecordPress: states only the recording flags and, on a refused start, the unchanged ledger. The full new state is the one stated by CallRecording.CallRecorder.StopRecording or CallRecording.CallRecorder.StartRecording.
- CallRecording.CallRecorder.HandleSimulatedCall: states the phone number, the call flag, the settings, and the recording outcome when both permission and consent are present. The full state after a refused or failed start is the one stated by CallRecording.CallRecorder.StartAutoRecording.
- CallRecording.CallRecorder.HandleAcceptConsent: uses the corrected save from the finding below, not the stale one of the source.

## Findings

| source | as written | input that shows it | evidently intended | confidence | as-written member | corrected member |
|---|---|---|---|---|---|---|
| app/grabacion.tsx:411-415 | `handleAcceptConsent` calls `saveSettings` in the same render that set the flag. So it persists `consentAccepted` as it was before: `false` on a first acceptance. The save effect does not depend on consent. | Storage without a consent flag, then accepting consent: the next launch decodes consent as not given and shows the consent modal again. | Persist `true` when consent is accepted. | not executed | CallRecording.AcceptConsentAsWritten (exhibited by CallRecording.AcceptedConsentForgotten) | CallRecording.AcceptConsentStorage (proved by CallRecording.AcceptedConsentRemembered) |

The model also keeps, as written, several behaviours that look unintended. These are not claimed as findings:

- A 13-digit number starting `575` keeps 11 digits (`ReportsService.ThirteenDigitBranchKeepsEleven`).
- A time without a colon is not clamped (`ReportsService.NormalizedTimeNotIdempotent`).
- The phone pattern accepts any leading digit from 1 to 9.
- The submit screen never recognises the service's own rate-limit or connection messages (`ReportScreen.RateLimitNotRecognised`, `ReportScreen.ConnectionNotRecognised`).
- The status modal recognises neither the service's connection message nor its own "no information" error (`ReportStatus.NoResponseGeneric`, `ReportStatus.EmptyAnswerGeneric`).
- The auto-recording alert names the number from before the simulated call.
