# Business-card scan to Google Forms / webhook: a verified model

ScanBizData is a browser tool. A user photographs a business card. An
extraction service turns the photo into a six-field record (company name,
representative name, position, email, phone number, worker count). The user
reviews and corrects the record on screen. The record is then sent either to
a Google Form, as form fields addressed by `entry.<id>` names, or to a
webhook (normally a Google Apps Script web app), as a JSON object.

This project models the logic of the tool in Dafny and proves its properties:

- `types.dfy` (module `Types`): the record, the status, the submit method
  and the configuration. It also holds the shared constants: the empty
  record, the all-empty form mapping and the identity webhook mapping.
- `text.dfy` (module `Text`): the JavaScript string operations the code
  relies on. These are `includes`, `startsWith`, `endsWith`, `split('?')[0]`,
  the first-occurrence `replace` and `toLowerCase`.
- `data_review.dfy` (module `DataReview`): the single-field edit of the
  review form, the empty-company warning and the disabled buttons.
- `payload.dfy` (module `Payload`): the two payload strategies.
  - Form: an ordered list of `(entry id, value)` pairs; duplicate ids are kept.
  - Webhook: an ordered dictionary in which a later write to a key overwrites
    the earlier one.
  - Each strategy is a specification function. The source builds each one
    step by step, and that imperative builder is a method proved equal to
    its function.
- `app.dfy` (module `App`): the main screen's state machine, as the class
  `AppState`.
  - Its fields are `status`, `extractedData`, `errorMsg`, `config` and
    `isSettingsOpen`.
  - Each user event is one method. The extraction result and whether the
    POST threw come in as parameters.
  - The invariant `Valid` is kept by every handler.
- `settings.dfy` (module `Settings`): the settings dialog.
  - The fallbacks for missing configuration parts.
  - The prefilled-link parser: the `entry.*` filter, the keyword classifier
    with its priority order, the overwriting assignment loop and the
    action-URL rewrite.
  - The save check: reject, ask for confirmation, or save.
  - The dialog's state, as the class `SettingsForm`.

The model is sequential. Each handler runs to completion before the next
event. The PROCESSING status is therefore never observed between events.
Each handler requires that its control be on screen:

- `App.Enabled` states which controls the main screen offers in each status.
- The dialog's close and save handlers require the dialog to be open.
- The dialog's link input, parse button and mapping rows require the Google
  Forms tab, and the mapping rows also a submission URL.
- The webhook URL and key inputs require the webhook tab.

The extraction service's JSON is cast to the record type, and no missing
field is filled in (services/geminiService.ts:112). So the model takes a
complete record and adds no defaulting.

## Model

| member | source | states |
|---|---|---|
| Types.FieldsEnumerateRecord | types.ts:1-8 | the record has exactly six fields; the canonical order lists each field once |
| Types.RecordExtensional | types.ts:1-8 | two records are equal exactly when they agree on every one of the six fields |
| Types.KeyNameInjective | App.tsx:26-33 | the canonical key names of two fields agree only for the same field |
| Types.DefaultMappings | App.tsx:8-33 | the default webhook mapping sends every field to its own key name; the default form mapping and the initial record are all empty |
| Text.Contains | components/Settings.tsx:88 | `includes`: some position holds the substring (`Text.ContainsFound` ties it to the search) |
| Text.HasPrefix | components/Settings.tsx:102 | `startsWith`: the string begins with the prefix |
| Text.EndsWith | components/Settings.tsx:122-124 | `endsWith`: the string ends with the suffix |
| Text.ContainsFound | components/Settings.tsx:88 | `includes` holds exactly when the first-occurrence search finds a position |
| Text.FindFrom | components/Settings.tsx:123 | the index found is an occurrence and no earlier index from the starting point is one; none is found only when nothing occurs from there on |
| Text.ReplaceFirst | components/Settings.tsx:123 | without an occurrence the string is unchanged (what is rewritten otherwise: `Text.ReplaceFirstAt`) |
| Text.ReplaceFirstAt | components/Settings.tsx:123-125 | an occurrence with none before it is the one that is rewritten |
| Text.ReplaceFirstAvoids | components/Settings.tsx:121-125 | a character found neither in the string nor in the replacement is not in the result |
| Text.BeforeFirst | components/Settings.tsx:121 | the result is a prefix of the link and holds no `?`; when it is shorter than the link, a `?` follows it |
| Text.Lower | components/Settings.tsx:109 | same length as the input; each character is lower-cased on its own |
| DataReview.With | components/DataReview.tsx:15-17 | the edited field holds the new value and every other field is unchanged |
| DataReview.WithCharacterized | components/DataReview.tsx:15-17 | the edit is the unique record with the new value at the field that agrees with the original everywhere else |
| DataReview.WithSameValue | components/DataReview.tsx:16 | writing back a field's current value gives an equal record |
| DataReview.WithLastWins | components/DataReview.tsx:15-17 | of two edits to the same field only the last one shows |
| DataReview.WithCommutes | components/DataReview.tsx:15-17 | edits to different fields commute |
| DataReview.ShowsCompanyWarning | components/DataReview.tsx:61 | the warning is shown exactly when the company name is empty |
| DataReview.ButtonsDisabled | components/DataReview.tsx:70-78 | cancel and confirm are disabled exactly when the `isSending` property holds; the main screen always passes false (App.tsx:280), so there they are never disabled |
| Payload.FormStep | App.tsx:95-100 | one guarded append: a pair for the field exactly when its mapped id is not empty |
| Payload.FormPairs | App.tsx:95-100 | the guarded appends over a list of fields (shape in `Payload.FormPairsShape`) |
| Payload.FormPayload | App.tsx:95-100 | the form payload over the record's six fields (proved about in `Payload.FormPayloadUnrolled`, `Payload.FormPayloadMembers`, `Payload.FormPayloadLength`) |
| Payload.FormPayloadUnrolled | App.tsx:95-100 | the form payload is the six guarded appends in the record's field order |
| Payload.MappedFields | App.tsx:95-100 | keeps exactly the fields whose mapped id is not empty |
| Payload.FormPairsShape | App.tsx:95-100 | one pair per field with a non-empty id, in field order; the i-th pair is (mapped id, record value) of the i-th such field |
| Payload.FormPayloadMembers | App.tsx:95-100 | a pair (m[f], r[f]) appears exactly for the fields f with a non-empty id; no pair has an empty name |
| Payload.MappedFieldsCount | App.tsx:95-100 | over distinct fields, the number kept equals the number of fields with a non-empty id |
| Payload.FormPayloadLength | App.tsx:95-100 | the payload length equals the number of fields with a non-empty mapped id |
| Payload.BuildFormPayload | App.tsx:91-100 | the successive appends build exactly the form payload |
| Payload.FirstIndex | App.tsx:116 | the first position of a key; absent exactly when the key is not there |
| Payload.Lookup | App.tsx:116 | a dictionary lookup is absent exactly when the key is not present and otherwise returns a stored entry |
| Payload.Put | App.tsx:116 | `payload[k] = v`: k now maps to v; other keys are unchanged; an existing key keeps its place and a new key is appended; distinct keys stay distinct |
| Payload.FirstIndexAppend | App.tsx:116 | appending a key moves no existing key, and a new key lands at the end |
| Payload.DestKey | App.tsx:115 | the destination key is the mapped key when it is not empty and the canonical key otherwise; it is never empty |
| Payload.WebhookWrites | App.tsx:114-117 | the writes of the loop over a list of fields (one step in `Payload.WebhookWritesStep`) |
| Payload.WebhookPayload | App.tsx:111-117 | the webhook payload over the record's six fields (proved about in `Payload.WebhookKeys`, `Payload.WebhookLastWriteWins`, `Payload.WebhookPayloadSize`) |
| Payload.WebhookKeys | App.tsx:114-117 | the payload's keys are distinct and are exactly the destination keys of the fields written |
| Payload.WebhookLastWriteWins | App.tsx:114-117 | a key holds the value of the last field written to it |
| Payload.WebhookOnlyDestKeys | App.tsx:114-117 | a key that is no field's destination key is absent from the payload |
| Payload.WebhookDistinctKeys | App.tsx:114-117 | with pairwise distinct destination keys there is one entry per field, in order |
| Payload.DistinctKeysCount | App.tsx:116 | a dictionary with distinct keys has as many entries as keys |
| Payload.WebhookPayloadSize | App.tsx:114-117 | the payload has one entry per distinct destination key, so colliding keys shrink it |
| Payload.WebhookPayloadDistinct | App.tsx:114-117 | with pairwise distinct destination keys the payload has exactly six entries, field by field |
| Payload.DefaultDestKeysDistinct | App.tsx:26-33 | under the default mapping no two fields share a destination key |
| Payload.WebhookDefaultMapping | App.tsx:111-117 | under the default mapping the payload is the record itself: each field's value under its own key name, in the record's order |
| Payload.WebhookWritesStep | App.tsx:114-117 | one more iteration of the loop puts the next field's value under its destination key |
| Payload.BuildWebhookPayload | App.tsx:111-117 | the `forEach` over the record's keys builds exactly the webhook payload |
| App.FailureMessagesDiffer | App.tsx:134 | the send-failure message differs from the extraction-failure message at line 68 |
| App.DestinationUrl | App.tsx:77-78 | the form URL for Google Forms, the webhook URL otherwise |
| App.IsConfigured | App.tsx:146 | configured exactly when the selected method's URL is not empty |
| App.Enabled | App.tsx:176-326 | the idle screen offers only the image pickers; the review form offers edit, confirm and cancel only in REVIEW; SUCCESS and ERROR offer exactly the start-over button; nothing is offered while processing |
| App.RequestFor | App.tsx:86-128 | the request goes to the selected method's URL and is a form post exactly for Google Forms |
| App.AppState.Valid | App.tsx:36-52 | the invariant every handler keeps: never PROCESSING between events; the empty record while idle; an error message exactly in ERROR, and one of the two fixed messages |
| App.AppState.constructor | App.tsx:36-52 | starts idle with the empty record, no error, the default configuration and the dialog closed |
| App.AppState.HandleFileChange | App.tsx:55-74 | no file: nothing changes; success: REVIEW with the returned record and no error; failure: ERROR with the extraction message and the record untouched |
| App.AppState.EditField | App.tsx:277 | the record becomes the single-field edit; nothing else changes |
| App.AppState.HandleSendData | App.tsx:76-137 | without a URL: nothing is sent, status, record and message are unchanged and the dialog opens; otherwise the request for the record is sent; SUCCESS if it did not throw, ERROR with the send message if it did |
| App.AppState.ResetApp | App.tsx:139-143 | from review (cancel), success or error (start over): IDLE, the empty record and no error; the configuration is kept |
| App.AppState.OpenSettings | App.tsx:159-161 | opens the dialog and changes nothing else |
| App.AppState.CloseSettings | App.tsx:331 | closes the open dialog and changes nothing else |
| App.AppState.SaveConfig | App.tsx:329-334 | from the open dialog: the saved configuration replaces the current one and the dialog closes |
| App.ReviewCycle | App.tsx:55-143 | extraction, one correction and a confirmation under the default webhook mapping send the corrected record key for key and end in SUCCESS |
| Settings.Resolve | components/Settings.tsx:67-75 | each missing part falls back: Google Forms, empty URLs, the all-empty form mapping, the identity webhook mapping |
| Settings.ResolveStored | components/Settings.tsx:67-75 | a complete configuration is shown exactly as it was saved |
| Settings.EntryParams | components/Settings.tsx:101-105 | keeps exactly the parameters named `entry.*` |
| Settings.EntryParamsSplit | components/Settings.tsx:101-105 | the filter keeps link order and repeats: filtering a concatenation concatenates the filtered parts |
| Settings.EntryParamsAround | components/Settings.tsx:101-105 | an `entry.*` parameter stays in its place between the filtered parameters before and after it |
| Settings.Keywords | components/Settings.tsx:110-115 | each field's keyword list, with its exact code points (used by `Settings.Matches` and proved about in `Settings.ClassifySpec`) |
| Settings.Matches | components/Settings.tsx:110-115 | a field matches when the lowered value includes one of its keywords (see `Settings.ClassifySpec`) |
| Settings.Classify | components/Settings.tsx:108-116 | a field a value is assigned to matches the lowered value (first-match priority in `Settings.ClassifySpec`) |
| Settings.AssignAll | components/Settings.tsx:108-116 | the overwriting assignment loop (its properties in `Settings.AssignAllUntouched`, `Settings.AssignAllLastWins`, `Settings.AssignAllOrigin`) |
| Settings.ParsedMapping | components/Settings.tsx:98-118 | the mapping parsed from the link (its properties in the `Settings.ParsedMapping*` lemmas) |
| Settings.FirstMatchFrom | components/Settings.tsx:110-115 | the position found is the first one from the start whose field's keywords match; none only when no later field's keywords match |
| Settings.ClassifySpec | components/Settings.tsx:108-116 | a value goes to field f exactly when f matches and no field earlier in the priority order does; it goes nowhere exactly when nothing matches |
| Settings.AssignAllUntouched | components/Settings.tsx:108-116 | a field no entry classifies to keeps its starting value |
| Settings.AssignAllLastWins | components/Settings.tsx:108-116 | when several entries classify to a field, the last one's name is kept |
| Settings.AssignAllOrigin | components/Settings.tsx:108-116 | every field keeps its starting value or holds the name of an entry that classifies to it |
| Settings.ParsedMappingUnmatched | components/Settings.tsx:98-118 | a field that no `entry.*` parameter classifies to stays empty |
| Settings.ParsedMappingLastWins | components/Settings.tsx:98-118 | when several `entry.*` parameters classify to a field, the last one's name wins |
| Settings.ParsedMappingLastPart | components/Settings.tsx:98-118 | an `entry.*` parameter that classifies to a field and is followed by none that does gives the field its name |
| Settings.ParsedMappingLastInLink | components/Settings.tsx:98-118 | stated on link positions: the last `entry.*` parameter of the link that classifies to a field gives the field its name |
| Settings.ParsedMappingOrigin | components/Settings.tsx:98-118 | a non-empty field holds the name of an `entry.*` parameter that classifies to it |
| Settings.RewritePath | components/Settings.tsx:122-126 | the path rewrite (its cases in the `Settings.RewritePath*` lemmas) |
| Settings.ActionUrl | components/Settings.tsx:121-126 | the submission URL derived from the link (no query string: `Settings.ActionUrlNoQuery`) |
| Settings.ActionUrlNoQuery | components/Settings.tsx:121-126 | the submission URL never carries a `?` |
| Settings.RewritePathKeeps | components/Settings.tsx:122-126 | a path ending neither in `viewform` nor in `prefill` is kept as it is |
| Settings.RewritePathFromViewform | components/Settings.tsx:122-123 | a path ending in `viewform`, with no earlier `viewform`, has that word replaced by `formResponse` |
| Settings.RewritePathFromPrefill | components/Settings.tsx:124-125 | a path ending in `prefill`, with no earlier `prefill`, has that word replaced by `formResponse` |
| Settings.RewritePathEarlierViewform | components/Settings.tsx:122-123 | with an earlier `viewform` in the path, that earlier one is rewritten and the path still ends in `viewform` |
| Settings.ParseLink | components/Settings.tsx:85-134 | an empty link, a spreadsheet link and an invalid URL are each reported; otherwise the mapping is the parsed mapping and the URL is the action URL |
| Settings.CheckSave | components/Settings.tsx:136-158 | webhook: reject an empty URL or a spreadsheet link, ask to confirm a URL without `script.google.com`; Google Forms: reject an empty form URL; save otherwise |
| Settings.HandleSave | components/Settings.tsx:136-168 | a save hands on the five parts as held; it happens exactly on a save verdict, or on a confirm verdict the user accepts; a saved configuration is configured; a spreadsheet webhook link is never saved |
| Settings.SaveDisabled | components/Settings.tsx:380 | disabled exactly when the selected method's URL is empty, so an enabled click never hits the missing-URL refusals |
| Settings.SettingsForm.Current | components/Settings.tsx:160-166 | the configuration a save hands on holds the five parts as currently held |
| Settings.SettingsForm.constructor | components/Settings.tsx:57-64 | the dialog starts from the configuration with its fallbacks and an empty link |
| Settings.SettingsForm.Reload | components/Settings.tsx:67-75 | opening the dialog reloads the five parts with their fallbacks; the link text is kept |
| Settings.SettingsForm.HandleParseLink | components/Settings.tsx:85-134 | on the Google Forms tab (line 210): only a successful parse changes the form mapping and the form URL; an empty or spreadsheet link changes neither; nothing else changes |
| Settings.SettingsForm.SetMethod | components/Settings.tsx:186-197 | only the submit method changes |
| Settings.SettingsForm.SetPrefilledLink | components/Settings.tsx:230 | on the Google Forms tab: only the link text changes |
| Settings.SettingsForm.SetWebhookUrl | components/Settings.tsx:341 | on the webhook tab: only the webhook URL changes |
| Settings.SettingsForm.EditFormMapping | components/Settings.tsx:243-284 | on the Google Forms tab with a submission URL set: one field's entry id changes by the single-field edit; nothing else changes |
| Settings.SettingsForm.EditWebhookMapping | components/Settings.tsx:366 | on the webhook tab: one field's destination key changes by the single-field edit; nothing else changes |
| Settings.SettingsForm.Save | components/Settings.tsx:136-168 | a saved configuration is the one currently held and is configured; a spreadsheet webhook link is never saved |

## Left out

- The extraction service (services/geminiService.ts) is not part of this model. Its answer, a complete record or a failure, is a parameter of `HandleFileChange`.
- `fetch`, `no-cors`, the `FormData` transport, the headers and the `JSON.stringify` encoding are left out. The model stops at the request: the URL and the pair list or ordered dictionary. Whether the POST threw is a parameter.
- Browser URL parsing and `URLSearchParams` percent-decoding are left out. `ParseLink` takes the decoded `(name, value)` parameters in link order, or `None` when `new URL` throws.
- Text.Lower: lower-cases ASCII letters only. JavaScript's `toLowerCase` also folds other Unicode letters, e.g. `Đ`. The keywords themselves are compared with their exact code points.
- Payload.Put: a write to the key `__proto__` is stored as an ordinary key. On the source's plain object, `payload["__proto__"] = v` with a string `v` creates no key and changes nothing. So for a webhook mapping that sends a field to `__proto__`, Payload.WebhookKeys, Payload.WebhookPayloadSize, Payload.WebhookDistinctKeys and Payload.WebhookPayloadDistinct count one key more than the object holds.
- Payload.WebhookPayload: the dictionary keeps insertion order. JavaScript lists integer-like keys first; that ordering is not modelled.
- Payload.BuildWebhookPayload: visits the fields in the order of the record type. The source visits `Object.keys` of the extracted object, whose order comes from the extraction service's JSON.
- An extracted object with missing or extra keys is not modelled, because the record type always has exactly the six fields.
- The `|| DEFAULT_...` fallbacks on the mappings inside `handleSendData` are not modelled separately. In the model a configuration always holds both mappings.
- `alert`, `confirm`, the clipboard, `setTimeout`, the file-input reset and `console` logging are left out. `confirm` becomes the boolean `confirmed` of `HandleSave`.
- The language toggle and the language passed to the extraction service are left out, because the language affects only the service's answer.
- Async timing is left out: each handler runs to completion, so PROCESSING and a sending review form are not observed between events.
- The `APPS_SCRIPT_CODE` text and the copy button are left out.
- JSX rendering beyond which controls are offered is left out. This includes the red spreadsheet hint under the webhook URL input.
- The dialog's overlay covering the main screen is left out: the main screen's handlers do not require the dialog to be closed.
