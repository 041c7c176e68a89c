# Airtable form builder — a verified model

This project models the core of a small Airtable form builder. Its backend
authenticates a user against Airtable. It uses the OAuth 2.0
authorization-code grant with PKCE: section 4.1 of RFC 6749, with method
S256 of section 4.2 of RFC 7636. It keeps one token record per user and
refreshes it when it has expired, following section 6 of RFC 6749. It forwards
API calls to Airtable, and it stores form configurations keyed by
(user, base, table). The builder page turns a table's fields into a saved
form configuration. The viewer page renders such a form, shows or hides fields
according to their conditions, validates required fields and builds the
record it submits.

Files:

- `common.dfy` holds the shared values: `Option`, `Result`, a `Json` value, the
  form's `Value` (`Str`, `Bool` or `Absent`), JavaScript truthiness, and
  `FindFirst`/`Filter` (`Array.prototype.find`/`filter`).
- `schema.dfy` holds the records exchanged between Airtable, the backend and
  the pages.
- `base64url.dfy` holds the code-challenge transform from base64 to unpadded
  base64url (section 5 of RFC 4648).
- `backend.dfy` holds the class `Server`. Its fields are the pending-flow map
  `authorizationCache`, the token collection and the form-config collection,
  and its methods are the handlers. The gateway decision, the table lookup and
  the reply shapes are pure functions beside it.
- `builder.dfy` holds the save transform as functions. The class `BuilderPage`
  holds the page state its handlers overwrite.
- `viewer.dfy` holds visibility, validation and submission as functions, with
  loop methods for the `reduce`/`forEach` code. The class `ViewerPage` holds
  the page state and the form/preview mode.

The outside world enters as parameters:

- the current time, in milliseconds;
- the random `state` and code verifier;
- SHA-256, as a function from the verifier to its base64 text;
- the token endpoint's answer to an exchange or a refresh, `None` when it failed;
- Airtable's answer to an API call, given as an `Upstream`.

The methods return the requests they would send, so contracts can speak about
them.

## Model

| member | source | states |
|---|---|---|
| Common.FindFirst | OneDrive/Desktop/Airtable_Int/frontend/src/components/ViewerPage.jsx:88-90 | `None` iff no element satisfies the predicate; otherwise the element at the first satisfying index (`Array.prototype.find`) |
| Common.FindFirstAt | OneDrive/Desktop/Airtable_Int/frontend/src/components/ViewerPage.jsx:88-90 | when index `i` is the first satisfying one, the search yields exactly `s[i]` |
| Common.Filter | OneDrive/Desktop/Airtable_Int/frontend/src/components/BuilderPage.jsx:65-67 | the result is no longer than the input; it holds only elements of the input that satisfy the predicate, and every satisfying element |
| Common.FilterAppend | OneDrive/Desktop/Airtable_Int/frontend/src/components/BuilderPage.jsx:100-101 | filtering distributes over concatenation, so kept elements stay in their input order |
| Base64Url.RemoveAll | OneDrive/Desktop/Airtable_Int/backend/index.js:138 | the removed character does not occur in the result, which is shorter by exactly its number of occurrences |
| Base64Url.ReplaceAll | OneDrive/Desktop/Airtable_Int/backend/index.js:138 | same length; each position holds the replacement where the input held the target, and the input character elsewhere |
| Base64Url.ToBase64Url | OneDrive/Desktop/Airtable_Int/backend/index.js:138 | the result is shorter than the digest text by exactly its number of `=`; `ToBase64UrlIsConverted` and `RoundTrip` state what it computes |
| Base64Url.CodeChallenge | OneDrive/Desktop/Airtable_Int/backend/index.js:138 | the challenge of a verifier contains no `=`, `+` or `/` and has the digest text's length less its padding |
| Base64Url.ToBase64UrlIsConverted | OneDrive/Desktop/Airtable_Int/backend/index.js:138 | the three chained global replacements equal a one-pass rewriting that drops `=` and maps `+`/`/` to `-`/`_` character by character |
| Base64Url.ConvertedAppend | OneDrive/Desktop/Airtable_Int/backend/index.js:138 | the rewriting distributes over concatenation: the surviving characters keep their order |
| Base64Url.NoPaddingOrStdChars | OneDrive/Desktop/Airtable_Int/backend/index.js:138 | the code challenge contains no `=`, `+` or `/` |
| Base64Url.StdAlphabetBecomesUrlAlphabet | OneDrive/Desktop/Airtable_Int/backend/index.js:138 | text in the standard base64 alphabet becomes text in the base64url alphabet |
| Base64Url.RoundTrip | OneDrive/Desktop/Airtable_Int/backend/index.js:138 | mapping `-`/`_` back gives the standard text with its padding removed |
| Base64Url.DigestChallengeLength | OneDrive/Desktop/Airtable_Int/backend/index.js:138 | the 44-character base64 text of a 32-byte digest yields a 43-character challenge |
| Base64Url.CountAppend | OneDrive/Desktop/Airtable_Int/backend/index.js:138 | occurrence counts add over concatenation |
| Base64Url.CountAbsent | OneDrive/Desktop/Airtable_Int/backend/index.js:138 | a character that never occurs is counted zero times |
| Backend.NewRecordExpiry | OneDrive/Desktop/Airtable_Int/backend/index.js:52-61 | a stored record expires at `now + expires_in*1000` and counts as expired exactly from then on; with a positive lifetime it is not expired when stored |
| Backend.Credentials | OneDrive/Desktop/Airtable_Int/backend/index.js:104-111 | no record fails with 'No tokens found for user'; a record that has not expired is used as it is; an expired one is refreshed; a failed refresh fails with 'Failed to refresh expired token'; a successful one yields the newly stored record |
| Backend.CredentialsNeverExpired | OneDrive/Desktop/Airtable_Int/backend/index.js:107-111 | with a refresh answer that grants a positive lifetime, the gateway never authenticates with an expired record |
| Backend.NewTokenDoc | OneDrive/Desktop/Airtable_Int/backend/index.js:52-62 | the record written for a user; its expiry is stated by `NewRecordExpiry` |
| Backend.Expired | OneDrive/Desktop/Airtable_Int/backend/index.js:107 | a record has expired when it carries an expiry time and the clock has reached it; `Credentials` and `NewRecordExpiry` state what follows from it |
| Backend.TokensAfter | OneDrive/Desktop/Airtable_Int/backend/index.js:107-111 | the token store after one gateway call: same users, only the caller's record can change, and it becomes the refreshed record exactly when an expired record was refreshed successfully |
| Backend.FailureStatus | OneDrive/Desktop/Airtable_Int/backend/index.js:198 | the error status is never 0: the upstream status when there is a nonzero one, 500 otherwise |
| Backend.AuthorizeUrl | OneDrive/Desktop/Airtable_Int/backend/index.js:142-149 | the provider's authorize URL with the seven query parameters in the order they are set; `Server.BeginAuthorization` states when it is sent |
| Backend.PassThroughReply | OneDrive/Desktop/Airtable_Int/backend/index.js:192-212 | success sends Airtable's data unchanged; failure sends the upstream status, or 500 when it has none, with the error's message |
| Backend.FindIn | OneDrive/Desktop/Airtable_Int/backend/index.js:218 | the search has exactly three outcomes: the first element with id `tableId` when no `null` precedes it; a `TypeError` iff some `null` is reached before any match; and "not found" iff no element is `null` or has that id |
| Backend.FindInFindsFirstMatch | OneDrive/Desktop/Airtable_Int/backend/index.js:218 | a matching table with no `null` before it is the table found, even when a `null` follows it |
| Backend.FindTable | OneDrive/Desktop/Airtable_Int/backend/index.js:218 | a response without a `tables` array throws; otherwise it is the search over that array |
| Backend.FieldsReply | OneDrive/Desktop/Airtable_Int/backend/index.js:214-225 | the matching table is sent; no match gives 404 'Table not found'; a gateway error gives its status and message; a malformed response gives 500 |
| Backend.Wrap | OneDrive/Desktop/Airtable_Int/backend/index.js:266 | the payload is an object whose only member is `fields`, holding the body unchanged |
| Backend.SubmitReply | OneDrive/Desktop/Airtable_Int/backend/index.js:268-272 | success sends `{success: true, record}`; failure sends the upstream status, or 500, with 'Failed to submit to Airtable.' |
| Backend.InheritedKeyPassesStateCheck | OneDrive/Desktop/Airtable_Int/backend/index.js:156-158 | a `state` inherited from `Object.prototype` passes the lookup as written although no flow holds it |
| Backend.Server.constructor | OneDrive/Desktop/Airtable_Int/backend/index.js:18-49 | at start the settings are the given ones and no flow is pending; the token and configuration collections hold what the database already stores, each record under its own key |
| Backend.Server.GetTokens | OneDrive/Desktop/Airtable_Int/backend/index.js:71-78 | a record is found iff the user has one, and it is that user's record |
| Backend.Server.StoreTokens | OneDrive/Desktop/Airtable_Int/backend/index.js:51-69 | the user's record is replaced whole by one built from the new answer only, with no merge of old members; other users' records are unchanged; each record stays keyed by its own user |
| Backend.Server.RefreshTokenForUser | OneDrive/Desktop/Airtable_Int/backend/index.js:80-101 | sends a `refresh_token` grant with the stored refresh token; on failure nothing changes and the result is null; on success the new record is stored and returned |
| Backend.Server.MakeAirtableRequest | OneDrive/Desktop/Airtable_Int/backend/index.js:103-130 | a refresh is sent iff the stored record has expired; the result is the `Credentials` decision followed by Airtable's answer; no API call is made when the decision fails; the bearer sent is the access token of the record in force afterwards; the token store afterwards is `TokensAfter` of the one before |
| Backend.Server.BeginAuthorization | OneDrive/Desktop/Airtable_Int/backend/index.js:132-152 | a missing or empty `user_id` gives 400 and leaves the flow map unchanged; otherwise exactly one entry `{codeVerifier, userId}` is added under `state`, and the redirect carries the S256 challenge and the seven query parameters in order |
| Backend.Server.Callback | OneDrive/Desktop/Airtable_Int/backend/index.js:154-190 | an unknown `state` gives 400 with no exchange, no stored token and no change to the map; a known one is deleted first; a provider error then redirects with `error_description` and no exchange; otherwise only the stored verifier is exchanged, a failure redirecting with `token_exchange_failed` and changing no token, a success storing the tokens and redirecting to `/builder` |
| Backend.Server.GetBases | OneDrive/Desktop/Airtable_Int/backend/index.js:192-201 | an API call is sent iff the gateway has credentials, and it is exactly GET `/meta/bases` with that access token and no body; the reply is the pass-through reply; the token store is as the gateway leaves it |
| Backend.Server.GetTables | OneDrive/Desktop/Airtable_Int/backend/index.js:203-212 | an API call is sent iff the gateway has credentials, and it is exactly GET `/meta/bases/{baseId}/tables` with that access token and no body; the reply is the pass-through reply; the token store is as the gateway leaves it |
| Backend.Server.GetFields | OneDrive/Desktop/Airtable_Int/backend/index.js:214-225 | the same tables request, sent iff the gateway has credentials; the reply is the table whose id is `tableId`, or 404 when there is none; the token store is as the gateway leaves it |
| Backend.Server.Submit | OneDrive/Desktop/Airtable_Int/backend/index.js:263-273 | an API call is sent iff the gateway has credentials, and it is exactly POST to `/{baseId}/{tableId}` with `{fields: body}` and that access token; the token store is as the gateway leaves it |
| Backend.Server.SaveFormConfig | OneDrive/Desktop/Airtable_Int/backend/index.js:227-236 | the document under (userId, baseId, tableId) is replaced whole, with the new `updated_at`; all other documents are unchanged; the reply is `{success: true, message: 'Configuration saved.'}` |
| Backend.Server.ListFormConfigs | OneDrive/Desktop/Airtable_Int/backend/index.js:238-250 | exactly the user's configurations, each projected to (tableName, baseId, tableId) |
| Backend.Server.GetFormConfig | OneDrive/Desktop/Airtable_Int/backend/index.js:252-261 | the document stored under the triple, or 404 'Configuration not found.' |
| Backend.ReplayIsRejected | OneDrive/Desktop/Airtable_Int/backend/index.js:154-161 | a `state` is single-use: after one callback a second with the same `state` gets 400, and the flow entry is gone |
| Backend.ResaveReplaces | OneDrive/Desktop/Airtable_Int/backend/index.js:229-231 | after two saves under one key, the lookup yields the second document alone |
| Builder.SupportedFields | OneDrive/Desktop/Airtable_Int/frontend/src/components/BuilderPage.jsx:65-67 | exactly the fields of a supported type are kept |
| Builder.SupportedFieldsKeepOrder | OneDrive/Desktop/Airtable_Int/frontend/src/components/BuilderPage.jsx:65-67 | the filter distributes over concatenation, so the original order is kept |
| Builder.SupportedTypesAreFive | OneDrive/Desktop/Airtable_Int/frontend/src/components/BuilderPage.jsx:7-13 | a field is supported iff its type is one of the five listed |
| Builder.InitialConfig | OneDrive/Desktop/Airtable_Int/frontend/src/components/BuilderPage.jsx:71-80 | the configuration the table handler builds; `InitialConfigShape` states its keys and entries and `BuildInitialConfig` is its loop |
| Builder.GetDetermines | OneDrive/Desktop/Airtable_Int/frontend/src/components/BuilderPage.jsx:89-96 | a config entry is determined by its five keys, so a per-key statement fixes the whole entry |
| Builder.InitialConfigShape | OneDrive/Desktop/Airtable_Int/frontend/src/components/BuilderPage.jsx:71-80 | one entry per field id; each is included, labelled with the field's name (the last field wins on a repeated id), not required, and has empty condition parts |
| Builder.BuildInitialConfig | OneDrive/Desktop/Airtable_Int/frontend/src/components/BuilderPage.jsx:71-80 | the `reduce` loop builds the initial config |
| Builder.UpdateFieldConfig | OneDrive/Desktop/Airtable_Int/frontend/src/components/BuilderPage.jsx:89-96 | same field ids; every other field's entry is unchanged; within the edited entry only the edited key changes, to the new value |
| Builder.ConditionalOf | OneDrive/Desktop/Airtable_Int/frontend/src/components/BuilderPage.jsx:104-110 | a condition exists iff both parts are non-empty, and it then holds exactly those parts |
| Builder.IncludedFields | OneDrive/Desktop/Airtable_Int/frontend/src/components/BuilderPage.jsx:100-101 | exactly the fields whose entry says `include` |
| Builder.FinalFields | OneDrive/Desktop/Airtable_Int/frontend/src/components/BuilderPage.jsx:99-121 | one spec per included field, in order; id, name, type and options come from the field, label and required from its entry, and the condition from `ConditionalOf` |
| Builder.FinalFieldsKeepOrder | OneDrive/Desktop/Airtable_Int/frontend/src/components/BuilderPage.jsx:100-121 | the saved list distributes over concatenation of the field list |
| Builder.TableName | OneDrive/Desktop/Airtable_Int/frontend/src/components/BuilderPage.jsx:129 | the name of the first table with the selected id, or `""` when none matches |
| Builder.BuilderPage.constructor | OneDrive/Desktop/Airtable_Int/frontend/src/components/BuilderPage.jsx:19-25 | nothing is selected and no table, field or config is loaded |
| Builder.BuilderPage.BaseChange | OneDrive/Desktop/Airtable_Int/frontend/src/components/BuilderPage.jsx:39-45 | the base is selected; the selected table, tables, fields and config are cleared |
| Builder.BuilderPage.TablesLoaded | OneDrive/Desktop/Airtable_Int/frontend/src/components/BuilderPage.jsx:46-50 | the tables become the loaded ones |
| Builder.BuilderPage.TableChange | OneDrive/Desktop/Airtable_Int/frontend/src/components/BuilderPage.jsx:56-60 | the table is selected; the fields and config are cleared |
| Builder.BuilderPage.FieldsLoaded | OneDrive/Desktop/Airtable_Int/frontend/src/components/BuilderPage.jsx:62-82 | the fields become the supported ones of the table, and the config their initial config |
| Builder.BuilderPage.FieldConfigChange | OneDrive/Desktop/Airtable_Int/frontend/src/components/BuilderPage.jsx:89-97 | the config becomes the one-key update of the edited field's entry |
| Builder.BuilderPage.SaveConfig | OneDrive/Desktop/Airtable_Int/frontend/src/components/BuilderPage.jsx:99-131 | the posted body holds the user, base and table, the saved field list and the table name |
| Viewer.InitialDataShape | OneDrive/Desktop/Airtable_Int/frontend/src/components/ViewerPage.jsx:62-65 | one entry per field name; `false` for a checkbox, `""` otherwise (the last field wins on a repeated name) |
| Viewer.BuildInitialData | OneDrive/Desktop/Airtable_Int/frontend/src/components/ViewerPage.jsx:142-145 | the `reduce` loop builds the initial data |
| Viewer.InitialData | OneDrive/Desktop/Airtable_Int/frontend/src/components/ViewerPage.jsx:62-65 | the form data a loaded or reset form starts with; `InitialDataShape` states its keys and values |
| Viewer.IsVisible | OneDrive/Desktop/Airtable_Int/frontend/src/components/ViewerPage.jsx:85-102 | whether a field is shown; `VisibleWithoutConditional`, `VisibleWithUnknownController`, `VisibleIffControllerMatches` and `CheckboxController` state when |
| Viewer.VisibleWithoutConditional | OneDrive/Desktop/Airtable_Int/frontend/src/components/ViewerPage.jsx:87 | a field with no condition is visible |
| Viewer.VisibleWithUnknownController | OneDrive/Desktop/Airtable_Int/frontend/src/components/ViewerPage.jsx:88-91 | a field whose controller id matches no field is visible |
| Viewer.VisibleIffControllerMatches | OneDrive/Desktop/Airtable_Int/frontend/src/components/ViewerPage.jsx:92-99 | otherwise it is visible iff the value under the first controller's name strictly equals `equalsValue`, with `"true"`/`"false"` read as booleans |
| Viewer.CheckboxController | OneDrive/Desktop/Airtable_Int/frontend/src/components/ViewerPage.jsx:93-99 | for `equalsValue == "true"`: a checked controller shows the field; an unchecked one, or the string `"true"`, hides it |
| Viewer.MissingValues | OneDrive/Desktop/Airtable_Int/frontend/src/components/ViewerPage.jsx:108-109 | a value is missing iff it is `""` or absent; a boolean never is |
| Viewer.Errors | OneDrive/Desktop/Airtable_Int/frontend/src/components/ViewerPage.jsx:105-113 | the errors validation records; `ErrorsShape` states which names carry one and with what message, `Validate` is its loop |
| Viewer.ErrorsShape | OneDrive/Desktop/Airtable_Int/frontend/src/components/ViewerPage.jsx:104-113 | an error is recorded for a name iff some field with that name is visible, required and missing; its message is '{label} is required.' of the last such field |
| Viewer.Validate | OneDrive/Desktop/Airtable_Int/frontend/src/components/ViewerPage.jsx:104-116 | the `forEach` loop records exactly those errors, and the result is true iff none was recorded |
| Viewer.ValidIffNothingFlagged | OneDrive/Desktop/Airtable_Int/frontend/src/components/ViewerPage.jsx:114-115 | the error map is empty iff no field is visible, required and missing |
| Viewer.ErrorMessagesNonEmpty | OneDrive/Desktop/Airtable_Int/frontend/src/components/ViewerPage.jsx:110 | every recorded message is non-empty |
| Viewer.SubmissionData | OneDrive/Desktop/Airtable_Int/frontend/src/components/ViewerPage.jsx:120-130 | the record a confirmed submission sends; `SubmissionShape` states its keys and values and `BuildSubmission` is its loop |
| Viewer.SubmissionShape | OneDrive/Desktop/Airtable_Int/frontend/src/components/ViewerPage.jsx:120-130 | key `k` is submitted iff it is in the form data, the first field named `k` is visible, and the value is a boolean or a non-empty string; submitted values are copied unchanged |
| Viewer.BuildSubmission | OneDrive/Desktop/Airtable_Int/frontend/src/components/ViewerPage.jsx:120-130 | the `reduce` loop over the form's keys builds that submission |
| Viewer.ViewerPage.constructor | OneDrive/Desktop/Airtable_Int/frontend/src/components/ViewerPage.jsx:60-66 | the page starts in form mode with the initial data and no errors |
| Viewer.ViewerPage.InputChange | OneDrive/Desktop/Airtable_Int/frontend/src/components/ViewerPage.jsx:73-83 | only the named entry is set, and only that name's error is removed |
| Viewer.ViewerPage.Preview | OneDrive/Desktop/Airtable_Int/frontend/src/components/ViewerPage.jsx:154-160 | the errors become the validation result, and preview mode is entered iff there are none |
| Viewer.ViewerPage.Edit | OneDrive/Desktop/Airtable_Int/frontend/src/components/ViewerPage.jsx:186 | back to form mode |
| Viewer.ViewerPage.ConfirmSubmit | OneDrive/Desktop/Airtable_Int/frontend/src/components/ViewerPage.jsx:119-151 | the submission is built from the current data; after success the mode is form and the data is reset to the initial data; after failure both are unchanged |

## Left out

- HTTP and Express plumbing are not modelled: routing, middleware, CORS and
  the axios calls. A call's outcome is a parameter, and an upstream error's
  status and message are passed through as given.
- `res.status(400).redirect(...)` and `res.status(500).redirect(...)` in the
  callback: Express's `redirect(url)` sets status 302 itself. The model's
  `RedirectTo` therefore carries no status.
- URL and query encoding (`URL.searchParams`, `encodeURIComponent`,
  `qs.stringify`) is not modelled: a `Url` keeps the raw parameter list. The
  `/builder?user_id=` redirect is built without encoding either.
- `crypto.randomBytes` and SHA-256 are parameters. Only the base64 to base64url
  string transform is modelled.
- MongoDB is modelled as two maps with `replaceOne`/`findOne`/`find`
  semantics. Connection, indexes, `_id` and `process.exit` are left out.
- A database failure inside the exchange or the refresh is folded into the
  `None` answer, since the source handles both the same way. Database failures
  of the form-config routes (the 500 replies) are left out.
- The routes pass Airtable's answers through as opaque `Json` values.
- Backend.Server.StoreTokens: `created_at` and `expires_at` read the clock
  twice in the source. The model uses one `now` per request.
- `expires_in` is an integer; a non-numeric `expires_in` is not modelled.
- Backend.Server.ListFormConfigs returns a set, because the source's `find`
  has no sort and so no defined order.
- The `TypeError` message of a malformed tables response is the JavaScript
  engine's. The model only fixes its 500 status.
- Concurrency is not modelled: two callbacks racing on one `state`, or
  concurrent refreshes, are outside a sequential model.
- Builder.UpdateFieldConfig requires the field's entry to exist. Every call
  site edits a rendered field, and each rendered field has an entry from the
  initial config. The spread of an absent entry, which builds a partial
  object, is not modelled.
- Builder.UpdateFieldConfig: `handleFieldConfigChange` takes an untyped key
  and value. The model types each edit (`ConfigEdit`) the way the page's call
  sites pass it: a boolean for `include` and `isRequired`, a string for the
  label and the two condition parts.
- The status messages, the loading of the bases list and the rendering
  (`FormField`, the preview list, styles) are presentation and are not
  modelled. React's asynchronous state updates are modelled as immediate
  assignments.
- `HomePage.jsx`, `DashboardPage.jsx`, `Navbar.jsx`, `App.jsx` and
  `vite.config.js` are not part of this model.

## Findings

| source | as written | input that shows it | evidently intended | confidence | as-written member | corrected member |
|---|---|---|---|---|---|---|
| OneDrive/Desktop/Airtable_Int/backend/index.js:156-158 | `authorizationCache` is a plain object and is tested with `authorizationCache[state]`, so keys inherited from `Object.prototype` count as pending flows | a callback with `state=constructor` and no such flow passes the check, and a token exchange with an undefined verifier follows instead of 400 | only a `state` issued by this server and not yet consumed passes; any other value gets 400 'Invalid state parameter' | not executed | Backend.InheritedKeyPassesStateCheck | Backend.Server.Callback |
