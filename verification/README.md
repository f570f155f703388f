# catalog-front: the decision logic of the admin front end, in Dafny

catalog-front is a Next.js/Redux admin front end for a product catalogue. Around its
screens sits a set of pure decisions and reducers, and this project models them.

- **Request layer** (`src/app/lib/api.ts`):
  - how an error payload becomes a list of messages;
  - how a request's URL and headers are computed;
  - how a settled response becomes a value or an `ApiError`.
- **Alerts** (`src/app/lib/alerts.ts`):
  - which messages an error dialog shows;
  - how they are escaped and joined into HTML.
- **Bulk-import result** (`BulkImportModal.tsx`):
  - normalising the per-row errors the server returns;
  - the summary the modal shows (counts, warning or success, the first 15 rows).
- **Session slice** (`authSlice.ts`):
  - the stored-session validator and the initial state;
  - the `hydrate`, `logout` and login/register/`me` transitions;
  - the shape persisted to storage, with a round-trip proof.
- **UI slice** (`uiSlice.ts`): language and theme toggles, the clamped loading counter and the dialog flags.
- **Product and category slices** (`productosSlice.ts`, `categoriasSlice.ts`):
  - the listing query string and the `setQuery` merge;
  - the fetch lifecycle reducers;
  - the mutation thunks.
- **Product form** (`ProductoFormModal.tsx`):
  - typed pickers over an untyped product;
  - edit-mode detection and the initial field values;
  - category options and the submitted DTO.

How the model represents these:

- **JSON values.** Values of unknown type are the datatype `JsonValues.Json` (`JNull | JBool | JNum | JStr | JArr | JObj`).
  - Numbers are integers, plus tags for the infinities and NaN.
  - JavaScript's `undefined` is `Wrappers.Option.None`.
- **Thunks.** An async thunk is a pure function of its inputs and of what the outside world answers: how the request settled, whether the confirmation dialog was accepted, and what the awaited re-fetch threw.
  - It returns an `Effects.Trace`: the effects it performed, in order (request sent, `beginLoading`, `endLoading`, toast, confirmation, re-fetch), and how its promise settled.
  - Balance of the loading counter is stated over these traces (`Effects.Balanced`).
  - `Effects.BalancedRestoresUi` shows that a balanced trace leaves the UI slice exactly as it found it.

Modules:

| file | module | models |
|---|---|---|
| wrappers.dfy | Wrappers | `Option` |
| text.dfy | Text | join/split, trailing-slash strip, integer printing and parsing |
| json.dfy | JsonValues | JSON values, JS truthiness, own-property reads, `??`, `String(x)` |
| html.dfy | Html | `escapeHtml` and the `<br/>`-joined lists |
| api.dfy | Api | `ApiError`, `extractMessages`, `request` |
| alerts.dfy | Alerts | `showError` |
| bulk_import.dfy | BulkImport | `normalizeErrors` and the import summary |
| ui.dfy | Ui | `uiSlice` |
| effects.dfy | Effects | effect traces and loading balance |
| auth.dfy | Auth | `authSlice` |
| productos.dfy | Productos | `productosSlice` |
| categorias.dfy | Categorias | `categoriasSlice` |
| producto_form.dfy | ProductoForm | `ProductoFormModal` helpers and `onFinish` |

The model follows the code where the code and its design description disagree:

- **Empty errors list.** `extractMessages({errors: []})` is `[]`, not a non-empty list (`Api.ExtractMessagesEmpty`).
- **Malformed successful body.** A 2xx response with a JSON content type and an unparsable body rejects with the parser's `SyntaxError` instead of a structured error (`Api.ClassifySuccess`).
- **Category delete path.** The category delete goes to `/api/categorias/{id}`, while the update goes to `/categorias/{id}` (`Categorias.DeletePathDiffersFromUpdate`).

## Model

| member | source | states |
|---|---|---|
| Api.ErrorMessage | src/app/lib/api.ts:7 | the error's `message` is its messages joined by a newline; splitting it on newlines gives the messages back when none contains a newline, and no messages give `""` |
| Api.ExtractMessages | src/app/lib/api.ts:24-36 | falsy payload gives `["Unknown error"]`; otherwise the first match of: an `errors` array (same length and order, element i is `String(errors[i])`), a string `message`, a string `title`; else `["Request failed"]` |
| Api.ExtractMessagesEmpty | src/app/lib/api.ts:30 | the result is empty exactly when the payload is an object whose `errors` is the empty array |
| Api.ExtractMessagesStrings | src/app/lib/api.ts:30 | an `errors` array of strings is returned unchanged, whatever `message` or `title` say |
| Api.ExtractMessagesNonObject | src/app/lib/api.ts:25-35 | a truthy value that is not a record gives `["Request failed"]` |
| Api.ResolveBase | src/app/lib/api.ts:44 | the base is `baseUrl`, else the environment value, else `""`, with every trailing `/` removed |
| Api.ResolveUrl | src/app/lib/api.ts:44-45 | a path starting with `http` is used verbatim; otherwise the URL is the stripped base followed by the path |
| Api.ResolveBaseIdempotent | src/app/lib/api.ts:44 | resolving an already resolved base gives it back: stripping trailing slashes is idempotent |
| Api.ResolveUrlTrailingSlash | src/app/lib/api.ts:44-45 | a base with and without a trailing `/` gives the same URL, so the separator is never doubled |
| Api.BuildHeaders | src/app/lib/api.ts:47-53 | `Accept` is always JSON; `Content-Type` is present iff it was given or the body is truthy and not a form, keeping a given value; `Authorization` is `Bearer <token>` iff the token is truthy; other given headers are kept and no others appear |
| Api.GivenContentTypeKept | src/app/lib/api.ts:47-51 | header names are case-insensitive: a caller's `Content-Type` in any letter case is kept as given and not replaced by the JSON default |
| Api.ReplyValue | src/app/lib/api.ts:57-61 | the value a successful request resolves to is `undefined` exactly for 204, the parsed JSON for a JSON reply, the text otherwise |
| Api.ClassifySuccess | src/app/lib/api.ts:57-61 | 204 gives `undefined` without reading the body; a JSON content type gives the parsed body, or the parser's error if it is malformed; any other type gives the text |
| Api.ClassifyFailureAsWritten | src/app/lib/api.ts:64-71 | the failure path as written: a parsable body becomes the payload; after a failed parse, reading the text again rejects because the body was consumed |
| Api.FallbackUnreachableAsWritten | src/app/lib/api.ts:64-69 | as written, every unparsable error body ends in a `TypeError`, never in an `ApiError` |
| Api.FallbackCounterexample | src/app/lib/api.ts:64-69 | a 500 `text/plain` reply `oops` yields a `TypeError` instead of an `ApiError` with messages `["oops"]` |
| Api.ClassifyFailure | src/app/lib/api.ts:64-71 | every non-2xx reply throws an `ApiError` carrying its status; a parsable body is the payload; an unparsable one becomes `{message: text}`, so the messages are exactly `[text]` |
| Api.Classify | src/app/lib/api.ts:57-71 | with the corrected failure path (`Api.ClassifyFailure`, see Findings): 2xx replies resolve as `ClassifySuccess` says; every other reply throws an `ApiError` with its status, and an unparsable body gives messages `[text]` |
| Api.PrepareRequest | src/app/lib/api.ts:43-55 | the call made keeps the verb and body; the URL is an `http` path verbatim, else the resolved base followed by the path; it always accepts JSON; `Content-Type` is present iff given or the body is truthy and not a form; `Authorization` is the bearer token when there is one, and otherwise only what the caller gave |
| Api.Settle | src/app/lib/api.ts:55-71 | with the corrected failure path: a network failure rejects with a `TypeError`; a delivered reply settles exactly as `Api.Classify` says: a 2xx reply as `Api.ClassifySuccess` says (204 as `undefined`), a non-2xx reply as an `ApiError` with its status |
| Api.Unwrapped | src/app/components/productos/ProductoFormModal.tsx:117-127 | what a catch receives from a rejected thunk through `unwrap()`: a plain object that is never an `Error`, keeping the error's string message (an `ApiError`'s joined messages) |
| Alerts.ErrorMessages | src/app/lib/alerts.ts:4-10 | an `ApiError` shows its messages unchanged; any other `Error` shows `[message]`; anything else shows `["Error desconocido"]` |
| Alerts.UnwrappedShowsUnknownAsWritten | src/app/lib/alerts.ts:4-10 | as written, any error that reaches `showError` through `unwrap()` is shown as `["Error desconocido"]` |
| Alerts.UnwrapCounterexample | src/app/lib/alerts.ts:6-7 | a rejected update with server message "SKU duplicado" is not shown with that message |
| Alerts.ErrorMessagesCorrected | src/app/lib/alerts.ts:4-10 | as intended: unchanged for real errors; a serialised error's string `message` is shown split into its lines; anything else is "Error desconocido" |
| Alerts.CorrectedShowsUnwrappedMessages | src/app/lib/alerts.ts:4-10 | with the correction, an `ApiError` rethrown by `unwrap()` shows exactly its messages, and an `Error` its message |
| Alerts.BulletListRoundTrip | src/app/lib/alerts.ts:15 | the dialog body lists each message escaped and bulleted, in order: reading the list back and unescaping gives exactly the messages |
| Html.EscapeHtml | src/app/lib/alerts.ts:42-49 | the five chained replacements equal escaping each character on its own, and the output holds no raw `<`, `>`, `"` or `'` |
| Html.EscapeHtmlIsCharwise | src/app/components/productos/BulkImportModal.tsx:89-96 | because `&` is replaced first, entities produced by later steps are not escaped again: the chain is the per-character escape, with no markup left |
| Html.EscapeHtmlPlainText | src/app/lib/alerts.ts:42-49 | text with none of `&<>"'` is returned unchanged |
| Html.UnescapeEscape | src/app/lib/alerts.ts:42-49 | escaping loses nothing: decoding the five entities gives the original text back |
| Html.SplitJoinBreaks | src/app/lib/alerts.ts:15 | joining with `<br/>` items free of `<` and splitting again gives the items back |
| BulkImport.NormalizeItem | src/app/components/productos/BulkImportModal.tsx:61-85 | precedence per element: a well-formed item passes through; a string becomes row `idx + 2` with that message; a record takes its numeric `row` (else `idx + 2`) and its string `message`, else `error`, else `"Unknown error"`; anything else is row `idx + 2`, `"Unknown error"` |
| BulkImport.NormalizeErrors | src/app/components/productos/BulkImportModal.tsx:66-87 | a non-array gives `[]`; an array gives one item per element, in order, element i normalised at index i |
| BulkImport.PassThroughAgreesWithRecordRule | src/app/components/productos/BulkImportModal.tsx:61-83 | the pass-through branch gives what the general record rule would give for the same item |
| BulkImport.StringErrorsNumberRows | src/app/components/productos/BulkImportModal.tsx:72 | a list of plain strings becomes rows 2, 3, ... carrying those strings in order |
| BulkImport.NormalizeExample | src/app/components/productos/BulkImportModal.tsx:66-87 | one element of each kind normalises as the precedence says |
| BulkImport.CountOf | src/app/components/productos/BulkImportModal.tsx:138-140 | a count is the numeric field when there is one, else 0 |
| BulkImport.MoreSuffix | src/app/components/productos/BulkImportModal.tsx:151 | the `+(n-15)` suffix is empty exactly when at most 15 errors exist |
| BulkImport.Summarize | src/app/components/productos/BulkImportModal.tsx:137-171 | the warning dialog is chosen iff `failed > 0` or errors exist, and lists the first `min(n, 15)` normalised errors in order; otherwise a success toast with the three counts |
| BulkImport.SummaryAccountsForEveryRow | src/app/components/productos/BulkImportModal.tsx:144-151 | in the warning dialog, the listed rows plus the count in the suffix equal the number of errors |
| BulkImport.SubmitView | src/app/components/productos/BulkImportModal.tsx:130-178 | a rejected import reaches the catch through `unwrap()` and always shows "Error desconocido"; a missing result fails reading a property, which shows that `TypeError`; a result is summarised |
| Ui.Hydrate | src/app/store/slices/uiSlice.ts:32-35 | only a given language or theme is applied, and nothing else in the slice changes |
| Ui.ToggleLang | src/app/store/slices/uiSlice.ts:36-38 | the language always changes and nothing else does |
| Ui.ToggleLangInvolution | src/app/store/slices/uiSlice.ts:36-38 | toggling the language twice restores the slice |
| Ui.ToggleTheme | src/app/store/slices/uiSlice.ts:39-41 | the theme always changes and nothing else does |
| Ui.ToggleThemeInvolution | src/app/store/slices/uiSlice.ts:39-41 | toggling the theme twice restores the slice |
| Ui.BeginLoading | src/app/store/slices/uiSlice.ts:42-44 | the counter goes up by one and nothing else changes |
| Ui.EndLoading | src/app/store/slices/uiSlice.ts:45-47 | the counter never goes negative: it goes down by one from a positive value and stays 0 at 0; nothing else changes |
| Ui.BeginEndRestores | src/app/store/slices/uiSlice.ts:42-47 | a begin followed by an end restores any slice with a non-negative counter |
| Ui.CountNeverNegative | src/app/store/slices/uiSlice.ts:42-75 | from a non-negative counter, any sequence of actions keeps it non-negative, so the spinner's `> 0` test means "the counter is not zero" |
| Ui.OnlyLoadingActionsCount | src/app/store/slices/uiSlice.ts:32-67 | no action except begin and end touches the counter |
| Ui.OpenLogin | src/app/store/slices/uiSlice.ts:48-50 | the login dialog opens and nothing else changes |
| Ui.CloseLogin | src/app/store/slices/uiSlice.ts:51-53 | the login dialog closes and nothing else changes |
| Ui.OpenDeleteCategoria | src/app/store/slices/uiSlice.ts:55-57 | the category to delete is recorded and nothing else changes |
| Ui.ClearDeleteCategoria | src/app/store/slices/uiSlice.ts:58-60 | the category to delete is cleared and nothing else changes |
| Ui.OpenDeleteProducto | src/app/store/slices/uiSlice.ts:62-64 | the product to delete is recorded and nothing else changes |
| Ui.ClearDeleteProducto | src/app/store/slices/uiSlice.ts:65-67 | the product to delete is cleared and nothing else changes |
| Ui.DialogOpenCloseRestores | src/app/store/slices/uiSlice.ts:48-67 | closing a dialog right after opening it restores the slice |
| Ui.DialogsCommute | src/app/store/slices/uiSlice.ts:42-67 | the two delete dialogs and the loading counter are independent: their reducers commute |
| Effects.RunLoadingExact | src/app/store/slices/uiSlice.ts:42-47 | along a trace that never underflows, the clamp never applies: the counter moves by exactly the trace's net depth |
| Effects.BalancedRestoresUi | src/app/store/slices/uiSlice.ts:42-47 | a balanced trace leaves the UI slice unchanged, whatever the counter was before |
| Effects.SpinnerAcrossRun | src/app/store/slices/uiSlice.ts:75 | the spinner is on once a bracket begins, and after a balanced trace it is as it was |
| Effects.Bracket | src/app/store/slices/productosSlice.ts:121-129 | begin, request, then (on success) the follow-up effects, then end: balanced, one request, the end is last even when the request fails, and an awaited re-fetch's failure becomes the result |
| Effects.Done | src/app/store/slices/productosSlice.ts:121-129 | a mutation resolves to `true` exactly when its bracket completed, and otherwise rethrows the bracket's error; its effects are the bracket's |
| Auth.PersistShape | src/app/store/slices/authSlice.ts:36-51 | the persisted shape always says `loading: false` |
| Auth.SafeParseAuth | src/app/store/slices/authSlice.ts:54-96 | `null` exactly for absent or empty text, unparsable text, or a value that is not a non-null object; otherwise each session field is present iff stored as a string or null, and `user` iff stored as null or an object with the four string fields |
| Auth.BuildInitialState | src/app/store/slices/authSlice.ts:99-122 | never loading; signed out outside the browser or without a valid stored session; otherwise each field is the stored value when non-null, else null |
| Auth.PersistShapeReadsBack | src/app/store/slices/authSlice.ts:36-96 | the validator accepts the persisted shape of any state and reads every field back |
| Auth.PersistRoundTrip | src/app/store/slices/authSlice.ts:36-122 | starting from the persisted shape of a state restores that state's session fields, not loading |
| Auth.Hydrate | src/app/store/slices/authSlice.ts:155-163 | each of `token`, `user`, `expiresAt`, `refreshToken` and `refreshExpiresAt` takes the payload's value when that is present and non-null, and keeps its old value otherwise; `loading` is untouched; the new state is persisted |
| Auth.HydrateNeverClears | src/app/store/slices/authSlice.ts:155-163 | no hydrate can clear a field that is set |
| Auth.HydrateIdempotent | src/app/store/slices/authSlice.ts:155-163 | hydrating twice with the same payload is hydrating once |
| Auth.HydrateWithNullsKeeps | src/app/store/slices/authSlice.ts:155-163 | a payload of nulls, or an empty one, changes nothing |
| Auth.HydrateFromStorage | src/app/store/slices/authSlice.ts:166-178 | an invalid stored session changes nothing and writes nothing; a valid one gives exactly what `Auth.Hydrate` gives for the parsed session |
| Auth.HydrateFromStorageAfterInitial | src/app/store/slices/authSlice.ts:99-178 | hydrating from the same storage the state was built from changes nothing |
| Auth.Logout | src/app/store/slices/authSlice.ts:180-188 | all five session fields become null, `loading` is kept, and the stored session is removed |
| Auth.LogoutIdempotent | src/app/store/slices/authSlice.ts:180-188 | logging out twice is logging out once |
| Auth.AuthPending | src/app/store/slices/authSlice.ts:191-193 | pending sets `loading` and nothing else |
| Auth.AuthFulfilled | src/app/store/slices/authSlice.ts:194-203 | fulfilled stops loading, copies the tokens, expiries and user from the response, and persists the state |
| Auth.AuthRejected | src/app/store/slices/authSlice.ts:204-206 | rejected stops loading and changes nothing else |
| Auth.LoginSurvivesReload | src/app/store/slices/authSlice.ts:194-203 | the session a login persists is the session a reload starts with |
| Auth.MeFulfilled | src/app/store/slices/authSlice.ts:225-228 | the fetched user replaces the user and the state is persisted |
| Auth.AuthBase | src/app/store/slices/authSlice.ts:33 | the auth server is the configured one, else `http://localhost:5267` |
| Auth.SignInThunk | src/app/store/slices/authSlice.ts:124-138 | login and register send one untokened POST to their path on the auth server and settle as the request does |
| Auth.MeThunk | src/app/store/slices/authSlice.ts:140-149 | without a token it throws `"Missing token"` before any request; otherwise one GET of the current user |
| Auth.MeSendsBearer | src/app/store/slices/authSlice.ts:140-149 | the request for the current user carries `Authorization: Bearer <token>` |
| Productos.GetLang | src/app/store/slices/productosSlice.ts:69-75 | case by case: no slice gives Spanish; a non-nullish `lang` decides alone; only when it is nullish does `language` decide, and only when both are does `locale`; English only for exactly `"en"` |
| Productos.GetLangOfUiSlice | src/app/store/slices/productosSlice.ts:69-75 | read from the UI slice as stored, the language is that slice's language |
| Productos.GetLangDefaults | src/app/store/slices/productosSlice.ts:69-75 | no slice or an unknown language gives Spanish; a null `lang` falls through to `language` |
| Productos.QueryParams | src/app/store/slices/productosSlice.ts:95-104 | keys come in the fixed order, and looking up each of the nine keys gives its value exactly when present |
| Productos.QueryParamsPresence | src/app/store/slices/productosSlice.ts:95-104 | page, size, sort field and direction are always present; `search` iff non-empty; the category, price bounds and `activo` iff non-null |
| Productos.QueryParamsRoundTrip | src/app/store/slices/productosSlice.ts:95-104 | parsing the parameters back recovers the query, up to an empty search meaning none |
| Productos.SetQueryMerges | src/app/store/slices/productosSlice.ts:209-211 | keys in the payload override, others are kept; an empty payload or the query itself changes nothing |
| Productos.SetQueryWhole | src/app/store/slices/productosSlice.ts:209-211 | a payload naming every key replaces the query |
| Productos.SetQueryIdempotent | src/app/store/slices/productosSlice.ts:209-211 | applying the same payload twice is applying it once |
| Productos.SetQueryCompose | src/app/store/slices/productosSlice.ts:209-211 | two successive merges are one merge of the combined payload, the later one winning |
| Productos.SetQueryReducer | src/app/store/slices/productosSlice.ts:209-211 | only the query changes |
| Productos.FetchPending | src/app/store/slices/productosSlice.ts:214-216 | pending shows the list as loading and keeps the page and the query |
| Productos.FetchFulfilled | src/app/store/slices/productosSlice.ts:217-220 | stops loading and keeps the query; the data is the payload, or an empty page of the current page and size when the payload is nullish |
| Productos.FetchRejected | src/app/store/slices/productosSlice.ts:221-223 | stops loading and keeps the data and the query |
| Productos.FetchLifecycle | src/app/store/slices/productosSlice.ts:214-223 | a fetch that settles either way ends not loading with the query unchanged |
| Productos.FetchThunk | src/app/store/slices/productosSlice.ts:85-110 | without a token it fails in the user's language before any request; otherwise one GET of `/productos` with the query's parameters |
| Productos.CreateThunk | src/app/store/slices/productosSlice.ts:112-130 | token check first; a failed POST gives exactly begin, POST, end and rejects with the request's error; a successful one gives begin, POST, toast, re-fetch, end, and rejects with the unwrapped re-fetch's error if that fails, else resolves `true` |
| Productos.UpdateThunk | src/app/store/slices/productosSlice.ts:132-150 | as create, with a PUT to the product's path and the "updated" toast: the exact trace on failure and on success, and the request's or re-fetch's error as the rejection |
| Productos.DeleteThunk | src/app/store/slices/productosSlice.ts:152-172 | token check, then the confirmation; declined gives `false` with no request and no loading change; confirmed gives the question then begin, DELETE, end on failure (rejecting with its error), or begin, DELETE, toast, re-fetch, end on success (rejecting with a failed re-fetch's error, else `true`) |
| Productos.BulkImportThunk | src/app/store/slices/productosSlice.ts:174-199 | token check; a failed form POST of the file to `/productos/masivo` gives begin, POST, end and rejects with its error; a successful one gives begin, POST, re-fetch, end, no toast, and the import result as the value unless the re-fetch fails |
| Productos.BulkImportIsMultipart | src/app/lib/api.ts:50-51 | the upload is sent without a JSON content type |
| Categorias.QueryParams | src/app/store/slices/categoriasSlice.ts:24-26 | `includeInactive` always comes first; `search` follows iff non-empty |
| Categorias.QueryParamsRoundTrip | src/app/store/slices/categoriasSlice.ts:24-26 | parsing the parameters back recovers both, up to an empty search meaning none |
| Categorias.FetchThunk | src/app/store/slices/categoriasSlice.ts:18-30 | without a token it throws `"Missing token"` before any request; otherwise one GET of `/categorias` |
| Categorias.CreateThunk | src/app/store/slices/categoriasSlice.ts:32-47 | token check; a failed POST gives exactly begin, POST, end and rejects with the request's error; a successful one gives begin, POST, re-fetch of all categories (inactive included, no search), end, and resolves `true` whatever the re-fetch does |
| Categorias.UpdateThunk | src/app/store/slices/categoriasSlice.ts:49-64 | as create, with a PUT to `/categorias/{id}`: the exact trace on failure and on success |
| Categorias.DeleteThunk | src/app/store/slices/categoriasSlice.ts:66-85 | token check, then the confirmation; declined gives `false` and nothing else; confirmed gives the question then begin, DELETE of `/api/categorias/{id}`, end on failure (rejecting with its error), or begin, DELETE, toast, re-fetch of all categories, end, resolving `true` |
| Categorias.DeletePathDiffersFromUpdate | src/app/store/slices/categoriasSlice.ts:57-77 | the delete path is the update path with `/api` in front, so the two differ |
| Categorias.FetchPending | src/app/store/slices/categoriasSlice.ts:92-94 | pending shows the list as loading and keeps its items |
| Categorias.FetchRejected | src/app/store/slices/categoriasSlice.ts:99-101 | rejected stops loading and keeps the items |
| Categorias.FetchFulfilled | src/app/store/slices/categoriasSlice.ts:95-98 | stops loading; the items are the payload, or `[]` when it is nullish |
| Categorias.FetchLifecycle | src/app/store/slices/categoriasSlice.ts:92-101 | a settled fetch is not loading, and a rejected one keeps the items |
| ProductoForm.GetSafeNumber | src/app/components/productos/ProductoFormModal.tsx:21-23 | a value is returned iff it is a finite number, and it is that number |
| ProductoForm.PickString | src/app/components/productos/ProductoFormModal.tsx:25-30 | a string field is returned iff the holder is a non-null object and the field is a string |
| ProductoForm.PickNumber | src/app/components/productos/ProductoFormModal.tsx:32-37 | a number is returned iff the holder is a non-null object and the field is a finite number |
| ProductoForm.PickBool | src/app/components/productos/ProductoFormModal.tsx:39-44 | a boolean is returned iff the holder is a non-null object and the field is a boolean |
| ProductoForm.PickersOnNull | src/app/components/productos/ProductoFormModal.tsx:25-44 | with no product, every picker gives `undefined` |
| ProductoForm.InitialIdProducto | src/app/components/productos/ProductoFormModal.tsx:51-53 | the id is `idProducto`, falling back to `id` |
| ProductoForm.IsEditIff | src/app/components/productos/ProductoFormModal.tsx:51-54 | edit mode holds iff the product is an object whose `idProducto` or `id` is a finite number |
| ProductoForm.FormDefaults | src/app/components/productos/ProductoFormModal.tsx:61-73 | each field is the product's typed value, else `""`, `0` or `true`; the category is `idCategoria`, falling back to `categoriaId` |
| ProductoForm.NewProductDefaults | src/app/components/productos/ProductoFormModal.tsx:61-73 | a new product starts blank, at zero, active, with no category, not in edit mode |
| ProductoForm.OptionsOf | src/app/components/productos/ProductoFormModal.tsx:76-81 | a category contributes one option iff it has a numeric id, and none otherwise |
| ProductoForm.CategoryOptionsAppend | src/app/components/productos/ProductoFormModal.tsx:76-81 | options keep the categories' order and judge each category on its own |
| ProductoForm.CategoryIdResolves | src/app/components/productos/ProductoFormModal.tsx:77 | a category's id is its finite `idCategoria`, and only when that is missing or not a finite number its finite `id` |
| ProductoForm.CategoryOptionLabel | src/app/components/productos/ProductoFormModal.tsx:76-81 | any category record with a finite `idCategoria`, or failing that a finite `id`, gives exactly one option valued with that id and labelled `nombre (#id)`, the name empty when `nombre` is missing or not a string; other fields play no part |
| ProductoForm.CategoryWithoutIdDropped | src/app/components/productos/ProductoFormModal.tsx:76-81 | a category without an id gives no option |
| ProductoForm.OnFinish | src/app/components/productos/ProductoFormModal.tsx:101-123 | refused with "Categoría requerida" iff no category is chosen; otherwise an update of the initial product iff in edit mode, else a create; the DTO carries the form's fields with `activo` defaulting to `true` |
| ProductoForm.SaveUntouchedEdit | src/app/components/productos/ProductoFormModal.tsx:61-123 | saving an untouched edit form updates that product with the values it was shown with |
| ProductoForm.NewProductNeedsCategory | src/app/components/productos/ProductoFormModal.tsx:101-105 | an untouched new-product form is refused for its missing category |

## Left out

- **Network, storage and dialogs.** These are parameters of the model, not modelled:
  - `fetch` and the reading of response bodies;
  - `localStorage` and the store's persistence subscriber;
  - the SweetAlert dialogs.
  - A response is its status, content type, text and what parsing the text gives.
  - The confirmation answer and the re-fetch outcome are inputs.
  - Persistence is a `StorageOp` the reducer returns.
- **BFF route handlers, i18n tables and React components.** They forward requests or render. Only the decisions inside the components are modelled: the bulk-import summary and the product form.
- **Rendering.** The toasts, the success toast after `onFinish`, and how the import summary is laid out are not modelled. The summary is a datatype, not HTML.
- **Percent-encoding.** `URLSearchParams` encoding is not modelled: the query is an ordered list of key/value pairs.
- **Floating point.** Finite numbers are integers. Fractional prices, exponent notation and `-0` are not modelled.
- **Timers and races.** `useDebounce` and overlapping fetches whose last response wins are about time and concurrency.
- **Redux Toolkit machinery.** Action creators and `immer` are not modelled. A thunk's outcome is what its payload creator returned or threw. What `unwrap` rethrows is modelled by `Api.Unwrapped`.
- **Nested re-fetches.** A re-fetch dispatched inside a mutation appears as one effect. Its own trace is given by the fetch thunk.
- **`FormData`.** It is assumed to exist, so a form body never gets a JSON content type.
- **Error message wording.** The wording of engine messages (`TypeError`, `SyntaxError`) is a parameter.
- JsonValues.Prop: reads only a record's own fields. Inherited properties, and properties of arrays and strings such as `length`, are not modelled.
- Ui.Hydrate: takes the payload already typed as an optional language and theme. The source's truthiness test on an untyped value is not modelled.
- Auth.AuthFulfilled: takes the response typed as `AuthResponse`, as the source's type cast assumes. A malformed server response is not modelled.
- Auth.MeFulfilled: takes the user typed, for the same reason.
- Auth.Persist: assumes it runs in the browser. The server-side guard only skips the write.
- BulkImport.NormalizeItem: a well-formed item that passes through keeps only its `row` and `message`. Its extra fields are dropped.
- Api.Classify: states the corrected failure path. As written, an unparsable error body ends in a `TypeError` (see Findings, `Api.ClassifyFailureAsWritten`).
- Api.Settle: states the corrected failure path, for the same reason as `Api.Classify`.
- Api.Unwrapped: keeps only the `name` and `message` of the serialised copy. Its `stack` and `code` fields are not modelled, because nothing downstream reads them.
- BulkImport.Summarize: requires a non-null result. A null result fails reading a property, and `BulkImport.SubmitView` models that failure.

## Findings

| source | as written | input that shows it | evidently intended | confidence | as-written member | corrected member |
|---|---|---|---|---|---|---|
| src/app/lib/api.ts:64-69 | on an error reply whose body is not JSON, the code reads the text after the failed JSON read has consumed the body, so `text()` rejects with a `TypeError` | status 500, `text/plain`, body `oops` | throw an `ApiError` with status 500 and messages `["oops"]` | not executed | Api.ClassifyFailureAsWritten (Api.FallbackUnreachableAsWritten, Api.FallbackCounterexample) | Api.ClassifyFailure |
| src/app/lib/alerts.ts:4-10 | errors reach `showError` from a `dispatch(thunk).unwrap()` call, which rethrows a plain serialised object, so both `instanceof` tests fail and the dialog shows "Error desconocido" | `updateProducto` rejected with an `ApiError` of status 409 and messages `["SKU duplicado"]`, caught at src/app/components/productos/ProductoFormModal.tsx:117-127 | show `["SKU duplicado"]` | not executed | Alerts.ErrorMessages (Alerts.UnwrappedShowsUnknownAsWritten, Alerts.UnwrapCounterexample) | Alerts.ErrorMessagesCorrected (Alerts.CorrectedShowsUnwrappedMessages) |
