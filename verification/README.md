# EduCloud front-end: API wrapper and files screen

This project models the logic core of the EduCloud web client in Dafny. That core is two pieces:

- the API wrapper `ApiService` (`src/services/api.js`). It holds the bearer token in memory and mirrors it into `localStorage`. It builds the JSON and form-data header sets, prepares each request and maps a failed response to the message of the thrown `Error`.
- the files screen (`src/pages/FilesPage.jsx`). This covers the file-list refresh, file selection by picker and by drag and drop, the upload submit flow with its 10 MiB guard and `loading` flag, and the byte-size label.

`fetch` is abstract. Each network operation is split into two parts:

- what is sent: an `Api.Call` (URL and options), or a `FilesPage.Effect`;
- what the code does with the settled result: a `Http.FetchOutcome` given as input, either a rejection or a response with a status, a text body and the result of `response.json()`.

Screen handlers are pure steps. Each one maps the component's state to the next state plus the effects it issues, in order: alerts, the banner timer, the list fetch and the upload post.

Modules:

- `Json`: the JSON values the server returns, JavaScript truthiness, and the string coercion done by `new Error(x)`.
- `Decimal`: how an integer is printed, with the matching parser.
- `Http`: responses, fetch outcomes and JavaScript errors.
- `UploadForm`: the multipart field list that both the screen and the wrapper build.
- `Api`: everything in `api.js`.
- `FilesPage`: everything in `FilesPage.jsx` that is not markup.

Three behaviours of the code are easy to misread:

- A failed list fetch leaves the list as it was; a failure never empties it. A successful fetch whose body is `[]` or falsy (`null`, `false`, `0`, `""`) does leave it empty.
- After a successful upload the list refetch is started but not awaited, so the success alert can appear before the new list arrives. The model records only the order in which the two effects are issued.
- The size label indexes past its four-entry unit table (Bytes, KB, MB, GB) from 1024^4 bytes on, and the unit then prints as `undefined`.

## Model

| member | source | states |
|---|---|---|
| Api.Construct | src/services/api.js:4-6 | A new instance holds the stored `token` entry if there is one, and no token otherwise. |
| Api.SetToken | src/services/api.js:8-11 | After `setToken(t)`, the in-memory token and the stored `token` entry both equal `t`. Every other stored key is unchanged. |
| Api.ClearToken | src/services/api.js:13-16 | After `clearToken()`, the token is null and the `token` entry is gone. Every other stored key is unchanged. |
| Api.TokenPersists | src/services/api.js:4-16 | Round trip through storage: a fresh instance built after `setToken(t)` holds `t`, and one built after `clearToken()` holds nothing. |
| Api.GetHeaders | src/services/api.js:18-28 | `Content-Type: application/json` is always present. `Authorization: Bearer <token>` is present exactly when the token is truthy, so an empty token counts as absent. No other header is set. |
| Api.GetHeadersForFormData | src/services/api.js:30-38 | There is never a `Content-Type`. `Authorization` is present exactly when the token is truthy. |
| Api.HeaderSetsAgree | src/services/api.js:18-38 | The form-data headers are the JSON headers minus `Content-Type`. |
| Api.Request | src/services/api.js:40-45 | The URL is `/api` followed by the endpoint. The config has the caller's option keys plus `headers`. Every caller option wins over the default of the same name. The default headers are used only when the caller gives none. |
| Api.CallerHeadersReplaceDefaults | src/services/api.js:42-45 | A caller `headers` option replaces the defaults wholesale, so the bearer token and the JSON content type are dropped whatever the session holds. |
| Api.FailureError | src/services/api.js:50-53 | For a non-2xx response: a truthy `detail` becomes the message, coerced to a string. An unparseable body gives `Erro desconhecido`. Otherwise the message is `HTTP <status>`. A `TypeError` is thrown instead exactly when the body is `null` or the truthy `detail` cannot be converted by `String()`, that is, it is or contains an object with its own `toString` key. |
| Api.Settle | src/services/api.js:47-59 | A 2xx response yields its parsed body. A non-2xx response throws the error above. A rejected `fetch` or a rejected `response.json()` propagates unchanged. |
| Api.StatusMessageNamesStatus | src/services/api.js:52 | Whenever the fallback fires (a parsed, non-null body whose `detail` is missing or falsy, including array, string, number and boolean bodies), the message is `HTTP ` followed by digits only, and those digits read back as the response status. |
| Api.Login | src/services/api.js:63-68 | Sends a POST to `/api/auth/login` with the default headers and a JSON body `{email, password}`. |
| Api.Register | src/services/api.js:70-75 | Sends a POST to `/api/auth/register` with the default headers and the given payload as the JSON body. |
| Api.ListAllFiles | src/services/api.js:78-80 | Sends a GET to `/api/files/` that carries only the default headers. |
| Api.GetUserFiles | src/services/api.js:82-84 | Sends a GET to `/api/files/user/<id>/` that carries only the default headers. |
| Api.UploadFile | src/services/api.js:86-97 | Sends a POST to `/api/files/<id>/upload/` with the form-data headers, so no `Content-Type`. The body is the shared upload form. |
| Api.UploadFileDefaults | src/services/api.js:86-90 | With `description` and `type` left at `''`, the form holds the file alone. |
| UploadForm.Build | src/pages/FilesPage.jsx:46-49 | The form is `file_upload` first, then `description` only if it is non-empty, then `type` only if it is non-empty. The contract lists all four shapes, so nothing else is appended. |
| UploadForm.BuildReadBack | src/services/api.js:87-90 | Reading the form back gives the file, the description and the type, with each omitted entry reading as `''`. |
| UploadForm.BuildPresence | src/pages/FilesPage.jsx:48-49 | The `description` and `type` entries are present exactly when their values are non-empty. No entry has any other name. |
| Json.Property | src/services/api.js:52 | `errorData.detail` is defined exactly when the body is an object with that key, and it is that key's value. |
| Json.FalsyValues | src/services/api.js:52 | Truthiness, as used by the token test (api.js:23, 33, through `Api.HasBearer`), the `detail` fallback (api.js:52) and the list default (FilesPage.jsx:21), is false exactly for `undefined`, `null`, `false`, `0` and `""`. Empty arrays and objects are truthy. |
| Json.Join | src/services/api.js:52 | `Array.prototype.join`, which `String()` applies to an array detail: the first part comes first, and the length is the parts' total plus one separator per neighbouring pair. |
| Json.ToJsString | src/services/api.js:52 | `String(detail)` as `new Error(detail)` applies it: strings are kept, `null` prints `null`, booleans print `true`/`false`, an object without its own `toString` key prints `[object Object]`, an empty array prints `""` and an array holding only `null` prints `""`. It is defined on the values `String()` converts without throwing; `Api.FailureError` handles the rest. |
| Json.NullArrayCoercion | src/services/api.js:52 | An array of `n` nulls becomes `n - 1` commas and nothing else. |
| Json.ToJsStringScalars | src/services/api.js:52 | A safe integer detail (magnitude below 2^53) prints as its digits, after a `-` when it is negative, and the digits read back as its magnitude. |
| Json.ObjectListCoercion | src/services/api.js:52 | A detail that is a list of one object becomes the message `[object Object]`, unless the object has its own `toString` key, in which case the conversion throws. |
| Api.ToStringDetailThrows | src/services/api.js:52 | For any error status, a `detail` object with its own `toString` key, alone or in a list, makes the handler throw `TypeError: Cannot convert object to primitive value`. |
| Decimal.Show | src/services/api.js:52 | The status prints as a non-empty string of digits with no leading zero. |
| Decimal.ShowValue | src/services/api.js:52 | The printed status parses back to the status. |
| Decimal.ShowInjective | src/services/api.js:52 | Distinct statuses give distinct messages. |
| FilesPage.Mount | src/pages/FilesPage.jsx:4-14 | The initial state has an empty list, an empty draft and every flag off. Mounting issues exactly one list fetch to `/api/files/`. |
| FilesPage.ReceiveFiles | src/pages/FilesPage.jsx:16-28 | A 2xx response with a JSON body replaces the list with the body, or with `[]` when the body is falsy. A non-2xx response, an unparseable body or a rejected fetch leaves the state unchanged. No other slot ever changes. |
| FilesPage.ReceivedListTruthy | src/pages/FilesPage.jsx:19-21 | After a successful fetch the list is never falsy. |
| FilesPage.ListUrlMatchesApi | src/pages/FilesPage.jsx:18 | The screen fetches the same URL as `listAllFiles`. |
| FilesPage.SelectFile | src/pages/FilesPage.jsx:73-77 | A present file becomes the selection. A missing file keeps the current selection and changes nothing. |
| FilesPage.DragOver | src/pages/FilesPage.jsx:79-82 | Sets the drag-over flag and nothing else. |
| FilesPage.DragLeave | src/pages/FilesPage.jsx:84-87 | Clears the drag-over flag and nothing else. |
| FilesPage.Drop | src/pages/FilesPage.jsx:89-96 | The drag-over flag always goes off. Only the first dropped file is taken. An empty drop keeps the selection. Nothing else changes. |
| FilesPage.DropIsSelectFirst | src/pages/FilesPage.jsx:89-96 | A drop is the same as selecting the first file and leaving the drop zone, in either order. |
| FilesPage.RemoveSelection | src/pages/FilesPage.jsx:196-202 | The remove button clears the selection. No other slot of the component's state changes. |
| FilesPage.SubmitUpload | src/pages/FilesPage.jsx:30-54 | With no file: the select-a-file alert, and the state is untouched, including `loading`. With a file over 10 MiB: the banner and its 5000 ms timer, with no request. Otherwise: `loading` is set and one POST of the built form goes to `/api/files/1/upload/`. |
| FilesPage.UploadGuard | src/pages/FilesPage.jsx:32-42 | An upload request is issued exactly when a file is selected and its size is at most 10 485 760 bytes. |
| FilesPage.SizeBoundary | src/pages/FilesPage.jsx:37-38 | A file of exactly 10 485 760 bytes is sent. A file of 10 485 761 bytes is refused. |
| FilesPage.CreatedIsOk | src/pages/FilesPage.jsx:56 | Accepting `res.ok` or status 201 is the same test as `res.ok` alone, because 201 is already a 2xx status. |
| FilesPage.FinishUpload | src/pages/FilesPage.jsx:56-70 | Success clears description, type and file, then issues the list refetch followed by the success alert. A non-2xx response alerts the response text. A rejection alerts the error message. Both failures keep the draft. `loading` is false after every outcome, and the list, banner and drag flags are untouched. |
| FilesPage.LoadingLifecycle | src/pages/FilesPage.jsx:44-70 | A rejected submit leaves `loading` as it was. An accepted submit sets it. It is false again after any outcome of that request. |
| FilesPage.FailedUploadKeepsDraft | src/pages/FilesPage.jsx:62-67 | After an accepted submit that fails, by error status or by exception, the draft is exactly what it was before the submit. |
| FilesPage.UploadMatchesApi | src/pages/FilesPage.jsx:46-54 | The screen posts the same form, to the same URL, as `uploadFile` does for user 1. |
| FilesPage.UnitIndex | src/pages/FilesPage.jsx:102 | The unit index `i` satisfies `1024^i <= bytes < 1024^(i+1)`. |
| FilesPage.UnitIndexIsLargest | src/pages/FilesPage.jsx:102 | No larger index fits under the byte count, and the index that brackets it is unique. |
| FilesPage.IndexInTable | src/pages/FilesPage.jsx:101-103 | The index lands inside the four-entry unit table exactly when the byte count is below 1024^4. |
| FilesPage.ScaleFacts | src/pages/FilesPage.jsx:103 | The exact scaled amount lies in [1, 1024). |
| FilesPage.FormatFileSize | src/pages/FilesPage.jsx:98-104 | Zero gives `0 Bytes`. 1 to 1023 bytes give the count itself in `Bytes`. Otherwise the amount is the byte count divided by 1024^i, where `i` is the exact unit index, and lies in [1, 1024). The unit is `sizes[i]`: the table entry at that index below 1024^4, and `undefined` from 1024^4 on, where the index is at least 4. |
| FilesPage.LabelExamples | src/pages/FilesPage.jsx:98-104 | 2048 bytes is labelled 2 KB, and the 10 MiB guard value is labelled 10 MB. |

## Left out

- Browser APIs are not modelled: `fetch`, `FormData`, `localStorage`, `alert`, `setTimeout`, `console` and `navigate`. Responses and storage are values, and alerts, timers and requests are effect values.
- FilesPage.FormatFileSize: the floating-point `Math.log` ratio and the `toFixed(2)`/`parseFloat` rounding are not modelled. The unit index is the exact-arithmetic one and the amount is the exact rational, so nothing is claimed about the printed digits. The floating-point logarithm may misclassify exact powers of 1024.
- Api.Login and Api.Register: `JSON.stringify` is not modelled. The body is kept as the JSON value that would be serialised.
- Json.ToJsString: JSON numbers are restricted to integers and always print as plain digits. JavaScript rounds integers beyond 2^53 when parsing and prints 1e21 and above in exponent form, so for such numbers the model's text differs from the program's. Fractional numbers and their printing are not modelled.
- Json.ToJsStringScalars: claimed only for integers of magnitude below 2^53, for the reason above.
- Api.FailureError: the two `TypeError` messages (a `null` body, an unconvertible `detail`) carry V8's wording. Other engines word them differently.
- FilesPage.FinishUpload: a rejection of `res.text()` on the error path is not modelled. The source would report it through the `catch` alert.
- Async ordering and lifetime are not modelled: the unawaited `fetchFiles()` before the success alert, the banner timer firing, remounts and races between concurrent fetches, and the missing cancellation on unmount.
- Markup is not modelled: JSX rendering, drag visuals, styling, the `pt-BR` date formatting and the hard-coded download origin. They are presentation only.
- `src/pages/LoginPage.jsx`, `src/pages/RegisterPage.jsx` and `src/App.jsx` are not part of this model. The two pages are one `fetch` each plus alert and navigation. The route table's matching belongs to react-router.
- FilesPage.RemoveSelection: the handler's `e.stopPropagation()` and its reset of the hidden picker's value are not modelled. The reset is what lets the picker fire `change` again for the same file. Both act on the DOM, not on component state.
- `localStorage` coerces values to strings, so `setToken(null)` stores `"null"`. This is not modelled: tokens are strings.
