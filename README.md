# Chemical equipment analytics: accounts, desktop client and batch tables

This project is a Dafny model of three small parts of a system where users
upload CSV files of chemical process equipment and look through statistics
about each upload ("batch"). It also states and proves properties of those parts.

- **Registration and login** (`auth.dfy`, module `Auth`). Registration strips
  the username and email but not the password. Each field then runs through
  its own if/elif chain, and every failing field adds one message to an error
  map. A user is inserted into the user table only when that map is empty.
  Login answers 400 when a field is missing. Otherwise it answers 200 or 401,
  depending on what the authentication backend says.
- **The desktop client** (`client.dfy`, module `Client`). It covers the base
  URL taken from `API_URL`, the stored credentials and the basic-auth pair
  built from them, and the URLs of the upload, statistics and report
  endpoints. It also covers how each call turns the outcome of its request
  into a value or an error.
- **The batch and equipment tables** (`store.dfy`, module `Store`). A batch
  owns its equipment rows through a foreign key that deletes them along with
  it. Names and types have length bounds, and both tables have a `str()`
  rendering.
- **Support** (`text.dfy`, module `Text`; `wrappers.dfy`, module `Wrappers`).
  `Text` holds Python's `str.strip()`, `str()` of a non-negative integer and
  POSIX `os.path.basename`. `Wrappers` holds `Option` and `Result`.

Things the code relies on but that happen outside it are parameters:
- the user table's contents;
- the authentication backend, a function from credentials to the username of
  the user it finds;
- the normalisation `create_user` applies to the username and email, and the
  exception it may raise;
- the `API_URL` environment variable;
- the network: which URLs `requests` can prepare, and a function `send` from
  a prepared request to its outcome (a status code with an optional JSON
  body, or no response);
- the contents of a file being uploaded;
- the clock reading stored as a batch's upload time.

## Model

| member | source | states |
|---|---|---|
| `Text.IsSpace` | backend/core/auth_views.py:14-15 | Defines the characters `str.strip()` removes: those for which Python's `isspace()` holds. |
| `Text.TrimStart` | backend/core/auth_views.py:14-15 | The result is a suffix of the input, only whitespace comes before it, and it does not start with whitespace. |
| `Text.TrimEnd` | backend/core/auth_views.py:14-15 | The result is a prefix of the input, only whitespace comes after it, and it does not end with whitespace. |
| `Text.Strip` | backend/core/auth_views.py:14-15 | `strip()` is never longer than its input, and a non-empty result starts and ends with a non-whitespace character. |
| `Text.StripIsInfix` | backend/core/auth_views.py:14-15 | `strip()` gives the infix of the input between a whitespace prefix and a whitespace suffix. |
| `Text.StripEmptyIff` | backend/core/auth_views.py:22-23 | A string strips to empty exactly when all of its characters are whitespace. |
| `Text.StripIdempotent` | backend/core/auth_views.py:70 | Stripping an already stripped username changes nothing. |
| `Text.Decimal` | frontend-desktop/api_client.py:95 | `str(id)` is a non-empty string of decimal digits with no leading zero. |
| `Text.DecimalRoundTrip` | frontend-desktop/api_client.py:95 | Reading back the digits of `str(id)` gives `id` again. |
| `Text.DecimalInjective` | frontend-desktop/api_client.py:95 | Different ids print differently. |
| `Text.Basename` | frontend-desktop/api_client.py:59 | The uploaded file name is the suffix of the path after its last '/', and it contains no '/'. |
| `Auth.Field` | backend/core/auth_views.py:14-17 | `request.data.get(key, '')`: the value under the key, or "" when the key is missing. |
| `Auth.UsernameTaken` | backend/core/auth_views.py:26 | Defines `User.objects.filter(username=...).exists()`: some account has exactly that username. |
| `Auth.EmailTaken` | backend/core/auth_views.py:33 | Defines `User.objects.filter(email=...).exists()`: some account has exactly that email. |
| `Auth.UsernameError` | backend/core/auth_views.py:22-27 | The username passes exactly when it has at least 3 characters and no account already has it. |
| `Auth.EmailError` | backend/core/auth_views.py:29-34 | The email passes exactly when it contains '@' and '.' and no account already has it. |
| `Auth.PasswordError` | backend/core/auth_views.py:36-39 | The password passes exactly when it has at least 6 characters. |
| `Auth.ConfirmError` | backend/core/auth_views.py:41-42 | The confirmation fails exactly when it differs from the password. |
| `Auth.ValidationErrors` | backend/core/auth_views.py:20-42 | The error map's keys are among the four field names; a field is a key exactly when its own check fails, and its entry is that check's message. |
| `Auth.UserTable.Validate` | backend/core/auth_views.py:20-42 | The map built by the four if/elif chains, starting from an empty map, is exactly `ValidationErrors`. |
| `Auth.NoErrorsIff` | backend/core/auth_views.py:20-44 | The error map is empty exactly when every test of every field passes. |
| `Auth.UsernameMessageOrder` | backend/core/auth_views.py:22-27 | The username gets "required" iff empty, "at least 3" iff 1-2 characters, and "already exists" iff 3 or more characters and taken. |
| `Auth.EmailMessageOrder` | backend/core/auth_views.py:29-34 | The email gets "required" iff empty, "invalid format" iff non-empty and missing '@' or '.', and "already registered" iff both are present and it is taken. |
| `Auth.PasswordMessageOrder` | backend/core/auth_views.py:36-39 | The password gets "required" iff empty, and "at least 6" iff 1-5 characters. |
| `Auth.ErrorsIndependentOfUsername` | backend/core/auth_views.py:20-42 | No entry except the username's depends on the username, so a bad username does not stop the other checks. |
| `Auth.ConfirmIndependent` | backend/core/auth_views.py:36-42 | The mismatch entry is present exactly when the passwords differ. Two empty passwords give "Password is required" and no mismatch. |
| `Auth.BlankUsernameIsRequired` | backend/core/auth_views.py:14-23 | A raw username that is empty or all whitespace is reported as required. |
| `Auth.ShortUsernameIsNeverTaken` | backend/core/auth_views.py:14-27 | A username that strips to 1-2 characters is reported as too short, never as already existing. |
| `Auth.ErrorsFromFields` | backend/core/auth_views.py:20-42 | A map that agrees with each field's check on that field's key is the error map. |
| `Auth.InsertKeepsUnique` | backend/core/auth_views.py:47-53 | Inserting an account whose username is new keeps usernames unique. |
| `Auth.RequestErrors` | backend/core/auth_views.py:14-42 | Defines the error map of a request body: `ValidationErrors` of the stripped username and email and the raw passwords. |
| `Auth.NewAccount` | backend/core/auth_views.py:49-53 | Defines the row `create_user` stores: the normalised stripped username, the normalised stripped email and the raw password. |
| `Auth.UserTable.Register` | backend/core/auth_views.py:13-62 | A non-empty error map gives 400 with that map and leaves the table unchanged. Otherwise a `create_user` failure gives 500 with its message and leaves the table unchanged. Otherwise exactly one account is added: the normalised stripped username, the normalised stripped email and the unstripped password. The 201 response echoes the stored username. Neither the stripped username nor its normalised form was present before. Uniqueness of usernames is preserved. The precondition is the unique constraint: when the normalised username is taken, `create_user` raises. |
| `Auth.UserTable.constructor` | backend/core/auth_views.py:5 | The table holds exactly the accounts it is given. |
| `Auth.Login` | backend/core/auth_views.py:69-90 | The answer is 400 iff the stripped username or the password is empty. Otherwise it is 200 with the backend's username iff the backend accepts the credentials, and 401 otherwise. Each answer carries its fixed message. |
| `Auth.MissingFieldsIgnoreBackend` | backend/core/auth_views.py:73-79 | With a field missing, the answer is the same 400 whatever the authentication backend would say. |
| `Auth.RegisteredAccountLogsIn` | backend/core/auth_views.py:70-85 | When the backend is the user table, an account logs in with its username, padded or not, and its password. |
| `Auth.EchoedUsernameLogsIn` | backend/core/auth_views.py:70-85 | When the backend is the user table, a body holding an account's own stripped, non-empty username and its non-empty password logs in as that account. |
| `Auth.RegisteredAccountIsLoginReady` | backend/core/auth_views.py:47-57 | An account that registration just inserted has a non-empty password. When normalisation left its username stripped and non-empty, it logs in with the username the 201 response echoed and the password it was registered with. |
| `Client.NormalizeBaseUrl` | frontend-desktop/api_client.py:10-13 | With `API_URL` unset the base is `http://127.0.0.1:8000`. A configured value ending in '/' loses exactly that one character, and any other value is kept as it is. |
| `Client.NormalizeRemovesOneSlash` | frontend-desktop/api_client.py:12-13 | A URL ending in "//" keeps one trailing slash. |
| `Client.NormalizeIsPrefix` | frontend-desktop/api_client.py:12-13 | The base is a prefix of the configured URL, at most one character shorter. |
| `Client.UploadUrl` | frontend-desktop/api_client.py:55 | The upload URL is the base URL followed by `/api/upload/`. |
| `Client.BatchUrl` | frontend-desktop/api_client.py:95 | The statistics URL is the base URL, then `/api/batch/`, then the id in decimal, then '/'. |
| `Client.PdfUrl` | frontend-desktop/api_client.py:111 | The report URL is the base URL, then `/api/export-pdf/`, then the id in decimal, then '/'. |
| `Client.EndpointsExtendBase` | frontend-desktop/api_client.py:42 | Every endpoint URL is the base URL followed by `/api/`. |
| `Client.EndpointsDistinct` | frontend-desktop/api_client.py:42-111 | The upload, statistics and report URLs are pairwise different for all batch ids. |
| `Client.BatchUrlInjective` | frontend-desktop/api_client.py:95 | Two batches never share a statistics URL. |
| `Client.PdfUrlInjective` | frontend-desktop/api_client.py:111 | Two batches never share a report URL. |
| `Client.RaisesForStatus` | frontend-desktop/api_client.py:62 | Defines when `raise_for_status()` raises: a status from 400 to 599. |
| `Client.Latin1` | frontend-desktop/api_client.py:43 | Defines a string every character of which is at most U+00FF. |
| `Client.AuthEncodable` | frontend-desktop/api_client.py:43 | Defines when the basic-auth pair can be encoded: no pair, or both values Latin-1. |
| `Client.Dispatch` | frontend-desktop/api_client.py:43 | A URL that cannot be prepared gives no response, whatever the credentials. A prepared URL with credentials outside Latin-1 raises the encoding error. Otherwise the request is sent. Only the second case raises. |
| `Client.RejectedUrlIgnoresAuth` | frontend-desktop/api_client.py:43-48 | With a URL that cannot be prepared, the result does not depend on the credentials. |
| `Client.DecodeDispatched` | frontend-desktop/api_client.py:62-63 | An error raised while dispatching is kept. Otherwise the result is `raise_for_status()` and `.json()` of the outcome. |
| `Client.Truthy` | frontend-desktop/api_client.py:31 | Defines Python truthiness of an optional string: set and non-empty. |
| `Client.JsonOrError` | frontend-desktop/api_client.py:62-63 | A value comes back exactly when there is a response, its status is not 4xx/5xx and its body is JSON, and that value is the body. A 4xx/5xx status raises with its code. |
| `Client.AuthVerdict` | frontend-desktop/api_client.py:43-48 | Credentials are rejected exactly when the status is 401. No response at all counts as accepted. |
| `Client.ApiClient.constructor` | frontend-desktop/api_client.py:9-17 | The base URL is the normalised `API_URL`, and the new client has no credentials, so `GetAuth` gives `None`. |
| `Client.ApiClient.SetCredentials` | frontend-desktop/api_client.py:19-22 | Both values are stored and the base URL is not touched. `GetAuth` then gives exactly the pair when both values are non-empty, and `None` otherwise. |
| `Client.ApiClient.ClearCredentials` | frontend-desktop/api_client.py:24-27 | Both values become `None`, so `GetAuth` gives `None` whatever was stored before. The base URL is not touched. |
| `Client.ApiClient.GetAuth` | frontend-desktop/api_client.py:29-33 | The pair is returned exactly when both stored values are set and non-empty, and it is those two values. |
| `Client.ApiClient.TestAuth` | frontend-desktop/api_client.py:35-48 | A URL that cannot be prepared gives true. Otherwise credentials that do not encode as Latin-1 raise. Otherwise an OPTIONS probe of the upload URL with the stored credentials gives false exactly when the answer is 401, so true on a network failure. |
| `Client.ApiClient.UploadCsv` | frontend-desktop/api_client.py:50-70 | An unreadable file raises before anything else. Otherwise the file is posted, under its base name and as `text/csv`, to the upload URL, and the result is the decoded body or the raised error, the encoding error included. |
| `Client.ApiClient.GetRecentUploads` | frontend-desktop/api_client.py:72-88 | Gets the upload URL. The result is the decoded body, or the empty list on any failure, the Latin-1 encoding failure included. |
| `Client.ApiClient.GetBatchStats` | frontend-desktop/api_client.py:90-103 | Gets `/api/batch/{id}/`. The result is the decoded body, or else the failure is raised to the caller, the Latin-1 encoding failure included. |
| `Client.ApiClient.DownloadPdf` | frontend-desktop/api_client.py:105-127 | Gets `/api/export-pdf/{id}/`. The result is true exactly when the request is dispatched and the status is not 4xx/5xx. An encoding failure, no response and error statuses are raised, never returned as false. |
| `Store.BatchText` | backend/core/models.py:11-12 | `str(batch)` is "Upload at " followed by the timestamp. |
| `Store.BatchTextInjective` | backend/core/models.py:11-12 | Two batches print alike only when their timestamps are equal. |
| `Store.EquipmentText` | backend/core/models.py:29-30 | `str(equipment)` is the name, then " (", then the type, then ")". |
| `Store.FirstParenAt` | backend/core/models.py:29-30 | When the name has no '(', the first '(' of the text comes right after the name. |
| `Store.EquipmentTextInjective` | backend/core/models.py:29-30 | When neither name contains '(', equal texts mean equal names and equal types. |
| `Store.EquipmentTextAmbiguous` | backend/core/models.py:29-30 | Without that restriction, two different rows can print the same text. |
| `Store.WithinBounds` | backend/core/models.py:23-24 | Defines the `max_length` bounds: a name of at most 255 and a type of at most 100 characters. |
| `Store.BatchStore.Valid` | backend/core/models.py:20-24 | Defines the store invariant: every row's batch exists, every row is within bounds, and every id is below its table's counter. |
| `Store.BatchStore.constructor` | backend/core/models.py:3-30 | Both tables start empty, both counters start at 1, and the invariant holds. |
| `Store.BatchStore.Equipments` | backend/core/models.py:20 | `batch.equipments` is exactly the rows whose foreign key is that batch. |
| `Store.BatchStore.CreateBatch` | backend/core/models.py:3-9 | Adds one batch, with its file and the current time as `uploaded_at`, under the batch counter's value, and advances that counter. No equipment rows change, existing batches stay as they were, and the new batch has no rows. |
| `Store.BatchStore.AddEquipment` | backend/core/models.py:14-27 | The row is refused for a name over 255 characters, then for a type over 100 characters, then for a missing batch. A refused row leaves the table and its counter unchanged. Otherwise exactly that row is added under the equipment counter's value, and that counter advances. Batches and their counter never change, and the invariant holds. |
| `Store.BatchStore.DeleteBatch` | backend/core/models.py:20 | Removes the batch and exactly the rows whose batch it was. Other batches and their `equipments` are untouched, neither counter moves, and the invariant holds. |
| `Store.EquipmentsPartition` | backend/core/models.py:20 | In a valid store each row is in its own batch's `equipments` and in no other. A batch that does not exist has no rows. |

The store's invariant, `BatchStore.Valid`, covers three things: every equipment
row's batch exists; every row is within the length bounds; and ids are below
the table's counter. Each state-changing method keeps the invariant. The
counters never go back, and each new row takes the counter's value, so an id
is never handed out twice, even after its row is deleted.
`Preserved(old(batches), batches)` on every method says that no operation
changes a batch that already exists. In particular, `uploaded_at` is set once,
at creation.

Where the comments and the code disagree, the model follows the code:
- `download_pdf`'s docstring promises `False` on failure, but the code
  re-raises every error. `DownloadPdf` never returns false.
- The constructor's comment says there is "no trailing slash", but only one
  slash is removed. `NormalizeRemovesOneSlash` shows a URL that keeps one.

## Left out

- The CSV parsing, statistics, history and PDF endpoints: the view module
  that holds them (`views`, imported by backend/core/urls.py) is not part of
  this model.
- The URL routing table, the React and PyQt user interfaces and the theme
  constants: they are presentation and framework wiring.
- HTTP transport: timeouts, headers, multipart encoding and streaming are not
  modelled. A request that raises a `RequestException` is the outcome
  `NetworkError`, whatever the reason. The one other exception modelled is
  the `UnicodeEncodeError` of basic-auth credentials outside Latin-1. Which
  URLs `prepare_url` accepts is a parameter, not a definition; of the
  preparation steps, only the order of the URL step before the auth step is
  modelled.
- The diagnostic `print` calls of `upload_csv`, `get_recent_uploads`,
  `get_batch_stats` and `download_pdf` (frontend-desktop/api_client.py:66,
  69, 84, 87, 102, 123, 126): console output is I/O and changes no result.
- `DownloadPdf`: writing the streamed body to `save_path` is not modelled, so a
  failed write, which the source re-raises, does not appear.
- `UploadCsv`: the file is a parameter giving its contents, or `None` when it
  cannot be opened. File system access is not modelled.
- `Text.Basename` follows POSIX paths. The Windows rules of `ntpath`
  (backslashes, drive letters) are not modelled.
- Django's `authenticate` (password hashing, `is_active`, backend selection):
  it is a parameter. `TableAuthenticate` is a plain table lookup and is used
  only to relate login to registration.
- `create_user`: the password is stored as given, and hashing is not
  modelled. Apart from the unique constraint on the username, why it would
  raise is not modelled; the exception, if any, is a parameter.
- `Auth.UserTable.Register`: Django's `normalize_username` (NFKC) and
  `normalize_email` (lower-cased domain) are parameters, not definitions. The
  checks compare the stripped inputs, not their normalised forms, so the
  model does not promise that emails stay unique. Registering
  `a@Example.com` after `a@example.com` stores a second `a@example.com`.
- Request bodies whose values are not strings, on which `.strip()` would
  raise, are not modelled. A missing key reads as "".
- The JSON key order of the error map: the map is unordered, and each key is
  a `FieldName` whose `Key()` is the JSON key.
- The `FloatField` readings: they are opaque integers, and IEEE arithmetic is
  not modelled.
- The upload time: it is a value wrapping the text `str()` gives it, and the
  formatting of `datetime` is not modelled.
- The stored file: it is only its storage name.
- `Store.BatchStore.AddEquipment`: the length bounds are enforced as a
  database with `varchar` limits enforces them. SQLite does not enforce
  `max_length`, and Django does not check it on `create`.
- Database collation: username and email lookups use exact, case-sensitive
  equality.
- Concurrency between requests: none is modelled.
