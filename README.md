# couchi_db: the `Couchi` document-store client, modelled in Dafny

`couchi_db` is a small asynchronous client for a CouchDB server. Its class
`Couchi` (couchi_db/main.py) builds the database URL from the server address
and the database name. It logs in through `/_session` and creates the
database on demand. It writes documents with a bounded retry when the
database is missing. It uploads attachments with a PUT that depends on the
revision a HEAD just returned (`If-Match`, section 13.1.1 of RFC 9110). Its
`_check` helper normalises every JSON reply into a `(bool, value)` tuple.

The model has four layers.

- `Http` (http.dfy) holds the requests the client sends and the replies it
  reads. It also holds the URLs it builds and its two pure classifiers:
  `Check` (`_check`) and `SessionAuth` (the result shaping of
  `get_session_auth`). `JsonValue`, `Decimal` and `Results` supply JSON
  values, Python's `str()` of integers, and `None` / `KeyError` outcomes.
- `ClientSpec` (client_spec.dfy) holds one reference function per coroutine.
  Each is a *run* against an arbitrary server. A server is any function
  `Transport<S> = (S, Request) -> (S, Reply)`. A run gives the server's new
  state, the requests sent in order, and the coroutine's result. So the
  lemmas here hold whatever the server answers. Examples are the request
  bound of `add` and the `If-Match` of `attach`.
- `Client` (client.dfy) holds the class `Couchi<S>`. It has the fields of the
  Python object (`db`, `rootUrl`, `username`, `password`, `dbUrl`), the
  transport, the server's state and a ghost log of the requests sent. Each method
  is proved to change the state and the log, and to return its result,
  exactly as its run does. Every `await` is a plain sequential call.
- `CouchServer` (server.dfy) is a server that follows CouchDB's HTTP API for
  the client's one database. It answers 201 to a creation and 404
  `not_found` for a missing database or document. It answers 409 `conflict`
  to a document PUT without a revision and to a stale `If-Match`. It answers
  412 `file_exists` for an existing database and 401 `unauthorized`.
  `Scenarios` (scenarios.dfy) runs the client against this server, case by
  case.

Quirks of main.py that the model keeps on purpose, each proved:

- `add` drops the result of its recursive call (main.py:78). After any
  `not_found` it returns `None`, even when the retry stored the document.
- `if cdb:` (main.py:77) tests a 2-tuple, and Python always treats a 2-tuple
  as true. So the "could not be made" return (main.py:80) is unreachable.
- Only status 200 is success. A 201 Created reply falls into the failure
  branch. So against CouchDB, `add` on a new document, `create_db` and a
  successful upload all return a `(False, body)` tuple.
- A 409 `conflict` counts as success ("<url> already exists"). So a
  conditional attachment PUT with a stale `ETag` would be reported as a
  success.

Further consequences of main.py, each visible in the model:

- main.py reports errors only as tuples, strings and `None`, and as the
  `KeyError` raised when a header is missing. It defines no error types.
- `create_db` forgives only a `conflict` reply. CouchDB answers 412
  `file_exists` for an existing database, so re-creating it is a failure
  (`Scenarios.CreateDbOutcomes`).
- A stale `If-Match` gets 409 `conflict`, which `_check` reports as success
  (`CouchServer.StaleETagRejected`).
- The size guard is `file_size < file_size_limit`, so a file exactly at the
  limit is refused (`ClientSpec.AttachFileSizeGuard`).

## Model

| member | source | states |
|---|---|---|
| `Http.Check` | couchi_db/main.py:47-57 | the tuple is a success exactly for status 200 or a `conflict` body; a failure carries the body or the `"not_found"` tag |
| `Http.CheckPassesBodyIff` | couchi_db/main.py:48-50 | `(True, body)` comes back exactly when the status is 200, whatever the body |
| `Http.CheckConflictIsSuccess` | couchi_db/main.py:51-52 | a non-200 `conflict` reply is success, reported as `"<url> already exists"` |
| `Http.CheckFailures` | couchi_db/main.py:53-57 | other non-200 replies fail with the bare `"not_found"` tag or the unchanged body; the tag appears exactly for a `not_found` error body (or a body that is that very string) |
| `Http.CreatedIsNotSuccess` | couchi_db/main.py:49 | a 201 reply that is not a conflict is classified as a failure |
| `Http.SessionAuth` | couchi_db/main.py:144-147 | success carries the `Set-Cookie` header; failure carries the body; `KeyError` is raised exactly when the body has `"ok"` and the cookie header is missing |
| `Http.SessionAuthOkIff` | couchi_db/main.py:144-147 | `(True, cookie)` exactly when the body has an `"ok"` key and the header is present; without `"ok"` the result is `(False, body)` |
| `Http.DocUrlInjective` | couchi_db/main.py:22 | a document URL is `"http://" + root_url + "/" + db + "/" + doc_id`, and different ids give different URLs |
| `Http.AttachmentUrl` | couchi_db/main.py:106 | the attachment URL is the document URL followed by `"/" + attach_id` |
| `Decimal.NatToString` | couchi_db/main.py:127 | `str()` of a size is a non-empty string of digits without a leading zero, and `"0"` for zero |
| `Decimal.ValueOfNatToString` | couchi_db/main.py:127 | reading the digits back gives the number (round trip) |
| `Decimal.IntToString` | couchi_db/main.py:127 | `str()` of the limit starts with `-` exactly when the limit is negative |
| `ClientSpec.CreateDbRun` | couchi_db/main.py:59-61 | `create_db` sends exactly one database PUT |
| `ClientSpec.AddRun` | couchi_db/main.py:63-82 | `add` terminates (measure `2 - recursed`) and sends at most two requests per retry left |
| `ClientSpec.AddAtLimit` | couchi_db/main.py:69-70 | with `recursed == 2` nothing is sent, the state is unchanged and the result is `(False, "recursed limit reached")` |
| `ClientSpec.AddRequestsAlternate` | couchi_db/main.py:69-78 | the requests of `add` alternate document PUT and database PUT, starting with the document, whatever the server answers |
| `ClientSpec.AddRequestBound` | couchi_db/main.py:69-78 | from `recursed = 0`: at most four requests, document PUTs only at positions 0 and 2, `create_db` only at 1 and 3 |
| `ClientSpec.AddResultByFirstPut` | couchi_db/main.py:72-82 | a successful first PUT gives the unwrapped `r[1]`; a `not_found` gives `None` whatever the retry did; any other failure returns the tuple unchanged; "could not be made" never comes back |
| `ClientSpec.HeadRun` | couchi_db/main.py:88-90 | `head` sends one HEAD for the document |
| `ClientSpec.CurRevRun` | couchi_db/main.py:96-98 | `get_cur_rev` returns the HEAD's `ETag` header, or raises `KeyError` when it is missing |
| `ClientSpec.AttachIsConditionalOnHead` | couchi_db/main.py:100-110 | `attach` sends a HEAD first; a PUT follows exactly when the HEAD had an `ETag`; it goes to `db_url/doc_id/attach_id` with `If-Match` equal to that `ETag`; otherwise `KeyError` |
| `ClientSpec.AttachRun` | couchi_db/main.py:100-110 | `attach` always sends the HEAD first, sends one or two requests, and returns a response exactly when it sent the PUT |
| `ClientSpec.AttachReturnsPutReply` | couchi_db/main.py:103-110 | when the HEAD has an `ETag`, `attach` puts the bytes with that `If-Match` from the state the HEAD left, and returns exactly that PUT's reply (`return res`) |
| `ClientSpec.TooBig` | couchi_db/main.py:127 | the refusal is a failure tuple whose message starts with the file name |
| `ClientSpec.AttachFileRun` | couchi_db/main.py:112-127 | `attach_file` returns `None` exactly when the file does not exist |
| `ClientSpec.AttachFileChecksReply` | couchi_db/main.py:121-125 | below the limit, `attach_file` has `attach`'s state and log and returns `_check` of the PUT's reply, or propagates the `KeyError` |
| `ClientSpec.AttachFileSizeGuard` | couchi_db/main.py:119-127 | a request is sent exactly for an existing file strictly below the limit; a missing file gives `None`; a file at or over the limit gives the size message; in both cases nothing is sent and the server is untouched |
| `ClientSpec.SessionRun` | couchi_db/main.py:140-143 | `get_session_auth` sends exactly one POST of the user's name and password |
| `Client.Couchi.constructor` | couchi_db/main.py:11-22 | the fields are stored and `db_url` is `"http://" + root_url + "/" + db` |
| `Client.Couchi.CreateDb` | couchi_db/main.py:59-61 | new server state, request log and result are those of `CreateDbRun` |
| `Client.Couchi.Add` | couchi_db/main.py:63-82 | the recursive method's state, log and result are those of `AddRun` |
| `Client.Couchi.Head` | couchi_db/main.py:88-90 | state, log and headers are those of `HeadRun` |
| `Client.Couchi.GetCurRev` | couchi_db/main.py:96-98 | state, log and result are those of `CurRevRun` |
| `Client.Couchi.Attach` | couchi_db/main.py:100-110 | state, log and response are those of `AttachRun` |
| `Client.Couchi.AttachFile` | couchi_db/main.py:112-127 | state, log and result are those of `AttachFileRun` (limit defaults to 500000000) |
| `Client.Couchi.GetSessionAuth` | couchi_db/main.py:137-147 | state, log and result are those of `SessionRun` |
| `CouchServer.RepliesAreObjects` | couchi_db/main.py:48 | every decoded reply of the server is a JSON object, so `_check`'s key tests never meet a scalar |
| `CouchServer.StaleETagRejected` | couchi_db/main.py:105-109 | the PUT with the fresh `ETag` succeeds and bumps the revision; repeating it with that stale `ETag` gets 409 and changes nothing; `_check` reads that 409 as success |
| `Scenarios.CreateDbOutcomes` | couchi_db/main.py:59-61 | against CouchDB, creating a new database, an existing one, or one the client may not create all give a failure tuple |
| `Scenarios.AddToMissingDatabase` | couchi_db/main.py:63-82 | on a missing database: PUT, create, PUT again; the document is stored and the result is `None` |
| `Scenarios.AddWithoutAdminRights` | couchi_db/main.py:69-80 | when the database cannot be created, all four requests go out, nothing changes and the result is `None` |
| `Scenarios.AddNewDocument` | couchi_db/main.py:71-82 | a new document is stored, yet the 201 reply comes back as `(False, body)` |
| `Scenarios.AddExistingDocument` | couchi_db/main.py:71-74 | writing over an existing document returns the unwrapped `"<url> already exists"` and keeps the stored body |
| `Scenarios.AttachFileUploads` | couchi_db/main.py:112-125 | HEAD, then a PUT with the current `ETag`; the attachment is stored under the next revision and the 201 is reported as `(False, body)` |
| `Scenarios.AttachFileToMissingDocument` | couchi_db/main.py:96-98 | a HEAD on a missing document has no `ETag`, so `KeyError` is raised and no PUT is sent |
| `Scenarios.SessionOutcomes` | couchi_db/main.py:137-147 | valid credentials give `(True, Set-Cookie)`; wrong ones give `(False, body)` with the `unauthorized` error |

## Left out

- The `httpx` transport is left out: timeouts (main.py:25), creating and closing the `AsyncClient` in `__aenter__`/`__aexit__`, the cookie jar and `get_cookies`. The transport and the server behind it are the `Transport` function and the server state.
- The event-loop policy of asyncio and uvloop (main.py:7) is left out; every `await` is a sequential call.
- The file system calls in `attach_file` are left out: `os.path.isfile`, `getsize` and `aiofiles`. The file is an input: `None` for "not a regular file", otherwise its bytes, whose length is its size.
- The `os.environ` defaults of `__init__` are left out; the constructor takes all four values, and `db` keeps its default `"hello-there"`. The other defaults for document ids and file names are not modelled. `recursed` and `file_size_limit` keep their defaults.
- `print` calls and the `main()` demo (main.py:104, 160-174) are left out.
- `_req` (main.py:32-45) is never called and is left out.
- `get`, `delete`, `get_all` and `get_attach` are left out. Each is one request passed through `_check` or returned raw, and `Check` already covers that logic.
- couchi_db/cli.py (argument dispatch, pretty printing, the `attach_id` default) and couchi_db/tui.py (terminal UI) are not part of this model.
- Client.Couchi.Add: requires `recursed <= 2`. The source's callers always start at 0. Starting above 2 never reaches the limit and may recurse without end.
- `NotMade` stands for the tuple `(False, f"{db} could not be made for {reason}")` without building Python's text rendering of `reason`. The branch is unreachable.
- Http.Check and Http.SessionAuth: key tests look only inside JSON objects. For other bodies Python either raises `TypeError` or tests list or substring membership. The server model only sends object bodies (`CouchServer.RepliesAreObjects`).
- JSON decoding is simplified. `Json` has no fractional numbers, while `res.json()` decodes them as Python floats. Every reply is taken as decoded JSON, so the `JSONDecodeError` that `res.json()` can raise (main.py:48, 144, 147) is not modelled. CouchDB's replies are JSON objects with integer numbers.
- Header names are matched exactly (`ETag`, `Set-Cookie`), while `httpx` matches them case-insensitively. URLs are plain concatenations, without the percent-encoding that `httpx` applies.
- The server model has these limits:
  - It holds a single database.
  - It ignores `_rev` in document bodies, so every PUT over an existing document conflicts.
  - Revision tags are generation numbers, where CouchDB uses "N-hash".
  - It does not check the session cookie on requests.
- No other writer is modelled between the HEAD and the PUT of `attach`. The stale-revision case is shown on the server directly (`CouchServer.StaleETagRejected`).
