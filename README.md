# QR code manager — a Dafny model

The system stores a list of QR code entries (id, title, linked document, document
type, creation time). A browser client keeps the list in memory. It appends, deletes
and edits entries there, and after each change it posts the whole list to a
serverless endpoint. That endpoint keeps the list as one value under the key
`qrCodes` of an external key-value store. It guards writes with a static security
code and keeps one process-wide store client, which it creates lazily and throws
away after any failure.

The model has five modules:

- `Wrappers` (`wrappers.dfy`): `Option`, used for JavaScript `null`/`undefined`.
- `QrEntries` (`entries.dfy`): the `Entry` record. It also holds the two array
  operations the client applies to its list: `find` by id, as `FindIndex`, and
  `filter` by id, as `WithoutId`. Their lemmas cover order, multiplicities and
  idempotence.
- `QrApp` (`app.js`): the class `Manager`. It holds the module-level list
  `qrCodes` and a log `attempts` of every save that `saveQRCodes` issued. Its
  methods are `loadQRCodes`, `saveQRCodes`, `addQRCode`, `removeQRCode` and
  `handleEditSubmit`. Each method's new state is tied to the pure functions
  `NewEntry`, `WithoutId`, `EditEntry` and `EditedList`. "No save happened" is
  stated as `attempts == old(attempts)`.
- `QrApi` (`api/qr-codes.js`): the reconnect strategy, the server state
  (`store`, `client`, number of clients created) and `Handle`, the specification of
  `handler`. The class `QrCodesHandler` implements `getRedisClient` and `handler`
  step by step and is proved against `Connect` and `Handle`.
- `QrSystem`: the client's request as the server sees it, plus two end-to-end scenarios.

Outside influences become parameters:

- the `fetch` outcome (`FetchResult`), the `confirm` answer, and whether the file
  reader's `onload` ran;
- the new entry's id and timestamp;
- the configured `SECURITY_CODE` environment value (`Option`, since it may be unset);
- whether `connect` fails and whether the store command (`get`/`set`) fails.

Serialisation is treated as the identity, so the store holds the posted list itself.

The model follows the code, including where it departs from what its design describes:

- The reconnect policy is linear (`retries * 100` ms, capped at 3000 ms), not
  exponential. The cap is never reached, because the strategy gives up after
  retry count 3.
- `getRedisClient` runs before the method is dispatched. So any request other than
  OPTIONS gets 500 when the connection cannot be made. That includes a PUT and a
  POST with a wrong code.
- The code check compares possibly-missing values with `!==`. So when no code is
  configured, a POST that omits `securityCode` is accepted
  (`MissingCodeAcceptedWhenUnconfigured`).
- The edit form prefills its URL field with the entry's current `documentUrl`
  (app.js:168). So a title-only edit of an entry that already has a document
  normally takes the URL branch, and an uploaded file's type then becomes "url".
  The case `TitleOnlyEdit` describes is reached only when the field is left empty.

## Model

| member | source | states |
|---|---|---|
| QrEntries.FindIndex | app.js:198 | the index found is the first whose id matches; None exactly when no entry has the id |
| QrEntries.WithoutId | app.js:74 | the result is no longer than the input and holds exactly the input's entries whose id differs |
| QrEntries.WithoutIdKeepsOrder | app.js:74 | the filtered list is a subsequence of the original: the remaining entries keep their relative order |
| QrEntries.WithoutIdCounts | app.js:74 | every entry with the id is gone; every other entry occurs as often as before |
| QrEntries.WithoutAbsentId | app.js:74 | removing an id no entry carries leaves the list unchanged |
| QrEntries.WithoutIdIdempotent | app.js:74 | removing the same id twice equals removing it once |
| QrEntries.FindIndexSameIds | app.js:198 | lists whose ids agree position by position locate an id at the same index, so the edit never moves which entry `find` picks |
| QrApp.NewEntry | app.js:59-65 | a new entry has the given id and timestamp, an empty title and no document url or type |
| QrApp.EditEntry | app.js:202-229 | an edit sets the title and keeps id and timestamp; documents are kept, or set to the URL with type "url", or set to the file's data URI with the file's MIME type |
| QrApp.EditedList | app.js:198-202 | only the first entry with the id is replaced by its edit; ids, timestamps and length are kept; an unknown id changes nothing |
| QrApp.OnlyFirstMatchEdited | app.js:198 | a later entry with a duplicate id is not touched |
| QrApp.EditIdempotent | app.js:198-229 | submitting the same edit twice gives the same list as once |
| QrApp.FileTakesPrecedence | app.js:205-209 | a selected file wins over the URL field, whatever it holds; the type becomes the file's MIME type |
| QrApp.IsOk | app.js:39 | `response.ok`: true only for a response, and for a response exactly when its status is 2xx |
| QrApp.ChosenDocument | app.js:205-229 | a file is chosen exactly when one is given; otherwise a URL exactly when the field is non-empty; otherwise the document is kept |
| QrApp.UrlEdit | app.js:218-220 | with no file and a non-empty URL, the found entry gets the new title, the URL and type "url"; every other entry is unchanged |
| QrApp.TitleOnlyEdit | app.js:227-229 | with neither file nor URL, only the title changes |
| QrApp.Manager.constructor | app.js:3 | the list and the save log start empty |
| QrApp.Manager.LoadQRCodes | app.js:12-26 | an OK response replaces the list; a failed or non-OK response keeps it; nothing is saved |
| QrApp.Manager.SaveQRCodes | app.js:29-50 | posts a snapshot of the current list with the code; returns true iff the response is OK; the list is never rolled back |
| QrApp.Manager.AddQRCode | app.js:58-69 | exactly one new entry is appended after all earlier ones, then the list is saved with the built-in code, whatever the save's outcome |
| QrApp.Manager.RemoveQRCode | app.js:72-78 | when confirmed, the list becomes the id-filtered list and is saved; when not confirmed, the list and the save log are unchanged |
| QrApp.Manager.HandleEditSubmit | app.js:183-236 | a wrong code, or an unknown id, changes nothing and saves nothing; a file whose read never completes leaves only the title changed and unsaved; otherwise the list becomes `EditedList` of the chosen document and is saved; a failed save keeps the edit |
| QrApi.ReconnectStrategy | api/qr-codes.js:10-13 | gives up exactly when retries > 3; otherwise the delay is exactly retries * 100 and at most 300, so the 3000 cap never applies |
| QrApi.ScheduleShape | api/qr-codes.js:10-13 | from retry count n, 4 - n more attempts are granted (none past 3), the k-th after (n + k) * 100 ms |
| QrApi.ScheduleFromStart | api/qr-codes.js:10-13 | for the counts 0, 1, 2 and 3 the delays are 0, 100, 200 and 300 ms, and at count 4 the strategy gives up |
| QrApi.Usable | api/qr-codes.js:6 | a client is reused only when it is not null, and then exactly when it is open |
| QrApi.Accepted | api/qr-codes.js:53 | the fallback code always passes; a missing code passes exactly when no code is configured; any other code passes exactly when it equals the configured one |
| QrApi.Connect | api/qr-codes.js:5-24 | an open client is reused unchanged; otherwise a new client (the next serial) is created and is usable iff connect succeeds; the store is untouched |
| QrApi.Failed | api/qr-codes.js:62-80 | on any failure the client becomes null and the status is 500 |
| QrApi.Handle | api/qr-codes.js:26-82 | statuses are 200, 401, 405 or 500; a 500 leaves no client; the store changes only through an accepted POST, which stores the posted list and answers `{success:true}` |
| QrApi.OptionsUntouched | api/qr-codes.js:32-34 | OPTIONS is answered 200 with no body; state, client and store are untouched |
| QrApi.GetReadsOnly | api/qr-codes.js:39-46 | GET never writes; it succeeds iff the client is usable or connects and the read succeeds; it returns the stored list, or [] when the key is absent |
| QrApi.GetTwiceSame | api/qr-codes.js:41-46 | two successful GETs with no write between them give the same answer |
| QrApi.RejectedPost | api/qr-codes.js:53-55 | a code that is neither the configured one nor 'admin123' never writes, and once connected is answered 401 |
| QrApi.AcceptedPostRoundTrip | api/qr-codes.js:48-58 | an accepted POST overwrites the key whatever it held and answers 200; a following successful GET returns the posted list |
| QrApi.OtherMethodRefused | api/qr-codes.js:61 | any other method never writes; it is answered 405 iff the connection succeeds, else 500 |
| QrApi.FailureForcesNewClient | api/qr-codes.js:73 | after a 500 the next non-preflight request creates a new client |
| QrApi.MissingCodeAcceptedWhenUnconfigured | api/qr-codes.js:53 | with no configured code, a POST without a code passes the check |
| QrApi.QrCodesHandler.constructor | api/qr-codes.js:3 | the module starts with no client and none created, over the store's existing contents |
| QrApi.QrCodesHandler.GetRedisClient | api/qr-codes.js:5-24 | its new state and result are those of `Connect` |
| QrApi.QrCodesHandler.Fail | api/qr-codes.js:62-80 | the client is dropped, nothing else changes, and the answer is 500 |
| QrApi.QrCodesHandler.Handler | api/qr-codes.js:26-82 | its new state and response are those of `Handle` |
| QrApi.QrCodesHandler.ConnectionLost | api/qr-codes.js:6 | the existing client becomes not open; store and count unchanged |
| QrSystem.AsRequest | app.js:31-37 | a save becomes a POST whose body carries the saved snapshot and the code |
| QrSystem.ClientSaveNeverUnauthorized | api/qr-codes.js:53 | the client's code equals the server's fallback, so a client save is either stored with 200 or fails with 500 and leaves the store as it was |
| QrSystem.AddThenList | app.js:58-67 | with an empty store, adding gives a one-entry list; the client's one logged save carries that list; the save succeeds, the store then holds that list, and a GET lists it |
| QrSystem.EditKeptOnStoreFailure | app.js:218-226 | the client's one logged save carries the edited list; when the store write fails, the client reports failure but keeps the edited entry, while the store keeps the old one |

## Left out

- Rendering, the print view, the edit modal and its event wiring (`renderQRGrid`, `createQRCard`, `openEditModal`, `closeEditModal`, `printQRCode`, `setupEventListeners`) and the QR renderer: presentation only.
- `generateRandomId` and `new Date().toISOString()`: they use floating-point randomness and the clock, so the id and timestamp are inputs.
- `fetch`, `confirm`, `alert` and the console: their outcomes are parameters (`FetchResult`, `confirmed`, `EditOutcome`).
- The asynchronous `FileReader`: its `onload` is modelled as running straight after the submission or never (`fileLoaded`). An operation interleaved before `onload`, which would mutate an entry already detached from the list, is not modelled. The data URI is an opaque input, not derived from the file's bytes.
- `JSON.parse`/`JSON.stringify` and Redis internals: serialisation is the identity. A stored value that fails to parse, and a body whose `qrCodes` is not an array, are not modelled.
- A JSON `null` or a non-string `securityCode` in the POST body is not representable (`PostBody.securityCode` is an optional string). The source always rejects such a code with 401 once connected, because it equals neither the configured string, nor an unset value, nor 'admin123'.
- A failed `set` is taken to leave the stored value unchanged.
- The error message and stack in the 500 body, and the CORS headers: they change no state.
- `client.quit()`: it does not change the model's state, and its errors are ignored as in the source.
- Concurrent requests and racing POSTs: the handler has no concurrency of its own.
- `ConnectionLost` stands for the store client closing by itself. The model does not say when the client library does this.
