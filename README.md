# File storage service — a Dafny model of its core

The service stores uploaded documents on disk in a directory tree built from
each upload's business metadata. The tree has this shape: client, location,
service type, then up to two sub-levels. The service records each upload in a
relational database, and it serves the files back by id: download, delete,
and a filtered, sorted, paginated listing.

This project models four things:

- **Path derivation** (`src/utils.ts`), in module `StoragePath`:
  - the segment sanitiser;
  - the storage-path builder. A path is a sequence of segments.
- **The stored file name** given to every upload (the upload middleware's
  `filename` callback in `src/server.ts`), in module `StoredName`.
- **The file lifecycle** (`src/server.ts`), in module `FileStore`:
  - upload, with find-or-create of client and location;
  - download;
  - delete.

  The store is a class. Its database tables are map fields and the disk is
  the set of paths present, so each handler is a method that changes that
  state step by step.
- **The list handler's query building** (`src/server.ts`), in module
  `ListQuery`:
  - the `where` filter;
  - `orderBy`;
  - `skip`/`take`;
  - the pagination block, as pure functions.

Strings are JavaScript strings: sequences of UTF-16 code units (module
`Text`). The sanitiser's pattern has no `u` flag, and `===` compares code
units, so code units are what the program works on.

The handlers' JSON messages are the constructors of `FileStore.Message`, and
`MessageText` gives each one its wording in the program.

A missing value (`undefined`/`null`) is `None`. JavaScript truthiness is
written out:

- a string is truthy when it is present and non-empty;
- an id is truthy when it is present and non-zero.

What the model cannot see is passed in as a parameter:

- **the random token** in stored names (a v4 UUID in the program);
- **`JSON.parse` succeeding**: `isJson`;
- **date parsing**: `parseDate`;
- **filesystem outcomes** in general: `fault`, `unlinkFault` and
  `cleanupFault` stand for an unlink failing with anything but ENOENT.

In these places the model follows the code as written, which a reader might
expect to behave otherwise:

- **Missing-metadata message.** The path builder's error message is one
  constant naming all three required fields, whichever field is missing.
- **Stored-name stem.** The stored name keeps the original base name
  unsanitised.
- **No cleanup on 400.** The 400 early returns of the upload handler
  (missing names, unknown service type) leave the bytes the middleware wrote
  on disk. Only the catch block unlinks them.
- **Download MIME type.** The download passes no MIME type, so the stored
  MIME type does not reach the response.
- **`..` segments.** A sanitised segment may be `.` or `..`, so the tree is
  not guaranteed to stay under the base directory (`DotSegmentsPassThrough`).
- **A test that disagrees.** The stored-name pattern expected by
  src/__tests__/server.upload.test.ts:202-203 does not match what the
  `filename` callback builds (`<base>_<uuid><ext>`). The model follows the
  callback.

## Model

| member | source | states |
|---|---|---|
| StoragePath.ReplaceUnsafe | src/utils.ts:11 | the global replace keeps the length of its input |
| StoragePath.SanitizePathPart | src/utils.ts:9-12 | a falsy name gives the empty segment; any other name gives a segment of the same length |
| StoragePath.ReplaceUnsafeAt | src/utils.ts:11 | the replace works one code unit at a time: position i of the result is unit i kept if it is in `[A-Za-z0-9_.-]`, else `_` |
| StoragePath.SanitizedIsSafe | src/utils.ts:9-12 | every code unit of a sanitised segment is in `[A-Za-z0-9_.-]` |
| StoragePath.ReplaceUnsafeFixesSafe | src/utils.ts:11 | the replace leaves a string unchanged if and only if all its units are already safe |
| StoragePath.SanitizeIdempotent | src/utils.ts:9-12 | sanitising a sanitised segment changes nothing |
| StoragePath.DotSegmentsPassThrough | src/utils.ts:9-12 | `.` and `..` come through the sanitiser unchanged |
| StoragePath.GenerateStoragePath | src/utils.ts:30-67 | it fails exactly when one of client, location or service-type name is falsy, always with the one missing-names error (its message, `PathErrorMessage`, names all three fields); a successful path has between four and six segments |
| StoragePath.MandatorySegments | src/utils.ts:44-46 | a successful path starts with the base and the three sanitised names, in that order |
| StoragePath.ServiceTypeNamesDistinct | src/utils.ts:52-60 | the three service-type names that select sub-levels are pairwise distinct, so at most one rule applies |
| StoragePath.SubLevels | src/utils.ts:48-64 | the segments after the first four, for each service type: both sub-levels or none for Mantenimientos (periodicity, equipment) and Levantamientos (equipment, task); the task alone for Obras when given; nothing for any other service type. The choice is made on the unsanitised name |
| StoredName.LastDot | src/server.ts:71 | the index found holds a dot and no later index does, or it is -1 |
| StoredName.ExtName | src/server.ts:71 | the extension is empty exactly when the name has no dot, its last dot is its first character, or it is `..`; otherwise it is the name from its last dot on, a proper suffix that starts with its only dot |
| StoredName.BaseName | src/server.ts:72 | stripping the extension leaves the part before it; an empty extension strips nothing; a name equal to its extension gives "" |
| StoredName.StoredFilenameShape | src/server.ts:69-73 | the stored name is the original's stem, `_`, the token, then the original extension, and stem plus extension is the original name |
| StoredName.StoredFilename | src/server.ts:69-73 | the stored name is one `_` and the token longer than the original, and it ends with the original's extension |
| StoredName.StoredFilenameKeepsExtension | src/server.ts:69-73 | for a dot-free token (a UUID has none) and any original name but `..`, the stored name has the same extension as the original |
| StoredName.DotDotGainsExtension | src/server.ts:69-73 | the excluded name: `..` has no extension, but its stored name `.._<token>` has the extension `._<token>` |
| StoredName.LastDotIsUnique | src/server.ts:71 | a dot with no dot after it is the last dot |
| StoredName.StoredFilenameInjective | src/server.ts:69-73 | one original name with two different tokens gives two different stored names |
| ListQuery.EntityFilterOf | src/server.ts:455-470 | an id filter exactly when the id is truthy; a name filter exactly when there is no id and the name is truthy; each carries its value |
| ListQuery.IdOverridesName | src/server.ts:455-470 | when an id is given, the name has no influence on the filter |
| ListQuery.BuildWhere | src/server.ts:453-485 | the request fails exactly when a service date is given that does not parse, with the 400 message; otherwise each entity has the filter above, and there is a day window exactly when a service date is given, starting at the parsed date |
| ListQuery.FieldName | src/server.ts:487-490 | the seven whitelisted column names, each 2 to 26 code units long; `FieldNamesDistinct` shows them pairwise distinct |
| ListQuery.SortFieldOf | src/server.ts:492-494 | the sort field is either the default `fecha_subida` or the field that `sortBy` names |
| ListQuery.OrderByOf | src/server.ts:496-500 | the `orderBy` object's field is the default or the one named, and its direction is ascending exactly when `sortOrder` is `asc` |
| ListQuery.PageOf | src/server.ts:440-447 | the page is the request's, or 1 when absent, and at least 1 for validated paging |
| ListQuery.LimitOf | src/server.ts:441-448 | the limit is the request's, or 10 when absent, and within 1..100 for validated paging |
| ListQuery.DirectionOf | src/server.ts:496 | ascending exactly when `sortOrder` is `asc`; descending otherwise, including when it is absent |
| ListQuery.SortFieldWhitelist | src/server.ts:487-494 | a whitelisted column name sorts by that column; any other value, or none, sorts by `fecha_subida` |
| ListQuery.FieldNamesDistinct | src/server.ts:487-490 | the seven whitelisted column names are pairwise distinct |
| ListQuery.Skip | src/server.ts:450 | the offset is never negative for a page of at least 1 |
| ListQuery.TotalPages | src/server.ts:516 | the page count is the least n with count ≤ n·limit |
| ListQuery.ItemOnItsPage | src/server.ts:450-516 | every item index lies on a page between 1 and the page count, inside that page's skip/take window |
| ListQuery.PagesAfterLastAreEmpty | src/server.ts:450-516 | a page past the last one starts at or after the end of the results |
| ListQuery.BuildPlan | src/server.ts:440-513 | fails exactly when the `where` fails; otherwise the same `where` goes to both the page query and the count query, skip is (page−1)·limit, take is the limit (defaults 1 and 10) and lies in 1..100, and the orderBy is the whitelisted field and direction |
| ListQuery.PaginationOf | src/server.ts:516-525 | total items is the count, current page and items per page are the request's, and total pages is the ceiling of count / limit |
| FileStore.MessageText | src/server.ts:181-766 | the wording of each handler message and of the global error handler's message; the unknown-service-type message quotes the name it was given |
| FileStore.UploadResponse | src/server.ts:181-257 | 201 exactly for a created row, with the upload success message; 400 exactly for a bad request, with the handler's message; 500 exactly for an error passed to the global handler, with that handler's generic message |
| FileStore.PathMetadataOf | src/server.ts:48-58 | the metadata handed to the path builder has all three required names exactly when the request body has them |
| FileStore.NewRecord | src/server.ts:222-246 | the row takes the next id, the uploaded file's name, stored name, path, MIME type and size, the resolved client, location and service-type ids, and the body's periodicity, equipment name, task id, service date and uploader id unchanged; truthy extra metadata is stored as the body's text, falsy extra metadata as null |
| FileStore.DeleteResponse | src/server.ts:570-616 | 404 "not found" without a record; otherwise 200, with the plain success message exactly when the unlink did not really fail, and the partial-success message when it did |
| FileStore.DownloadDecision | src/server.ts:299-317 | not found exactly when there is no record; physical-missing exactly when there is a record but the file is not accessible; otherwise the record's path is sent under its original name |
| FileStore.DownloadResponse | src/server.ts:299-317 | a missing row and a missing file are 404s with their own messages; a send is a 200 whose body is the file, with no JSON message |
| FileStore.MessagesTellOutcomesApart | src/server.ts:300-615 | the two download 404s are worded differently, and so are the full and the partial delete success |
| FileStore.ReferencesGrow | src/server.ts:202-246 | adding client and location rows keeps every file row's references to existing rows valid |
| FileStore.Store.constructor | prisma/seed.ts:8-19 | an empty store with the seeded service types and every id counter at 1, satisfying the store invariant |
| FileStore.Store.Unlink | src/server.ts:579-601 | the outcome is an error exactly when a fault occurs, and ENOENT exactly when there is no fault and the path is absent; the path is removed only when removal succeeded, and afterwards it is absent unless the unlink failed |
| FileStore.Store.FindOrCreateClient | src/server.ts:202-206 | an existing client with that name is returned and nothing changes; otherwise exactly one client is added under the next id with the given details; the store invariant is preserved |
| FileStore.Store.FindOrCreateLocation | src/server.ts:208-212 | the same for locations, with address and details |
| FileStore.Store.Receive | src/server.ts:46-73 | the write fails exactly when a required name is falsy, with the path builder's error, and writes nothing; otherwise the file lands at the generated directory plus the stored name, and that path is added to the disk |
| FileStore.Store.Upload | src/server.ts:169-259 | no file or a missing name answers 400 and changes nothing; client and location are found or created, each id counter moving on by one exactly when a row was created; an unknown service type answers 400 and leaves the disk alone; invalid metadata JSON is a server error and removes the uploaded bytes unless that unlink fails; a row is created exactly when names, service type and metadata are all good, under the next id with the uploaded file's data, and the file id counter moves on by one exactly then; no other outcome creates a row; the store invariant is preserved |
| FileStore.Store.CreateFileRow | src/server.ts:214-257 | steps 3 and 4 of the upload with client and location present: the same service-type, JSON and row-creation outcomes, the file id counter moving on by one exactly when a row is created, and the same invariant |
| FileStore.Store.Lookup | src/server.ts:295-297 | the record is found exactly when the id is in the table, and it is that row |
| FileStore.Store.Download | src/server.ts:287-341 | not found exactly when there is no row; physical-missing exactly when the row's path is not on disk; otherwise the bytes at the row's path go out under the original name |
| FileStore.Store.Delete | src/server.ts:557-624 | an unknown id gives 404 and changes neither table nor disk; a known id has exactly that row deleted whatever the unlink reports, with the unlink outcome and the disk change as for `Unlink` on the row's path; afterwards the id is not downloadable; the store invariant is preserved |
| FileStore.UploadThenDownload | src/server.ts:169-317 | for a file the upload middleware has written, the handler answers 201 with the success message exactly when the names are present, the service type exists and the metadata parses; a created row is downloadable at once, from the written path under the original name |

## Left out

- **HTTP, Express and Multer plumbing**: routing, multipart parsing, the
  logger, the Swagger document, the health route and the global error
  handler's `error` and `stack` fields. An error passed to `next` is
  `ServerError` carrying its message, and its response is the 500 with the
  handler's generic `ServerFailure` message.
- **The middleware-to-handler hand-off.** `Receive` and `Upload` are
  separate members. `UploadThenDownload` starts from a file already on
  disk, which is what a successful `Receive` ensures; a path error thrown
  during `Receive` goes straight to the global handler.
- **The request validators** in src/validators.ts: trimming, the JSON
  pre-check and the type conversions. None of them is modelled.
  - The list handler's page and limit bounds appear as `ValidPaging`, the
    precondition of `ListQuery.BuildPlan` and `ListQuery.PaginationOf`.
  - The metadata JSON pre-check is not applied before the upload handler.
    The model lets invalid JSON reach the handler, so the catch path that
    the handler itself has can be modelled.
  - The list validators reject any `sortBy` outside the seven column names
    and any `sortOrder` other than `asc` or `desc` with a 400
    (src/validators.ts:60-61). Through the route, the handler's fallbacks
    to `fecha_subida` and `desc` (`SortFieldWhitelist`, `DirectionOf`) are
    only reached when the parameter is absent. The model states the
    handler's own fallbacks for every value.
- **Database failures.** A failing query or insert leads to a 500, and the
  model leaves that path out.
- **Concurrency.** Two requests can race on the same client or location
  name between `findUnique` and `create`, and the repository's uniqueness
  constraint then rejects one of them. Handlers are modelled one at a time.
- **The order of the cleanup unlink.** The catch block's
  `fs.unlink(req.file.path)` (src/server.ts:254) is not awaited, so the 500
  can be sent before the bytes are gone. `Upload` and `CreateFileRow`
  perform the removal before they return `ServerError`. The model does not
  capture this interleaving; it gives only the state once the unlink has
  settled.
- **Timestamps, and the unused content hash**, in the File row.
- **The metadata value.** The row keeps the metadata text, not the parsed
  JSON object.
- **The service-date day window.** It is the symbolic `DayStarting(date)`.
  The local-time "next day" arithmetic and the repository's evaluation of
  filters, order and count are not modelled; the count is an input of
  `PaginationOf`.
- **Directories on disk.** `fs.mkdir` of the destination and of the upload
  root at start-up is left out. The disk is only the set of file paths.
- **`path.join` normalisation.** Paths are kept as segment sequences:
  - `..` is not resolved;
  - repeated separators are not collapsed;
  - original names are taken to hold no `/`.
- **Streaming.** The streaming in `res.download` and its error callback are
  left out; `Send` is the decision to stream the file.
- **The 100 MB size limit** of the upload middleware.
- **Extra response fields.** The `fileId` echoed by the delete response is
  carried by `Deleted(fileId, …)`, not by `Response`. The `data` array of the
  list response is the result of the page query, which is not modelled.
- StoredName.StoredFilenameKeepsExtension: the original name `..` is
  excluded, because there the property is false: `extname("..")` is "",
  but the stored name `.._<token>` has the extension `._<token>`
  (`DotDotGainsExtension` proves this case).
- Text.Lit: literals outside the Basic Multilingual Plane are not encoded as
  surrogate pairs, because every literal of the program lies inside it.
- ListQuery.TotalPages: `Math.ceil` on a floating-point quotient is modelled as
  integer ceiling division, which agrees for counts below 2^53.
