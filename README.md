# Files API over an object-store bucket — a Dafny model

The files API is a thin HTTP layer over one object-store bucket. It exposes
upload (`PUT /v1/files/{path}`), metadata (`HEAD`), download (`GET`), delete
(`DELETE`) and a paginated listing (`GET /v1/files`). This project models its
core, with the bucket reduced to a map from object key to stored object
(bytes, content type, last-modified instant):

- **Listing-query validation** (`schemas.dfy`, module `Schemas`). A query
  parameter is either supplied or absent (`Option`). Validation first fills
  in defaults and applies the inclusive bounds 10..100 to a supplied page
  size. It then applies the page-token rule: a truthy token excludes a
  page size or directory that the caller *supplied*. The rule looks at which
  fields were supplied, never at their values. The validated query keeps the
  set of supplied fields, as pydantic does.
- **Listing assembly** (`listing.dfy`, module `Listing`). A truthy token
  selects a continued store listing (token plus page size). Otherwise a
  fresh listing runs, filtered by the directory prefix. The store's answer
  is an input (`fetch`). Its items become `FileMetadata` entries one for
  one, in order. An empty or missing continuation token becomes `None`.
- **Object handlers** (`routes.dfy`, module `Routes`). Each handler is a
  method that probes the `Bucket` (`object_store.dfy`) for the key and then
  acts. Each method is proved equal to a pure reply function: 201/200 for
  upload, 200 or 404 for HEAD and GET, 204 or 404 for DELETE.
- **Runs of requests** (`traces.dfy`, module `Traces`). Requests handled one
  after another. After a run, each key holds what the last upload or delete
  of that key left, independently described by `LatestAt`. The number of
  stored objects moves by +1 on every 201 answer and by -1 on every 204
  answer, and by nothing otherwise.
- `decimal.dfy` renders the Content-Length header as Python's `str` does and
  proves that parsing the header back gives the body length.

Two behaviours of the code worth noting:
- The exclusivity rule fires only for a *truthy* token. A supplied empty
  token never triggers it, and listing then runs afresh.
- HEAD on a missing key raises a 404 without a detail.

## Model

| member | source | states |
|---|---|---|
| Decimal.ToDecimal | src/files_api/routes.py:113 | the Content-Length value is a non-empty digit string with no leading zero unless the length is 0 |
| Decimal.ParseToDecimal | src/files_api/routes.py:113 | parsing the rendered Content-Length back yields the body length (round trip) |
| Decimal.ToDecimalInjective | src/files_api/routes.py:113 | different lengths never render to the same header value |
| Schemas.Supplied | src/files_api/schemas.py:50-52 | a field is in the supplied set iff the caller sent that parameter |
| Schemas.ValidateFields | src/files_api/schemas.py:20-45 | accepted iff a supplied page size lies in [10, 100]; below 10 and above 100 are distinct errors carrying the input; absent fields take 10, "" and None; the result is well formed and records the supplied fields |
| Schemas.CheckPageToken | src/files_api/schemas.py:47-55 | fails iff the token is truthy and page_size or directory is in the supplied set; the error is the exact mutual-exclusivity message; on success the query is returned unchanged |
| Schemas.ValidateQuery | src/files_api/schemas.py:36-55 | accepted iff the page size passes its bounds and not (truthy token and page_size or directory supplied); a bounds error wins over the exclusivity error; an accepted query is well formed |
| Schemas.ExplicitDefaultStillExclusive | src/files_api/schemas.py:49-54 | an explicit page_size=10, or an explicit empty directory, with a token is refused although both equal the defaults |
| Schemas.TokenOnlyAccepted | src/files_api/schemas.py:49-55 | a query with only page_token is accepted with page size 10, directory "" and only page_token supplied |
| Schemas.EmptyTokenIsFalsy | src/files_api/schemas.py:49 | with an empty token, acceptance depends on the page-size bounds alone |
| Schemas.OutOfRangePageSizesRejected | src/files_api/schemas.py:39-43 | page sizes -1 and 0 fail the lower bound and 101 the upper bound, whatever else is supplied |
| Schemas.InRangePageSizesAccepted | src/files_api/schemas.py:39-43 | every page size in [10, 100] without a token is accepted and used as given |
| Listing.StoreQueryFor | src/files_api/routes.py:70-81 | continue mode iff the token is truthy, passing the token; otherwise fresh mode passing the directory as prefix; the page size is the key limit in both |
| Listing.ToFileMetadata | src/files_api/routes.py:82-85 | one entry per raw item, same order, key, last-modified and size copied unchanged |
| Listing.NextPageToken | src/files_api/routes.py:87 | a token is reported iff the store's token is truthy, and then unchanged; an empty token is never reported |
| Listing.ListFiles | src/files_api/routes.py:63-87 | the response has as many entries as the store page for the chosen call, each copying its item, and a next token iff the store gave a non-empty one |
| Listing.GetFiles | src/files_api/routes.py:63-67 | the listing fails exactly when query validation fails, with the same error; otherwise it is the listing of the validated query |
| Listing.ToFileMetadataAppend | src/files_api/routes.py:82-85 | assembling two consecutive pages gives the entries of their concatenation |
| Listing.ContinueIgnoresDirectory | src/files_api/routes.py:70-75 | with a truthy token the directory does not affect the store call |
| Listing.EmptyTokenListsAfresh | src/files_api/routes.py:70-81 | a query with an empty token lists afresh under its (default or given) directory and page size |
| Listing.TokenOnlyContinues | src/files_api/routes.py:70-75 | a query with only a non-empty token continues that token with page size 10 |
| ObjectStore.Bucket.ObjectExists | src/files_api/routes.py:40 | the probe answers true iff the key is stored, and changes nothing |
| ObjectStore.Bucket.FetchObject | src/files_api/routes.py:107-110 | a fetch after a positive probe returns the stored object |
| ObjectStore.Bucket.UploadObject | src/files_api/routes.py:50-55 | the key maps to exactly the given bytes, content type and write instant; every other key is unchanged |
| ObjectStore.Bucket.DeleteObject | src/files_api/routes.py:174-177 | the key is removed and nothing else changes |
| Routes.UploadReply | src/files_api/routes.py:40-47 | 201 iff the key was absent, 200 iff present; the body echoes the path with "New file uploaded at /path" or "Existing file updated at /path" |
| Routes.MetadataReply | src/files_api/routes.py:99-116 | 200 iff the key is present, else 404 without detail; Content-Type is the stored type, Content-Length is `str` of the body length and parses back to it, Last-Modified is the stored instant |
| Routes.DownloadReply | src/files_api/routes.py:134-150 | 200 iff present, with exactly the stored bytes under the stored content type; else 404 "File not found" |
| Routes.DeleteReply | src/files_api/routes.py:166-179 | 204 iff the key was present, else 404 "File not found" |
| Routes.AfterDelete | src/files_api/routes.py:171-177 | after a delete the key is gone and every other key keeps its object |
| Routes.UploadFile | src/files_api/routes.py:36-60 | answers as UploadReply on the bucket before the call; the bucket then maps the path to the new object, overwriting, with all other keys unchanged |
| Routes.GetFileMetadata | src/files_api/routes.py:90-116 | answers as MetadataReply on the bucket and leaves the bucket unchanged |
| Routes.GetFile | src/files_api/routes.py:119-150 | answers as DownloadReply on the bucket and leaves the bucket unchanged |
| Routes.DeleteFile | src/files_api/routes.py:153-179 | answers as DeleteReply on the bucket before the call; the bucket then equals AfterDelete of it |
| Routes.UploadThenDownload | src/files_api/routes.py:142-150 | GET after an upload returns the uploaded bytes and content type; a second upload answers 200 |
| Routes.DeleteThenNotFound | src/files_api/routes.py:166-178 | deleting a present key answers 204, leaves one object fewer, and a following GET or DELETE answers 404 "File not found" |
| Routes.UploadTouchesOnlyPath | src/files_api/routes.py:50-55 | an upload changes neither the presence nor the GET/HEAD answers of any other key |
| Routes.UploadDeleteScenario | tests/unit_tests/test__routes__happy_path.py:80-98 | upload, delete, get, delete answer 201-or-200, 204, 404, 404, and the path ends up absent |
| Routes.UploadHeadScenario | tests/unit_tests/test__routes__happy_path.py:59-68 | HEAD after an upload reports the uploaded content type and `str` of its length |
| Traces.Run | src/files_api/routes.py:36-179 | handling requests in order gives one answer per request |
| Traces.Step | src/files_api/routes.py:36-179 | one request gets exactly one answer and changes the bucket at most under its own path; tied to the handler methods by Traces.Handle |
| Traces.Handle | src/files_api/routes.py:36-179 | sending one request to its handler method on a bucket gives the answer and the new bucket that Step gives for the old bucket |
| Traces.HandleAll | src/files_api/routes.py:36-179 | handling requests one after another on a bucket gives the answers and the final bucket that Run gives, so the Traces lemmas hold of the handler methods |
| Traces.StepSize | src/files_api/routes.py:40-55 | one request changes the object count by +1 exactly when it answers 201 and by -1 exactly when it answers 204 |
| Traces.StoreSizeTracksStatuses | src/files_api/routes.py:36-179 | after any run, objects stored = objects at the start + number of 201 answers - number of 204 answers |
| Traces.RunAgreesWithLatest | src/files_api/routes.py:49-55 | after any run, every key holds what its last upload wrote, or nothing if a delete came later, or its initial object if neither occurred |
| Traces.DownloadAfterRun | src/files_api/routes.py:134-150 | a GET after any run returns the last upload of the path unless it was deleted since, then 404 |
| Traces.ReadsPreserveStore | src/files_api/routes.py:90-150 | any run of HEAD and GET requests leaves the bucket unchanged |

## Left out

- The object-store client functions are not part of this model. The bucket is a map, and its primitives are given the obvious map semantics.
- Real store listing semantics are not modelled: key order, prefix matching, the `max_keys` cut-off and token encoding. What the store returns for a listing call is an input, so the "13 objects, page size 10" pagination behaviour is not derived.
- Store failures (missing bucket, permissions) and the generic 500 answer are not modelled. They come from framework exception handlers.
- ObjectStore.Bucket.FetchObject: requires the key to be present. The handlers only fetch after a positive probe, and a fetch of a missing key would be a store failure.
- The race between the existence probe and the write or delete is not modelled. The model is sequential, so the probe always sees the state the action acts on.
- FastAPI and pydantic plumbing is not modelled: routing, dependency injection, parsing query strings into integers, and the shaping of 422 error bodies. The model takes the supplied fields to be exactly the query parameters present in the request. If instead `Depends()` passes the defaults of absent parameters to the query class, pydantic counts all three fields as set, every truthy `page_token` is refused, and Schemas.TokenOnlyAccepted and Listing.TokenOnlyContinues then describe the intended behaviour rather than the observed one; the files modelled do not settle which happens. The "Value error, " prefix seen in 422 bodies is added by pydantic; the model keeps the message as raised. The bounds errors are distinct constructors, not pydantic's message texts.
- Routes.GetFile: returns the whole body instead of streaming it.
- Routes.MetadataReply: keeps Last-Modified as the opaque stored instant. Its RFC 7231 (section 7.1.1.1) date formatting relies on Python's datetime.
- Routes.UploadFile: takes the content type as a string. The case where the uploaded part carries no content type is not modelled, and neither is reading the upload body.
- The write instant of an upload is a parameter (`now`), standing for the store's clock.
- Environment-driven settings and the test fixtures are not part of this model.
