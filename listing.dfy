/**
 * The listing endpoint: choosing between a fresh and a continued store
 * listing, and turning the store's raw page into the response body. The
 * store's own listing semantics are not modelled: what it returns for a call
 * is an input (the `fetch` function).
 */
module Listing {
  import opened Wrappers
  import opened Primitives
  import opened Schemas

  /** The listing call made on the store. */
  datatype StoreQuery =
    | ContinueListing(continuationToken: string, maxKeys: int)
    | FreshListing(prefix: string, maxKeys: int)

  /** One object as the store's listing describes it. */
  datatype RawItem = RawItem(key: string, lastModified: Timestamp, size: int)

  /** One page of the store's listing, with its continuation token if it gave one. */
  datatype RawListing = RawListing(items: seq<RawItem>, nextToken: Option<string>)

  /** The entry carries the item's key, timestamp and size unchanged. */
  predicate Copies(entry: FileMetadata, item: RawItem) {
    entry.filePath == item.key && entry.lastModified == item.lastModified && entry.sizeBytes == item.size
  }

  /**
   * A truthy page token continues the previous listing, ignoring the
   * directory; otherwise a fresh listing is filtered by the directory prefix.
   * Either way the page size bounds the number of keys.
   */
  function StoreQueryFor(q: GetFilesQueryParams): (sq: StoreQuery)
    ensures sq.ContinueListing? <==> Truthy(q.pageToken)
    ensures sq.maxKeys == q.pageSize
    ensures sq.ContinueListing? ==> sq.continuationToken == q.pageToken.value
    ensures sq.FreshListing? ==> sq.prefix == q.directory
  {
    if Truthy(q.pageToken) then ContinueListing(q.pageToken.value, q.pageSize)
    else FreshListing(q.directory, q.pageSize)
  }

  /** The response entries: one per raw item, in the store's order. */
  function ToFileMetadata(items: seq<RawItem>): (files: seq<FileMetadata>)
    ensures |files| == |items|
    ensures forall i :: 0 <= i < |items| ==> Copies(files[i], items[i])
  {
    if items == [] then []
    else [FileMetadata(items[0].key, items[0].lastModified, items[0].size)] + ToFileMetadata(items[1..])
  }

  /** An empty or missing continuation token is reported as no token at all. */
  function NextPageToken(raw: Option<string>): (t: Option<string>)
    ensures t.Some? <==> Truthy(raw)
    ensures t.Some? ==> t == raw
    ensures t != Some("")
  {
    if Truthy(raw) then raw else None
  }

  /** `list_files` on an already validated query, against whatever the store returns. */
  function ListFiles(q: GetFilesQueryParams, fetch: StoreQuery -> RawListing): (r: GetFilesResponse)
    ensures var raw := fetch(StoreQueryFor(q));
            && |r.files| == |raw.items|
            && (forall i :: 0 <= i < |raw.items| ==> Copies(r.files[i], raw.items[i]))
            && (r.nextPageToken.Some? <==> Truthy(raw.nextToken))
            && (r.nextPageToken.Some? ==> r.nextPageToken == raw.nextToken)
  {
    var raw := fetch(StoreQueryFor(q));
    GetFilesResponse(ToFileMetadata(raw.items), NextPageToken(raw.nextToken))
  }

  /** The whole listing request: the query is validated before the store is asked anything. */
  function GetFiles(raw: RawQuery, fetch: StoreQuery -> RawListing): (r: Result<GetFilesResponse, ValidationError>)
    ensures r.Failure? <==> ValidateQuery(raw).Failure?
    ensures r.Failure? ==> r.error == ValidateQuery(raw).error
    ensures r.Success? ==> r.value == ListFiles(ValidateQuery(raw).value, fetch)
  {
    match ValidateQuery(raw)
    case Failure(e) => Failure(e)
    case Success(q) => Success(ListFiles(q, fetch))
  }

  /** Consecutive pages assemble to the entries of the items they hold together. */
  lemma ToFileMetadataAppend(a: seq<RawItem>, b: seq<RawItem>)
    ensures ToFileMetadata(a + b) == ToFileMetadata(a) + ToFileMetadata(b)
  {
  }

  /** In continue mode the directory plays no part in the store call. */
  lemma ContinueIgnoresDirectory(q: GetFilesQueryParams, directory: string)
    requires Truthy(q.pageToken)
    ensures StoreQueryFor(q.(directory := directory)) == StoreQueryFor(q)
  {
  }

  /** A validated query with an empty token lists afresh under its directory. */
  lemma EmptyTokenListsAfresh(pageSize: Option<int>, directory: Option<string>)
    requires PageSizeAccepted(pageSize)
    ensures var q := ValidateQuery(RawQuery(pageSize, directory, Some("")));
            && q.Success?
            && StoreQueryFor(q.value) == FreshListing(if directory.Some? then directory.value else DefaultDirectory,
                                                      if pageSize.Some? then pageSize.value else DefaultPageSize)
  {
  }

  /** A query carrying only a token continues the listing with the default page size. */
  lemma TokenOnlyContinues(token: string)
    requires token != ""
    ensures var q := ValidateQuery(RawQuery(None, None, Some(token)));
            q.Success? && StoreQueryFor(q.value) == ContinueListing(token, DefaultPageSize)
  {
  }
}
