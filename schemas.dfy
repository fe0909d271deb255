/**
 * Request and response schemas of the files API: the listing query with its
 * defaults, range checks and the page-token exclusivity rule, and the records
 * the handlers return.
 */
module Schemas {
  import opened Wrappers
  import opened Primitives

  const DefaultPageSize: int := 10
  const MinPageSize: int := 10
  const MaxPageSize: int := 100
  const DefaultDirectory: string := ""

  /** The text of the error `check_page_token` raises. */
  const MutuallyExclusiveMessage: string :=
    "'page_token' is mutually exclusive with 'page_size' and 'directory'"

  /** One entry of a listing page. */
  datatype FileMetadata = FileMetadata(filePath: string, lastModified: Timestamp, sizeBytes: int)

  /** Body of the answer to an upload. */
  datatype PutFileResponse = PutFileResponse(filePath: string, message: string)

  /** Body of the answer to a listing request. */
  datatype GetFilesResponse = GetFilesResponse(files: seq<FileMetadata>, nextPageToken: Option<string>)

  /** The fields of the listing query, as named in the set of explicitly supplied fields. */
  datatype QueryField = PageSizeField | DirectoryField | PageTokenField

  /** The listing query as the caller sent it: `None` means the parameter was not supplied. */
  datatype RawQuery = RawQuery(pageSize: Option<int>, directory: Option<string>, pageToken: Option<string>)

  /**
   * A validated listing query: the effective value of every field, with
   * defaults filled in, and the set of fields the caller supplied explicitly.
   */
  datatype GetFilesQueryParams =
    GetFilesQueryParams(pageSize: int, directory: string, pageToken: Option<string>, fieldsSet: set<QueryField>)

  datatype ValidationError =
    | PageSizeBelowMinimum(input: int)  // the `ge` bound on page_size
    | PageSizeAboveMaximum(input: int)  // the `le` bound on page_size
    | ValueError(message: string)       // raised by the model validator

  /** Python truthiness of an optional string: present and non-empty. */
  predicate Truthy(token: Option<string>) {
    token.Some? && token.value != ""
  }

  /** A supplied page size passes the field's bounds; an absent one takes the default. */
  predicate PageSizeAccepted(pageSize: Option<int>) {
    pageSize.Some? ==> MinPageSize <= pageSize.value <= MaxPageSize
  }

  /** The exclusivity rule, decided on which fields were supplied and never on their values. */
  predicate ExclusivityViolated(tokenValue: Option<string>, fieldsSet: set<QueryField>) {
    Truthy(tokenValue) && (PageSizeField in fieldsSet || DirectoryField in fieldsSet)
  }

  /**
   * What every successfully built query satisfies: the page size is in range,
   * and a field the caller did not supply holds its default.
   */
  predicate WellFormed(p: GetFilesQueryParams) {
    && MinPageSize <= p.pageSize <= MaxPageSize
    && (PageSizeField !in p.fieldsSet ==> p.pageSize == DefaultPageSize)
    && (DirectoryField !in p.fieldsSet ==> p.directory == DefaultDirectory)
    && (PageTokenField !in p.fieldsSet ==> p.pageToken == None)
  }

  /** The names of the parameters present in the request. */
  function Supplied(raw: RawQuery): (fields: set<QueryField>)
    ensures PageSizeField in fields <==> raw.pageSize.Some?
    ensures DirectoryField in fields <==> raw.directory.Some?
    ensures PageTokenField in fields <==> raw.pageToken.Some?
  {
    (if raw.pageSize.Some? then {PageSizeField} else {})
    + (if raw.directory.Some? then {DirectoryField} else {})
    + (if raw.pageToken.Some? then {PageTokenField} else {})
  }

  /**
   * Field validation: defaults for absent fields, the inclusive bounds on a
   * supplied page size, and the record of which fields were supplied.
   */
  function ValidateFields(raw: RawQuery): (r: Result<GetFilesQueryParams, ValidationError>)
    ensures r.Success? <==> PageSizeAccepted(raw.pageSize)
    ensures r.Failure? && raw.pageSize.value < MinPageSize ==> r.error == PageSizeBelowMinimum(raw.pageSize.value)
    ensures r.Failure? && raw.pageSize.value >= MinPageSize ==> r.error == PageSizeAboveMaximum(raw.pageSize.value)
    ensures r.Success? ==> WellFormed(r.value) && r.value.fieldsSet == Supplied(raw)
    ensures r.Success? && raw.pageSize.Some? ==> r.value.pageSize == raw.pageSize.value
    ensures r.Success? && raw.directory.Some? ==> r.value.directory == raw.directory.value
    ensures r.Success? ==> r.value.pageToken == raw.pageToken
  {
    if raw.pageSize.Some? && raw.pageSize.value < MinPageSize then
      Failure(PageSizeBelowMinimum(raw.pageSize.value))
    else if raw.pageSize.Some? && raw.pageSize.value > MaxPageSize then
      Failure(PageSizeAboveMaximum(raw.pageSize.value))
    else
      var pageSize := if raw.pageSize.Some? then raw.pageSize.value else DefaultPageSize;
      var directory := if raw.directory.Some? then raw.directory.value else DefaultDirectory;
      Success(GetFilesQueryParams(pageSize, directory, raw.pageToken, Supplied(raw)))
  }

  /**
   * The model validator run after field validation: a truthy page token
   * excludes an explicitly supplied page size or directory.
   */
  function CheckPageToken(p: GetFilesQueryParams): (r: Result<GetFilesQueryParams, ValidationError>)
    ensures r.Failure? <==> ExclusivityViolated(p.pageToken, p.fieldsSet)
    ensures r.Failure? ==> r.error == ValueError(MutuallyExclusiveMessage)
    ensures r.Success? ==> r.value == p
  {
    if Truthy(p.pageToken) && (PageSizeField in p.fieldsSet || DirectoryField in p.fieldsSet) then
      Failure(ValueError(MutuallyExclusiveMessage))
    else
      Success(p)
  }

  /** Building the listing query: field validation first, then the model validator. */
  function ValidateQuery(raw: RawQuery): (r: Result<GetFilesQueryParams, ValidationError>)
    ensures r.Success? <==>
              PageSizeAccepted(raw.pageSize)
              && !(Truthy(raw.pageToken) && (raw.pageSize.Some? || raw.directory.Some?))
    ensures !PageSizeAccepted(raw.pageSize) ==> r.Failure? && !r.error.ValueError?
    ensures PageSizeAccepted(raw.pageSize) && r.Failure? ==> r.error == ValueError(MutuallyExclusiveMessage)
    ensures r.Success? ==> WellFormed(r.value) && r.value.fieldsSet == Supplied(raw)
    ensures r.Success? && raw.pageSize.Some? ==> r.value.pageSize == raw.pageSize.value
    ensures r.Success? && raw.directory.Some? ==> r.value.directory == raw.directory.value
    ensures r.Success? ==> r.value.pageToken == raw.pageToken
  {
    match ValidateFields(raw)
    case Failure(e) => Failure(e)
    case Success(p) => CheckPageToken(p)
  }

  /** An explicit `page_size=10` with a token is refused although 10 is the default. */
  lemma ExplicitDefaultStillExclusive(token: string, directory: Option<string>)
    requires token != ""
    ensures ValidateQuery(RawQuery(Some(DefaultPageSize), directory, Some(token)))
            == Failure(ValueError(MutuallyExclusiveMessage))
    ensures ValidateQuery(RawQuery(None, Some(DefaultDirectory), Some(token)))
            == Failure(ValueError(MutuallyExclusiveMessage))
  {
  }

  /** A query carrying only a page token is accepted, with the default page size and directory. */
  lemma TokenOnlyAccepted(token: string)
    ensures ValidateQuery(RawQuery(None, None, Some(token)))
            == Success(GetFilesQueryParams(DefaultPageSize, DefaultDirectory, Some(token), {PageTokenField}))
  {
    assert Supplied(RawQuery(None, None, Some(token))) == {PageTokenField};
  }

  /** An empty token is falsy: it never triggers the exclusivity rule. */
  lemma EmptyTokenIsFalsy(pageSize: Option<int>, directory: Option<string>)
    ensures ValidateQuery(RawQuery(pageSize, directory, Some(""))).Success? <==> PageSizeAccepted(pageSize)
  {
  }

  /** The page sizes -1, 0 and 101 are refused by the bounds, before any other rule. */
  lemma OutOfRangePageSizesRejected(directory: Option<string>, token: Option<string>)
    ensures ValidateQuery(RawQuery(Some(-1), directory, token)) == Failure(PageSizeBelowMinimum(-1))
    ensures ValidateQuery(RawQuery(Some(0), directory, token)) == Failure(PageSizeBelowMinimum(0))
    ensures ValidateQuery(RawQuery(Some(MaxPageSize + 1), directory, token)) == Failure(PageSizeAboveMaximum(101))
  {
  }

  /** Every page size in [10, 100] is accepted when no token is given. */
  lemma InRangePageSizesAccepted(pageSize: int, directory: Option<string>)
    requires MinPageSize <= pageSize <= MaxPageSize
    ensures ValidateQuery(RawQuery(Some(pageSize), directory, None)).Success?
    ensures ValidateQuery(RawQuery(Some(pageSize), directory, None)).value.pageSize == pageSize
  {
  }
}
