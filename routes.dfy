/**
 * The object handlers: upload, metadata (HEAD), download and delete. Each one
 * probes the bucket for the key, then acts. The pure functions state what
 * each handler answers for a given bucket content; the methods run the
 * probe-then-act sequence on a `Bucket` and are proved to agree with them.
 */
module Routes {
  import opened Wrappers
  import opened Primitives
  import opened Decimal
  import opened Schemas
  import opened ObjectStore

  const HttpOk: int := 200
  const HttpCreated: int := 201
  const HttpNoContent: int := 204
  const HttpNotFound: int := 404

  /** The detail of the not-found error raised by GET and DELETE. */
  const FileNotFound: string := "File not found"

  /** Headers set by the metadata handler. */
  datatype Headers = Headers(contentType: string, contentLength: string, lastModified: Timestamp)

  /** What a handler answers. */
  datatype Response =
    | Uploaded(status: int, reply: PutFileResponse)  // 200 or 201, JSON body
    | Metadata(headers: Headers)                     // 200, headers only
    | Content(content: seq<byte>, mediaType: string) // 200, the object's bytes
    | NoContent                                      // 204, no body
    | NotFound(detail: Option<string>)               // 404, raised as an HTTP error

  function StatusCode(r: Response): int {
    match r
    case Uploaded(status, _) => status
    case Metadata(_) => HttpOk
    case Content(_, _) => HttpOk
    case NoContent => HttpNoContent
    case NotFound(_) => HttpNotFound
  }

  /** The message of the upload response, by whether the key was new. */
  function UploadMessage(created: bool, path: string): string {
    if created then "New file uploaded at /" + path else "Existing file updated at /" + path
  }

  /**
   * The answer to an upload, decided by the probe alone: 201 when the key was
   * absent, 200 when it was present, echoing the path either way.
   */
  function UploadReply(objects: Store, path: string): (r: Response)
    ensures r.Uploaded? && r.reply.filePath == path
    ensures StatusCode(r) == HttpCreated <==> path !in objects
    ensures StatusCode(r) == HttpOk <==> path in objects
    ensures path !in objects ==> r.reply.message == "New file uploaded at /" + path
    ensures path in objects ==> r.reply.message == "Existing file updated at /" + path
  {
    var created := path !in objects;
    Uploaded(if created then HttpCreated else HttpOk, PutFileResponse(path, UploadMessage(created, path)))
  }

  /**
   * The answer to HEAD: 404 without detail for an absent key; otherwise the
   * stored content type, the body length in decimal, and the stored timestamp.
   */
  function MetadataReply(objects: Store, path: string): (r: Response)
    ensures StatusCode(r) == HttpOk <==> path in objects
    ensures path !in objects ==> r == NotFound(None)
    ensures path in objects ==>
              && r.Metadata?
              && r.headers.contentType == objects[path].contentType
              && r.headers.contentLength == ToDecimal(|objects[path].body|)
              && ParseDecimal(r.headers.contentLength) == |objects[path].body|
              && r.headers.lastModified == objects[path].lastModified
  {
    if path !in objects then NotFound(None)
    else
      var obj := objects[path];
      ParseToDecimal(|obj.body|);
      Metadata(Headers(obj.contentType, ToDecimal(|obj.body|), obj.lastModified))
  }

  /** The answer to GET: the stored bytes under the stored content type, or 404 "File not found". */
  function DownloadReply(objects: Store, path: string): (r: Response)
    ensures StatusCode(r) == HttpOk <==> path in objects
    ensures path !in objects ==> r == NotFound(Some(FileNotFound))
    ensures path in objects ==> r == Content(objects[path].body, objects[path].contentType)
  {
    if path !in objects then NotFound(Some(FileNotFound))
    else Content(objects[path].body, objects[path].contentType)
  }

  /** The answer to DELETE: 204 when the key was present, 404 "File not found" otherwise. */
  function DeleteReply(objects: Store, path: string): (r: Response)
    ensures StatusCode(r) == HttpNoContent <==> path in objects
    ensures path !in objects ==> r == NotFound(Some(FileNotFound))
    ensures path in objects ==> r == NoContent
  {
    if path in objects then NoContent else NotFound(Some(FileNotFound))
  }

  /** The bucket after a delete request: the key is removed only if the probe found it. */
  function AfterDelete(objects: Store, path: string): (after: Store)
    ensures path !in after
    ensures after.Keys == objects.Keys - {path}
    ensures forall k :: k in after ==> after[k] == objects[k]
  {
    if path in objects then objects - {path} else objects
  }

  /** `upload_file`: probe, write unconditionally, answer created or updated. */
  method UploadFile(bucket: Bucket, path: string, content: seq<byte>, contentType: string, now: Timestamp)
    returns (r: Response)
    modifies bucket
    ensures r == UploadReply(old(bucket.objects), path)
    ensures bucket.objects == old(bucket.objects)[path := S3Object(content, contentType, now)]
  {
    var alreadyExists := bucket.ObjectExists(path);
    var status := if alreadyExists then HttpOk else HttpCreated;
    var message := UploadMessage(!alreadyExists, path);
    bucket.UploadObject(path, content, contentType, now);
    r := Uploaded(status, PutFileResponse(path, message));
  }

  /** `get_file_metadata`: probe, then report the object's headers; the bucket is only read. */
  method GetFileMetadata(bucket: Bucket, path: string) returns (r: Response)
    ensures r == MetadataReply(bucket.objects, path)
  {
    var present := bucket.ObjectExists(path);
    if !present {
      return NotFound(None);
    }
    var obj := bucket.FetchObject(path);
    r := Metadata(Headers(obj.contentType, ToDecimal(|obj.body|), obj.lastModified));
  }

  /** `get_file`: probe, then hand back the whole body; the bucket is only read. */
  method GetFile(bucket: Bucket, path: string) returns (r: Response)
    ensures r == DownloadReply(bucket.objects, path)
  {
    var present := bucket.ObjectExists(path);
    if !present {
      return NotFound(Some(FileNotFound));
    }
    var obj := bucket.FetchObject(path);
    r := Content(obj.body, obj.contentType);
  }

  /** `delete_file`: probe, then delete and answer 204; an absent key is a 404. */
  method DeleteFile(bucket: Bucket, path: string) returns (r: Response)
    modifies bucket
    ensures r == DeleteReply(old(bucket.objects), path)
    ensures bucket.objects == AfterDelete(old(bucket.objects), path)
  {
    var present := bucket.ObjectExists(path);
    if !present {
      return NotFound(Some(FileNotFound));
    }
    bucket.DeleteObject(path);
    r := NoContent;
  }

  /** Uploading then downloading the same path gives back the bytes and the content type. */
  lemma UploadThenDownload(objects: Store, path: string, content: seq<byte>, contentType: string, now: Timestamp)
    ensures DownloadReply(objects[path := S3Object(content, contentType, now)], path) == Content(content, contentType)
    ensures StatusCode(UploadReply(objects[path := S3Object(content, contentType, now)], path)) == HttpOk
  {
  }

  /** After a delete of a present key, both GET and a second DELETE answer 404. */
  lemma DeleteThenNotFound(objects: Store, path: string)
    requires path in objects
    ensures StatusCode(DeleteReply(objects, path)) == HttpNoContent
    ensures DownloadReply(AfterDelete(objects, path), path) == NotFound(Some(FileNotFound))
    ensures DeleteReply(AfterDelete(objects, path), path) == NotFound(Some(FileNotFound))
    ensures |AfterDelete(objects, path)| == |objects| - 1
  {
  }

  /** An upload leaves every other key exactly as it was. */
  lemma UploadTouchesOnlyPath(objects: Store, path: string, obj: S3Object, other: string)
    requires other != path
    ensures other in objects[path := obj] <==> other in objects
    ensures DownloadReply(objects[path := obj], other) == DownloadReply(objects, other)
    ensures MetadataReply(objects[path := obj], other) == MetadataReply(objects, other)
  {
  }

  /**
   * The client's view of test_delete_file: upload, delete, then GET and a
   * second DELETE on the same path, run against a bucket.
   */
  method UploadDeleteScenario(bucket: Bucket, path: string, content: seq<byte>, contentType: string, now: Timestamp)
    returns (statuses: seq<int>)
    modifies bucket
    ensures statuses == [if path in old(bucket.objects) then HttpOk else HttpCreated,
                         HttpNoContent, HttpNotFound, HttpNotFound]
    ensures bucket.objects == old(bucket.objects) - {path}
  {
    var put := UploadFile(bucket, path, content, contentType, now);
    var del := DeleteFile(bucket, path);
    var get := GetFile(bucket, path);
    var again := DeleteFile(bucket, path);
    statuses := [StatusCode(put), StatusCode(del), StatusCode(get), StatusCode(again)];
  }

  /** The client's view of test_get_file_metadata: upload, then HEAD. */
  method UploadHeadScenario(bucket: Bucket, path: string, content: seq<byte>, contentType: string, now: Timestamp)
    returns (head: Response)
    modifies bucket
    ensures head.Metadata? && head.headers.contentType == contentType
    ensures head.headers.contentLength == ToDecimal(|content|)
    ensures bucket.objects == old(bucket.objects)[path := S3Object(content, contentType, now)]
  {
    var _ := UploadFile(bucket, path, content, contentType, now);
    head := GetFileMetadata(bucket, path);
  }
}
