/**
 * The object-store bucket behind the API, reduced to a map from object key to
 * stored object. Its four primitives are the ones the handlers call: an
 * existence probe, a fetch, a put that overwrites unconditionally, and a delete.
 */
module ObjectStore {
  import opened Primitives

  /** A stored object: its bytes, the content type recorded at upload, and when it was written. */
  datatype S3Object = S3Object(body: seq<byte>, contentType: string, lastModified: Timestamp)

  type Store = map<string, S3Object>

  class Bucket {
    var objects: Store

    constructor (initial: Store)
      ensures objects == initial
    {
      objects := initial;
    }

    /** The read-only existence probe. */
    method ObjectExists(key: string) returns (present: bool)
      ensures present <==> key in objects
    {
      present := key in objects;
    }

    /** Fetching an object; the handlers only fetch after a positive probe. */
    method FetchObject(key: string) returns (obj: S3Object)
      requires key in objects
      ensures obj == objects[key]
    {
      obj := objects[key];
    }

    /** Writing an object, replacing whatever was stored under the key. */
    method UploadObject(key: string, content: seq<byte>, contentType: string, now: Timestamp)
      modifies this
      ensures objects == old(objects)[key := S3Object(content, contentType, now)]
    {
      objects := objects[key := S3Object(content, contentType, now)];
    }

    /** Removing an object; removing an absent key changes nothing. */
    method DeleteObject(key: string)
      modifies this
      ensures objects == old(objects) - {key}
    {
      objects := objects - {key};
    }
  }
}
