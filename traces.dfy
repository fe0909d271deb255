/**
 * Sequences of object requests handled one after another against one bucket.
 * What a run leaves in the bucket is tied to an independent description (the
 * last write or delete of each key wins), and the number of stored objects is
 * tied to the status codes the run answered.
 */
module Traces {
  import opened Wrappers
  import opened Primitives
  import opened ObjectStore
  import opened Routes

  /** One request to an object handler. */
  datatype Request =
    | Put(path: string, content: seq<byte>, contentType: string, now: Timestamp)
    | Head(path: string)
    | Get(path: string)
    | Delete(path: string)

  /** The bucket after a run, and the answers given, in request order. */
  datatype Outcome = Outcome(objects: Store, responses: seq<Response>)

  /**
   * Handling one request: the bucket afterwards and the answer, as the
   * handler methods produce them (proved by `Handle`).
   */
  function Step(objects: Store, req: Request): (o: Outcome)
    ensures |o.responses| == 1
    ensures forall k :: k != req.path ==> (k in o.objects <==> k in objects)
    ensures forall k :: k != req.path && k in objects ==> o.objects[k] == objects[k]
  {
    match req
    case Put(p, c, t, n) => Outcome(objects[p := S3Object(c, t, n)], [UploadReply(objects, p)])
    case Head(p) => Outcome(objects, [MetadataReply(objects, p)])
    case Get(p) => Outcome(objects, [DownloadReply(objects, p)])
    case Delete(p) => Outcome(AfterDelete(objects, p), [DeleteReply(objects, p)])
  }

  /** Handling the requests in order; one answer per request. */
  function Run(objects: Store, requests: seq<Request>): (o: Outcome)
    ensures |o.responses| == |requests|
  {
    if requests == [] then Outcome(objects, [])
    else
      var before := Run(objects, requests[..|requests| - 1]);
      var last := Step(before.objects, requests[|requests| - 1]);
      Outcome(last.objects, before.responses + last.responses)
  }

  function Lookup(objects: Store, path: string): Option<S3Object> {
    if path in objects then Some(objects[path]) else None
  }

  /**
   * The reference description: the object under `path` is the one written by
   * the last upload of `path`, unless a later delete of `path` came after it;
   * with neither, it is whatever the bucket held at the start.
   */
  function LatestAt(objects: Store, requests: seq<Request>, path: string): Option<S3Object> {
    if requests == [] then Lookup(objects, path)
    else
      var last := requests[|requests| - 1];
      if last.Put? && last.path == path then Some(S3Object(last.content, last.contentType, last.now))
      else if last.Delete? && last.path == path then None
      else LatestAt(objects, requests[..|requests| - 1], path)
  }

  /** How many answers carry the given status code. */
  function CountStatus(responses: seq<Response>, code: int): (n: nat)
    ensures n <= |responses|
  {
    if responses == [] then 0
    else CountStatus(responses[..|responses| - 1], code) + (if StatusCode(responses[|responses| - 1]) == code then 1 else 0)
  }

  lemma {:induction false} CountStatusAppend(a: seq<Response>, b: seq<Response>, code: int)
    ensures CountStatus(a + b, code) == CountStatus(a, code) + CountStatus(b, code)
  {
    if b == [] {
      assert a + b == a;
    } else {
      assert (a + b)[..|a + b| - 1] == a + b[..|b| - 1];
      CountStatusAppend(a, b[..|b| - 1], code);
    }
  }

  /** One request changes the number of stored objects by +1 exactly on 201 and by -1 exactly on 204. */
  lemma StepSize(objects: Store, req: Request)
    ensures var o := Step(objects, req);
            |o.objects| == |objects| + CountStatus(o.responses, HttpCreated) - CountStatus(o.responses, HttpNoContent)
  {
  }

  /** Over a whole run: objects stored at the end = objects at the start + 201 answers - 204 answers. */
  lemma {:induction false} StoreSizeTracksStatuses(objects: Store, requests: seq<Request>)
    ensures var o := Run(objects, requests);
            |o.objects| == |objects| + CountStatus(o.responses, HttpCreated) - CountStatus(o.responses, HttpNoContent)
  {
    if requests != [] {
      var prefix := requests[..|requests| - 1];
      var before := Run(objects, prefix);
      var last := Step(before.objects, requests[|requests| - 1]);
      StoreSizeTracksStatuses(objects, prefix);
      StepSize(before.objects, requests[|requests| - 1]);
      CountStatusAppend(before.responses, last.responses, HttpCreated);
      CountStatusAppend(before.responses, last.responses, HttpNoContent);
    }
  }

  /** The bucket after a run holds, under every key, exactly what the reference description says. */
  lemma {:induction false} RunAgreesWithLatest(objects: Store, requests: seq<Request>, path: string)
    ensures Lookup(Run(objects, requests).objects, path) == LatestAt(objects, requests, path)
  {
    if requests != [] {
      RunAgreesWithLatest(objects, requests[..|requests| - 1], path);
    }
  }

  /** So a download after any run returns the last upload of the path, unless it was deleted since. */
  lemma DownloadAfterRun(objects: Store, requests: seq<Request>, path: string)
    ensures var reply := DownloadReply(Run(objects, requests).objects, path);
            match LatestAt(objects, requests, path)
            case Some(obj) => reply == Content(obj.body, obj.contentType)
            case None => reply == NotFound(Some(FileNotFound))
  {
    RunAgreesWithLatest(objects, requests, path);
  }

  predicate IsRead(req: Request) {
    req.Head? || req.Get?
  }

  /** HEAD and GET requests never change the bucket, however many of them run. */
  lemma {:induction false} ReadsPreserveStore(objects: Store, requests: seq<Request>)
    requires forall i :: 0 <= i < |requests| ==> IsRead(requests[i])
    ensures Run(objects, requests).objects == objects
  {
    if requests != [] {
      ReadsPreserveStore(objects, requests[..|requests| - 1]);
    }
  }

  /** Sending one request to the handler for its method. */
  method Handle(bucket: Bucket, req: Request) returns (r: Response)
    modifies bucket
    ensures Step(old(bucket.objects), req) == Outcome(bucket.objects, [r])
  {
    match req
    case Put(p, c, t, n) => r := UploadFile(bucket, p, c, t, n);
    case Head(p) => r := GetFileMetadata(bucket, p);
    case Get(p) => r := GetFile(bucket, p);
    case Delete(p) => r := DeleteFile(bucket, p);
  }

  /** Handling requests one after another on the same bucket. */
  method HandleAll(bucket: Bucket, requests: seq<Request>) returns (rs: seq<Response>)
    modifies bucket
    ensures Run(old(bucket.objects), requests) == Outcome(bucket.objects, rs)
  {
    rs := [];
    var i := 0;
    while i < |requests|
      invariant 0 <= i <= |requests|
      invariant Run(old(bucket.objects), requests[..i]) == Outcome(bucket.objects, rs)
    {
      var r := Handle(bucket, requests[i]);
      rs := rs + [r];
      assert requests[..i + 1][..i] == requests[..i];
      i := i + 1;
    }
    assert requests[..i] == requests;
  }
}
