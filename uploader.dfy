/** The `S3Uploader` class: configuration defaulting at construction, the
    constraint check, and the upload and delete requests handed to the storage
    client. The client is a recorder of the requests it receives; its answer
    to each is arbitrary, as the network's would be. */
module Uploader {
  import opened Js
  import opened Matching
  import opened Keys

  /** The options object a caller may pass; a field is None when it is
      `undefined` or `null`. */
  datatype Options = Options(
    pathPrefix: Option<string>,
    bucket: Option<string>,
    acceptedMimeTypes: Option<seq<Matcher>>,
    maxFileSize: Option<int>)

  /** The second argument of `init`: something that is not an object
      (missing, `null`, a string, a number, a function), or an object. */
  datatype OptionsArg = NotAnObject | Given(options: Options)

  /** The configuration an instance holds. The bucket is None when it was
      never set. */
  datatype Config = Config(
    pathPrefix: string,
    bucket: Option<string>,
    acceptedMimeTypes: seq<Matcher>,
    maxFileSize: int)

  /** The two constraint violations of `checkConstraints`. */
  datatype Violation = InvalidMimeType | FileTooBig

  /** Opaque payloads exchanged with the storage client. */
  datatype ResponseData = ResponseData(id: nat)
  datatype ClientError = ClientError(code: nat)

  /** What a caller of the uploader sees fail: a missing client at
      construction, a constraint violation, or the client's own error. */
  datatype Error = ClientRequired | Constraint(violation: Violation) | Transfer(cause: ClientError)

  datatype Result<+T> = Ok(value: T) | Err(error: Error)

  /** The message of each error the uploader itself creates. A client error
      has none of its own here: it is the client's object, passed on as it
      came, and its message is not modelled. */
  function Message(e: Error): (m: Option<string>)
    ensures m.Some? <==> !e.Transfer?
    ensures m.Some? ==> "S3Uploader: " <= m.value
  {
    match e
    case ClientRequired => Some("S3Uploader: client parameter is required")
    case Constraint(InvalidMimeType) => Some("S3Uploader: Invalid file mimetype")
    case Constraint(FileTooBig) => Some("S3Uploader: File too big")
    case Transfer(_) => None
  }

  /** The three messages are distinct, so a caller can tell the errors apart
      by message alone. */
  lemma MessagesDistinct(e1: Error, e2: Error)
    requires !e1.Transfer? && !e2.Transfer? && e1 != e2
    ensures Message(e1) != Message(e2)
  {
  }

  /** The configuration `init` derives from its options argument: each falsy
      option is replaced by its default, each truthy one is kept; without an
      options object the bucket stays unset. */
  function Configure(opts: OptionsArg): (c: Config)
    ensures opts.NotAnObject? ==>
      c.pathPrefix == "" && c.bucket == None && c.acceptedMimeTypes == [] && c.maxFileSize == 0
    ensures opts.Given? ==> c.bucket.Some?
    ensures opts.Given? ==> var o := opts.options;
      && c.pathPrefix == (if TruthyString(o.pathPrefix) then o.pathPrefix.value else "")
      && c.bucket.value == (if TruthyString(o.bucket) then o.bucket.value else "")
      && c.acceptedMimeTypes == (if TruthyList(o.acceptedMimeTypes) then o.acceptedMimeTypes.value else [])
      && c.maxFileSize == (if TruthyNumber(o.maxFileSize) then o.maxFileSize.value else 0)
  {
    match opts
    case NotAnObject => Config("", None, [], 0)
    case Given(o) =>
      Config(
        StringOr(o.pathPrefix, ""),
        Some(StringOr(o.bucket, "")),
        match o.acceptedMimeTypes { case Some(ms) => ms case None => [] },
        match o.maxFileSize { case Some(n) => n case None => 0 })
  }

  /** `value || fallback` for an optional string. */
  function StringOr(o: Option<string>, fallback: string): (s: string) {
    match o
    case Some(s) => if s == "" then fallback else s
    case None => fallback
  }

  /** The mime test passes: no accepted list, or some entry accepts the type. */
  ghost predicate MimeAccepted(c: Config, fileMime: string) {
    |c.acceptedMimeTypes| == 0 || exists i :: 0 <= i < |c.acceptedMimeTypes| && Accepts(c.acceptedMimeTypes[i], fileMime)
  }

  /** The size test fails: a positive maximum strictly exceeded. */
  predicate TooBig(c: Config, fileSize: nat) {
    c.maxFileSize > 0 && fileSize > c.maxFileSize
  }

  /** `checkConstraints`, given the mime type `mime.lookup` resolves and the
      size `fs.statSync` reports: the mime test first, then the size test. */
  function CheckConstraints(c: Config, fileMime: string, fileSize: nat): (v: Option<Violation>)
    ensures v == Some(InvalidMimeType) <==> !MimeAccepted(c, fileMime)
    ensures v == Some(FileTooBig) <==> MimeAccepted(c, fileMime) && TooBig(c, fileSize)
    ensures v == None <==> MimeAccepted(c, fileMime) && !TooBig(c, fileSize)
  {
    if |c.acceptedMimeTypes| > 0 && |Filter(c.acceptedMimeTypes, fileMime)| == 0 then
      Some(InvalidMimeType)
    else if c.maxFileSize > 0 && fileSize > c.maxFileSize then
      Some(FileTooBig)
    else
      None
  }

  /** An empty accepted list never yields a mime violation, and the mime
      type is then irrelevant to the verdict. */
  lemma EmptyListAcceptsAnyMime(c: Config, mime1: string, mime2: string, fileSize: nat)
    requires |c.acceptedMimeTypes| == 0
    ensures CheckConstraints(c, mime1, fileSize) != Some(InvalidMimeType)
    ensures CheckConstraints(c, mime1, fileSize) == CheckConstraints(c, mime2, fileSize)
  {
  }

  /** Without a positive maximum the size never yields a violation, and the
      size lookup cannot influence the verdict. */
  lemma NoMaximumIgnoresSize(c: Config, fileMime: string, size1: nat, size2: nat)
    requires c.maxFileSize <= 0
    ensures CheckConstraints(c, fileMime, size1) != Some(FileTooBig)
    ensures CheckConstraints(c, fileMime, size1) == CheckConstraints(c, fileMime, size2)
  {
  }

  /** The mime test comes first: once it fails, the verdict is the mime
      violation whatever the size, so the size lookup is never needed. */
  lemma MimeViolationIgnoresSize(c: Config, fileMime: string, size1: nat, size2: nat)
    requires CheckConstraints(c, fileMime, size1) == Some(InvalidMimeType)
    ensures CheckConstraints(c, fileMime, size2) == Some(InvalidMimeType)
  {
  }

  /** The size bound is inclusive: a file exactly at the maximum passes, one
      byte more fails. */
  lemma SizeBoundIsStrict(c: Config, fileMime: string)
    requires c.maxFileSize > 0 && MimeAccepted(c, fileMime)
    ensures CheckConstraints(c, fileMime, c.maxFileSize) == None
    ensures CheckConstraints(c, fileMime, c.maxFileSize + 1) == Some(FileTooBig)
  {
  }

  /** Documented examples: an exact string entry, a string entry
      that is not a substring, and sizes on either side of a maximum. */
  lemma ConstraintExamples()
    ensures CheckConstraints(Config("", None, [Text("image/png")], 0), "image/png", 2000) == None
    ensures CheckConstraints(Config("", None, [Text("image")], 0), "image/png", 2000) == None
    ensures CheckConstraints(Config("", None, [Text("image/*")], 0), "text/plain", 10) == Some(InvalidMimeType)
    ensures CheckConstraints(Config("", None, [], 1000), "text/plain", 2000) == Some(FileTooBig)
    ensures CheckConstraints(Config("", None, [], 1000), "text/plain", 500) == None
    ensures CheckConstraints(Config("", None, [Text("image/*")], 1000), "text/plain", 2000) == Some(InvalidMimeType)
  {
    assert StartsAt("image/png", "image/png", 0);
    assert StartsAt("image/png", "image", 0);
    FirstCharAbsentNeverMatches("image/*", "text/plain");
  }

  /** What the storage client is handed as the body: the stream passed
      through a gzip filter. Streams themselves are opaque. */
  datatype Stream = FileStream(path: string) | CallerStream(id: nat)
  datatype Body = Gzip(source: Stream)

  /** The `params` of the client's upload request. */
  datatype UploadParams = UploadParams(
    bucket: Option<string>,
    key: string,
    acl: string,
    contentEncoding: string,
    contentType: string)

  datatype Request = UploadRequest(params: UploadParams, body: Body) | DeleteRequest(bucket: Option<string>, key: string)

  /** The client's callback outcome: `(null, data)` or `(err, _)`. */
  datatype Reply = Success(data: ResponseData) | Failure(cause: ClientError)

  datatype Exchange = Exchange(request: Request, reply: Reply)

  /** Every upload in a log is public-read, gzip-encoded and typed. */
  ghost predicate UploadsWellFormed(log: seq<Exchange>) {
    forall k :: 0 <= k < |log| && log[k].request.UploadRequest? ==>
      var p := log[k].request.params;
      p.acl == "public-read" && p.contentEncoding == "gzip" && p.contentType != ""
  }

  /** The promise outcome of an upload or delete: resolved with the client's
      data, or rejected with the client's error unchanged. */
  function Settle(reply: Reply): (r: Result<ResponseData>)
    ensures r.Ok? <==> reply.Success?
    ensures reply.Success? ==> r.value == reply.data
    ensures reply.Failure? ==> r.error == Transfer(reply.cause)
  {
    match reply
    case Success(d) => Ok(d)
    case Failure(e) => Err(Transfer(e))
  }

  /** The injected storage client, as a recorder of the requests it is sent. */
  class Client {
    var log: seq<Exchange>

    constructor ()
      ensures log == []
    {
      log := [];
    }

    /** `new S3({params}).upload({Body}).send(callback)` */
    method Upload(params: UploadParams, body: Body) returns (reply: Reply)
      modifies this
      ensures log == old(log) + [Exchange(UploadRequest(params, body), reply)]
    {
      reply :| true;
      log := log + [Exchange(UploadRequest(params, body), reply)];
    }

    /** `new S3().deleteObject({Bucket, Key}, callback)` */
    method DeleteObject(bucket: Option<string>, key: string) returns (reply: Reply)
      modifies this
      ensures log == old(log) + [Exchange(DeleteRequest(bucket, key), reply)]
    {
      reply :| true;
      log := log + [Exchange(DeleteRequest(bucket, key), reply)];
    }
  }

  /** The collaborators the uploader consults: `mime.lookup`, the size that
      `fs.statSync` reports, and `path.join`. */
  datatype Host = Host(
    lookup: string -> string,
    sizeOf: string -> nat,
    join: (string, string) -> string)

  /** The argument of `uploadStream`. */
  datatype StreamParams = StreamParams(stream: Stream, contentType: Option<string>, path: string, ext: Option<string>)

  class S3Uploader {
    const client: Client
    const pathPrefix: string
    const bucket: Option<string>
    const acceptedMimeTypes: seq<Matcher>
    const maxFileSize: int

    function Configuration(): (c: Config) {
      Config(pathPrefix, bucket, acceptedMimeTypes, maxFileSize)
    }

    /** `init` once the client is known to be present: each option is copied
        or replaced by its default, branch by branch. */
    constructor (client: Client, opts: OptionsArg)
      ensures this.client == client
      ensures Configuration() == Configure(opts)
    {
      this.client := client;
      if opts.Given? {
        var o := opts.options;
        if TruthyString(o.pathPrefix) {
          pathPrefix := o.pathPrefix.value;
        } else {
          pathPrefix := "";
        }
        if TruthyString(o.bucket) {
          bucket := o.bucket;
        } else {
          bucket := Some("");
        }
        if TruthyList(o.acceptedMimeTypes) {
          acceptedMimeTypes := o.acceptedMimeTypes.value;
        } else {
          acceptedMimeTypes := [];
        }
        if TruthyNumber(o.maxFileSize) {
          maxFileSize := o.maxFileSize.value;
        } else {
          maxFileSize := 0;
        }
      } else {
        pathPrefix := "";
        bucket := None;
        acceptedMimeTypes := [];
        maxFileSize := 0;
      }
    }

    /** `uploadStream`: one upload request with the computed key, the
        gzip-compressed body, the declared type or its default, gzip encoding
        and a public-read policy; the outcome is the client's. */
    method UploadStream(params: StreamParams, join: (string, string) -> string) returns (r: Result<ResponseData>)
      modifies client
      ensures |client.log| == |old(client.log)| + 1
      ensures client.log == old(client.log) + [Exchange(
        UploadRequest(UploadParams(bucket, FinalKey(join, pathPrefix, params.path, params.ext),
                            "public-read", "gzip", ContentTypeOf(params.contentType)),
               Gzip(params.stream)),
        client.log[|client.log| - 1].reply)]
      ensures UploadsWellFormed(old(client.log)) ==> UploadsWellFormed(client.log)
      ensures r == Settle(client.log[|client.log| - 1].reply)
    {
      var finalPath := join(pathPrefix, params.path);
      var body := Gzip(params.stream);
      if HintGiven(params.ext) && !HasExtension(params.path) {
        finalPath := finalPath + "." + params.ext.value;
      }
      var reply := client.Upload(UploadParams(bucket, finalPath, "public-read", "gzip", ContentTypeOf(params.contentType)), body);
      r := Settle(reply);
    }

    /** `uploadFile`: a constraint violation rejects without touching the
        client; otherwise the file is streamed under the joined key, with no
        extension hint, typed by its resolved mime type. */
    method UploadFile(srcPath: string, destPath: string, host: Host) returns (r: Result<ResponseData>)
      modifies client
      ensures var v := CheckConstraints(Configuration(), host.lookup(srcPath), host.sizeOf(srcPath));
        v.Some? ==> r == Err(Constraint(v.value)) && client.log == old(client.log)
      ensures var v := CheckConstraints(Configuration(), host.lookup(srcPath), host.sizeOf(srcPath));
        v.None? ==>
          && |client.log| == |old(client.log)| + 1
          && client.log == old(client.log) + [Exchange(
               UploadRequest(UploadParams(bucket, host.join(pathPrefix, destPath),
                                   "public-read", "gzip", ContentTypeOf(Some(host.lookup(srcPath)))),
                      Gzip(FileStream(srcPath))),
               client.log[|client.log| - 1].reply)]
          && r == Settle(client.log[|client.log| - 1].reply)
      ensures UploadsWellFormed(old(client.log)) ==> UploadsWellFormed(client.log)
    {
      var violation := CheckConstraints(Configuration(), host.lookup(srcPath), host.sizeOf(srcPath));
      if violation.Some? {
        return Err(Constraint(violation.value));
      }
      r := UploadStream(StreamParams(FileStream(srcPath), Some(host.lookup(srcPath)), destPath, None), host.join);
    }

    /** `deleteObject`: one delete request for the configured bucket and the
        key exactly as given, with no prefix; the outcome is the client's. */
    method DeleteObject(destPath: string) returns (r: Result<ResponseData>)
      modifies client
      ensures |client.log| == |old(client.log)| + 1
      ensures client.log == old(client.log) + [Exchange(DeleteRequest(bucket, destPath), client.log[|client.log| - 1].reply)]
      ensures UploadsWellFormed(old(client.log)) ==> UploadsWellFormed(client.log)
      ensures r == Settle(client.log[|client.log| - 1].reply)
    {
      var reply := client.DeleteObject(bucket, destPath);
      r := Settle(reply);
    }
  }

  /** `new S3Uploader(client, opts)`: a missing client throws; otherwise a
      fresh instance holds the client as given and the defaulted options. */
  method Create(client: Client?, opts: OptionsArg) returns (r: Result<S3Uploader>)
    ensures r.Err? <==> client == null
    ensures r.Err? ==> r.error == ClientRequired
    ensures r.Ok? ==> fresh(r.value) && r.value.client == client && r.value.Configuration() == Configure(opts)
  {
    if client == null {
      return Err(ClientRequired);
    }
    var u := new S3Uploader(client, opts);
    r := Ok(u);
  }

  /** A spy client behind an uploader that accepts only PNG images: uploading
      a text file is rejected with the mime violation and the client records
      no request; a stream upload of "photo" with hint "jpg" under prefix
      "uploads/" is sent under "uploads/photo.jpg". */
  method SpyClientScenario(host: Host) returns (rejected: Result<ResponseData>, sent: seq<Exchange>)
    requires host.lookup("notes.txt") == "text/plain"
    requires host.join("uploads/", "photo") == "uploads/photo"
    ensures rejected == Err(Constraint(InvalidMimeType))
    ensures |sent| == 1 && sent[0].request.UploadRequest?
    ensures sent[0].request.params.key == "uploads/photo.jpg"
    ensures sent[0].request.params.contentType == "image/jpeg"
  {
    var spy := new Client();
    var options := Options(Some("uploads/"), Some("media"), Some([Text("image/png")]), None);
    var created := Create(spy, Given(options));
    var uploader := created.value;
    FirstCharAbsentNeverMatches("image/png", "text/plain");
    rejected := uploader.UploadFile("notes.txt", "notes", host);
    assert spy.log == [];
    KeyExamples(host.join);
    var _ := uploader.UploadStream(StreamParams(CallerStream(0), Some("image/jpeg"), "photo", Some("jpg")), host.join);
    sent := spy.log;
  }
}
