/**
 * The thumbnail upload handler, handlerUploadThumbnail: a fixed pipeline of
 * checks in which the first failing step ends the request with its status
 * code. Its effects are on two stores: the files under the assets root
 * (path to bytes) and the video table of the database (id to Video).
 *
 * `Run` is the reference definition of one request: which step failed, which
 * file write happened and which video record was stored. The class `ApiConfig`
 * holds the two stores and runs the handler step by step against it.
 */
module Thumbnails {
  import opened Wrappers
  import opened Uuids
  import opened Strings

  const StatusOK := 200
  const StatusBadRequest := 400
  const StatusUnauthorized := 401
  const StatusInternalServerError := 500

  /** http.Header / textproto.MIMEHeader: each key maps to its values. */
  type Header = map<string, seq<string>>

  /** Header.Get: the first value under the key, or "" when there is none. */
  function HeaderGet(h: Header, key: string): (v: string)
    ensures v != "" ==> key in h && |h[key]| > 0 && v == h[key][0]
  {
    if key in h && |h[key]| > 0 then h[key][0] else ""
  }

  /**
   * One file part of a multipart form: its own headers, its bytes, and whether
   * opening it succeeds (a part spilled to a temporary file can fail to open).
   */
  datatype FilePart = FilePart(header: Header, content: seq<byte>, opens: bool)

  /**
   * What the handler reads of the request: the `videoID` path value, the
   * request headers and the outcome of ParseMultipartForm (None when the body
   * could not be parsed; otherwise the form's file parts by field name).
   */
  datatype Request = Request(videoIdPath: string, header: Header, form: Option<map<string, seq<FilePart>>>)

  /**
   * Request.FormFile(key) on a parsed form: the first file under the key, or
   * an error when there is none or it cannot be opened.
   */
  function FormFile(files: map<string, seq<FilePart>>, key: string): (part: Option<FilePart>)
    ensures part.Some? ==> key in files && |files[key]| > 0 && part.value == files[key][0] && part.value.opens
  {
    if key in files && |files[key]| > 0 && files[key][0].opens then Some(files[key][0]) else None
  }

  /** A database.Video; `metadata` stands for the fields this handler never touches. */
  datatype Video = Video(id: UUID, userId: UUID, thumbnailUrl: Option<string>, metadata: string)

  /**
   * The library calls whose internals are not modelled: uuid.Parse,
   * auth.GetBearerToken, auth.ValidateJWT(token, secret) and the media type
   * returned by mime.ParseMediaType. Each gives None on error.
   */
  datatype Library = Library(
    parseUuid: string -> Option<UUID>,
    getBearerToken: Header -> Option<string>,
    validateJwt: (string, string) -> Option<UUID>,
    parseMediaType: string -> Option<string>)

  /**
   * Whether each I/O call succeeds: os.Create, io.Copy, cfg.db.GetVideo (for
   * errors other than a missing id) and cfg.db.UpdateVideo.
   */
  datatype IoResults = IoResults(createOk: bool, copyOk: bool, dbReadOk: bool, dbWriteOk: bool)

  /** The apiConfig fields the handler reads. */
  datatype Settings = Settings(assetsRoot: string, port: string, jwtSecret: string)

  /** The steps that can end a request early, in the order the handler runs them. */
  datatype Failure =
    | InvalidVideoId
    | MissingToken
    | InvalidToken
    | BadMultipartForm
    | MissingThumbnailPart
    | EmptyContentType
    | BadContentType
    | UnsupportedMediaType
    | CreateFailed
    | CopyFailed
    | VideoLookupFailed
    | NotOwner
    | VideoUpdateFailed

  function Order(f: Failure): nat {
    match f
    case InvalidVideoId => 0
    case MissingToken => 1
    case InvalidToken => 2
    case BadMultipartForm => 3
    case MissingThumbnailPart => 4
    case EmptyContentType => 5
    case BadContentType => 6
    case UnsupportedMediaType => 7
    case CreateFailed => 8
    case CopyFailed => 9
    case VideoLookupFailed => 10
    case NotOwner => 11
    case VideoUpdateFailed => 12
  }

  /** The status respondWithError is given at each step. */
  function StatusOf(f: Failure): int {
    match f
    case MissingToken | InvalidToken | NotOwner => StatusUnauthorized
    case CreateFailed | CopyFailed => StatusInternalServerError
    case _ => StatusBadRequest
  }

  /** The allow-list exactly as the handler spells it. */
  predicate IsAllowedMediaType(m: string) {
    m == "image/jpeq" || m == "image/png"
  }

  /** Both allowed media types contain a "/", so the handler's `[1]` index is in bounds. */
  lemma AllowedHasSlash(m: string)
    requires IsAllowedMediaType(m)
    ensures '/' in m
  {
    assert m[5] == '/';
  }

  /** The piece after the "/" of an allowed media type: "png" or "jpeq". */
  lemma AllowedSubtype(m: string)
    requires IsAllowedMediaType(m)
    ensures |Split(m, '/')| == 2
    ensures Split(m, '/')[1] == if m == "image/png" then "png" else "jpeq"
  {
    if m == "image/png" {
      assert m == "image" + ['/'] + "png";
      SplitPair("image", '/', "png");
    } else {
      assert m == "image" + ['/'] + "jpeq";
      SplitPair("image", '/', "jpeq");
    }
  }

  /** What filepath.Join puts before the second element. */
  function DirPrefix(root: string): string {
    if root == [] then "" else if root[|root| - 1] == '/' then root else root + "/"
  }

  /** filepath.Join(root, name), for a root that is already clean. */
  function JoinPath(root: string, name: string): (p: string)
    ensures |p| >= |name| && p[|p| - |name|..] == name
  {
    DirPrefix(root) + name
  }

  /**
   * The disk path: the root joined with the id, then "." and the piece after
   * the first "/" of the media type. Go would panic on a media type without
   * "/"; the handler only gets here with an allowed one.
   */
  function DiskPath(root: string, id: UUID, mediaType: string): string
    requires '/' in mediaType
  {
    JoinPath(root, ToString(id)) + "." + Split(mediaType, '/')[1]
  }

  /** fmt.Sprintf("http://localhost:%v/assets/%v.png", port, videoID). */
  function ThumbnailUrl(port: string, id: UUID): string {
    "http://localhost:" + port + "/assets/" + ToString(id) + ".png"
  }

  datatype FileWrite = FileWrite(path: string, content: seq<byte>)

  /**
   * The result of one request: the step that failed (None on success), the
   * file write that happened (os.Create truncates, so a failed copy leaves an
   * empty file) and the video record that was stored.
   */
  datatype Outcome = Outcome(failedAt: Option<Failure>, write: Option<FileWrite>, update: Option<Video>) {
    function Status(): int {
      if failedAt.None? then StatusOK else StatusOf(failedAt.value)
    }
  }

  function Stop(f: Failure): Outcome {
    Outcome(Some(f), None, None)
  }

  /**
   * The checks the handler makes on the request itself, up to the media-type
   * allow-list: either the step that rejected it, or the video id, the caller,
   * the thumbnail part and its media type.
   */
  datatype Admission =
    | Rejected(failure: Failure)
    | Admitted(videoId: UUID, userId: UUID, part: FilePart, mediaType: string)

  function Admit(s: Settings, lib: Library, r: Request): (a: Admission)
    ensures a.Rejected? ==> Order(a.failure) < Order(CreateFailed)
    ensures a.Admitted? ==> IsAllowedMediaType(a.mediaType) && '/' in a.mediaType
  {
    var videoId := lib.parseUuid(r.videoIdPath);
    if videoId.None? then Rejected(InvalidVideoId) else
    var token := lib.getBearerToken(r.header);
    if token.None? then Rejected(MissingToken) else
    var userId := lib.validateJwt(token.value, s.jwtSecret);
    if userId.None? then Rejected(InvalidToken) else
    if r.form.None? then Rejected(BadMultipartForm) else
    var part := FormFile(r.form.value, "thumbnail");
    if part.None? then Rejected(MissingThumbnailPart) else
    var contentType := HeaderGet(part.value.header, "Content-Type");
    if contentType == "" then Rejected(EmptyContentType) else
    var mediaType := lib.parseMediaType(contentType);
    if mediaType.None? then Rejected(BadContentType) else
    if !IsAllowedMediaType(mediaType.value) then Rejected(UnsupportedMediaType) else
    AllowedHasSlash(mediaType.value);
    Admitted(videoId.value, userId.value, part.value, mediaType.value)
  }

  /**
   * The steps after admission, given the disk path: the file is created and
   * written, and only then is the video looked up and its owner checked; the
   * record is stored only when every step passed.
   */
  function Persist(port: string, videoId: UUID, userId: UUID, path: string, content: seq<byte>,
                   io: IoResults, videos: map<UUID, Video>): (o: Outcome)
    ensures o.update.Some? <==> o.failedAt.None?
    ensures o.write.Some? <==> o.failedAt.None? || Order(o.failedAt.value) > Order(CreateFailed)
    ensures o.failedAt.Some? ==> Order(o.failedAt.value) >= Order(CreateFailed)
    ensures o.failedAt == Some(CopyFailed) ==> o.write.value.content == []
    ensures o.update.Some? ==> o.update.value.thumbnailUrl.Some?
  {
    if !io.createOk then Stop(CreateFailed) else
    if !io.copyOk then Outcome(Some(CopyFailed), Some(FileWrite(path, [])), None) else
    var written := Some(FileWrite(path, content));
    if !io.dbReadOk || videoId !in videos then Outcome(Some(VideoLookupFailed), written, None) else
    var video := videos[videoId];
    if video.userId != userId then Outcome(Some(NotOwner), written, None) else
    var updated := video.(thumbnailUrl := Some(ThumbnailUrl(port, videoId)));
    if !io.dbWriteOk then Outcome(Some(VideoUpdateFailed), written, None) else
    Outcome(None, written, Some(updated))
  }

  /**
   * One request: the first failing step decides the status; the file is
   * written exactly when the request got past os.Create, and the video record
   * is stored exactly when every step passed.
   */
  function Run(s: Settings, lib: Library, r: Request, io: IoResults, videos: map<UUID, Video>): (o: Outcome)
    ensures o.update.Some? <==> o.failedAt.None?
    ensures o.write.Some? <==> o.failedAt.None? || Order(o.failedAt.value) > Order(CreateFailed)
    ensures o.failedAt == Some(CopyFailed) ==> o.write.value.content == []
    ensures o.update.Some? ==> o.update.value.thumbnailUrl.Some?
  {
    var a := Admit(s, lib, r);
    if a.Rejected? then Stop(a.failure)
    else Persist(s.port, a.videoId, a.userId, DiskPath(s.assetsRoot, a.videoId, a.mediaType), a.part.content, io, videos)
  }

  function ApplyWrite(files: map<string, seq<byte>>, w: Option<FileWrite>): map<string, seq<byte>> {
    if w.None? then files else files[w.value.path := w.value.content]
  }

  function ApplyUpdate(videos: map<UUID, Video>, u: Option<Video>): map<UUID, Video> {
    if u.None? then videos else videos[u.value.id := u.value]
  }

  /** Every record of the table is stored under its own id. */
  predicate KeyedById(videos: map<UUID, Video>) {
    forall id :: id in videos ==> videos[id].id == id
  }

  /** The apiConfig: its settings, the files under the assets root and the video table. */
  class ApiConfig {
    const assetsRoot: string
    const port: string
    const jwtSecret: string
    var files: map<string, seq<byte>>
    var videos: map<UUID, Video>

    ghost predicate Valid()
      reads this
    {
      KeyedById(videos)
    }

    function Config(): Settings {
      Settings(assetsRoot, port, jwtSecret)
    }

    constructor (assetsRoot: string, port: string, jwtSecret: string,
                 files: map<string, seq<byte>>, videos: map<UUID, Video>)
      requires KeyedById(videos)
      ensures Valid()
      ensures Config() == Settings(assetsRoot, port, jwtSecret)
      ensures this.files == files && this.videos == videos
    {
      this.assetsRoot := assetsRoot;
      this.port := port;
      this.jwtSecret := jwtSecret;
      this.files := files;
      this.videos := videos;
    }

    /**
     * handlerUploadThumbnail: checks the request step by step, answering the
     * first failing check with its status; an admitted upload goes on to
     * StoreThumbnail, which makes the writes.
     */
    method HandlerUploadThumbnail(lib: Library, r: Request, io: IoResults) returns (status: int)
      requires Valid()
      modifies this
      ensures Valid()
      ensures var o := Run(Config(), lib, r, io, old(videos));
        && status == o.Status()
        && files == ApplyWrite(old(files), o.write)
        && videos == ApplyUpdate(old(videos), o.update)
    {
      ghost var admission := Admit(Config(), lib, r);
      var videoId := lib.parseUuid(r.videoIdPath);
      if videoId.None? {
        assert admission == Rejected(InvalidVideoId);
        return StatusBadRequest;
      }
      var token := lib.getBearerToken(r.header);
      if token.None? {
        assert admission == Rejected(MissingToken);
        return StatusUnauthorized;
      }
      var userId := lib.validateJwt(token.value, jwtSecret);
      if userId.None? {
        assert admission == Rejected(InvalidToken);
        return StatusUnauthorized;
      }
      if r.form.None? {
        assert admission == Rejected(BadMultipartForm);
        return StatusBadRequest;
      }
      var part := FormFile(r.form.value, "thumbnail");
      if part.None? {
        assert admission == Rejected(MissingThumbnailPart);
        return StatusBadRequest;
      }
      var contentType := HeaderGet(part.value.header, "Content-Type");
      if contentType == "" {
        assert admission == Rejected(EmptyContentType);
        return StatusBadRequest;
      }
      var mediaType := lib.parseMediaType(contentType);
      if mediaType.None? {
        assert admission == Rejected(BadContentType);
        return StatusBadRequest;
      }
      if mediaType.value != "image/jpeq" && mediaType.value != "image/png" {
        assert admission == Rejected(UnsupportedMediaType);
        return StatusBadRequest;
      }
      assert admission == Admitted(videoId.value, userId.value, part.value, mediaType.value);
      AllowedHasSlash(mediaType.value);
      var diskPath := JoinPath(assetsRoot, ToString(videoId.value));
      diskPath := diskPath + "." + Split(mediaType.value, '/')[1];
      status := StoreThumbnail(videoId.value, userId.value, diskPath, part.value.content, io);
    }

    /**
     * The rest of the handler for an admitted upload: create and write the
     * file at the disk path, then look up the video, check its owner, set its
     * thumbnail URL and update the record.
     */
    method StoreThumbnail(videoId: UUID, userId: UUID, diskPath: string, content: seq<byte>, io: IoResults)
      returns (status: int)
      requires Valid()
      modifies this
      ensures Valid()
      ensures status == Persist(port, videoId, userId, diskPath, content, io, old(videos)).Status()
      ensures files == ApplyWrite(old(files), Persist(port, videoId, userId, diskPath, content, io, old(videos)).write)
      ensures videos == ApplyUpdate(old(videos), Persist(port, videoId, userId, diskPath, content, io, old(videos)).update)
    {
      ghost var expected := Persist(port, videoId, userId, diskPath, content, io, videos);
      if !io.createOk {
        assert expected == Stop(CreateFailed);
        return StatusInternalServerError;
      }
      files := files[diskPath := []];
      if !io.copyOk {
        assert expected == Outcome(Some(CopyFailed), Some(FileWrite(diskPath, [])), None);
        return StatusInternalServerError;
      }
      files := files[diskPath := content];

      if !io.dbReadOk || videoId !in videos {
        assert expected == Outcome(Some(VideoLookupFailed), Some(FileWrite(diskPath, content)), None);
        return StatusBadRequest;
      }
      var video := videos[videoId];
      if video.userId != userId {
        assert expected == Outcome(Some(NotOwner), Some(FileWrite(diskPath, content)), None);
        return StatusUnauthorized;
      }

      var thumbnailUrl := ThumbnailUrl(port, videoId);
      video := video.(thumbnailUrl := Some(thumbnailUrl));
      if !io.dbWriteOk {
        assert expected == Outcome(Some(VideoUpdateFailed), Some(FileWrite(diskPath, content)), None);
        return StatusBadRequest;
      }
      assert expected == Outcome(None, Some(FileWrite(diskPath, content)), Some(video));
      videos := videos[video.id := video];
      return StatusOK;
    }
  }
}
