/**
 * What one upload request does, stated over the reference definition
 * Thumbnails.Run: the status of each failure, which effects have already
 * happened when it fails, and how the disk path and URL are built.
 */
module UploadProperties {
  import opened Wrappers
  import opened Uuids
  import opened Strings
  import opened Thumbnails

  /** The caller's user id: the bearer token, validated with the JWT secret. */
  function Caller(s: Settings, lib: Library, r: Request): Option<UUID> {
    var token := lib.getBearerToken(r.header);
    if token.None? then None else lib.validateJwt(token.value, s.jwtSecret)
  }

  /** The `thumbnail` file part of a form that parsed. */
  function ThumbnailPart(r: Request): Option<FilePart> {
    if r.form.None? then None else FormFile(r.form.value, "thumbnail")
  }

  /** Neither store changes. */
  predicate NoEffects(o: Outcome) {
    o.write.None? && o.update.None?
  }

  // ---- Path and URL ----

  /**
   * The disk path is the root, the video id, a dot and "png" or "jpeq": the
   * text after the first "/" of the media type.
   */
  lemma DiskPathShape(root: string, id: UUID, m: string)
    requires IsAllowedMediaType(m)
    ensures '/' in m
    ensures DiskPath(root, id, m) == DirPrefix(root) + ToString(id) + (if m == "image/png" then ".png" else ".jpeq")
  {
    AllowedHasSlash(m);
    AllowedSubtype(m);
  }

  /**
   * The disk path is the root directory followed by a file name with no "/":
   * the file sits directly under the assets root, whatever the video id.
   */
  lemma DiskPathDirectlyUnderRoot(root: string, id: UUID, m: string)
    requires '/' in m
    ensures var p := DiskPath(root, id, m); var d := DirPrefix(root);
      && |d| <= |p| && p[..|d|] == d
      && '/' !in p[|d|..]
  {
    var p := DiskPath(root, id, m);
    var d := DirPrefix(root);
    var subtype := Split(m, '/')[1];
    ToStringHasNoSlashOrDot(id);
    assert p == d + (ToString(id) + "." + subtype);
    assert p[|d|..] == ToString(id) + "." + subtype;
  }

  /** Two videos never share a disk path, whatever their media types. */
  lemma DiskPathsDistinct(root: string, a: UUID, ma: string, b: UUID, mb: string)
    requires '/' in ma && '/' in mb
    requires a != b
    ensures DiskPath(root, a, ma) != DiskPath(root, b, mb)
  {
    var p := DirPrefix(root);
    if DiskPath(root, a, ma) == DiskPath(root, b, mb) {
      var x := DiskPath(root, a, ma);
      ToStringIsCanonical(a);
      ToStringIsCanonical(b);
      assert x[|p|..|p| + 36] == ToString(a);
      assert x[|p|..|p| + 36] == ToString(b);
      ToStringInjective(a, b);
      assert false;
    }
  }

  /**
   * The URL always names "<id>.png", but for "image/jpeq" the file written
   * under the root is "<id>.jpeq", not "<id>.png".
   */
  lemma UrlAlwaysPng(root: string, id: UUID, m: string)
    requires IsAllowedMediaType(m)
    ensures m == "image/jpeq" ==> DiskPath(root, id, m) != DirPrefix(root) + ToString(id) + ".png"
  {
    DiskPathShape(root, id, m);
    if m == "image/jpeq" {
      var x := DiskPath(root, id, m);
      assert x[|x| - 1] == 'q';
    }
  }

  // ---- Failures before any write ----

  /** A video id that does not parse: 400, and neither store changes. */
  lemma InvalidVideoIdIsBadRequest(s: Settings, lib: Library, r: Request, io: IoResults, videos: map<UUID, Video>)
    requires lib.parseUuid(r.videoIdPath).None?
    ensures Run(s, lib, r, io, videos).Status() == StatusBadRequest
    ensures NoEffects(Run(s, lib, r, io, videos))
  {
  }

  /** A missing bearer token or one that fails validation: 401, and neither store changes. */
  lemma UnauthenticatedIsUnauthorized(s: Settings, lib: Library, r: Request, io: IoResults, videos: map<UUID, Video>)
    requires lib.parseUuid(r.videoIdPath).Some?
    requires Caller(s, lib, r).None?
    ensures Run(s, lib, r, io, videos).Status() == StatusUnauthorized
    ensures NoEffects(Run(s, lib, r, io, videos))
  {
  }

  /** An empty Content-Type on the thumbnail part: 400 before any write. */
  lemma EmptyContentTypeIsBadRequest(s: Settings, lib: Library, r: Request, io: IoResults, videos: map<UUID, Video>)
    requires lib.parseUuid(r.videoIdPath).Some? && Caller(s, lib, r).Some?
    requires ThumbnailPart(r).Some? && HeaderGet(ThumbnailPart(r).value.header, "Content-Type") == ""
    ensures Run(s, lib, r, io, videos).Status() == StatusBadRequest
    ensures NoEffects(Run(s, lib, r, io, videos))
  {
  }

  /** A body that does not parse as a multipart form: 400, and neither store changes. */
  lemma BadFormIsBadRequest(s: Settings, lib: Library, r: Request, io: IoResults, videos: map<UUID, Video>)
    requires lib.parseUuid(r.videoIdPath).Some? && Caller(s, lib, r).Some?
    requires r.form.None?
    ensures Run(s, lib, r, io, videos).Status() == StatusBadRequest
    ensures NoEffects(Run(s, lib, r, io, videos))
  {
  }

  /**
   * No `thumbnail` file in the form, or one that cannot be opened: 400, and
   * neither store changes.
   */
  lemma MissingThumbnailIsBadRequest(s: Settings, lib: Library, r: Request, io: IoResults, videos: map<UUID, Video>)
    requires lib.parseUuid(r.videoIdPath).Some? && Caller(s, lib, r).Some? && r.form.Some?
    requires var files := r.form.value;
      "thumbnail" !in files || |files["thumbnail"]| == 0 || !files["thumbnail"][0].opens
    ensures Run(s, lib, r, io, videos).Status() == StatusBadRequest
    ensures NoEffects(Run(s, lib, r, io, videos))
  {
  }

  /** A Content-Type that mime.ParseMediaType rejects: 400, and neither store changes. */
  lemma BadContentTypeIsBadRequest(s: Settings, lib: Library, r: Request, io: IoResults, videos: map<UUID, Video>)
    requires lib.parseUuid(r.videoIdPath).Some? && Caller(s, lib, r).Some? && ThumbnailPart(r).Some?
    requires var contentType := HeaderGet(ThumbnailPart(r).value.header, "Content-Type");
      contentType != "" && lib.parseMediaType(contentType).None?
    ensures Run(s, lib, r, io, videos).Status() == StatusBadRequest
    ensures NoEffects(Run(s, lib, r, io, videos))
  {
  }

  /**
   * A media type other than the literal "image/jpeq" and "image/png" (so also
   * "image/jpeg"): 400 and no file written.
   */
  lemma UnlistedMediaTypeIsBadRequest(s: Settings, lib: Library, r: Request, io: IoResults, videos: map<UUID, Video>)
    requires lib.parseUuid(r.videoIdPath).Some? && Caller(s, lib, r).Some? && ThumbnailPart(r).Some?
    requires var contentType := HeaderGet(ThumbnailPart(r).value.header, "Content-Type");
      contentType != "" && lib.parseMediaType(contentType).Some?
      && lib.parseMediaType(contentType).value != "image/jpeq"
      && lib.parseMediaType(contentType).value != "image/png"
    ensures Run(s, lib, r, io, videos).Status() == StatusBadRequest
    ensures NoEffects(Run(s, lib, r, io, videos))
  {
  }

  /** In particular a real JPEG is refused. */
  lemma JpegIsRefused(s: Settings, lib: Library, r: Request, io: IoResults, videos: map<UUID, Video>)
    requires lib.parseUuid(r.videoIdPath).Some? && Caller(s, lib, r).Some? && ThumbnailPart(r).Some?
    requires var contentType := HeaderGet(ThumbnailPart(r).value.header, "Content-Type");
      contentType != "" && lib.parseMediaType(contentType) == Some("image/jpeg")
    ensures Run(s, lib, r, io, videos).Status() == StatusBadRequest
    ensures NoEffects(Run(s, lib, r, io, videos))
  {
    UnlistedMediaTypeIsBadRequest(s, lib, r, io, videos);
  }

  /**
   * A file is written exactly when every check on the request passed and
   * os.Create succeeded; it is then the disk path of the video id and media
   * type, holding the part's bytes, or nothing when the copy failed.
   */
  lemma WriteExactlyWhenAdmitted(s: Settings, lib: Library, r: Request, io: IoResults, videos: map<UUID, Video>)
    ensures var o := Run(s, lib, r, io, videos);
      o.write.Some? <==> Admit(s, lib, r).Admitted? && io.createOk
    ensures var o := Run(s, lib, r, io, videos); var a := Admit(s, lib, r);
      o.write.Some? ==>
        && a.Admitted? && '/' in a.mediaType
        && o.write.value.path == DiskPath(s.assetsRoot, a.videoId, a.mediaType)
        && o.write.value.content == (if io.copyOk then a.part.content else [])
  {
  }

  /** os.Create failing: 500 and nothing written; io.Copy failing: 500 and an empty file. */
  lemma StorageFailureIsServerError(s: Settings, lib: Library, r: Request, io: IoResults, videos: map<UUID, Video>)
    requires Admit(s, lib, r).Admitted?
    requires !io.createOk || !io.copyOk
    ensures var o := Run(s, lib, r, io, videos);
      && o.Status() == StatusInternalServerError
      && o.update.None?
      && (o.write.Some? <==> io.createOk)
      && (o.write.Some? ==> o.write.value.content == [])
  {
  }

  // ---- Failures after the write ----

  /**
   * A caller who does not own the video gets 401, yet the file at the disk
   * path already holds the bytes they uploaded; the record is not updated.
   */
  lemma NonOwnerOverwritesFile(s: Settings, lib: Library, r: Request, io: IoResults, videos: map<UUID, Video>,
                               files: map<string, seq<byte>>)
    requires var a := Admit(s, lib, r);
      && a.Admitted? && io.createOk && io.copyOk && io.dbReadOk
      && a.videoId in videos && videos[a.videoId].userId != a.userId
    ensures var o := Run(s, lib, r, io, videos); var a := Admit(s, lib, r);
      && '/' in a.mediaType
      && o.Status() == StatusUnauthorized
      && ApplyWrite(files, o.write) == files[DiskPath(s.assetsRoot, a.videoId, a.mediaType) := a.part.content]
      && ApplyUpdate(videos, o.update) == videos
  {
  }

  /** A failed video lookup gives 400 with the file already written. */
  lemma LookupFailureKeepsFile(s: Settings, lib: Library, r: Request, io: IoResults, videos: map<UUID, Video>)
    requires var a := Admit(s, lib, r);
      a.Admitted? && io.createOk && io.copyOk && (!io.dbReadOk || a.videoId !in videos)
    ensures var o := Run(s, lib, r, io, videos); var a := Admit(s, lib, r);
      && o.Status() == StatusBadRequest
      && o.write.Some? && o.write.value.content == a.part.content
      && o.update.None?
  {
  }

  /** A failed UpdateVideo gives 400 with the file written and the table unchanged. */
  lemma UpdateFailureKeepsFile(s: Settings, lib: Library, r: Request, io: IoResults, videos: map<UUID, Video>)
    requires var a := Admit(s, lib, r);
      && a.Admitted? && io.createOk && io.copyOk && io.dbReadOk && !io.dbWriteOk
      && a.videoId in videos && videos[a.videoId].userId == a.userId
    ensures var o := Run(s, lib, r, io, videos); var a := Admit(s, lib, r);
      && o.Status() == StatusBadRequest
      && o.write.Some? && o.write.value.content == a.part.content
      && o.update.None?
  {
  }

  // ---- Success ----

  /**
   * 200 exactly when every step passes. Then the file at the disk path holds
   * the uploaded bytes and the video's thumbnail URL is the ".png" asset URL,
   * whatever the media type; nothing else in the record changes.
   */
  lemma SuccessSetsPngUrl(s: Settings, lib: Library, r: Request, io: IoResults, videos: map<UUID, Video>)
    ensures var o := Run(s, lib, r, io, videos); var a := Admit(s, lib, r);
      o.Status() == StatusOK <==>
        && a.Admitted? && io.createOk && io.copyOk && io.dbReadOk && io.dbWriteOk
        && a.videoId in videos && videos[a.videoId].userId == a.userId
    ensures var o := Run(s, lib, r, io, videos); var a := Admit(s, lib, r);
      o.Status() == StatusOK ==>
        && a.Admitted?
        && o.write.Some? && o.write.value.content == a.part.content
        && o.update == Some(videos[a.videoId].(thumbnailUrl :=
             Some("http://localhost:" + s.port + "/assets/" + ToString(a.videoId) + ".png")))
  {
  }

  /**
   * The update touches only the uploaded video's record, keeps the table keyed
   * by id, and the write leaves every other video's thumbnail file alone.
   */
  lemma OnlyTheTargetChanges(s: Settings, lib: Library, r: Request, io: IoResults, videos: map<UUID, Video>,
                             files: map<string, seq<byte>>, other: UUID, m: string)
    requires KeyedById(videos)
    requires Admit(s, lib, r).Admitted? && other != Admit(s, lib, r).videoId
    requires '/' in m
    ensures var o := Run(s, lib, r, io, videos);
      && KeyedById(ApplyUpdate(videos, o.update))
      && ApplyUpdate(videos, o.update).Keys == videos.Keys
      && (other in videos ==> ApplyUpdate(videos, o.update)[other] == videos[other])
      && var p := DiskPath(s.assetsRoot, other, m);
         (p in ApplyWrite(files, o.write) <==> p in files)
         && (p in files ==> ApplyWrite(files, o.write)[p] == files[p])
  {
    var a := Admit(s, lib, r);
    DiskPathsDistinct(s.assetsRoot, other, m, a.videoId, a.mediaType);
  }

  /**
   * Uploading twice for the same video with the same media type: both
   * succeed with the same URL and path, and the file holds the second bytes.
   */
  lemma ReuploadOverwrites(s: Settings, lib: Library, r1: Request, r2: Request, io: IoResults,
                           videos: map<UUID, Video>, files: map<string, seq<byte>>)
    requires KeyedById(videos)
    requires Run(s, lib, r1, io, videos).Status() == StatusOK
    requires Admit(s, lib, r2).Admitted?
    requires Admit(s, lib, r2).videoId == Admit(s, lib, r1).videoId
    requires Admit(s, lib, r2).userId == Admit(s, lib, r1).userId
    requires Admit(s, lib, r2).mediaType == Admit(s, lib, r1).mediaType
    ensures var o1 := Run(s, lib, r1, io, videos);
      var o2 := Run(s, lib, r2, io, ApplyUpdate(videos, o1.update));
      && o2.Status() == StatusOK
      && o2.write.value.path == o1.write.value.path
      && ApplyWrite(ApplyWrite(files, o1.write), o2.write)[o1.write.value.path] == Admit(s, lib, r2).part.content
      && o2.update.value.thumbnailUrl == o1.update.value.thumbnailUrl
  {
    SuccessSetsPngUrl(s, lib, r1, io, videos);
  }

  // ---- Two requests in a row ----

  const AllSucceed := IoResults(true, true, true, true)

  /**
   * The owner uploads a thumbnail for their video: 200, the file holds their
   * bytes and the URL is set. Another user then uploads to the same video
   * with the same media type: 401 and the record stays as the owner left it,
   * yet the same file now holds the other user's bytes.
   */
  lemma NonOwnerAfterOwner(s: Settings, lib: Library, r1: Request, r2: Request,
                           videos: map<UUID, Video>, files: map<string, seq<byte>>)
    requires KeyedById(videos)
    requires var a1 := Admit(s, lib, r1); var a2 := Admit(s, lib, r2);
      && a1.Admitted? && a2.Admitted?
      && a1.videoId == a2.videoId && a1.mediaType == a2.mediaType
      && a1.videoId in videos && videos[a1.videoId].userId == a1.userId
      && a2.userId != a1.userId
    ensures var a1 := Admit(s, lib, r1); var a2 := Admit(s, lib, r2);
      var o1 := Run(s, lib, r1, AllSucceed, videos);
      var videos1 := ApplyUpdate(videos, o1.update);
      var o2 := Run(s, lib, r2, AllSucceed, videos1);
      var path := DiskPath(s.assetsRoot, a1.videoId, a1.mediaType);
      && o1.Status() == StatusOK
      && ApplyWrite(files, o1.write)[path] == a1.part.content
      && videos1[a1.videoId].thumbnailUrl == Some(ThumbnailUrl(s.port, a1.videoId))
      && o2.Status() == StatusUnauthorized
      && ApplyUpdate(videos1, o2.update) == videos1
      && ApplyWrite(ApplyWrite(files, o1.write), o2.write)[path] == a2.part.content
  {
    var a1 := Admit(s, lib, r1);
    var o1 := Run(s, lib, r1, AllSucceed, videos);
    SuccessSetsPngUrl(s, lib, r1, AllSucceed, videos);
    var videos1 := ApplyUpdate(videos, o1.update);
    assert videos1[a1.videoId].userId == a1.userId;
  }
}
