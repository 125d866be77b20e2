# Tubely thumbnail upload, modelled in Dafny

Tubely is a video-hosting service. Its handler `handlerUploadThumbnail`
receives a request whose path carries `videoID` and whose body is a multipart form whose
`thumbnail` part is the image. It runs a fixed pipeline, and the first
failing step ends the request with that step's status:

1. parse the video id (400);
2. extract the bearer token (401) and validate it with the JWT secret (401);
3. parse the multipart form (400);
4. take the `thumbnail` part (400);
5. read the part's `Content-Type` (400 when empty) and parse it as a media type (400);
6. check the media type against the allow-list `"image/jpeq"`, `"image/png"` (400);
7. build the disk path `<assetsRoot>/<videoID>.<subtype>`, create the file (500) and copy the bytes into it (500);
8. load the video (400) and check that the caller owns it (401);
9. set its thumbnail URL to `http://localhost:<port>/assets/<videoID>.png` and store the record (400);
10. answer 200 with the record.

The model is split into five files:

- `wrappers.dfy`: `Option`.
- `uuids.dfy`: the 16-byte `UUID` and its canonical text form, the one `videoID.String()` and `%v` print. Includes hex encoding and decoding, and the proof that the text form is injective and contains no `/` or `.`.
- `strings.dfy`: `strings.Split` on a one-character separator, proved against `strings.Join` as its inverse.
- `thumbnails.dfy`: the request, the video record, the steps and their failures.
  - `Run` is the reference definition of one request. It gives the failing step, the file write that happened and the video record that was stored. It is split into `Admit` (the checks on the request) and `Persist` (the writes and the database steps).
  - The class `ApiConfig` holds the two stores the handler changes: `files` (disk path to bytes under the assets root) and `videos` (the video table).
  - Its method `HandlerUploadThumbnail` runs the handler step by step, with early returns. It is proved to return `Run`'s status and to leave exactly `Run`'s effects on both stores.
- `properties.dfy`: what the handler promises, stated over `Run` as lemmas:
  - the status of each failure;
  - which effects have already happened when a step fails;
  - the shape of the disk path and URL, and that distinct videos have distinct paths;
  - overwrite on re-upload;
  - a non-owner upload after the owner's.

The library calls are not modelled. Each is an input:

- `uuid.Parse`, `auth.GetBearerToken`, `auth.ValidateJWT` and the media type from `mime.ParseMediaType` are function fields of `Library`.
- `ParseMultipartForm` is an optional form in `Request`.
- Whether `FormFile` can open the `thumbnail` part is a flag of each `FilePart`.
- Whether `os.Create`, `io.Copy`, `GetVideo` and `UpdateVideo` succeed is given by `IoResults`.

The model follows the code as written, including where it does not do what its own messages and comments suggest:

- The file is created and written at `handler_upload_thumbnail.go:69-79`, before the video is loaded and its owner checked at lines 81-89. A non-owner gets 401, but their bytes are already in the file (`NonOwnerOverwritesFile`, `NonOwnerAfterOwner`).
- The allow-list at line 62 is the literal strings `"image/jpeq"` and `"image/png"`. A real `"image/jpeg"` is refused with 400 (`JpegIsRefused`), although the error text at line 63 ("must be a png or a jpeg") shows JPEG was meant to be accepted.
- The URL always ends in `.png`. For a `"image/jpeq"` upload it therefore does not name the file that was written, which ends in `.jpeq` (`UrlAlwaysPng`).
- There is no size check. `10 << 20` is only `ParseMultipartForm`'s in-memory budget; larger parts spill to temporary files.
- A failed `UpdateVideo` answers 400 (line 94), and the file stays written: nothing undoes the write at lines 69-79.

## Model

| member | source | states |
|---|---|---|
| Uuids.ToStringIsCanonical | handler_upload_thumbnail.go:66 | `videoID.String()` is 36 characters: lower-case hex digits with dashes at positions 8, 13, 18 and 23 |
| Uuids.ToStringHasNoSlashOrDot | handler_upload_thumbnail.go:66 | the id's text has no `/` and no `.` |
| Uuids.FromStringToString | handler_upload_thumbnail.go:66 | the id's text decodes back to the same 16 bytes |
| Uuids.ToStringInjective | handler_upload_thumbnail.go:66 | distinct ids print as distinct text |
| Uuids.UnhexHex | handler_upload_thumbnail.go:66 | decoding the hex text of any byte string gives the bytes back |
| Strings.Split | handler_upload_thumbnail.go:67 | `strings.Split` returns at least one piece, and at least two when the separator occurs; no piece contains the separator; joining the pieces with it restores the input |
| Strings.SplitAtFirst | handler_upload_thumbnail.go:67 | the text before the first separator is the first piece, and the rest splits on its own |
| Strings.SplitNoSeparator | handler_upload_thumbnail.go:67 | a string without the separator splits into itself alone |
| Strings.SplitPair | handler_upload_thumbnail.go:67 | `type/subtype` splits into exactly `[type, subtype]` |
| Thumbnails.AllowedHasSlash | handler_upload_thumbnail.go:62-67 | both allowed media types contain `/`, so the `[1]` index never panics |
| Thumbnails.AllowedSubtype | handler_upload_thumbnail.go:62-67 | an allowed media type splits into two pieces; the second is `png` or `jpeq` |
| Thumbnails.JoinPath | handler_upload_thumbnail.go:66 | the joined path ends with the file name |
| Thumbnails.Admit | handler_upload_thumbnail.go:17-65 | a rejection comes from a step before `os.Create`; an admitted request has an allowed media type |
| Thumbnails.Persist | handler_upload_thumbnail.go:69-98 | after admission, failures come only from `os.Create` onwards; a record is stored exactly on success, and it then carries a URL; a file is written exactly when `os.Create` succeeded; a failed copy leaves an empty file |
| Thumbnails.Run | handler_upload_thumbnail.go:16-99 | a record is stored exactly on success, and it then carries a URL; a file is written exactly on success or on a failure after `os.Create`; a failed copy leaves an empty file |
| Thumbnails.ApiConfig.HandlerUploadThumbnail | handler_upload_thumbnail.go:16-99 | returns `Run`'s status; the files become the old files plus `Run`'s write; the video table becomes the old table plus `Run`'s update; the table stays keyed by id |
| Thumbnails.ApiConfig.StoreThumbnail | handler_upload_thumbnail.go:69-98 | the create, copy, lookup, owner check and update steps return `Persist`'s status and leave exactly `Persist`'s effects on both stores |
| UploadProperties.DiskPathShape | handler_upload_thumbnail.go:66-67 | the disk path is the root directory, the id's text, then `.png` for `image/png` or `.jpeq` for `image/jpeq` |
| UploadProperties.DiskPathDirectlyUnderRoot | handler_upload_thumbnail.go:66-67 | the disk path is the root directory followed by a file name with no `/`, so the file sits directly under the assets root for every video id |
| UploadProperties.DiskPathsDistinct | handler_upload_thumbnail.go:66-67 | two different videos never share a disk path, whatever their media types |
| UploadProperties.UrlAlwaysPng | handler_upload_thumbnail.go:91 | for `image/jpeq` the file written under the root is not `<id>.png`, the name the thumbnail URL always uses |
| UploadProperties.InvalidVideoIdIsBadRequest | handler_upload_thumbnail.go:17-22 | an id that does not parse gives 400; no file is written and no record changes |
| UploadProperties.UnauthenticatedIsUnauthorized | handler_upload_thumbnail.go:24-34 | a missing or invalid bearer token gives 401; no file is written and no record changes |
| UploadProperties.BadFormIsBadRequest | handler_upload_thumbnail.go:38-42 | a body that does not parse as a multipart form gives 400; no file is written and no record changes |
| UploadProperties.MissingThumbnailIsBadRequest | handler_upload_thumbnail.go:44-48 | a form with no `thumbnail` file, or one that cannot be opened, gives 400; no file is written and no record changes |
| UploadProperties.EmptyContentTypeIsBadRequest | handler_upload_thumbnail.go:51-55 | an empty `Content-Type` on the part gives 400 before any write |
| UploadProperties.BadContentTypeIsBadRequest | handler_upload_thumbnail.go:57-61 | a `Content-Type` that `mime.ParseMediaType` rejects gives 400; no file is written and no record changes |
| UploadProperties.UnlistedMediaTypeIsBadRequest | handler_upload_thumbnail.go:62-65 | a media type other than the two literals gives 400; no file is written and no record changes |
| UploadProperties.JpegIsRefused | handler_upload_thumbnail.go:62-65 | `image/jpeg` gives 400; no file is written and no record changes |
| UploadProperties.WriteExactlyWhenAdmitted | handler_upload_thumbnail.go:66-79 | a file is written exactly when every check passed and `os.Create` succeeded; it sits at the disk path of the id and media type; it holds the part's bytes, or nothing when the copy failed |
| UploadProperties.StorageFailureIsServerError | handler_upload_thumbnail.go:69-79 | a failed create or copy gives 500 and stores no record; a failed create writes no file; a failed copy leaves an empty one |
| UploadProperties.NonOwnerOverwritesFile | handler_upload_thumbnail.go:69-89 | a non-owner gets 401, yet the file at the disk path now holds their bytes; the table is unchanged |
| UploadProperties.LookupFailureKeepsFile | handler_upload_thumbnail.go:81-85 | a failed video lookup gives 400 with the uploaded bytes already written and no record stored |
| UploadProperties.UpdateFailureKeepsFile | handler_upload_thumbnail.go:93-96 | a failed `UpdateVideo` gives 400 with the uploaded bytes written and no record stored |
| UploadProperties.SuccessSetsPngUrl | handler_upload_thumbnail.go:86-98 | 200 exactly when every step passes; the file then holds the uploaded bytes; the stored record is the old one with only its thumbnail URL set to the `.png` asset URL |
| UploadProperties.OnlyTheTargetChanges | handler_upload_thumbnail.go:66-98 | the table keeps its keys and stays keyed by id; every other video's record and thumbnail file are untouched |
| UploadProperties.ReuploadOverwrites | handler_upload_thumbnail.go:66-98 | a second successful upload for the same video and media type uses the same path and URL; the file then holds the second upload's bytes |
| UploadProperties.NonOwnerAfterOwner | handler_upload_thumbnail.go:69-98 | the owner's upload gives 200 and sets the URL; another user's upload to the same video gives 401 and leaves the record as the owner left it, but replaces the file's bytes with their own |

## Left out

- Internals of `uuid.Parse`, `auth.GetBearerToken`, `auth.ValidateJWT`, `mime.ParseMediaType` and `ParseMultipartForm`: the auth package and the standard library are not part of this model. Their results are inputs.
- Media-type parameters (`; charset=…`): only the media type that `mime.ParseMediaType` returns matters to the handler.
- Thumbnails.HeaderGet: `Header.Get` is a library lookup modelled by its definition and has no property of its own. It looks up the key as given; `textproto` key canonicalisation is not modelled.
- Thumbnails.FormFile: `Request.FormFile` is a library lookup modelled by its definition and has no property of its own. Why a part fails to open is not modelled, only whether it does.
- Thumbnails.JoinPath: does not model the `filepath.Clean` step of `filepath.Join`. It is faithful only for a root that `filepath.Clean` leaves unchanged. A root such as `./assets` or `a//b` is joined as written.
- Thumbnails.Persist: `cfg.db.GetVideo` on an unknown id is modelled as a lookup failure (400). The database package is not part of this model. `dbReadOk` covers its other errors.
- Database internals, such as `updated_at` timestamps and SQL: a record is a `Video` value with the fields this handler never touches folded into `metadata`.
- Partial writes: `io.Copy` either copies everything or fails and leaves the freshly truncated file empty. A copy that fails halfway through is not modelled. The deferred `Close` calls and their errors are not modelled.
- The `fmt.Println` trace line, the JSON response bodies and the error messages of `respondWithError`: only the status code and the two stores are modelled.
- `cfg.port` is a string printed by `%v`.
- The `10 << 20` in-memory budget of `ParseMultipartForm`: it bounds memory, not upload size, and its effect is part of the form-parsing input.
- Concurrent requests: each request is one atomic step on the two stores.
- Thumbnails.ApiConfig.StoreThumbnail: the steps after the media-type check are a separate method only to keep each proof small. The Go handler is one function.
