/** Turning an attachment reference into base64 image text: `_process_attachment`
    and the helpers it dispatches to. The camera snapshot, the media-source
    resolver, the HTTP client and the file system are foreign calls; they are the
    fields of `Env`, and an exception from any of them is one of their outcomes. */
module Attachments {
  import opened Wrappers
  import opened Text
  import opened Base64

  /** What `_process_attachment` reads from an attachment object: its
      `media_content_id` attribute (`None` when the object has none) and its
      `media_content_type` attribute (`None` when absent, read as `""`). */
  datatype Attachment = Attachment(mediaContentId: Option<string>, mediaContentType: Option<string>)

  /** `session.get(url)` followed by `response.read()`: it raises (an
      `aiohttp.ClientError` when `clientError` holds, some other exception
      otherwise), or it gives a status and a body. */
  datatype HttpGet = GetRaised(clientError: bool, reason: string) | GetReply(status: int, body: seq<Byte>)

  /** `async_resolve_media(hass, id, None)`: it raises, or it returns media whose
      `url` may be missing (`None`) or empty. */
  datatype MediaResolution = ResolveRaised | Resolved(url: Option<string>)

  /** The foreign collaborators, as functions of their arguments. */
  datatype Env = Env(
    /** `hass.config.config_dir`, the base of `hass.config.path(...)` */
    configDir: string,
    /** `async_get_image(hass, entity).content`; `None` when it raises */
    cameraImage: string -> Option<seq<Byte>>,
    resolveMedia: string -> MediaResolution,
    httpGet: string -> HttpGet,
    /** `Path(p).exists()` and `Path(p).is_file()` */
    pathExists: string -> bool,
    isFile: string -> bool,
    /** `open(p, 'rb').read()`; `None` when it raises */
    readFile: string -> Option<seq<Byte>>
  )

  const CameraPrefix := "media-source://camera/"
  const MediaSourcePrefix := "media-source://media_source/"
  const MediaLocalPrefix := "/media/local/"
  const LocalMarker := "local/"
  const MediaSourceLocal := "media-source://media_source/local/"

  /** The branch `_process_attachment` takes. */
  datatype Route =
    | NoMediaId
    | Camera(entityId: string)
    | MediaSource(mediaId: string)
    | DirectUrl(url: string)
    | Unsupported(mediaType: string)

  /** The camera entity named by a camera media id: the id with the camera prefix
      replaced by nothing, wherever it occurs (`str.replace`). */
  function CameraEntityId(mediaId: string): string {
    Replace(mediaId, CameraPrefix, "")
  }

  /** The dispatch of `_process_attachment`: the first test that holds wins. */
  function Classify(a: Attachment): Route {
    match a.mediaContentId
    case None => NoMediaId
    case Some(id) =>
      var mediaType := a.mediaContentType.GetOr("");
      if StartsWith(id, CameraPrefix) then Camera(CameraEntityId(id))
      else if StartsWith(id, MediaSourcePrefix) || StartsWith(id, MediaLocalPrefix) || Contains(id, LocalMarker) then
        MediaSource(id)
      else if StartsWith(mediaType, "image/") then DirectUrl(id)
      else Unsupported(mediaType)
  }

  /** First match wins: each branch is taken exactly when its own test holds and
      every earlier test fails, and the media type matters only after the id tests. */
  lemma ClassifyFirstMatch(a: Attachment)
    ensures Classify(a).NoMediaId? <==> a.mediaContentId.None?
    ensures Classify(a).Camera? <==> a.mediaContentId.Some? && StartsWith(a.mediaContentId.value, CameraPrefix)
    ensures Classify(a).MediaSource? <==>
      a.mediaContentId.Some? && !StartsWith(a.mediaContentId.value, CameraPrefix)
      && (StartsWith(a.mediaContentId.value, MediaSourcePrefix) || Contains(a.mediaContentId.value, LocalMarker))
    ensures Classify(a).DirectUrl? <==>
      a.mediaContentId.Some? && !StartsWith(a.mediaContentId.value, CameraPrefix)
      && !StartsWith(a.mediaContentId.value, MediaSourcePrefix) && !Contains(a.mediaContentId.value, LocalMarker)
      && StartsWith(a.mediaContentType.GetOr(""), "image/")
    ensures Classify(a).MediaSource? ==> Classify(a).mediaId == a.mediaContentId.value
    ensures Classify(a).DirectUrl? ==> Classify(a).url == a.mediaContentId.value
  {
    if a.mediaContentId.Some? {
      LocalPrefixIsLocal(a.mediaContentId.value);
    }
  }

  /** The `/media/local/` test is subsumed by the `local/` test that follows it. */
  lemma LocalPrefixIsLocal(id: string)
    ensures StartsWith(id, MediaLocalPrefix) ==> Contains(id, LocalMarker)
  {
    if StartsWith(id, MediaLocalPrefix) {
      assert id[7..13] == MediaLocalPrefix[7..13] == LocalMarker;
      assert OccursAt(id, LocalMarker, 7);
    }
  }

  /** For `media-source://camera/<entity>`, where the entity does not itself contain
      the prefix, the camera entity is exactly `<entity>`. */
  lemma CameraEntityIdIsSuffix(entity: string)
    requires !Contains(entity, CameraPrefix)
    ensures Classify(Attachment(Some(CameraPrefix + entity), None)) == Camera(entity)
  {
    ReplaceLeadingOnly(CameraPrefix, entity);
    assert (CameraPrefix + entity)[..|CameraPrefix|] == CameraPrefix;
  }

  /** The file name that `_process_local_media_file` extracts: the last piece of
      `split("media-source://media_source/local/")` when that marker occurs, else the
      last piece of `split("/media/local/")`. */
  function LocalFilename(mediaId: string): Option<string> {
    if Contains(mediaId, MediaSourceLocal) then Some(LastPiece(mediaId, MediaSourceLocal))
    else if Contains(mediaId, MediaLocalPrefix) then Some(LastPiece(mediaId, MediaLocalPrefix))
    else None
  }

  /** `media-source://media_source/local/` cannot overlap itself: of its proper
      suffixes only `media_source/local/` starts with `m`, and that one is not a prefix. */
  lemma MediaSourceLocalOverlapFree()
    ensures SelfOverlapFree(MediaSourceLocal)
  {
    var sep := MediaSourceLocal;
    forall d | 0 < d < |sep| ensures sep[d..] != sep[..|sep| - d] {
      if d == 15 {
        assert sep[20] == '_' && sep[5] == '-';
        assert sep[d..][5] == sep[20] && sep[..|sep| - d][5] == sep[5];
      } else {
        OnlyOtherM(d);
        assert sep[d..][0] == sep[d] && sep[..|sep| - d][0] == sep[0];
      }
    }
  }

  /** Besides its first character, `media-source://media_source/local/` has an `m` only at index 15. */
  lemma OnlyOtherM(d: int)
    requires 0 < d < |MediaSourceLocal| && d != 15
    ensures MediaSourceLocal[d] != 'm' && MediaSourceLocal[0] == 'm'
  {
  }

  /** The extracted name follows the marker that was checked first and present.
      For `media-source://media_source/local/` that is its last occurrence. For
      `/media/local/`, which can overlap itself by one `/`, it is where `split`'s
      left-to-right scan last resumed (see LocalPrefixOverlap). */
  lemma LocalFilenameAfterMarker(mediaId: string)
    ensures LocalFilename(mediaId).None? <==>
      !Contains(mediaId, MediaSourceLocal) && !Contains(mediaId, MediaLocalPrefix)
    ensures Contains(mediaId, MediaSourceLocal) ==>
      exists k ::
        && OccursAt(mediaId, MediaSourceLocal, k)
        && (forall k' :: OccursAt(mediaId, MediaSourceLocal, k') ==> k' <= k)
        && LocalFilename(mediaId) == Some(mediaId[k + |MediaSourceLocal|..])
    ensures !Contains(mediaId, MediaSourceLocal) && Contains(mediaId, MediaLocalPrefix) ==>
      var m := LastCut(mediaId, MediaLocalPrefix, 0);
      && |MediaLocalPrefix| <= m
      && OccursAt(mediaId, MediaLocalPrefix, m - |MediaLocalPrefix|)
      && (forall k :: m <= k ==> !OccursAt(mediaId, MediaLocalPrefix, k))
      && LocalFilename(mediaId) == Some(mediaId[m..])
      && !Contains(mediaId[m..], MediaLocalPrefix)
  {
    if Contains(mediaId, MediaSourceLocal) {
      MediaSourceLocalOverlapFree();
      LastPieceAfterLastOccurrence(mediaId, MediaSourceLocal);
    } else if Contains(mediaId, MediaLocalPrefix) {
      LastPieceAtLastCut(mediaId, MediaLocalPrefix);
    }
  }

  /** `/media/local/` overlaps itself: in `/media/local/media/local/x` it also occurs
      at index 12, yet the name is `media/local/x`, the text after the first one. */
  lemma LocalPrefixOverlap()
    ensures var id := "/media/local/media/local/x";
      && OccursAt(id, MediaLocalPrefix, 12)
      && LocalFilename(id) == Some("media/local/x")
  {
    var id := "/media/local/media/local/x";
    assert id[12..25] == MediaLocalPrefix;
    assert !Contains(id, MediaSourceLocal) by {
      assert |id| < |MediaSourceLocal|;
    }
    assert OccursAt(id, MediaLocalPrefix, 0) by {
      assert id[0..13] == MediaLocalPrefix;
    }
    assert FindFrom(id, MediaLocalPrefix, 13) == None by {
      assert !OccursAt(id, MediaLocalPrefix, 13) by {
        assert id[13] == 'm' && MediaLocalPrefix[0] == '/';
      }
      assert forall k :: 13 < k ==> !OccursAt(id, MediaLocalPrefix, k);
    }
    assert Split(id, MediaLocalPrefix) == [id[0..0], id[13..]];
    assert id[13..] == "media/local/x";
  }

  /** `os.path.join(base, part)` (and pathlib's `/`): an absolute part replaces the base. */
  function JoinPath(base: string, part: string): string {
    if StartsWith(part, "/") then part
    else if base == [] || base[|base| - 1] == '/' then base + part
    else base + "/" + part
  }

  /** The paths `_process_local_media_file` considers, in order: `<config>/www/media/<f>`,
      `/media/<f>`, `<config>/www/<f>`. */
  function LocalCandidates(configDir: string, filename: string): seq<string> {
    [ JoinPath(JoinPath(JoinPath(configDir, "www"), "media"), filename),
      JoinPath("/media", filename),
      JoinPath(JoinPath(configDir, "www"), filename) ]
  }

  /** A relative file name is looked up under the three directories. */
  lemma RelativeCandidates(configDir: string, filename: string)
    requires !StartsWith(filename, "/") && configDir != [] && configDir[|configDir| - 1] != '/'
    ensures LocalCandidates(configDir, filename)
      == [configDir + "/www/media/" + filename, "/media/" + filename, configDir + "/www/" + filename]
  {
    WwwMediaCandidate(configDir, filename);
    assert JoinPath("/media", filename) == "/media/" + filename by {
      JoinRelative("/media", filename);
      assert "/media" + "/" + filename == "/media/" + filename;
    }
    WwwCandidate(configDir, filename);
  }

  /** `<config>/www` as joined by the integration. */
  lemma WwwDir(configDir: string)
    requires configDir != [] && configDir[|configDir| - 1] != '/'
    ensures JoinPath(configDir, "www") == configDir + "/www"
  {
    assert "www"[..1][0] == 'w';
    JoinRelative(configDir, "www");
    assert configDir + "/" + "www" == configDir + "/www";
  }

  /** The first candidate of a relative name: `<config>/www/media/<f>`. */
  lemma WwwMediaCandidate(configDir: string, filename: string)
    requires !StartsWith(filename, "/") && configDir != [] && configDir[|configDir| - 1] != '/'
    ensures JoinPath(JoinPath(JoinPath(configDir, "www"), "media"), filename) == configDir + "/www/media/" + filename
  {
    WwwDir(configDir);
    var www := configDir + "/www";
    assert www[|www| - 1] == 'w';
    assert "media"[..1][0] == 'm';
    JoinRelative(www, "media");
    var media := www + "/" + "media";
    assert media == configDir + "/www/media" && media[|media| - 1] == 'a';
    JoinRelative(media, filename);
    assert configDir + "/www/media" + "/" + filename == configDir + "/www/media/" + filename;
  }

  /** The third candidate of a relative name: `<config>/www/<f>`. */
  lemma WwwCandidate(configDir: string, filename: string)
    requires !StartsWith(filename, "/") && configDir != [] && configDir[|configDir| - 1] != '/'
    ensures JoinPath(JoinPath(configDir, "www"), filename) == configDir + "/www/" + filename
  {
    WwwDir(configDir);
    var www := configDir + "/www";
    assert www[|www| - 1] == 'w';
    JoinRelative(www, filename);
    assert configDir + "/www" + "/" + filename == configDir + "/www/" + filename;
  }

  /** A part that does not start with `/`, joined to a base that does not end in one,
      is appended after a `/`. */
  lemma JoinRelative(base: string, part: string)
    requires !StartsWith(part, "/") && base != [] && base[|base| - 1] != '/'
    ensures JoinPath(base, part) == base + "/" + part
  {
  }

  /** An absolute file name escapes every directory: all three candidates are the name itself. */
  lemma AbsoluteCandidates(configDir: string, filename: string)
    requires StartsWith(filename, "/")
    ensures LocalCandidates(configDir, filename) == [filename, filename, filename]
  {
  }

  /** The path kept after the successive "if it does not exist, try the next" steps. */
  function FirstExistingOrLast(paths: seq<string>, pathExists: string -> bool): string
    requires paths != []
    decreases |paths|
  {
    if |paths| == 1 || pathExists(paths[0]) then paths[0]
    else FirstExistingOrLast(paths[1..], pathExists)
  }

  /** The chosen path is the first existing candidate, or the last one when none exists. */
  lemma {:induction false} FirstExistingOrLastChoice(paths: seq<string>, pathExists: string -> bool)
    requires paths != []
    ensures exists k :: (0 <= k < |paths| && FirstExistingOrLast(paths, pathExists) == paths[k]
                         && (pathExists(paths[k]) || k == |paths| - 1)
                         && forall j :: 0 <= j < k ==> !pathExists(paths[j]))
    decreases |paths|
  {
    if |paths| == 1 || pathExists(paths[0]) {
      assert FirstExistingOrLast(paths, pathExists) == paths[0];
    } else {
      FirstExistingOrLastChoice(paths[1..], pathExists);
      var k :| 0 <= k < |paths| - 1 && FirstExistingOrLast(paths[1..], pathExists) == paths[1..][k]
        && (pathExists(paths[1..][k]) || k == |paths| - 2)
        && forall j :: 0 <= j < k ==> !pathExists(paths[1..][j]);
      assert FirstExistingOrLast(paths, pathExists) == paths[k + 1];
      forall j | 0 <= j < k + 1 ensures !pathExists(paths[j]) {
        if j > 0 {
          assert paths[j] == paths[1..][j - 1];
        }
      }
    }
  }

  /** With three candidates, the successive reassignments keep this path. */
  lemma ThreeCandidates(paths: seq<string>, pathExists: string -> bool)
    requires |paths| == 3
    ensures FirstExistingOrLast(paths, pathExists)
      == if pathExists(paths[0]) then paths[0] else if pathExists(paths[1]) then paths[1] else paths[2]
  {
    if !pathExists(paths[0]) {
      var rest := paths[1..];
      assert FirstExistingOrLast(paths, pathExists) == FirstExistingOrLast(rest, pathExists);
      assert rest[0] == paths[1];
      if !pathExists(paths[1]) {
        assert FirstExistingOrLast(rest, pathExists) == FirstExistingOrLast(rest[1..], pathExists);
        assert rest[1..] == [paths[2]];
      }
    }
  }

  /** Bytes read from a file or fetched, as the base64 text the integration embeds. */
  function EncodeRead(data: Option<seq<Byte>>): Option<string> {
    match data
    case None => None
    case Some(b) => Some(Encode(b))
  }

  /** What `_process_local_media_file` returns. */
  function LocalFileResult(mediaId: string, env: Env): Option<string> {
    match LocalFilename(mediaId)
    case None => None
    case Some(f) =>
      var p := FirstExistingOrLast(LocalCandidates(env.configDir, f), env.pathExists);
      if env.pathExists(p) && env.isFile(p) then EncodeRead(env.readFile(p)) else None
  }

  /** `_process_local_media_file`: the candidate path is reassigned while it does not
      exist; only the path finally kept is tested for being a regular file and read. */
  method LocalMediaFile(mediaId: string, env: Env) returns (r: Option<string>)
    ensures r == LocalFileResult(mediaId, env)
  {
    var filename: string;
    if Contains(mediaId, MediaSourceLocal) {
      filename := LastPiece(mediaId, MediaSourceLocal);
    } else if Contains(mediaId, MediaLocalPrefix) {
      filename := LastPiece(mediaId, MediaLocalPrefix);
    } else {
      return None;
    }
    var candidates := LocalCandidates(env.configDir, filename);
    var mediaPath := candidates[0];
    if !env.pathExists(mediaPath) {
      mediaPath := candidates[1];
    }
    if !env.pathExists(mediaPath) {
      mediaPath := candidates[2];
    }
    ThreeCandidates(candidates, env.pathExists);
    if env.pathExists(mediaPath) && env.isFile(mediaPath) {
      r := EncodeRead(env.readFile(mediaPath));
    } else {
      r := None;
    }
  }

  /** The local-file fallback of `_process_media_source_attachment`, tried only for ids containing `local/`. */
  function LocalFallback(mediaId: string, env: Env): Option<string> {
    if Contains(mediaId, LocalMarker) then LocalFileResult(mediaId, env) else None
  }

  /** What `_process_media_source_attachment` returns. Resolution and the fetch of the
      resolved URL share one `try`: the local fallback runs when either raises, and
      not when no URL comes back or the fetch answers with a status other than 200. */
  function MediaSourceResult(mediaId: string, env: Env): Option<string> {
    match env.resolveMedia(mediaId)
    case ResolveRaised => LocalFallback(mediaId, env)
    case Resolved(url) =>
      if url.None? || url.value == "" then None
      else
        match env.httpGet(url.value)
        case GetRaised(_, _) => LocalFallback(mediaId, env)
        case GetReply(status, body) => if status == 200 then Some(Encode(body)) else None
  }

  /** What `_process_camera_attachment` returns. */
  function CameraResult(entity: string, env: Env): Option<string> {
    EncodeRead(env.cameraImage(entity))
  }

  /** What `_process_image_attachment` returns. */
  function DirectUrlResult(url: string, env: Env): Option<string> {
    match env.httpGet(url)
    case GetRaised(_, _) => None
    case GetReply(status, body) => if status == 200 then Some(Encode(body)) else None
  }

  /** What `_process_attachment` returns; it never raises, every failure is `None`. */
  function AttachmentResult(a: Attachment, env: Env): Option<string> {
    match Classify(a)
    case NoMediaId => None
    case Camera(entity) => CameraResult(entity, env)
    case MediaSource(id) => MediaSourceResult(id, env)
    case DirectUrl(url) => DirectUrlResult(url, env)
    case Unsupported(_) => None
  }

  /** `data` is what the local-file lookup read: the file at the kept candidate
      path, which exists and is a regular file. */
  predicate ReadLocally(mediaId: string, env: Env, data: seq<Byte>) {
    && LocalFilename(mediaId).Some?
    && var p := FirstExistingOrLast(LocalCandidates(env.configDir, LocalFilename(mediaId).value), env.pathExists);
    && env.pathExists(p) && env.isFile(p) && env.readFile(p) == Some(data)
  }

  /** `data` is the body of a 200 answer to the GET of the URL that `mediaId` resolved to. */
  predicate FetchedResolved(mediaId: string, env: Env, data: seq<Byte>) {
    && env.resolveMedia(mediaId).Resolved?
    && var url := env.resolveMedia(mediaId).url;
    && url.Some? && url.value != "" && env.httpGet(url.value) == GetReply(200, data)
  }

  /** The bytes behind a successful local-file result are those read from the kept path. */
  lemma LocalBytes(mediaId: string, env: Env) returns (data: seq<Byte>)
    requires LocalFallback(mediaId, env).Some?
    ensures LocalFallback(mediaId, env) == Some(Encode(data))
    ensures Contains(mediaId, LocalMarker) && ReadLocally(mediaId, env, data)
  {
    var f := LocalFilename(mediaId).value;
    var p := FirstExistingOrLast(LocalCandidates(env.configDir, f), env.pathExists);
    data := env.readFile(p).value;
  }

  /** The bytes behind a successful media-source result: the 200 body of the resolved
      URL, or, after resolution or the fetch raised, the local file's contents. */
  lemma MediaSourceBytes(mediaId: string, env: Env) returns (data: seq<Byte>)
    requires MediaSourceResult(mediaId, env).Some?
    ensures MediaSourceResult(mediaId, env) == Some(Encode(data))
    ensures || FetchedResolved(mediaId, env, data)
            || (&& Contains(mediaId, LocalMarker) && ReadLocally(mediaId, env, data)
                && (|| env.resolveMedia(mediaId).ResolveRaised?
                    || env.httpGet(env.resolveMedia(mediaId).url.value).GetRaised?))
  {
    match env.resolveMedia(mediaId)
    case ResolveRaised =>
      data := LocalBytes(mediaId, env);
    case Resolved(url) =>
      match env.httpGet(url.value)
      case GetRaised(_, _) =>
        data := LocalBytes(mediaId, env);
      case GetReply(_, body) =>
        data := body;
  }

  /** The bytes behind a successful attachment result are the ones the route's
      collaborator returned: the camera snapshot, the 200 body of the direct URL,
      or the media-source bytes described above. */
  lemma AttachmentBytes(a: Attachment, env: Env) returns (data: seq<Byte>)
    requires AttachmentResult(a, env).Some?
    ensures AttachmentResult(a, env) == Some(Encode(data))
    ensures Classify(a).Camera? || Classify(a).DirectUrl? || Classify(a).MediaSource?
    ensures Classify(a).Camera? ==> env.cameraImage(Classify(a).entityId) == Some(data)
    ensures Classify(a).DirectUrl? ==> env.httpGet(Classify(a).url) == GetReply(200, data)
    ensures Classify(a).MediaSource? ==>
      var id := Classify(a).mediaId;
      || FetchedResolved(id, env, data)
      || (Contains(id, LocalMarker) && ReadLocally(id, env, data))
  {
    match Classify(a)
    case Camera(entity) =>
      data := env.cameraImage(entity).value;
    case DirectUrl(url) =>
      data := env.httpGet(url).body;
    case MediaSource(id) =>
      data := MediaSourceBytes(id, env);
  }

  /** Whatever an attachment resolves to is the base64 text of some bytes, and
      decoding it gives those bytes back. */
  lemma ResolvedIsBase64(a: Attachment, env: Env)
    requires AttachmentResult(a, env).Some?
    ensures exists data :: (AttachmentResult(a, env).value == Encode(data)
                            && Decode(AttachmentResult(a, env).value) == Some(data))
  {
    var data := AttachmentBytes(a, env);
    RoundTrip(data);
  }

  /** The file system is consulted only after a raise: once resolution gives a URL and
      fetching it does not raise, two environments that agree on resolution and on
      the HTTP client give the same result, whatever their files. */
  lemma MediaSourceFallbackOnlyOnRaise(mediaId: string, env: Env, env': Env)
    requires env.resolveMedia(mediaId) == env'.resolveMedia(mediaId) && env.httpGet == env'.httpGet
    requires env.resolveMedia(mediaId).Resolved?
    requires var url := env.resolveMedia(mediaId).url;
      url.None? || url.value == "" || env.httpGet(url.value).GetReply?
    ensures MediaSourceResult(mediaId, env) == MediaSourceResult(mediaId, env')
  {
  }

  /** Without `local/` in the id there is no fallback: a media-source result then
      comes from a resolved URL whose fetch answered 200. */
  lemma FallbackNeedsLocalMarker(mediaId: string, env: Env)
    requires !Contains(mediaId, LocalMarker)
    ensures MediaSourceResult(mediaId, env).Some? ==>
      exists url :: (env.resolveMedia(mediaId) == Resolved(Some(url))
                     && env.httpGet(url).GetReply? && env.httpGet(url).status == 200)
  {
    if MediaSourceResult(mediaId, env).Some? {
      var url := env.resolveMedia(mediaId).url.value;
      assert env.resolveMedia(mediaId) == Resolved(Some(url));
    }
  }

  /** An attachment without a media id, or of an unsupported type, yields nothing. */
  lemma UnroutedGivesNone(a: Attachment, env: Env)
    requires Classify(a).NoMediaId? || Classify(a).Unsupported?
    ensures AttachmentResult(a, env).None?
  {
  }
}
