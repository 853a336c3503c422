/**
 * Metadata resolution: for an owner (video or playlist), a thumbnail type and
 * an optional size, the filename, storage directory, output path, size and
 * the existing record to reuse. These are pure: nothing is changed.
 */
module Metadata {
  import opened Wrappers
  import opened Entities

  /** The resolved metadata; `existing` is the record to overwrite, if any. */
  datatype Metadata = Metadata(
    filename: string,
    basePath: string,
    outputPath: string,
    height: int,
    width: int,
    existing: Option<ThumbnailModel>)

  /** The two types a video's metadata can be resolved for. */
  predicate IsVideoType(kind: ThumbnailType)
  {
    kind.Miniature? || kind.Preview?
  }

  /** The explicit size when one is given, otherwise the fallback, for both dimensions. */
  function ChooseSize(size: Option<ImageSize>, fallback: ImageSize): ImageSize
  {
    if size.Some? then size.value else fallback
  }

  /** `i` is the position of the first record of type `kind` in `ts`. */
  ghost predicate IsFirstOfType(ts: seq<ThumbnailModel>, kind: ThumbnailType, i: nat)
    reads ts
  {
    i < |ts| && ts[i].kind == kind && forall j :: 0 <= j < i ==> ts[j].kind != kind
  }

  /** The position where a front-to-back search for a record of type `kind` stops, if any. */
  function FirstIndexOfType(ts: seq<ThumbnailModel>, kind: ThumbnailType): (r: Option<nat>)
    reads ts
    ensures r.Some? ==> IsFirstOfType(ts, kind, r.value)
    ensures r.None? ==> forall j :: 0 <= j < |ts| ==> ts[j].kind != kind
  {
    if |ts| == 0 then None
    else if ts[0].kind == kind then Some(0)
    else
      match FirstIndexOfType(ts[1..], kind)
      case None => None
      case Some(i) => Some(i + 1)
  }

  /**
   * The record of type `kind` already attached to `video`: the first one of
   * that type among `video.Thumbnails`, absent when the association is not
   * loaded or holds none of that type.
   */
  function FindExisting(video: Video, kind: ThumbnailType): (r: Option<ThumbnailModel>)
    reads video.Associated()
    ensures video.thumbnails.None? ==> r.None?
    ensures r.None? <==> forall t :: t in video.Associated() ==> t.kind != kind
    ensures r.Some? ==> exists i: nat :: IsFirstOfType(video.Associated(), kind, i) && video.Associated()[i] == r.value
  {
    if video.thumbnails.None? then None
    else
      var ts := video.thumbnails.value;
      match FirstIndexOfType(ts, kind)
      case None => None
      case Some(i) => Some(ts[i])
  }

  /** No two loaded records share a type: the invariant the lookup exists to keep. */
  ghost predicate AtMostOnePerType(ts: seq<ThumbnailModel>)
    reads ts
  {
    forall i, j :: 0 <= i < j < |ts| ==> ts[i].kind != ts[j].kind
  }

  /**
   * While a video holds at most one record per type, the lookup finds a
   * record exactly when it is attached with that type: reuse never picks a
   * record of another type and never misses the one of this type.
   */
  lemma FindExistingIsTheMatch(video: Video, kind: ThumbnailType, t: ThumbnailModel)
    requires video.thumbnails.Some? && AtMostOnePerType(video.Associated())
    ensures FindExisting(video, kind) == Some(t) <==> t in video.Associated() && t.kind == kind
  {
  }

  /** The metadata of a video's thumbnail of type `kind`; `None` for any type but the two known ones. */
  function BuildMetadataFromVideo(env: Environment, video: Video, kind: ThumbnailType, size: Option<ImageSize>): (r: Option<Metadata>)
    reads video.Associated()
    ensures r.Some? <==> IsVideoType(kind)
    ensures kind.Miniature? ==> r.Some? && r.value.filename == video.thumbnailName && r.value.basePath == env.thumbnailsDir
    ensures kind.Preview? ==> r.Some? && r.value.filename == video.previewName && r.value.basePath == env.previewsDir
    ensures r.Some? ==> r.value.outputPath == env.join(r.value.basePath, r.value.filename)
    ensures r.Some? ==> r.value.existing == FindExisting(video, kind)
    ensures r.Some? && size.Some? ==> r.value.height == size.value.height && r.value.width == size.value.width
    ensures kind.Miniature? && size.None? ==> r.Some? && ImageSize(r.value.height, r.value.width) == env.thumbnailsSize
    ensures kind.Preview? && size.None? ==> r.Some? && ImageSize(r.value.height, r.value.width) == env.previewsSize
  {
    var existing := FindExisting(video, kind);
    if kind == Miniature then
      var filename := video.thumbnailName;
      var basePath := env.thumbnailsDir;
      var s := ChooseSize(size, env.thumbnailsSize);
      Some(Metadata(filename, basePath, env.join(basePath, filename), s.height, s.width, existing))
    else if kind == Preview then
      var filename := video.previewName;
      var basePath := env.previewsDir;
      var s := ChooseSize(size, env.previewsSize);
      Some(Metadata(filename, basePath, env.join(basePath, filename), s.height, s.width, existing))
    else
      None
  }

  /** The metadata of a playlist's thumbnail; a playlist has one slot, so there is no type to choose. */
  function BuildMetadataFromPlaylist(env: Environment, playlist: Playlist, size: Option<ImageSize>): (r: Metadata)
    ensures r.filename == playlist.thumbnailName && r.basePath == env.thumbnailsDir
    ensures r.outputPath == env.join(r.basePath, r.filename)
    ensures r.existing == playlist.thumbnail
    ensures size.Some? ==> r.height == size.value.height && r.width == size.value.width
    ensures size.None? ==> ImageSize(r.height, r.width) == env.thumbnailsSize
  {
    var filename := playlist.thumbnailName;
    var basePath := env.thumbnailsDir;
    var s := ChooseSize(size, env.thumbnailsSize);
    Metadata(filename, basePath, env.join(basePath, filename), s.height, s.width, playlist.thumbnail)
  }

  // ---------------------------------------------------------------------------
  // The same policy written as a lookup table, one entry per thumbnail type.

  /** Which of the owner's name generators a type uses. */
  datatype Namer = ThumbnailName | PreviewName

  /** A table entry: name generator, storage directory, default size. */
  datatype TypePolicy = TypePolicy(namer: Namer, directory: string, defaultSize: ImageSize)

  /** The table: an entry for each of the two types, none for any other. */
  function PolicyTable(env: Environment): map<ThumbnailType, TypePolicy>
  {
    map[Miniature := TypePolicy(ThumbnailName, env.thumbnailsDir, env.thumbnailsSize),
        Preview := TypePolicy(PreviewName, env.previewsDir, env.previewsSize)]
  }

  function VideoName(video: Video, namer: Namer): string
  {
    match namer
    case ThumbnailName => video.thumbnailName
    case PreviewName => video.previewName
  }

  /** Metadata resolved from a table entry, a generated name and a record to reuse. */
  function FromPolicy(env: Environment, p: TypePolicy, filename: string, existing: Option<ThumbnailModel>, size: Option<ImageSize>): Metadata
  {
    var s := ChooseSize(size, p.defaultSize);
    Metadata(filename, p.directory, env.join(p.directory, filename), s.height, s.width, existing)
  }

  /** Video metadata is exactly a lookup in the table: no entry, no metadata. */
  lemma VideoMetadataFollowsTable(env: Environment, video: Video, kind: ThumbnailType, size: Option<ImageSize>)
    ensures kind !in PolicyTable(env) ==> BuildMetadataFromVideo(env, video, kind, size).None?
    ensures kind in PolicyTable(env) ==>
      var p := PolicyTable(env)[kind];
      BuildMetadataFromVideo(env, video, kind, size) == Some(FromPolicy(env, p, VideoName(video, p.namer), FindExisting(video, kind), size))
  {
  }

  /**
   * Playlist metadata is the table's miniature entry applied to the
   * playlist's name and its single slot, whatever the type asked for.
   */
  lemma PlaylistMetadataFollowsMiniatureEntry(env: Environment, playlist: Playlist, size: Option<ImageSize>)
    ensures Miniature in PolicyTable(env)
    ensures BuildMetadataFromPlaylist(env, playlist, size)
         == FromPolicy(env, PolicyTable(env)[Miniature], playlist.thumbnailName, playlist.thumbnail, size)
  {
  }
}
