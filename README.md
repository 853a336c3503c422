# Thumbnail decision logic (PeerTube `server/lib/thumbnail.ts`)

This project models how PeerTube decides which record describes a video's or
a playlist's thumbnail (MINIATURE) or preview image (PREVIEW). The model covers three parts:

- **Metadata resolution** (`Metadata`). For an owner, a thumbnail type and an optional size,
  it computes the filename, the storage directory, the output path
  (`join(directory, filename)`), the width and height, and the record to reuse.
  For a video, the record to reuse is the first element of `video.Thumbnails`
  with the requested type. For a playlist, it is the playlist's single
  `Thumbnail` slot. A video type other than MINIATURE or PREVIEW yields no metadata.
- **Record reconciliation** (`Thumbnail.CreateThumbnailFromFunction`,
  `Thumbnail.CreatePlaceholderThumbnail`). The existing record object is reused,
  or a new one is allocated. Its `filename`, `height`, `width`, `type` and
  `url` are overwritten in place. A producer then runs exactly once. The record
  is returned only when the producer completes. A producer failure propagates
  and returns no record.
- **The six exported entry points** (`Thumbnail`). Each combines one resolver with
  one producer job: local-file processing, URL download, or frame extraction
  from a video file. The placeholder entry point runs no producer.

Modules:

- `Wrappers`: `Option` (for `undefined`/`null`) and `Result` (for a thrown exception).
- `Entities`: the thumbnail type, the size object, and the record class
  `ThumbnailModel` with mutable fields. Its `type` field is called `kind` because
  `type` is a Dafny keyword. Also the `Video` and `Playlist` owners, and the
  `Environment` (storage directories, default sizes, `path.join`).
- `Producers`: the producer requests (`ProducerJob`), and the `Producer` class.
  The class logs every request. Its `respond(job, n)` says how the `n`-th request ends.
- `Metadata`: the pure resolvers. It also holds a lookup-table statement of the same
  policy (type to name generator, directory and default size) and the lemmas
  that tie the resolvers to that table.
- `Thumbnail`: the creation procedure and the six entry points, as methods.
- `Scenarios`: client methods that derive concrete outcomes from the contracts alone.

The model follows the code at three points where the intended design might suggest otherwise:

- The code checks a size argument only for presence (`size ? size.height : …`).
  A size object is therefore used verbatim. There is no fallback to the default
  for a missing dimension. The model's size is `Option<ImageSize>`.
- The record's fields are written before the producer is awaited. When the
  producer fails, an existing record has therefore already been overwritten,
  even though no record is returned. `Thumbnail.Reconciled` states this.
- An unsupported video type makes `buildMetadataFromVideo` return `undefined`.
  Every video entry point destructures that value at once, which throws before
  any producer is built or any record is touched. The model returns
  `Failure(UnsupportedType(kind))` and leaves the producer log and all records unchanged.

## Model

| member | source | states |
|---|---|---|
| `Metadata.FirstIndexOfType` | server/lib/thumbnail.ts:95 | `find(t => t.type === type)`: the result is the index of the first record of that type (every earlier record has another type), and there is no result exactly when no record has that type |
| `Metadata.FindExisting` | server/lib/thumbnail.ts:94-96 | the existing record of a video is absent when `Thumbnails` is not loaded or holds no record of the type; otherwise it is the first record of that type |
| `Metadata.FindExistingIsTheMatch` | server/lib/thumbnail.ts:94-96 | while a video holds at most one record per type, the lookup returns a record exactly when that record is attached with the requested type (both directions) |
| `Metadata.BuildMetadataFromVideo` | server/lib/thumbnail.ts:93-127 | metadata exists iff the type is MINIATURE or PREVIEW; MINIATURE uses the thumbnail name and thumbnails directory, PREVIEW the preview name and previews directory; the output path is `join(basePath, filename)`; an explicit size is kept, otherwise the type's default size; the record to reuse is `FindExisting` |
| `Metadata.BuildMetadataFromPlaylist` | server/lib/thumbnail.ts:79-91 | playlist metadata always uses the playlist's thumbnail name and the thumbnails directory, output path `join(basePath, filename)`, the explicit size or the thumbnail default, and the playlist's single slot as the record to reuse |
| `Metadata.VideoMetadataFollowsTable` | server/lib/thumbnail.ts:93-127 | video metadata equals a lookup in a per-type policy table (name generator, directory, default size): no entry gives no metadata |
| `Metadata.PlaylistMetadataFollowsMiniatureEntry` | server/lib/thumbnail.ts:79-91 | playlist metadata is the table's MINIATURE entry applied to the playlist, whatever type the caller has in mind |
| `Entities.ThumbnailModel.Overwrite` | server/lib/thumbnail.ts:142-146 | after the five assignments the record's filename, height, width, type and url are exactly the given values |
| `Producers.Producer.Run` | server/lib/thumbnail.ts:148 | one invocation of the injected producer: it is logged once, and its outcome is the producer's response to that invocation |
| `Thumbnail.ReuseOrCreate` | server/lib/thumbnail.ts:140 | the existing record is returned itself (same object), otherwise a freshly allocated one |
| `Thumbnail.CreateThumbnailFromFunction` | server/lib/thumbnail.ts:129-151 | the producer runs exactly once on the given job; the reused record (if any) carries the five given fields, with url null when none is given; on completion the same reused object or a fresh one carrying those fields is returned; on failure the producer's error is returned and no record; only the reused record and the producer change |
| `Thumbnail.CreatePlaylistMiniatureFromExisting` | server/lib/thumbnail.ts:15-21 | the producer processes the local file into the playlist's output path at the resolved size, passing `keepOriginal`; the record has type MINIATURE and url null, and reuses the playlist's slot |
| `Thumbnail.CreatePlaylistMiniatureFromUrl` | server/lib/thumbnail.ts:23-29 | the producer downloads the url into the thumbnails directory under the playlist's name; the record has type MINIATURE and url set to the given url, and reuses the playlist's slot |
| `Thumbnail.CreateVideoMiniatureFromUrl` | server/lib/thumbnail.ts:31-36 | an unsupported type raises with no producer call; otherwise the producer downloads the url into the type's directory under the type's name and the record carries url = the given url; afterwards the lookup for that type finds the same record as before |
| `Thumbnail.CreateVideoMiniatureFromExisting` | server/lib/thumbnail.ts:38-43 | an unsupported type raises with no producer call; otherwise the producer processes the local file into the output path at the resolved size, leaving `keepOriginal` to the producer's default, and the record carries url null; the lookup is unchanged afterwards |
| `Thumbnail.GenerateVideoMiniature` | server/lib/thumbnail.ts:45-52 | an unsupported type raises with no producer call; otherwise the producer extracts a frame from the video file's path into the type's directory at the type's default size, and the record carries url null; the lookup is unchanged afterwards |
| `Thumbnail.CreatePlaceholderThumbnail` | server/lib/thumbnail.ts:54-66 | raises exactly for an unsupported type; otherwise the reused or fresh record carries the type's filename, the given size, the type and url = the given url, and no producer is involved; the lookup is unchanged afterwards |

## Left out

- Image processing, image download and frame extraction (`processImage`, `downloadImage`, `generateImageFromVideoFile`) are external. They are one `Producer` whose outcome for each call is given by its `respond` function. The bytes they write are not modelled.
- `await` and Promises: each producer call is a sequential call that completes or raises. Concurrent calls for the same owner and type (a last-writer-wins race) are not modelled.
- Configuration (`CONFIG.STORAGE.THUMBNAILS_DIR`, `PREVIEWS_DIR`), `THUMBNAILS_SIZE`, `PREVIEWS_SIZE` and `path.join` are opaque fields of `Environment`. Joining is not interpreted.
- The ORM methods `generateThumbnailName`, `generatePreviewName` and `getVideoFilePath` are deterministic functions of the owner. They are fields of `Video` and `Playlist`. How names are built is not modelled.
- Persistence of `ThumbnailModel` through Sequelize is not modelled. The module never saves a record itself. A fresh record's fields are left unconstrained until they are overwritten.
- `createPlaylistMiniatureFromExisting`'s optional `keepOriginal` argument (default `false`) is a required `bool` in the model. A caller that leaves it out passes `false`.
- The default value of `processImage`'s `keepOriginal` parameter is defined in the image helpers, which are not part of this model. The job records `None` for "not passed".
- `ThumbnailType` is a numeric enumeration at run time. The model uses a datatype with `Other(code)` for values outside it. Sizes are unbounded integers, not JavaScript numbers.
- Thumbnail.CreateThumbnailFromFunction: the contract does not say that the fields are written before the producer starts. The model's producer does not read the record, so that order is not observable. The method body writes them first, as the source does.
