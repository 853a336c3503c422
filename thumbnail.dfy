/**
 * Thumbnail creation: reuse the existing record or make a new one, overwrite
 * its fields, run the producer once, and return the record only when the
 * producer completed. Six entry points combine a metadata resolver with a
 * producer.
 */
module Thumbnail {
  import opened Wrappers
  import opened Entities
  import opened Metadata
  import opened Producers

  /** Why an entry point raised. */
  datatype Error =
    | UnsupportedType(kind: ThumbnailType)  // the metadata was `undefined`, so destructuring it threw
    | ProducerFailed(reason: string)        // the producer's exception, propagated

  /** The objects an optional record stands for. */
  function Frame(existing: Option<ThumbnailModel>): set<object>
  {
    if existing.Some? then {existing.value} else {}
  }

  function ResultFrame(r: Result<ThumbnailModel, Error>): set<object>
  {
    if r.Success? then {r.value} else {}
  }

  /**
   * What a creation leaves behind, given the record to reuse, the fields to
   * write and how the producer ended: the reused record (if any) carries the
   * new fields whatever the outcome; a completed producer yields the reused
   * record, or a new one, carrying those fields; a failed one yields its
   * exception and no record.
   */
  twostate predicate Reconciled(new r: Result<ThumbnailModel, Error>, existing: Option<ThumbnailModel>, info: ThumbnailInfo, outcome: Outcome)
    reads Frame(existing), ResultFrame(r)
  {
    && (existing.Some? ==> existing.value.Info() == info)
    && (outcome.Completed? ==>
          && r.Success?
          && r.value.Info() == info
          && (if existing.Some? then r.value == existing.value else fresh(r.value)))
    && (outcome.Raised? ==> r == Failure(ProducerFailed(outcome.reason)))
  }

  /** The existing record itself when there is one, otherwise a newly allocated record. */
  method ReuseOrCreate(existing: Option<ThumbnailModel>) returns (t: ThumbnailModel)
    ensures existing.Some? ==> t == existing.value
    ensures existing.None? ==> fresh(t)
  {
    if existing.Some? {
      t := existing.value;
    } else {
      t := new ThumbnailModel();
    }
  }

  /**
   * The generic creation procedure. `job` is what the injected thunk asks
   * `producer` to do; it runs exactly once, after the fields are written.
   */
  method CreateThumbnailFromFunction(
    producer: Producer, job: ProducerJob,
    filename: string, height: int, width: int, kind: ThumbnailType,
    url: Option<string>, existing: Option<ThumbnailModel>)
    returns (r: Result<ThumbnailModel, Error>)
    modifies Frame(existing), producer
    ensures producer.log == old(producer.log) + [job]
    ensures Reconciled(r, existing, ThumbnailInfo(filename, height, width, kind, url), producer.respond(job, |old(producer.log)|))
  {
    var thumbnail := ReuseOrCreate(existing);
    thumbnail.Overwrite(filename, height, width, kind, url);
    var outcome := producer.Run(job);
    if outcome.Raised? {
      return Failure(ProducerFailed(outcome.reason));
    }
    return Success(thumbnail);
  }

  /**
   * `createPlaylistMiniatureFromExisting`: a playlist's miniature from a local
   * file. The source's `keepOriginal` defaults to `false` when left out; here
   * callers always pass it.
   */
  method CreatePlaylistMiniatureFromExisting(
    env: Environment, producer: Producer,
    inputPath: string, playlist: Playlist, keepOriginal: bool, size: Option<ImageSize>)
    returns (r: Result<ThumbnailModel, Error>)
    modifies Frame(playlist.thumbnail), producer
    ensures var m := BuildMetadataFromPlaylist(env, playlist, size);
            var job := ProcessImage(inputPath, m.outputPath, ImageSize(m.height, m.width), Some(keepOriginal));
            && producer.log == old(producer.log) + [job]
            && Reconciled(r, playlist.thumbnail, ThumbnailInfo(m.filename, m.height, m.width, Miniature, None),
                          producer.respond(job, |old(producer.log)|))
  {
    var m := BuildMetadataFromPlaylist(env, playlist, size);
    var kind := Miniature;
    var job := ProcessImage(inputPath, m.outputPath, ImageSize(m.height, m.width), Some(keepOriginal));
    r := CreateThumbnailFromFunction(producer, job, m.filename, m.height, m.width, kind, None, m.existing);
  }

  /** `createPlaylistMiniatureFromUrl`: a playlist's miniature downloaded from `url`. */
  method CreatePlaylistMiniatureFromUrl(
    env: Environment, producer: Producer,
    url: string, playlist: Playlist, size: Option<ImageSize>)
    returns (r: Result<ThumbnailModel, Error>)
    modifies Frame(playlist.thumbnail), producer
    ensures var m := BuildMetadataFromPlaylist(env, playlist, size);
            var job := DownloadImage(url, m.basePath, m.filename, ImageSize(m.height, m.width));
            && producer.log == old(producer.log) + [job]
            && Reconciled(r, playlist.thumbnail, ThumbnailInfo(m.filename, m.height, m.width, Miniature, Some(url)),
                          producer.respond(job, |old(producer.log)|))
  {
    var m := BuildMetadataFromPlaylist(env, playlist, size);
    var kind := Miniature;
    var job := DownloadImage(url, m.basePath, m.filename, ImageSize(m.height, m.width));
    r := CreateThumbnailFromFunction(producer, job, m.filename, m.height, m.width, kind, Some(url), m.existing);
  }

  /** `createVideoMiniatureFromUrl`: a video's thumbnail of type `kind` downloaded from `url`. */
  method CreateVideoMiniatureFromUrl(
    env: Environment, producer: Producer,
    url: string, video: Video, kind: ThumbnailType, size: Option<ImageSize>)
    returns (r: Result<ThumbnailModel, Error>)
    modifies if IsVideoType(kind) then Frame(FindExisting(video, kind)) else {}, producer
    ensures !IsVideoType(kind) ==> r == Failure(UnsupportedType(kind)) && producer.log == old(producer.log)
    ensures IsVideoType(kind) ==>
              var m := old(BuildMetadataFromVideo(env, video, kind, size)).value;
              var job := DownloadImage(url, m.basePath, m.filename, ImageSize(m.height, m.width));
              && producer.log == old(producer.log) + [job]
              && Reconciled(r, m.existing, ThumbnailInfo(m.filename, m.height, m.width, kind, Some(url)),
                            producer.respond(job, |old(producer.log)|))
    ensures FindExisting(video, kind) == old(FindExisting(video, kind))
  {
    var metadata := BuildMetadataFromVideo(env, video, kind, size);
    if metadata.None? {
      return Failure(UnsupportedType(kind));
    }
    var m := metadata.value;
    var job := DownloadImage(url, m.basePath, m.filename, ImageSize(m.height, m.width));
    r := CreateThumbnailFromFunction(producer, job, m.filename, m.height, m.width, kind, Some(url), m.existing);
  }

  /** `createVideoMiniatureFromExisting`: a video's thumbnail of type `kind` from a local file. */
  method CreateVideoMiniatureFromExisting(
    env: Environment, producer: Producer,
    inputPath: string, video: Video, kind: ThumbnailType, size: Option<ImageSize>)
    returns (r: Result<ThumbnailModel, Error>)
    modifies if IsVideoType(kind) then Frame(FindExisting(video, kind)) else {}, producer
    ensures !IsVideoType(kind) ==> r == Failure(UnsupportedType(kind)) && producer.log == old(producer.log)
    ensures IsVideoType(kind) ==>
              var m := old(BuildMetadataFromVideo(env, video, kind, size)).value;
              var job := ProcessImage(inputPath, m.outputPath, ImageSize(m.height, m.width), None);
              && producer.log == old(producer.log) + [job]
              && Reconciled(r, m.existing, ThumbnailInfo(m.filename, m.height, m.width, kind, None),
                            producer.respond(job, |old(producer.log)|))
    ensures FindExisting(video, kind) == old(FindExisting(video, kind))
  {
    var metadata := BuildMetadataFromVideo(env, video, kind, size);
    if metadata.None? {
      return Failure(UnsupportedType(kind));
    }
    var m := metadata.value;
    var job := ProcessImage(inputPath, m.outputPath, ImageSize(m.height, m.width), None);
    r := CreateThumbnailFromFunction(producer, job, m.filename, m.height, m.width, kind, None, m.existing);
  }

  /**
   * `generateVideoMiniature`: a video's thumbnail of type `kind` extracted from
   * one of its media files, at the default size.
   */
  method GenerateVideoMiniature(
    env: Environment, producer: Producer,
    video: Video, videoFile: VideoFile, kind: ThumbnailType)
    returns (r: Result<ThumbnailModel, Error>)
    modifies if IsVideoType(kind) then Frame(FindExisting(video, kind)) else {}, producer
    ensures !IsVideoType(kind) ==> r == Failure(UnsupportedType(kind)) && producer.log == old(producer.log)
    ensures IsVideoType(kind) ==>
              var m := old(BuildMetadataFromVideo(env, video, kind, None)).value;
              var job := GenerateImageFromVideoFile(video.filePathOf(videoFile), m.basePath, m.filename, ImageSize(m.height, m.width));
              && producer.log == old(producer.log) + [job]
              && Reconciled(r, m.existing, ThumbnailInfo(m.filename, m.height, m.width, kind, None),
                            producer.respond(job, |old(producer.log)|))
    ensures FindExisting(video, kind) == old(FindExisting(video, kind))
  {
    var input := video.filePathOf(videoFile);
    var metadata := BuildMetadataFromVideo(env, video, kind, None);
    if metadata.None? {
      return Failure(UnsupportedType(kind));
    }
    var m := metadata.value;
    var job := GenerateImageFromVideoFile(input, m.basePath, m.filename, ImageSize(m.height, m.width));
    r := CreateThumbnailFromFunction(producer, job, m.filename, m.height, m.width, kind, None, m.existing);
  }

  /**
   * A record for an image that already lives at `url`: reuse or create it and
   * write its fields, with no producer at all (`createPlaceholderThumbnail`).
   */
  method CreatePlaceholderThumbnail(
    env: Environment, url: string, video: Video, kind: ThumbnailType, size: ImageSize)
    returns (r: Result<ThumbnailModel, Error>)
    modifies if IsVideoType(kind) then Frame(FindExisting(video, kind)) else {}
    ensures !IsVideoType(kind) <==> r == Failure(UnsupportedType(kind))
    ensures IsVideoType(kind) ==>
              var m := old(BuildMetadataFromVideo(env, video, kind, Some(size))).value;
              Reconciled(r, m.existing, ThumbnailInfo(m.filename, size.height, size.width, kind, Some(url)), Completed)
    ensures FindExisting(video, kind) == old(FindExisting(video, kind))
  {
    var metadata := BuildMetadataFromVideo(env, video, kind, Some(size));
    if metadata.None? {
      return Failure(UnsupportedType(kind));
    }
    var m := metadata.value;
    var thumbnail := ReuseOrCreate(m.existing);
    thumbnail.Overwrite(m.filename, m.height, m.width, kind, Some(url));
    r := Success(thumbnail);
  }
}
