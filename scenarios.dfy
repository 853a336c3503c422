/**
 * Client scenarios: what a caller can conclude from the contracts alone.
 */
module Scenarios {
  import opened Wrappers
  import opened Entities
  import opened Metadata
  import opened Producers
  import opened Thumbnail

  function AlwaysCompletes(job: ProducerJob, n: nat): Outcome
  {
    Completed
  }

  /** A playlist whose miniature record exists gets that same record back, now pointing at the url. */
  method PlaylistReusesItsRecord(env: Environment)
  {
    var a := new ThumbnailModel();
    var playlist := Playlist("playlist-thumb.jpg", Some(a));
    var producer := new Producer(AlwaysCompletes);
    var r := CreatePlaylistMiniatureFromUrl(env, producer, "http://x/y.jpg", playlist, None);
    assert r == Success(a);
    assert a.url == Some("http://x/y.jpg") && a.kind == Miniature;
    assert a.filename == "playlist-thumb.jpg";
    assert ImageSize(a.height, a.width) == env.thumbnailsSize;
    assert |producer.log| == 1;
  }

  /** A video without thumbnails gets a new record from a local file, with no url. */
  method VideoMiniatureFromLocalFile(env: Environment, filePathOf: VideoFile -> string)
  {
    var video := Video("v-thumb.jpg", "v-preview.jpg", Some([]), filePathOf);
    var producer := new Producer(AlwaysCompletes);
    var r := CreateVideoMiniatureFromExisting(env, producer, "/tmp/a.jpg", video, Miniature, None);
    assert r.Success?;
    var t := r.value;
    assert t.filename == "v-thumb.jpg" && t.url == None;
    assert ImageSize(t.height, t.width) == env.thumbnailsSize;
    assert producer.log == [ProcessImage("/tmp/a.jpg", env.join(env.thumbnailsDir, "v-thumb.jpg"), env.thumbnailsSize, None)];
  }

  /** A placeholder keeps the explicit size and url; there is no producer to run. */
  method PreviewPlaceholder(env: Environment, filePathOf: VideoFile -> string)
  {
    var video := Video("v-thumb.jpg", "v-preview.jpg", None, filePathOf);
    var r := CreatePlaceholderThumbnail(env, "http://cdn/x.jpg", video, Preview, ImageSize(450, 800));
    assert r.Success?;
    var t := r.value;
    assert t.width == 800 && t.height == 450 && t.url == Some("http://cdn/x.jpg");
    assert t.filename == "v-preview.jpg" && t.kind == Preview;
  }

  /** A failing download raises its own error, returns no record, but has already rewritten the reused one. */
  method FailedDownloadStillRewritesReusedRecord(env: Environment, filePathOf: VideoFile -> string)
  {
    var stale := new ThumbnailModel();
    stale.Overwrite("stale.jpg", 1, 1, Preview, None);
    var video := Video("v-thumb.jpg", "v-preview.jpg", Some([stale]), filePathOf);
    var producer := new Producer((job, n) => Raised("network down"));
    var r := CreateVideoMiniatureFromUrl(env, producer, "http://x/p.jpg", video, Preview, None);
    assert r == Failure(ProducerFailed("network down"));
    assert stale.filename == "v-preview.jpg" && stale.url == Some("http://x/p.jpg");
  }

  /** An unknown type raises before anything is produced or written. */
  method UnknownTypeRaises(env: Environment, filePathOf: VideoFile -> string)
  {
    var video := Video("v-thumb.jpg", "v-preview.jpg", Some([]), filePathOf);
    var producer := new Producer(AlwaysCompletes);
    var r := GenerateVideoMiniature(env, producer, video, VideoFile(1), Other(3));
    assert r == Failure(UnsupportedType(Other(3)));
    assert producer.log == [];
  }

  /** A loaded record of an unsupported type is left as it was when the entry point raises. */
  method UnknownTypeLeavesRecordAlone(env: Environment, filePathOf: VideoFile -> string)
  {
    var odd := new ThumbnailModel();
    odd.Overwrite("odd.jpg", 2, 3, Other(7), None);
    var video := Video("v-thumb.jpg", "v-preview.jpg", Some([odd]), filePathOf);
    var producer := new Producer(AlwaysCompletes);
    var r := CreateVideoMiniatureFromUrl(env, producer, "http://x/o.jpg", video, Other(7), None);
    assert r == Failure(UnsupportedType(Other(7)));
    assert odd.Info() == ThumbnailInfo("odd.jpg", 2, 3, Other(7), None);
  }
}
