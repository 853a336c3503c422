/**
 * The entities the thumbnail logic works on: the thumbnail record (an object
 * whose fields are overwritten in place), the video and playlist that own
 * thumbnails, and the configuration the logic reads.
 */
module Entities {
  import opened Wrappers

  /**
   * The thumbnail type enumeration. `Other` stands for any value outside the
   * enumeration that a caller may still pass at run time.
   */
  datatype ThumbnailType = Miniature | Preview | Other(code: int)

  /** A `{ height, width }` size object. */
  datatype ImageSize = ImageSize(height: int, width: int)

  /** The five fields of a thumbnail record that the logic writes, as one value. */
  datatype ThumbnailInfo = ThumbnailInfo(
    filename: string,
    height: int,
    width: int,
    kind: ThumbnailType,
    url: Option<string>)

  /**
   * A thumbnail record (the ORM's `ThumbnailModel`). The field `kind` is the
   * record's `type`. A missing `url` is `null`.
   */
  class ThumbnailModel {
    var filename: string
    var height: int
    var width: int
    var kind: ThumbnailType
    var url: Option<string>

    /** `new ThumbnailModel()`: a record whose fields are not set yet. */
    constructor ()
    {
    }

    /** The current values of the five written fields. */
    function Info(): ThumbnailInfo
      reads this
    {
      ThumbnailInfo(filename, height, width, kind, url)
    }

    /** Assigns the five fields, one after the other. */
    method Overwrite(filename: string, height: int, width: int, kind: ThumbnailType, url: Option<string>)
      modifies this
      ensures Info() == ThumbnailInfo(filename, height, width, kind, url)
    {
      this.filename := filename;
      this.height := height;
      this.width := width;
      this.kind := kind;
      this.url := url;
    }
  }

  /** One of a video's stored media files, known here only by its identity. */
  datatype VideoFile = VideoFile(id: int)

  /**
   * A video, as far as the thumbnail logic sees it. The ORM model's name
   * generators and file-path method are deterministic functions of the video,
   * so they are its fields here. `thumbnails` is `video.Thumbnails`, `None`
   * when that association is not an array (not loaded).
   */
  datatype Video = Video(
    thumbnailName: string,
    previewName: string,
    thumbnails: Option<seq<ThumbnailModel>>,
    filePathOf: VideoFile -> string)
  {
    /** The loaded thumbnail records, or none at all. */
    function Associated(): seq<ThumbnailModel>
    {
      if thumbnails.Some? then thumbnails.value else []
    }
  }

  /**
   * A playlist: its thumbnail name generator and its single optional
   * thumbnail slot `playlist.Thumbnail`.
   */
  datatype Playlist = Playlist(thumbnailName: string, thumbnail: Option<ThumbnailModel>)

  /**
   * Configuration and constants: the thumbnails and previews storage
   * directories, the default sizes THUMBNAILS_SIZE and PREVIEWS_SIZE, and
   * `path.join`, left uninterpreted.
   */
  datatype Environment = Environment(
    thumbnailsDir: string,
    previewsDir: string,
    thumbnailsSize: ImageSize,
    previewsSize: ImageSize,
    join: (string, string) -> string)
}
