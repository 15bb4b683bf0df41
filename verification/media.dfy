/** The media record the Graph API returns (lib/types.ts, `InstagramMedia`)
    and the byte buffers downloads and frame extraction produce. */
module Media {
  import opened Wrappers

  newtype byte = x: int | 0 <= x < 256

  /** A Node `Buffer`. */
  type Bytes = seq<byte>

  datatype MediaType = Image | Video | CarouselAlbum

  /** Optional fields of the record are `Option`s; `timestamp` is always sent. */
  datatype InstagramMedia = InstagramMedia(
    id: string,
    caption: Option<string>,
    mediaType: MediaType,
    mediaUrl: Option<string>,
    permalink: Option<string>,
    thumbnailUrl: Option<string>,
    timestamp: string)
}
