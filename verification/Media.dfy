/**
 * What the app knows about a picture: the data URL a FileReader produced for
 * it, and the pixel size the browser found when it decoded that URL.
 */
module Media {
  /** A `data:` URL; FileReader.readAsDataURL never yields the empty string. */
  type DataUrl = s: string | |s| > 0 witness "data:"

  /** A positive pixel count. */
  type Pixels = n: nat | n > 0 witness 1

  /** The natural size of a decoded image. */
  datatype Dims = Dims(width: Pixels, height: Pixels)
}
