/**
 * The card record of the single-file version of the feed screen. Its type
 * constants differ from the modular version's, and it carries a playing flag.
 */
module ActivityCard {

  const TYPE_IMAGE_TEXT: int := 1
  const TYPE_VIDEO: int := 2

  /** Fills the whole row of the two-column grid. */
  const SPAN_SINGLE_COLUMN: int := 2
  /** Fills half a row. */
  const SPAN_DOUBLE_COLUMN: int := 1

  /** `id` is a random UUID at creation; the model takes it as an input. */
  datatype Card = Card(id: string, title: string, imageUrl: string, cardType: int, spanType: int, isVideoPlaying: bool)
}
