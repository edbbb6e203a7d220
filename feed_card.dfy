/** The card record shown in the feed grid and its layout and kind constants. */
module FeedCard {

  /** A card that fills a whole row of the two-column grid. */
  const SPAN_SINGLE: int := 2
  /** A card that fills half a row. */
  const SPAN_DOUBLE: int := 1

  const TYPE_IMAGE: int := 0
  const TYPE_VIDEO: int := 1

  /** `id` is a random UUID when a card is first built; the model takes it as an input. */
  datatype Card = Card(id: string, title: string, imageUrl: string, spanType: int, cardType: int)
}
