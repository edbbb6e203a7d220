/**
 * The single-file generator: every page has exactly ten cards, and each
 * card's width and kind are drawn independently (so a video may take half a
 * row). It never fails and keeps no snapshot. The draws and ids are inputs:
 * `draws[i]` holds the `nextBoolean()` and the `nextInt(10)` drawn for card
 * `i`, in that order, and `ids[i]` its id.
 */
module ActivityRepository {
  import opened ActivityCard
  import opened Text

  const PAGE_SIZE: int := 10

  /** The draws for one card: the full-row coin, then the video roll. */
  datatype CardDraw = CardDraw(singleColumn: bool, videoRoll: int)

  /** `Random.nextInt(10) > 7`. */
  predicate IsVideo(d: CardDraw) {
    d.videoRoll > 7
  }

  /** Index of the first card of `page`. */
  function StartIndex(page: int): int {
    (page - 1) * PAGE_SIZE
  }

  function TitleText(page: int, index: int, singleColumn: bool): string {
    "Feed流内容展示 - 第" + IntToString(page) + "页 - 序号" + IntToString(index) + " \n"
    + (if singleColumn then "【单列大图模式】" else "【双列小图】")
  }

  /** The picture URL: the index is the seed; 400 wide, 200 high for a full row and 600 for half a row. */
  function ImageUrl(index: int, singleColumn: bool): string {
    "https://picsum.photos/seed/" + IntToString(index) + "/" + IntToString(400) + "/"
    + IntToString(if singleColumn then 200 else 600)
  }

  /** The card built for index `index` from its draws; its width depends on the coin alone and its kind on the roll alone. */
  function MakeCard(page: int, index: int, d: CardDraw, id: string): (c: Card)
    ensures c.id == id && !c.isVideoPlaying
    ensures c.spanType == SPAN_SINGLE_COLUMN <==> d.singleColumn
    ensures c.spanType == SPAN_SINGLE_COLUMN || c.spanType == SPAN_DOUBLE_COLUMN
    ensures c.cardType == TYPE_VIDEO <==> IsVideo(d)
    ensures c.cardType == TYPE_VIDEO || c.cardType == TYPE_IMAGE_TEXT
    ensures c.title == TitleText(page, index, d.singleColumn)
    ensures c.imageUrl == ImageUrl(index, d.singleColumn)
  {
    Card(
      id := id,
      title := TitleText(page, index, d.singleColumn),
      imageUrl := ImageUrl(index, d.singleColumn),
      cardType := if IsVideo(d) then TYPE_VIDEO else TYPE_IMAGE_TEXT,
      spanType := if d.singleColumn then SPAN_SINGLE_COLUMN else SPAN_DOUBLE_COLUMN,
      isVideoPlaying := false)
  }

  /** A card constructor with the loop body's parameters: page, index, draws, id. */
  type CardMaker = (int, int, CardDraw, string) -> Card

  /** Ten cards, card `i` built for index `(page-1)*10 + i` from `draws[i]` and `ids[i]`. */
  function Build(make: CardMaker, page: int, draws: seq<CardDraw>, ids: seq<string>): (cards: seq<Card>)
    requires |draws| >= PAGE_SIZE && |ids| >= PAGE_SIZE
    ensures |cards| == PAGE_SIZE
    ensures forall i :: 0 <= i < PAGE_SIZE ==> cards[i] == make(page, StartIndex(page) + i, draws[i], ids[i])
  {
    seq(PAGE_SIZE, i requires 0 <= i < PAGE_SIZE => make(page, StartIndex(page) + i, draws[i], ids[i]))
  }

  /** The page `fetchFeed` returns. */
  function Page(page: int, draws: seq<CardDraw>, ids: seq<string>): seq<Card>
    requires |draws| >= PAGE_SIZE && |ids| >= PAGE_SIZE
  {
    Build(MakeCard, page, draws, ids)
  }

  /** The loop of `fetchFeed`, with the card constructor as a parameter. */
  method AppendCards(page: int, draws: seq<CardDraw>, ids: seq<string>, make: CardMaker) returns (list: seq<Card>)
    requires |draws| >= PAGE_SIZE && |ids| >= PAGE_SIZE
    ensures list == Build(make, page, draws, ids)
  {
    list := [];
    var start := (page - 1) * 10;
    for i := 0 to 10
      invariant |list| == i
      invariant forall k :: 0 <= k < i ==> list[k] == make(page, start + k, draws[k], ids[k])
    {
      list := list + [make(page, start + i, draws[i], ids[i])];
    }
  }

  /** `fetchFeed(page)`: ten cards appended in a loop. */
  method FetchFeed(page: int, draws: seq<CardDraw>, ids: seq<string>) returns (list: seq<Card>)
    requires |draws| >= PAGE_SIZE && |ids| >= PAGE_SIZE
    ensures list == Page(page, draws, ids)
  {
    list := AppendCards(page, draws, ids, MakeCard);
  }

  /**
   * Card `i` of a page: id `ids[i]`, index `(page-1)*10 + i` in its title and
   * URL, full-row exactly when its coin says so, a video exactly when its roll
   * exceeds 7, and never marked as playing.
   */
  lemma PageCards(page: int, draws: seq<CardDraw>, ids: seq<string>, i: nat)
    requires |draws| >= PAGE_SIZE && |ids| >= PAGE_SIZE && i < PAGE_SIZE
    ensures |Page(page, draws, ids)| == PAGE_SIZE
    ensures var c := Page(page, draws, ids)[i];
      && c.id == ids[i]
      && c.title == TitleText(page, StartIndex(page) + i, draws[i].singleColumn)
      && c.imageUrl == ImageUrl(StartIndex(page) + i, draws[i].singleColumn)
      && (c.spanType == SPAN_SINGLE_COLUMN <==> draws[i].singleColumn)
      && (c.cardType == TYPE_VIDEO <==> draws[i].videoRoll > 7)
      && !c.isVideoPlaying
  {
  }

  /** Unlike the other generator, a video can be a half-row card. */
  lemma VideoMayBeHalfRow(page: int, draws: seq<CardDraw>, ids: seq<string>)
    requires |draws| >= PAGE_SIZE && |ids| >= PAGE_SIZE
    requires draws[0] == CardDraw(false, 9)
    ensures Page(page, draws, ids)[0].cardType == TYPE_VIDEO
    ensures Page(page, draws, ids)[0].spanType == SPAN_DOUBLE_COLUMN
  {
  }
}
