/**
 * The grid adapter: a list of cards followed by one loading footer, a registry
 * from card type to the binder that draws it, and the dispatch of the
 * active/inactive hooks to that binder. The picture binder keeps the base
 * binder's empty hooks; the video binder's hooks start and stop playback.
 */
module FeedAdapter {
  import opened FeedCard
  import opened Nullable
  import opened VideoCardBinder
  import FeedRepository

  /** The view type of the footer slot. */
  const FOOTER_TYPE: int := -1

  /** The registered binders. */
  datatype Binder = ImageBinder | VideoBinder

  /** The registry built at construction: pictures and videos. */
  const DefaultRegistry: map<int, Binder> := map[TYPE_IMAGE := ImageBinder, TYPE_VIDEO := VideoBinder]

  /**
   * A created holder, with the view type it was created for. Picture and
   * footer holders only draw; their drawing is not modelled.
   */
  datatype ViewHolder =
    | ImageHolder(itemViewType: int)
    | VideoHolderRef(itemViewType: int, video: VideoHolder)
    | FooterHolder(itemViewType: int)

  /** `getItem(position)`: `items.getOrNull(position)`. */
  function ItemAt(items: seq<Card>, position: int): (r: Option<Card>)
    ensures r.Some? <==> 0 <= position < |items|
    ensures r.Some? ==> r.value == items[position]
  {
    if 0 <= position < |items| then Some(items[position]) else None
  }

  /** `getItemViewType(position)`: the card's type, or the footer type past the cards. */
  function ViewType(items: seq<Card>, position: nat): (t: int)
    ensures position < |items| ==> t == items[position].cardType
    ensures position >= |items| ==> t == FOOTER_TYPE
  {
    if position < |items| then items[position].cardType else FOOTER_TYPE
  }

  /** `getItemCount()`: no footer while the list is empty. */
  function ItemCount(items: seq<Card>): (n: nat)
    ensures n == 0 <==> items == []
    ensures items != [] ==> n == |items| + 1
  {
    if items == [] then 0 else |items| + 1
  }

  /** `spanSizeLookup.getSpanSize(position)`: the footer fills a row of the two-column grid. */
  function SpanSize(items: seq<Card>, position: nat): (s: int)
    ensures position >= |items| ==> s == 2
    ensures position < |items| ==> s == items[position].spanType
  {
    if position >= |items| then 2 else items[position].spanType
  }

  /** The binder registered for a view type, if any (`binders[viewType]`). */
  function BinderFor(binders: map<int, Binder>, viewType: int): (b: Option<Binder>)
    ensures b.Some? <==> viewType in binders
    ensures b.Some? ==> b.value == binders[viewType]
  {
    if viewType in binders then Some(binders[viewType]) else None
  }

  /** The holder kind `onCreateViewHolder` makes for a view type: footer when no binder is registered. */
  predicate Fits(binders: map<int, Binder>, holder: ViewHolder) {
    match BinderFor(binders, holder.itemViewType)
    case None => holder.FooterHolder?
    case Some(ImageBinder) => holder.ImageHolder?
    case Some(VideoBinder) => holder.VideoHolderRef?
  }

  /** Every card has one of the two registered types. */
  predicate WellTyped(items: seq<Card>) {
    forall i :: 0 <= i < |items| ==> items[i].cardType == TYPE_IMAGE || items[i].cardType == TYPE_VIDEO
  }

  /**
   * In a non-empty, well-typed list the footer is exactly the last slot: it is
   * the only slot without a binder, and it always takes a whole row.
   */
  lemma FooterIsLastSlot(items: seq<Card>, position: nat)
    requires items != [] && WellTyped(items) && position < ItemCount(items)
    ensures ViewType(items, position) == FOOTER_TYPE <==> position == |items|
    ensures BinderFor(DefaultRegistry, ViewType(items, position)).None? <==> position == |items|
    ensures position == |items| ==> SpanSize(items, position) == 2
  {
  }

  /**
   * A card with an unregistered type (a snapshot can hold any integer) gets
   * the footer holder and is never bound.
   */
  lemma UnknownTypeShownAsFooter(items: seq<Card>, position: nat)
    requires position < |items| && items[position].cardType !in DefaultRegistry
    ensures BinderFor(DefaultRegistry, ViewType(items, position)).None?
    ensures position < ItemCount(items) - 1
  {
  }

  /** A generated page only holds registered types. */
  lemma GeneratedPageIsWellTyped(page: int, steps: seq<FeedRepository.StepDraw>, ids: seq<string>)
    requires |steps| >= FeedRepository.PAGE_SIZE && |ids| > FeedRepository.PAGE_SIZE
    ensures WellTyped(FeedRepository.GeneratePage(page, steps, ids))
  {
  }

  /** The adapter object. */
  class Adapter {
    var items: seq<Card>
    var binders: map<int, Binder>

    constructor ()
      ensures items == [] && binders == DefaultRegistry
    {
      items := [];
      binders := map[];
      new;
      RegisterBinder(TYPE_IMAGE, ImageBinder);
      RegisterBinder(TYPE_VIDEO, VideoBinder);
    }

    /** `registerBinder(type, binder)`: a later registration for a type replaces the earlier. */
    method RegisterBinder(viewType: int, binder: Binder)
      modifies this
      ensures binders == old(binders)[viewType := binder] && items == old(items)
    {
      binders := binders[viewType := binder];
    }

    /** `submitList(newList)`: the cards are replaced wholesale. */
    method SubmitList(newList: seq<Card>)
      modifies this
      ensures items == newList && binders == old(binders)
    {
      items := [];
      items := items + newList;
    }

    /** `onCreateViewHolder(viewType)`. */
    method OnCreateViewHolder(viewType: int) returns (holder: ViewHolder)
      ensures holder.itemViewType == viewType && Fits(binders, holder)
      ensures holder.VideoHolderRef? ==> fresh(holder.video) && !Playing(holder.video.Snapshot())
    {
      match BinderFor(binders, viewType) {
        case Some(ImageBinder) =>
          holder := ImageHolder(viewType);
        case Some(VideoBinder) =>
          var video := new VideoHolder(-1);
          holder := VideoHolderRef(viewType, video);
        case None =>
          holder := FooterHolder(viewType);
      }
    }

    /**
     * `onBindViewHolder(holder, position)`: the binder of the slot's view type
     * binds the card; only the video holder's state is modelled.
     */
    method OnBindViewHolder(holder: ViewHolder, position: nat)
      requires holder.itemViewType == ViewType(items, position) && Fits(binders, holder)
      modifies if holder.VideoHolderRef? then {holder.video} else {}
      ensures holder.VideoHolderRef? && position < |items| ==>
        holder.video.Snapshot() == Bound(old(holder.video.Snapshot()), items[position])
      // the footer slot is never bound, whatever holder it was given
      ensures holder.VideoHolderRef? && position >= |items| ==>
        holder.video.Snapshot() == old(holder.video.Snapshot())
      ensures holder.VideoHolderRef? ==> holder.video.layoutPosition == old(holder.video.layoutPosition)
    {
      var binder := BinderFor(binders, ViewType(items, position));
      if binder.Some? && position < |items| {
        if binder.value == VideoBinder {
          holder.video.Bind(items[position]);
        }
      }
    }

    /** `onHolderActive(holder)`: only a video holder reacts, by starting playback. */
    method OnHolderActive(holder: ViewHolder) returns (log: seq<string>)
      requires Fits(binders, holder)
      modifies if holder.VideoHolderRef? then {holder.video} else {}
      ensures holder.VideoHolderRef? ==>
        (holder.video.Snapshot(), log) == Start(old(holder.video.Snapshot()), old(holder.video.layoutPosition))
      ensures !holder.VideoHolderRef? ==> log == []
    {
      match BinderFor(binders, holder.itemViewType) {
        case Some(VideoBinder) =>
          log := holder.video.StartSimulation();
        case Some(ImageBinder) =>
          log := [];
        case None =>
          log := [];
      }
    }

    /** `onHolderInactive(holder)`: only a video holder reacts, by stopping playback. */
    method OnHolderInactive(holder: ViewHolder) returns (log: seq<string>)
      requires Fits(binders, holder)
      modifies if holder.VideoHolderRef? then {holder.video} else {}
      ensures holder.VideoHolderRef? ==>
        (holder.video.Snapshot(), log) == Stop(old(holder.video.Snapshot()), old(holder.video.layoutPosition))
      ensures !holder.VideoHolderRef? ==> log == []
    {
      match BinderFor(binders, holder.itemViewType) {
        case Some(VideoBinder) =>
          log := holder.video.StopSimulation();
        case Some(ImageBinder) =>
          log := [];
        case None =>
          log := [];
      }
    }
  }
}
