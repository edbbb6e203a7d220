/**
 * The snapshot store: one ordered list of card records kept under a single
 * preferences key. The preferences file and the JSON text are modelled
 * abstractly: the value under the key is either an empty string, text that
 * does not parse as a JSON array, or an array of entries, each of which is a
 * well-formed five-field record or malformed (not an object, a field missing
 * or of the wrong type).
 */
module LocalCacheManager {
  import opened FeedCard

  /** The preferences key the whole snapshot is stored under. */
  const CACHE_KEY: string := "cache_data"

  /** One element of the stored JSON array. */
  datatype Entry =
    | Record(id: string, title: string, imageUrl: string, spanType: int, cardType: int)
    | Malformed

  /** The string stored under the key, as the JSON parser sees it. */
  datatype Blob = EmptyText | Garbled | JsonArray(entries: seq<Entry>)

  type Prefs = map<string, Blob>

  /** The JSON object written for one card. */
  function ToRecord(card: Card): (e: Entry)
    ensures e.Record?
    ensures e.id == card.id && e.title == card.title && e.imageUrl == card.imageUrl
    ensures e.spanType == card.spanType && e.cardType == card.cardType
  {
    Record(card.id, card.title, card.imageUrl, card.spanType, card.cardType)
  }

  /** The card rebuilt from a well-formed record; the stored id is kept, not regenerated. */
  function FromRecord(e: Entry): (card: Card)
    requires e.Record?
    ensures ToRecord(card) == e
  {
    Card(e.id, e.title, e.imageUrl, e.spanType, e.cardType)
  }

  /** The JSON array written for a list of cards: one record per card, in order. */
  function Serialize(cards: seq<Card>): (entries: seq<Entry>)
    ensures |entries| == |cards|
    ensures forall i :: 0 <= i < |entries| ==> entries[i].Record?
  {
    seq(|cards|, i requires 0 <= i < |cards| => ToRecord(cards[i]))
  }

  /**
   * The cards read from a parsed array: the records up to, and not including,
   * the first malformed entry (the parse error ends the loop, and the cards
   * already added stay in the list).
   */
  function DecodeEntries(entries: seq<Entry>): (cards: seq<Card>)
    ensures |cards| <= |entries|
    ensures forall i :: 0 <= i < |cards| ==> entries[i] == ToRecord(cards[i])
    ensures |cards| < |entries| ==> entries[|cards|].Malformed?
  {
    if entries == [] || entries[0].Malformed? then []
    else [FromRecord(entries[0])] + DecodeEntries(entries[1..])
  }

  /** What `loadCache` returns for a given preferences content. */
  function Load(prefs: Prefs): (cards: seq<Card>)
    ensures CACHE_KEY !in prefs ==> cards == []
    ensures CACHE_KEY in prefs && !prefs[CACHE_KEY].JsonArray? ==> cards == []
  {
    if CACHE_KEY !in prefs then []
    else match prefs[CACHE_KEY]
      case EmptyText => []
      case Garbled => []
      case JsonArray(entries) => DecodeEntries(entries)
  }

  /** The preferences after `saveCache(cards)`: the key is overwritten, every other key is untouched. */
  function Save(prefs: Prefs, cards: seq<Card>): (after: Prefs)
    ensures CACHE_KEY in after && after[CACHE_KEY].JsonArray?
    ensures forall k :: k in prefs && k != CACHE_KEY ==> k in after && after[k] == prefs[k]
    ensures after.Keys == prefs.Keys + {CACHE_KEY}
  {
    prefs[CACHE_KEY := JsonArray(Serialize(cards))]
  }

  /** Reading back what was saved gives every card, in order, field for field. */
  lemma {:induction false} DecodeSerialize(cards: seq<Card>)
    ensures DecodeEntries(Serialize(cards)) == cards
    decreases |cards|
  {
    if cards != [] {
      DecodeSerialize(cards[1..]);
      assert Serialize(cards)[1..] == Serialize(cards[1..]);
    }
  }

  /** Save then load is the identity, whatever was stored before: a save never merges. */
  lemma LoadAfterSave(prefs: Prefs, cards: seq<Card>)
    ensures Load(Save(prefs, cards)) == cards
  {
    DecodeSerialize(cards);
  }

  /** Only the last save matters. */
  lemma SaveOverwrites(prefs: Prefs, older: seq<Card>, newer: seq<Card>)
    ensures Save(Save(prefs, older), newer) == Save(prefs, newer)
  {
  }

  /** With record `i` the first malformed one, the load yields exactly the `i` records before it. */
  lemma {:induction false} DecodeStopsAtMalformed(entries: seq<Entry>, i: nat)
    requires i < |entries| && entries[i].Malformed?
    requires forall j :: 0 <= j < i ==> entries[j].Record?
    ensures |DecodeEntries(entries)| == i
    ensures forall j :: 0 <= j < i ==> ToRecord(DecodeEntries(entries)[j]) == entries[j]
    decreases i
  {
    if i > 0 {
      DecodeStopsAtMalformed(entries[1..], i - 1);
    }
  }

  /** One step of the decoding loop at index `i`. */
  lemma DecodeUnfold(entries: seq<Entry>, i: nat)
    requires i < |entries|
    ensures entries[i].Malformed? ==> DecodeEntries(entries[i..]) == []
    ensures entries[i].Record? ==>
      DecodeEntries(entries[i..]) == [FromRecord(entries[i])] + DecodeEntries(entries[i + 1..])
  {
    assert entries[i..][1..] == entries[i + 1..];
  }

  /** The preferences-backed store. */
  class CacheManager {
    var prefs: Prefs

    constructor (stored: Prefs)
      ensures prefs == stored
    {
      prefs := stored;
    }

    /** `saveCache`: builds the array card by card and overwrites the key with it. */
    method SaveCache(list: seq<Card>)
      modifies this
      ensures prefs == Save(old(prefs), list)
    {
      var jsonArray: seq<Entry> := [];
      for i := 0 to |list|
        invariant jsonArray == Serialize(list[..i])
      {
        assert Serialize(list[..i + 1]) == Serialize(list[..i]) + [ToRecord(list[i])];
        jsonArray := jsonArray + [ToRecord(list[i])];
      }
      assert list[..|list|] == list;
      prefs := prefs[CACHE_KEY := JsonArray(jsonArray)];
    }

    /** `loadCache`: never fails; a parse error ends the loop and keeps what was read so far. */
    method LoadCache() returns (list: seq<Card>)
      ensures list == Load(prefs)
    {
      list := [];
      if CACHE_KEY !in prefs || !prefs[CACHE_KEY].JsonArray? {
        return;
      }
      var entries := prefs[CACHE_KEY].entries;
      var i := 0;
      while i < |entries|
        invariant 0 <= i <= |entries|
        invariant list + DecodeEntries(entries[i..]) == DecodeEntries(entries)
      {
        DecodeUnfold(entries, i);
        if entries[i].Malformed? {
          break;
        }
        list := list + [FromRecord(entries[i])];
        i := i + 1;
      }
      assert i == |entries| ==> entries[i..] == [];
    }
  }
}
