/**
  The query history of the session: its items, the bounded push of `adicionarAoHistorico`, the
  lookup of `reutilizarConsulta` and what the browser's local storage may hold for it.
 */
module History {
  import opened Wrappers

  /**
    One answered query: `id` is the clock reading (`Date.now()`) when it was recorded, `timestamp`
    the ISO text of the same moment, `responseTime` the round trip in milliseconds.
   */
  datatype HistoryItem = HistoryItem(id: int, question: string, answer: string, responseTime: int, timestamp: string)

  /** The history keeps the ten most recent items. */
  const MaxHistory := 10

  /**
    `unshift` followed by `slice(0, 10)`: the new item first, then the old items in their order,
    as many as fit; what falls off is the oldest end.
   */
  function Pushed(h: seq<HistoryItem>, item: HistoryItem): (r: seq<HistoryItem>)
    ensures |r| == if |h| < MaxHistory then |h| + 1 else MaxHistory
    ensures r[0] == item
    ensures r[1..] == h[..|r| - 1]
  {
    var added := [item] + h;
    if |added| > MaxHistory then added[..MaxHistory] else added
  }

  /** What a push drops is exactly the oldest items: putting them back gives the unbounded list. */
  lemma PushedDropsOldest(h: seq<HistoryItem>, item: HistoryItem)
    ensures var r := Pushed(h, item);
      r + h[|r| - 1..] == [item] + h
  {
    var r := Pushed(h, item);
    assert r == [item] + h[..|r| - 1];
    assert h[..|r| - 1] + h[|r| - 1..] == h;
  }

  /**
    `history.find(h => h.id == id)`: the position of the first item recorded under `id`, the most
    recent one when several share it.
   */
  function FirstWithId(h: seq<HistoryItem>, id: int): (r: Option<nat>)
    ensures r.Some? ==> r.value < |h| && h[r.value].id == id
    ensures r.Some? ==> forall j :: 0 <= j < r.value ==> h[j].id != id
    ensures r.None? ==> forall j :: 0 <= j < |h| ==> h[j].id != id
  {
    if h == [] then None
    else if h[0].id == id then Some(0)
    else
      match FirstWithId(h[1..], id)
      case None => None
      case Some(k) => Some(k + 1)
  }

  /**
    What reading the `ragFrontendHistory` key yields: no value (absent, or the empty string), a
    failure (reading or `JSON.parse` throws), or the list of items it encodes.
   */
  datatype StoredHistory = NothingStored | Unreadable | Stored(items: seq<HistoryItem>)
}
