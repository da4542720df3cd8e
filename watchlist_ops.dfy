/**
 * The watchlist toggle expression that Markets and Watchlist share:
 * `list.includes(id) ? list.filter(x => x !== id) : [...list, id]`.
 */
module WatchlistOps {
  import opened JsBuiltins

  /** `list.filter(x => x !== id)`. */
  function Without(list: seq<string>, id: string): (r: seq<string>)
    ensures id !in r
    ensures forall x :: x != id ==> (x in r <==> x in list)
    ensures id !in list ==> r == list
  {
    FilterKeepsAll(list, x => x != id);
    Filter(list, x => x != id)
  }

  lemma {:induction false} WithoutAppend(list: seq<string>, extra: seq<string>, id: string)
    ensures Without(list + extra, id) == Without(list, id) + Without(extra, id)
  {
    FilterConcat(list, extra, x => x != id);
  }

  /** The new watchlist after a star click. */
  function Toggle(list: seq<string>, id: string): (r: seq<string>)
    ensures id in r <==> id !in list
    ensures forall x :: x != id ==> (x in r <==> x in list)
    ensures Without(r, id) == Without(list, id)
    ensures id !in list ==> r == list + [id]
  {
    if id in list then
      FilterIdempotent(list, x => x != id);
      Without(list, id)
    else
      WithoutAppend(list, [id], id);
      list + [id]
  }

  /** Starring an absent coin and unstarring it again restores the list. */
  lemma ToggleTwiceRestores(list: seq<string>, id: string)
    requires id !in list
    ensures Toggle(Toggle(list, id), id) == list
  {
    WithoutAppend(list, [id], id);
  }

  /** Unstarring and starring again moves the coin to the end, once. */
  lemma ToggleTwiceMovesToEnd(list: seq<string>, id: string)
    requires id in list
    ensures Toggle(Toggle(list, id), id) == Without(list, id) + [id]
  {
  }
}
