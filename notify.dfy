/** The messages handed to the chat sink. Only the parts the model tracks
    are kept; the HTML layout around them is not modelled. */
module Notify {
  import opened Ranking

  const HOT_MARKER := "\U{1F525} "

  /** Threshold at which a feed item is sent with the fire marker. */
  const HOT_PRIORITY := 20

  datatype Message =
    | ItemMessage(marker: string, feed: string, title: string, link: string)
    | SampleMessage(feed: string, title: string, published: string, link: string)
    | WeatherMessage(event: string, area: string, link: string)
    | WeatherSample(event: string, area: string, time: string, link: string)

  /** Python's `xs[:2]`: the part of a list that debug mode samples. */
  function FirstTwo<T>(xs: seq<T>): (r: seq<T>)
    ensures r <= xs
    ensures |r| == if |xs| < 2 then |xs| else 2
  {
    if |xs| <= 2 then xs else xs[..2]
  }

  function Marker(priority: int): string
  {
    if priority >= HOT_PRIORITY then HOT_MARKER else ""
  }

  function ItemMessageOf(it: Item): Message
  {
    ItemMessage(Marker(it.priority), it.feed, it.title, it.link)
  }

  /** One message per item, in the given order. */
  function Dispatch(items: seq<Item>): (msgs: seq<Message>)
    ensures |msgs| == |items|
    ensures forall k :: 0 <= k < |items| ==> msgs[k] == ItemMessageOf(items[k])
  {
    if items == [] then [] else Dispatch(items[..|items| - 1]) + [ItemMessageOf(items[|items| - 1])]
  }

  /** Each dispatched message carries the fire marker exactly when its item's
      priority is 20 or more, and otherwise no marker at all. */
  lemma MarkerExactlyWhenHot(items: seq<Item>, k: int)
    requires 0 <= k < |items|
    ensures Dispatch(items)[k].marker == HOT_MARKER <==> items[k].priority >= 20
    ensures Dispatch(items)[k].marker == "" <==> items[k].priority < 20
  {
  }
}
