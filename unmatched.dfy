/** The log of items that found no match on Trakt (`unmatched.py`). The YAML file
    is modelled by the document `Save` returns. */
module Unmatched {
  import opened Wrappers
  import opened Documents
  import opened Models

  /** One logged item: its titles and ids and why it was not matched. */
  datatype Entry = Entry(
    title: string,
    itemType: string,
    embyId: string,
    imdbId: Option<string>,
    tmdbId: Option<string>,
    tvdbId: Option<string>,
    reason: string)

  /** The content of `unmatched.yaml`. */
  datatype UnmatchedFile = UnmatchedFile(loggedAt: string, count: nat, items: seq<Entry>)

  /** The record `log` keeps of an item. */
  function EntryOf(item: WatchedItem, reason: string): (e: Entry)
    ensures e.title == item.title && e.itemType == item.itemType && e.embyId == item.embyId
    ensures e.imdbId == item.imdbId && e.tmdbId == item.tmdbId && e.tvdbId == item.tvdbId
    ensures e.reason == reason
  {
    Entry(item.title, item.itemType, item.embyId, item.imdbId, item.tmdbId, item.tvdbId, reason)
  }

  class UnmatchedLogger {
    var items: seq<Entry>

    /** `__init__`: nothing logged yet. */
    constructor ()
      ensures items == [] && Count() == 0
    {
      items := [];
    }

    /** `count`. */
    function Count(): (n: nat)
      reads this
      ensures n == |items|
      ensures n == 0 <==> items == []
    {
      |items|
    }

    /** `log`: appends the item's entry after those already logged. */
    method Log(item: WatchedItem, reason: string)
      modifies this
      ensures items == old(items) + [EntryOf(item, reason)]
      ensures Count() == old(Count()) + 1
    {
      items := items + [EntryOf(item, reason)];
    }

    /** `save`: writes nothing when no item was logged; otherwise the file holds the
        clock reading, the number of entries and the entries in logging order. */
    method Save(now: Timestamp) returns (written: Option<UnmatchedFile>)
      ensures written.None? <==> Count() == 0
      ensures written.Some? ==>
        && written.value.count == Count() == |written.value.items|
        && written.value.items == items
        && written.value.loggedAt == IsoFormat(now)
    {
      if items == [] {
        return None;
      }
      written := Some(UnmatchedFile(IsoFormat(now), |items|, items));
    }
  }
}
