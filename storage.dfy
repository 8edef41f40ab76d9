/** The store of watched items (`storage.py`): `watched.yaml` holds the items as
    dicts with a little metadata. The file is modelled by its parsed content
    (`None` while it does not exist). */
module Storage {
  import opened Wrappers
  import opened Documents
  import opened Models
  import opened Seqs

  /** What reading the store can raise: content of the wrong shape, or an item dict
      that `from_dict` refuses. */
  datatype StoreError =
    | NotAMapping
    | NotAList
    | NotADict
    | BadItem(error: ModelError)
    | BadTimestamp(text: string)
    | NotText(key: string)

  /** The `to_dict` form of each item, in order. */
  function ItemValues(items: seq<WatchedItem>): (vs: seq<Value>)
    ensures |vs| == |items|
    ensures forall i :: 0 <= i < |items| ==> vs[i] == Dict(ToDict(items[i]))
  {
    seq(|items|, i requires 0 <= i < |items| => Dict(ToDict(items[i])))
  }

  /** The document `save_watched_items` writes at clock reading `now`. */
  function Snapshot(items: seq<WatchedItem>, now: Timestamp): (d: Document)
    ensures d.Keys == {"sync_metadata", "watched_items"}
    ensures d["sync_metadata"] == Dict(map["last_updated" := Str(IsoFormat(now)), "total_items" := Int(|items|)])
    ensures d["watched_items"].List? && |d["watched_items"].items| == |items|
    ensures forall i :: 0 <= i < |items| ==> d["watched_items"].items[i] == Dict(ToDict(items[i]))
  {
    map[
      "sync_metadata" := Dict(map["last_updated" := Str(IsoFormat(now)), "total_items" := Int(|items|)]),
      "watched_items" := List(ItemValues(items))]
  }

  /** `WatchedItem.from_dict` on one value of the stored list. */
  function ItemFromValue(v: Value): (r: Result<WatchedItem, StoreError>)
    ensures r.Ok? <==> v.Dict? && FromDict(v.entries).Ok?
    ensures r.Ok? ==> FromDict(v.entries) == Ok(r.value)
    ensures !v.Dict? ==> r == Err(NotADict)
  {
    if !v.Dict? then Err(NotADict)
    else match FromDict(v.entries)
      case Err(e) => Err(BadItem(e))
      case Ok(x) => Ok(x)
  }

  /** `[WatchedItem.from_dict(d) for d in values]`. */
  function ItemsFromValues(values: seq<Value>): (r: Result<seq<WatchedItem>, StoreError>)
    ensures r.Ok? ==> |r.value| == |values|
    ensures r.Err? ==> r.error.NotADict? || r.error.BadItem?
  {
    var r := MapAll(values, ItemFromValue);
    if r.Err? then
      MapAllFails(values, ItemFromValue);
      r
    else r
  }

  /** Python's `t in s` on two texts: `t` occurs somewhere in `s`. */
  predicate Occurs(t: string, s: string)
    decreases |s|
  {
    if |t| > |s| then false
    else s[..|t|] == t || (|s| > 0 && Occurs(t, s[1..]))
  }

  /** Python's `key in data`: a key of a dict, an element of a list, a piece of a
      text; `None` where `in` raises `TypeError` (numbers, booleans, datetimes). */
  function In(key: string, data: Value): (r: Option<bool>)
    ensures data.Dict? ==> r == Some(key in data.entries)
    ensures data.List? ==> r == Some(Str(key) in data.items)
    ensures data.Str? ==> r == Some(Occurs(key, data.s))
    ensures r.None? <==> !(data.Dict? || data.List? || data.Str?) && !data.Null?
  {
    match data
    case Dict(entries) => Some(key in entries)
    case List(items) => Some(Str(key) in items)
    case Str(text) => Some(Occurs(key, text))
    case Null => Some(false)
    case _ => None
  }

  /** The comprehension over `data["watched_items"]`: a list is read item by item; an
      empty text or dict iterates over nothing; any other value raises. */
  function ItemsOfStored(stored: Value): (r: Result<seq<WatchedItem>, StoreError>)
    ensures stored.List? ==> r == ItemsFromValues(stored.items)
    ensures stored == Str("") || stored == Dict(map[]) ==> r == Ok([])
    ensures !stored.List? && stored != Str("") && stored != Dict(map[]) ==> r == Err(NotAList)
    ensures r.Err? ==> r.error != NotAMapping
  {
    match stored
    case List(values) => ItemsFromValues(values)
    case Str(text) => if text == "" then Ok([]) else Err(NotAList)
    case Dict(entries) => if entries == map[] then Ok([]) else Err(NotAList)
    case _ => Err(NotAList)
  }

  /** `load_watched_items` on the file's content. */
  function ItemsFromFile(file: Option<Value>): (r: Result<seq<WatchedItem>, StoreError>)
    ensures file.None? ==> r == Ok([])
    ensures file.Some? && !Truthy(file.value) ==> r == Ok([])
    ensures file.Some? && In("watched_items", file.value) == Some(false) ==> r == Ok([])
    ensures file.Some? && file.value.Dict? && "watched_items" !in file.value.entries ==> r == Ok([])
    ensures file.Some? && file.value.Dict? && "watched_items" in file.value.entries ==>
      r == ItemsOfStored(file.value.entries["watched_items"])
    ensures r == Err(NotAMapping) <==>
      && file.Some? && Truthy(file.value) && !file.value.Dict?
      && In("watched_items", file.value) != Some(false)
  {
    match file
    case None => Ok([])
    case Some(data) =>
      if !Truthy(data) then Ok([])
      else match In("watched_items", data)
        case None => Err(NotAMapping)
        case Some(found) =>
          if !found then Ok([])
          else if !data.Dict? then Err(NotAMapping)
          else ItemsOfStored(data.entries["watched_items"])
  }

  /** `get_last_sync_time` on the file's content. */
  function LastSyncFromFile(file: Option<Value>): (r: Result<Option<Timestamp>, StoreError>)
    ensures file.None? ==> r == Ok(None)
    ensures file.Some? && !Truthy(file.value) ==> r == Ok(None)
    ensures file.Some? && In("sync_metadata", file.value) == Some(false) ==> r == Ok(None)
    ensures file.Some? && file.value.Dict? && "sync_metadata" !in file.value.entries ==> r == Ok(None)
    ensures (&& file.Some? && file.value.Dict? && "sync_metadata" in file.value.entries
             && file.value.entries["sync_metadata"].Dict?
             && var meta := file.value.entries["sync_metadata"].entries;
                "last_updated" !in meta || !Truthy(meta["last_updated"]))
            ==> r == Ok(None)
    ensures r.Ok? && r.value.Some? ==>
      && file.Some? && file.value.Dict? && "sync_metadata" in file.value.entries
      && file.value.entries["sync_metadata"].Dict?
      && var meta := file.value.entries["sync_metadata"].entries;
      && "last_updated" in meta && meta["last_updated"].Str?
      && FromIsoFormat(meta["last_updated"].s) == r.value
  {
    match file
    case None => Ok(None)
    case Some(data) =>
      if !Truthy(data) then Ok(None)
      else match In("sync_metadata", data)
        case None => Err(NotAMapping)
        case Some(found) =>
          if !found then Ok(None)
          else if !data.Dict? || !data.entries["sync_metadata"].Dict? then Err(NotAMapping)
          else
            var meta := data.entries["sync_metadata"].entries;
            if "last_updated" !in meta || !Truthy(meta["last_updated"]) then Ok(None)
            else match meta["last_updated"]
              case Str(text) =>
                (match FromIsoFormat(text)
                 case None => Err(StoreError.BadTimestamp(text))
                 case Some(t) => Ok(Some(t)))
              case _ => Err(NotText("last_updated"))
  }

  /** Every saved item dict reads back as the item it came from. */
  lemma ItemsFromSavedValues(items: seq<WatchedItem>)
    ensures ItemsFromValues(ItemValues(items)) == Ok(items)
  {
    var vs := ItemValues(items);
    forall i | 0 <= i < |vs|
      ensures ItemFromValue(vs[i]) == Ok(items[i])
    {
      RoundTrip(items[i]);
    }
    MapAllSucceeds(vs, ItemFromValue, items);
  }

  /** A stored document with an item list loads as that list's items. */
  lemma ItemsFromListed(d: Document, values: seq<Value>)
    requires "watched_items" in d && d["watched_items"] == List(values)
    ensures ItemsFromFile(Some(Dict(d))) == ItemsFromValues(values)
  {
    assert Truthy(Dict(d));
  }

  /** Loading what `save_watched_items` wrote gives back the items, in order. */
  lemma SaveLoadRoundTrip(items: seq<WatchedItem>, now: Timestamp)
    ensures ItemsFromFile(Some(Dict(Snapshot(items, now)))) == Ok(items)
  {
    var d := Snapshot(items, now);
    assert d["watched_items"] == List(ItemValues(items));
    ItemsFromListed(d, ItemValues(items));
    ItemsFromSavedValues(items);
  }

  /** A stored document whose metadata holds a non-empty `last_updated` text reads
      back the time that text denotes. */
  lemma LastSyncStored(d: Document, meta: Document, text: string)
    requires "sync_metadata" in d && d["sync_metadata"] == Dict(meta)
    requires "last_updated" in meta && meta["last_updated"] == Str(text) && text != ""
    requires FromIsoFormat(text).Some?
    ensures LastSyncFromFile(Some(Dict(d))) == Ok(FromIsoFormat(text))
  {
    assert Truthy(Dict(d));
  }

  /** After a save, the last sync time read back is the clock reading of the save. */
  lemma SaveLastSync(items: seq<WatchedItem>, now: Timestamp)
    ensures LastSyncFromFile(Some(Dict(Snapshot(items, now)))) == Ok(Some(now))
  {
    var d := Snapshot(items, now);
    var meta := map["last_updated" := Str(IsoFormat(now)), "total_items" := Int(|items|)];
    assert d["sync_metadata"] == Dict(meta);
    IsoRoundTrip(now);
    LastSyncStored(d, meta, IsoFormat(now));
  }

  /** `DataStore`: the content of `watched.yaml`. */
  class DataStore {
    var watchedFile: Option<Value>

    /** `__init__` over whatever the file holds already. */
    constructor (existing: Option<Value>)
      ensures watchedFile == existing
    {
      watchedFile := existing;
    }

    /** `save_watched_items`: replaces the file with a snapshot of `items`. */
    method SaveWatchedItems(items: seq<WatchedItem>, now: Timestamp)
      modifies this
      ensures watchedFile == Some(Dict(Snapshot(items, now)))
      ensures ItemsFromFile(watchedFile) == Ok(items)
      ensures LastSyncFromFile(watchedFile) == Ok(Some(now))
    {
      watchedFile := Some(Dict(Snapshot(items, now)));
      SaveLoadRoundTrip(items, now);
      SaveLastSync(items, now);
    }

    /** `load_watched_items`. */
    method LoadWatchedItems() returns (r: Result<seq<WatchedItem>, StoreError>)
      ensures r == ItemsFromFile(watchedFile)
    {
      r := ItemsFromFile(watchedFile);
    }

    /** `get_last_sync_time`. */
    method GetLastSyncTime() returns (r: Result<Option<Timestamp>, StoreError>)
      ensures r == LastSyncFromFile(watchedFile)
    {
      r := LastSyncFromFile(watchedFile);
    }
  }
}
