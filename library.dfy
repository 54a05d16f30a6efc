/**
 * The food library of `app/library.tsx`: the saved products, kept in memory
 * and as one JSON array under the AsyncStorage key `library`. Every change
 * writes the whole list back.
 */
module Library {
  import opened Wrappers
  import opened Json
  import opened Storage

  const LibraryKey: string := "library"

  /**
   * The list the mount effect leaves, given what the read resolved to: a
   * non-empty text holding a JSON array replaces `current`; a missing entry,
   * an empty text or a text that does not parse leaves it.
   */
  function LoadedLibrary(raw: Option<string>, current: seq<Json>): (r: seq<Json>)
    ensures raw.None? ==> r == current
    ensures raw.Some? && Parse(raw.value).Some? && Parse(raw.value).value.JArr? ==> r == Parse(raw.value).value.items
    ensures raw.Some? && (Parse(raw.value).None? || !Parse(raw.value).value.JArr?) ==> r == current
  {
    match raw
    case None => current
    case Some(text) =>
      if text == "" then current
      else match Parse(text)
        case Some(JArr(items)) => items
        case _ => current
  }

  /** The start position `splice(index, 1)` removes at, for a list of `len` items. */
  function SpliceStart(len: nat, index: int): (s: nat)
    ensures s <= len
    ensures 0 <= index ==> s == if index < len then index else len
    ensures index < 0 ==> s == if len + index < 0 then 0 else len + index
  {
    if index < 0 then (if len + index < 0 then 0 else len + index)
    else if index < len then index else len
  }

  /** The copy of `items` after `splice(index, 1)`. */
  function Splice(items: seq<Json>, index: int): (r: seq<Json>)
    ensures var s := SpliceStart(|items|, index);
      if s < |items| then
        |r| == |items| - 1 &&
        (forall j :: 0 <= j < s ==> r[j] == items[j]) &&
        (forall j :: s <= j < |r| ==> r[j] == items[j + 1]) &&
        multiset(r) + multiset{items[s]} == multiset(items)
      else r == items
  {
    var s := SpliceStart(|items|, index);
    if s < |items| then
      assert items == items[..s] + [items[s]] + items[s + 1..];
      items[..s] + items[s + 1..]
    else items
  }

  /** `typeof v === "number" ? v : "-"`. */
  function SafeNum(v: Option<Json>): (r: Json)
    ensures r.JNum? <==> v.Some? && v.value.JNum?
    ensures r.JNum? ==> v == Some(r)
    ensures !r.JNum? ==> r == JStr("-")
  {
    if v.Some? && v.value.JNum? then v.value else JStr("-")
  }

  /** A list written back as JSON reloads as that same list on the next mount. */
  lemma WrittenListReloads(items: seq<Json>, current: seq<Json>)
    ensures LoadedLibrary(Some(Serialize(JArr(items))), current) == items
  {
    RoundTrip(JArr(items));
  }

  class LibraryScreen {
    var library: seq<Json>
    const storage: KeyValueStore

    /** The first render: an empty list, before the mount effect's read. */
    constructor (storage: KeyValueStore)
      ensures this.storage == storage && library == []
    {
      this.storage := storage;
      library := [];
    }

    /** The mount effect: the saved list when there is one. */
    method Mount()
      modifies this
      ensures library == LoadedLibrary(Stored(storage.entries, LibraryKey), old(library))
    {
      var data := storage.GetItem(LibraryKey);
      if data.Some? && data.value != "" {
        var parsed := Parse(data.value);
        if parsed.Some? && parsed.value.JArr? {
          library := parsed.value.items;
        }
      }
    }

    /**
     * The Remove button of the item at `index`: the list without it, written
     * back in full before the screen shows it.
     */
    method RemoveItem(index: int)
      modifies this, storage
      ensures library == Splice(old(library), index)
      ensures storage.entries == old(storage.entries)[LibraryKey := Serialize(JArr(library))]
    {
      var updated := library;
      updated := Splice(updated, index);
      storage.SetItem(LibraryKey, Serialize(JArr(updated)));
      library := updated;
    }

    /** The confirm action of Clear Library: the entry is removed and the list emptied. */
    method ConfirmClear()
      modifies this, storage
      ensures library == [] && storage.entries == old(storage.entries) - {LibraryKey}
      ensures LoadedLibrary(Stored(storage.entries, LibraryKey), library) == []
    {
      storage.RemoveItem(LibraryKey);
      library := [];
    }
  }

  /**
   * Removing an item and then opening the library afresh shows the list the
   * screen showed after the removal.
   */
  method RemoveThenRemount(storage: KeyValueStore, index: int) returns (before: seq<Json>, after: seq<Json>)
    modifies storage
    ensures after == Splice(before, index)
  {
    var screen := new LibraryScreen(storage);
    screen.Mount();
    before := screen.library;
    screen.RemoveItem(index);
    var reopened := new LibraryScreen(storage);
    WrittenListReloads(screen.library, []);
    reopened.Mount();
    after := reopened.library;
  }
}
