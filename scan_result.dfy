/**
 * The product screen of `app/ScanResult.tsx`: it decodes the product passed
 * as a route parameter and appends it to the food library kept under the
 * AsyncStorage key `library`, which the library screen reads.
 */
module ScanResult {
  import opened Wrappers
  import opened Json
  import opened JsValues
  import opened Storage
  import Library

  /**
   * `productData`: the first value when the parameter is repeated; a missing
   * or empty value, or one that does not parse, gives `null`.
   */
  function DecodeProduct(p: RouteParam): (r: Json)
    ensures p.Absent? ==> r == JNull
    ensures p.Multiple? && p.ss == [] ==> r == JNull
    ensures p.Single? ==> r == (if Parse(p.s).Some? then Parse(p.s).value else JNull)
    ensures p.Multiple? && p.ss != [] ==> r == (if Parse(p.ss[0]).Some? then Parse(p.ss[0]).value else JNull)
  {
    var productStr: Option<string> :=
      match p
      case Absent => None
      case Single(s) => Some(s)
      case Multiple(ss) => if ss == [] then None else Some(ss[0]);
    if productStr.None? || productStr.value == "" then JNull
    else match Parse(productStr.value)
      case Some(v) => v
      case None => JNull
  }

  /** A product written as JSON, alone or first of a repeated parameter, decodes to itself. */
  lemma DecodeWrittenProduct(v: Json, more: seq<string>)
    ensures DecodeProduct(Single(Serialize(v))) == v
    ensures DecodeProduct(Multiple([Serialize(v)] + more)) == v
  {
    RoundTrip(v);
  }

  /**
   * The list `onAddToLibrary` writes, given what the read of `library`
   * resolved to: the saved list with `item` pushed at its end, a missing or
   * empty entry counting as the empty list. `None` is the error path: a text
   * that does not parse, or a value that is not an array and so has no `push`.
   */
  function AddedLibrary(raw: Option<string>, item: Json): (r: Option<seq<Json>>)
    ensures raw.None? || raw == Some("") ==> r == Some([item])
    ensures raw.Some? && raw.value != "" && (Parse(raw.value).None? || !Parse(raw.value).value.JArr?) ==> r.None?
    ensures raw.Some? && raw.value != "" && Parse(raw.value).Some? && Parse(raw.value).value.JArr? ==>
      r == Some(Parse(raw.value).value.items + [item])
  {
    if raw.None? || raw.value == "" then Some([item])
    else match Parse(raw.value)
      case Some(JArr(items)) => Some(items + [item])
      case _ => None
  }

  /**
   * Adding to a list saved as JSON keeps the saved items and their order and
   * puts the new one last, so the list grows by exactly one.
   */
  lemma AddToSavedList(items: seq<Json>, item: Json)
    ensures AddedLibrary(Some(Serialize(JArr(items))), item) == Some(items + [item])
    ensures var r := AddedLibrary(Some(Serialize(JArr(items))), item).value;
      |r| == |items| + 1 && r[..|items|] == items && r[|items|] == item
  {
    RoundTrip(JArr(items));
  }

  class ScanResultScreen {
    const product: RouteParam
    var saving: bool
    const storage: KeyValueStore

    constructor (product: RouteParam, storage: KeyValueStore)
      ensures this.product == product && this.storage == storage && !saving
    {
      this.product := product;
      this.storage := storage;
      saving := false;
    }

    /**
     * The Add to Library button: nothing happens without a product; otherwise
     * the saved list is read, the product pushed and the list written back,
     * and `saving` is false again on every path.
     */
    method AddToLibrary()
      modifies this, storage
      ensures !Truthy(Some(DecodeProduct(product))) ==>
        storage.entries == old(storage.entries) && saving == old(saving)
      ensures Truthy(Some(DecodeProduct(product))) ==> !saving
      ensures Truthy(Some(DecodeProduct(product))) ==>
        var added := AddedLibrary(Stored(old(storage.entries), Library.LibraryKey), DecodeProduct(product));
        storage.entries == if added.Some? then old(storage.entries)[Library.LibraryKey := Serialize(JArr(added.value))]
                           else old(storage.entries)
    {
      var productData := DecodeProduct(product);
      if !Truthy(Some(productData)) {
        return;
      }
      saving := true;
      var existing := storage.GetItem(Library.LibraryKey);
      var library: Option<Json> := if existing.None? || existing.value == "" then Some(JArr([])) else Parse(existing.value);
      if library.Some? && library.value.JArr? {
        var pushed := library.value.items + [productData];
        assert [] + [productData] == [productData];
        storage.SetItem(Library.LibraryKey, Serialize(JArr(pushed)));
      }
      saving := false;
    }
  }

  /**
   * Adding a scanned product and then opening the library shows the list
   * that was saved before, with the product last; with nothing saved before,
   * just the product.
   */
  method AddThenOpenLibrary(storage: KeyValueStore, product: RouteParam, saved: seq<Json>)
    returns (shown: seq<Json>)
    requires Truthy(Some(DecodeProduct(product)))
    requires Stored(storage.entries, Library.LibraryKey) in {None, Some(Serialize(JArr(saved)))}
    modifies storage
    ensures Stored(old(storage.entries), Library.LibraryKey).Some? ==> shown == saved + [DecodeProduct(product)]
    ensures Stored(old(storage.entries), Library.LibraryKey).None? ==> shown == [DecodeProduct(product)]
  {
    var screen := new ScanResultScreen(product, storage);
    AddToSavedList(saved, DecodeProduct(product));
    screen.AddToLibrary();
    var library := new Library.LibraryScreen(storage);
    var written := AddedLibrary(Stored(old(storage.entries), Library.LibraryKey), DecodeProduct(product));
    Library.WrittenListReloads(written.value, []);
    library.Mount();
    shown := library.library;
  }
}
