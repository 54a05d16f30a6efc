/**
 * The calories tracker of `app/calories.tsx`: a product is either looked up
 * by a scanned barcode on OpenFoodFacts or typed in by hand, and in both
 * cases handed, as JSON text, to the product screen of `ScanResult`. The
 * lookup reply is an input; navigation is the text pushed as the `product`
 * route parameter, and an alert is its title and message.
 */
module Calories {
  import opened Wrappers
  import opened Json
  import opened JsValues
  import opened Http
  import ScanResult

  const UnknownItem: string := "Unknown item"
  const UnknownBrand: string := "Unknown brand"

  /** The product record both paths build, in the order its members are written. */
  datatype Product = Product(name: Json, brand: Json, calories: Json, carbs: Json, protein: Json, fat: Json)

  /** A shown alert: its title and message. */
  datatype Alert = Alert(title: string, message: string)

  const NotFoundAlert: Alert := Alert("Not Found", "No food found for this barcode.")
  const ErrorAlert: Alert := Alert("Error", "Could not fetch product info.")
  const MissingInfoAlert: Alert := Alert("Missing info", "Please enter at least a food name.")

  /** `JSON.stringify(productData)`: every member is defined, so all six are written. */
  function ProductJson(p: Product): Json {
    JObj([Member("name", p.name), Member("brand", p.brand), Member("calories", p.calories),
          Member("carbs", p.carbs), Member("protein", p.protein), Member("fat", p.fat)])
  }

  /** The name, brand and calories of a product written as JSON read as the values of those fields. */
  lemma ProductJsonLookups(p: Product)
    ensures Lookup(ProductJson(p).members, "name") == Some(p.name)
    ensures Lookup(ProductJson(p).members, "brand") == Some(p.brand)
    ensures Lookup(ProductJson(p).members, "calories") == Some(p.calories)
  {
    var ms := ProductJson(p).members;
    LookupAt(ms, 0);
    LookupAt(ms, 1);
    LookupAt(ms, 2);
  }

  /** The other nutrients of a product written as JSON read as the values of those fields. */
  lemma NutrientLookups(p: Product)
    ensures Lookup(ProductJson(p).members, "carbs") == Some(p.carbs)
    ensures Lookup(ProductJson(p).members, "protein") == Some(p.protein)
    ensures Lookup(ProductJson(p).members, "fat") == Some(p.fat)
  {
    var ms := ProductJson(p).members;
    LookupAt(ms, 3);
    LookupAt(ms, 4);
    LookupAt(ms, 5);
  }

  /**
   * Whatever product either path pushes reaches the product screen intact:
   * the route parameter decodes to the product, which is truthy, so its Add
   * to Library button saves it.
   */
  lemma PushedProductReachesScanResult(p: Product)
    ensures ScanResult.DecodeProduct(Single(Serialize(ProductJson(p)))) == ProductJson(p)
    ensures Truthy(Some(ScanResult.DecodeProduct(Single(Serialize(ProductJson(p))))))
  {
    ScanResult.DecodeWrittenProduct(ProductJson(p), []);
  }

  /** A value that `x || null` can give: a truthy value or `null`. */
  predicate TruthyOrNull(v: Json) {
    v == JNull || Truthy(Some(v))
  }

  /** `a || null`. */
  function OrNull(a: Option<Json>): (r: Json)
    ensures TruthyOrNull(r)
    ensures Truthy(a) ==> r == a.value
    ensures !Truthy(a) ==> r == JNull
  {
    OrElse(a, JNull)
  }

  // ---------------------------------------------------------------------
  // Scanning
  // ---------------------------------------------------------------------

  const ProductUrlPrefix: string := "https://world.openfoodfacts.org/api/v0/product/"

  /** The OpenFoodFacts address of a barcode: the barcode sits between the fixed prefix and `.json`. */
  function ProductUrl(barcode: string): (url: string)
    ensures |url| == |ProductUrlPrefix| + |barcode| + 5
    ensures url[..|ProductUrlPrefix|] == ProductUrlPrefix && url[|url| - 5..] == ".json"
    ensures url[|ProductUrlPrefix|..|url| - 5] == barcode
  {
    ProductUrlPrefix + barcode + ".json"
  }

  /**
   * The record built from `json.product`; `None` is the TypeError of reading
   * a property of a missing or `null` product or of its missing or `null`
   * `nutriments`. Name and brand fall back to fixed texts, calories to the
   * per-100g value and then to `null`, the other nutrients to `null`.
   */
  function ScannedProduct(p: Option<Json>): (r: Option<Product>)
    ensures IsNullish(p) ==> r.None?
    ensures !IsNullish(p) ==> (r.None? <==> IsNullish(Prop(p, "nutriments").value))
    ensures r.Some? ==>
      var name := Prop(p, "product_name").value;
      (Truthy(name) ==> r.value.name == name.value) && (!Truthy(name) ==> r.value.name == JStr(UnknownItem))
    ensures r.Some? ==>
      var brand := Prop(p, "brands").value;
      (Truthy(brand) ==> r.value.brand == brand.value) && (!Truthy(brand) ==> r.value.brand == JStr(UnknownBrand))
    ensures r.Some? ==>
      var n := Prop(p, "nutriments").value;
      var serving := Prop(n, "energy-kcal_serving").value;
      var per100g := Prop(n, "energy-kcal_100g").value;
      (Truthy(serving) ==> r.value.calories == serving.value) &&
      (!Truthy(serving) && Truthy(per100g) ==> r.value.calories == per100g.value) &&
      (!Truthy(serving) && !Truthy(per100g) ==> r.value.calories == JNull)
    ensures r.Some? ==>
      TruthyOrNull(r.value.calories) && TruthyOrNull(r.value.carbs) &&
      TruthyOrNull(r.value.protein) && TruthyOrNull(r.value.fat)
  {
    if IsNullish(p) then None
    else
      var n := Prop(p, "nutriments").value;
      if IsNullish(n) then None
      else
        Some(Product(OrElse(Prop(p, "product_name").value, JStr(UnknownItem)),
                     OrElse(Prop(p, "brands").value, JStr(UnknownBrand)),
                     OrNull(Or(Prop(n, "energy-kcal_serving").value, Prop(n, "energy-kcal_100g").value)),
                     OrNull(Prop(n, "carbohydrates_100g").value),
                     OrNull(Prop(n, "proteins_100g").value),
                     OrNull(Prop(n, "fat_100g").value)))
  }

  /** How a lookup ends: a product to show, no product for the barcode, or an error caught. */
  datatype Scan = Found(product: Product) | NotFound | Failed

  /**
   * The lookup's outcome. The body is read as JSON whatever the HTTP status;
   * only a body whose `status` is the number 1 holds a product.
   */
  function ScanOutcome(reply: Reply): (o: Scan)
    ensures reply.NetworkFailure? ==> o == Failed
    ensures reply.Response? && Parse(reply.body).None? ==> o == Failed
    ensures o.Found? ==>
      reply.Response? && Parse(reply.body).Some? &&
      Prop(Parse(reply.body), "status") == Read(Some(JNum(1))) &&
      ScannedProduct(Prop(Parse(reply.body), "product").value) == Some(o.product)
    ensures o == NotFound <==>
      reply.Response? && Parse(reply.body).Some? &&
      Prop(Parse(reply.body), "status").Read? && Prop(Parse(reply.body), "status").value != Some(JNum(1))
  {
    match reply
    case NetworkFailure(_) => Failed
    case Response(_, body) =>
      match Parse(body)
      case None => Failed
      case Some(json) =>
        match Prop(Some(json), "status")
        case TypeError => Failed
        case Read(status) =>
          if status != Some(JNum(1)) then NotFound
          else match ScannedProduct(Prop(Some(json), "product").value)
            case None => Failed
            case Some(p) => Found(p)
  }

  /**
   * A lookup answered with `{"status":s,"product":...}`: any `s` but 1 is
   * Not Found, and with 1 the product record is built from the served
   * product, whatever the HTTP status of the reply.
   */
  lemma ServedBodyOutcome(httpStatus: int, s: int, product: Json)
    ensures var o := ScanOutcome(Response(httpStatus, Serialize(JObj([Member("status", JNum(s)), Member("product", product)]))));
      (s != 1 ==> o == NotFound) &&
      (s == 1 && ScannedProduct(Some(product)).Some? ==> o == Found(ScannedProduct(Some(product)).value)) &&
      (s == 1 && ScannedProduct(Some(product)).None? ==> o == Failed)
  {
    var ms := [Member("status", JNum(s)), Member("product", product)];
    RoundTrip(JObj(ms));
    LookupAt(ms, 0);
    LookupAt(ms, 1);
  }

  // ---------------------------------------------------------------------
  // Manual entry
  // ---------------------------------------------------------------------

  /** `Number(text) || null`: a text that reads as 0 or does not read as a number gives `null`. */
  function ManualNumber(text: string): (r: Json)
    ensures r == JNull <==> StringToNumber(text) in {NaN, Num(0)}
    ensures r != JNull ==> r.JNum? && r.n != 0 && StringToNumber(text) == Num(r.n)
  {
    NumberOrNull(StringToNumber(text))
  }

  /** A number typed as `String(n)` is kept, unless it is 0; an empty field gives `null`. */
  lemma ManualNumberOfIntText(n: int)
    ensures ManualNumber(IntText(n)) == if n == 0 then JNull else JNum(n)
    ensures ManualNumber("") == JNull
  {
    StringToNumberOfIntText(n);
  }

  /**
   * `onManualSubmit`'s record; `None` when the name is blank, which alerts.
   * The name is trimmed, an empty brand becomes the fixed text and the
   * nutrient fields go through `Number(x) || null`.
   */
  function ManualProduct(name: string, brand: string, calories: string, carbs: string, protein: string, fat: string)
    : (r: Option<Product>)
    ensures r.None? <==> AllSpace(name)
    ensures r.Some? ==> r.value.name == JStr(Trim(name)) && Trim(name) != []
    ensures r.Some? ==> r.value.brand == if brand == "" then JStr(UnknownBrand) else JStr(brand)
    ensures r.Some? ==> r.value.calories == ManualNumber(calories) && r.value.carbs == ManualNumber(carbs) &&
                        r.value.protein == ManualNumber(protein) && r.value.fat == ManualNumber(fat)
  {
    TrimIsEmptyIff(name);
    if Trim(name) == [] then None
    else Some(Product(JStr(Trim(name)), OrElse(Some(JStr(brand)), JStr(UnknownBrand)),
                      ManualNumber(calories), ManualNumber(carbs), ManualNumber(protein), ManualNumber(fat)))
  }

  // ---------------------------------------------------------------------
  // The screen
  // ---------------------------------------------------------------------

  class CaloriesScreen {
    var scanning: bool
    var scanned: bool
    var loading: bool
    var name: string
    var brand: string
    var calories: string
    var carbs: string
    var protein: string
    var fat: string

    /** The first render: no scanner, nothing scanned, every field empty. */
    constructor ()
      ensures !scanning && !scanned && !loading
      ensures name == "" && brand == "" && calories == "" && carbs == "" && protein == "" && fat == ""
    {
      scanning := false;
      scanned := false;
      loading := false;
      name := "";
      brand := "";
      calories := "";
      carbs := "";
      protein := "";
      fat := "";
    }

    /** The manual entry fields, unchanged by the scanner's handlers. */
    predicate SameFields(name0: string, brand0: string, calories0: string, carbs0: string, protein0: string, fat0: string)
      reads this
    {
      name == name0 && brand == brand0 && calories == calories0 && carbs == carbs0 && protein == protein0 && fat == fat0
    }

    /** The Start Scanner button: the camera opens and a new scan is accepted. */
    method StartScanner()
      modifies this
      ensures scanning && !scanned && loading == old(loading)
      ensures SameFields(old(name), old(brand), old(calories), old(carbs), old(protein), old(fat))
    {
      scanning := true;
      scanned := false;
    }

    /**
     * `handleBarcodeScanned`: once a code was scanned, further callbacks do
     * nothing. Otherwise the scanner closes, the lookup is sent (`requested`)
     * and, when it ends, loading stops; a found product is pushed to the
     * product screen as JSON text, anything else shows an alert.
     */
    method HandleBarcodeScanned(barcode: string, reply: Reply)
      returns (requested: Option<string>, pushed: Option<string>, alert: Option<Alert>)
      modifies this
      ensures SameFields(old(name), old(brand), old(calories), old(carbs), old(protein), old(fat))
      ensures old(scanned) ==>
        requested == None && pushed == None && alert == None &&
        scanned && scanning == old(scanning) && loading == old(loading)
      ensures !old(scanned) ==> requested == Some(ProductUrl(barcode)) && scanned && !scanning && !loading
      ensures !old(scanned) && ScanOutcome(reply).Found? ==>
        pushed == Some(Serialize(ProductJson(ScanOutcome(reply).product))) && alert == None
      ensures !old(scanned) && ScanOutcome(reply) == NotFound ==> pushed == None && alert == Some(NotFoundAlert)
      ensures !old(scanned) && ScanOutcome(reply) == Failed ==> pushed == None && alert == Some(ErrorAlert)
    {
      if scanned {
        return None, None, None;
      }
      scanned := true;
      scanning := false;
      loading := true;
      requested := Some(ProductUrl(barcode));
      pushed := None;
      alert := None;
      if reply.NetworkFailure? {
        loading := false;
        alert := Some(ErrorAlert);
        return;
      }
      var json := Parse(reply.body);
      if json.None? {
        loading := false;
        alert := Some(ErrorAlert);
        return;
      }
      loading := false;
      var status := Prop(json, "status");
      if status.TypeError? {
        loading := false;
        alert := Some(ErrorAlert);
        return;
      }
      if status.value == Some(JNum(1)) {
        var productData := ScannedProduct(Prop(json, "product").value);
        if productData.None? {
          loading := false;
          alert := Some(ErrorAlert);
          return;
        }
        assert ScanOutcome(reply) == Found(productData.value);
        pushed := Some(Serialize(ProductJson(productData.value)));
      } else {
        alert := Some(NotFoundAlert);
      }
    }

    /**
     * `onManualSubmit`: a blank name alerts and pushes nothing; otherwise the
     * typed product is pushed as JSON text. Nothing on the screen changes.
     */
    method OnManualSubmit() returns (pushed: Option<string>, alert: Option<Alert>)
      ensures AllSpace(name) ==> pushed == None && alert == Some(MissingInfoAlert)
      ensures !AllSpace(name) ==>
        alert == None &&
        pushed == Some(Serialize(ProductJson(ManualProduct(name, brand, calories, carbs, protein, fat).value)))
    {
      var productData := ManualProduct(name, brand, calories, carbs, protein, fat);
      if productData.None? {
        return None, Some(MissingInfoAlert);
      }
      pushed := Some(Serialize(ProductJson(productData.value)));
      alert := None;
    }
  }

  /**
   * The re-entry guard: after a first scan, a second barcode seen before
   * Start Scanner is pressed again sends no lookup; after it, one is sent.
   */
  method ScanTwiceThenRestart(screen: CaloriesScreen, b1: string, r1: Reply, b2: string, r2: Reply, b3: string, r3: Reply)
    returns (first: Option<string>, second: Option<string>, third: Option<string>)
    modifies screen
    ensures first == Some(ProductUrl(b1)) && second == None && third == Some(ProductUrl(b3))
  {
    screen.StartScanner();
    var p, a;
    first, p, a := screen.HandleBarcodeScanned(b1, r1);
    second, p, a := screen.HandleBarcodeScanned(b2, r2);
    screen.StartScanner();
    third, p, a := screen.HandleBarcodeScanned(b3, r3);
  }
}
