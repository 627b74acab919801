/** `GET /product`: lists the storefront catalogue and shapes every product
    into the flat record the front end shows. */
module Products {
  import opened Common
  import opened Text
  import opened Json

  /** The record shown for one product: `id`, `nombre`, `referencia`,
      `precio`, `stock` (passed through as the storefront sent them) and the
      `activo` label. */
  datatype Row = Row(id: Json, name: Json, reference: Json, price: Json, stock: Json, active: string)

  /** The affirmative label of this endpoint: "Sí" as UTF-8 bytes read back
      as Latin-1, the two characters U+00C3 U+00AD. */
  const MojibakeYes: string := "S\U{00C3}\U{00AD}"

  const No: string := "No"

  /** The name shown for a product: a list of translations shows the `value`
      of its first entry (null when that entry has none), anything else is
      shown as it is, an absent name as "".  An empty list, or a first entry
      that is not a dict, raises. */
  function DisplayName(fields: map<string, Json>): (r: Result<Json>)
    ensures "name" !in fields ==> r == Ok(JStr(""))
    ensures "name" in fields && !fields["name"].JList? ==> r == Ok(fields["name"])
    ensures "name" in fields && fields["name"] == JList([]) ==> r == Crash(IndexError)
  {
    match Get(fields, "name", JStr(""))
    case JList(items) =>
      if items == [] then Crash(IndexError)
      else if items[0].JObj? then Ok(Get(items[0].fields, "value", JNull))
      else Crash(AttributeError)
    case other => Ok(other)
  }

  /** A storefront name with translations, as the storefront's JSON writes
      it: one `{"id": language, "value": text}` per language. */
  function Translations(names: seq<(string, string)>): (r: seq<Json>)
    ensures |r| == |names|
    ensures forall i :: 0 <= i < |names| ==> r[i].JObj? && Get(r[i].fields, "value", JNull) == JStr(names[i].1)
    decreases |names|
  {
    if names == [] then []
    else [JObj(map["id" := JStr(names[0].0), "value" := JStr(names[0].1)])] + Translations(names[1..])
  }

  /** The name shown is the text of the first language, whatever the others. */
  lemma FirstTranslationShown(fields: map<string, Json>, names: seq<(string, string)>)
    requires names != [] && "name" in fields && fields["name"] == JList(Translations(names))
    ensures DisplayName(fields) == Ok(JStr(names[0].1))
  {
  }

  /** The `activo` label: `yes` exactly when `active` is the string "1"
      (a number 1, or a missing field, reads as "No"). */
  function Label(fields: map<string, Json>, yes: string): (r: string)
    ensures Get(fields, "active", JNull) == JStr("1") ==> r == yes
    ensures Get(fields, "active", JNull) != JStr("1") ==> r == No
  {
    if Get(fields, "active", JNull) == JStr("1") then yes else No
  }

  /** The body of the shaping loop for one product: a product that is not a
      dict has no `.get` and raises. */
  function Shape(product: Json, yes: string): (r: Result<Row>)
    ensures !product.JObj? ==> r == Crash(AttributeError)
    ensures product.JObj? ==> (r.Ok? <==> DisplayName(product.fields).Ok?)
    ensures r.Ok? ==> && r.value.id == Get(product.fields, "id", JNull)
                      && r.value.name == DisplayName(product.fields).value
                      && r.value.reference == Get(product.fields, "reference", JNull)
                      && r.value.price == Get(product.fields, "price", JNull)
                      && r.value.stock == Get(product.fields, "quantity", JNull)
                      && r.value.active == Label(product.fields, yes)
  {
    if !product.JObj? then Crash(AttributeError)
    else
      var f := product.fields;
      match DisplayName(f)
      case Crash(e) => Crash(e)
      case Ok(name) => Ok(Row(Get(f, "id", JNull), name, Get(f, "reference", JNull), Get(f, "price", JNull), Get(f, "quantity", JNull), Label(f, yes)))
  }

  /** `for product in products`: a list yields its items; a dict yields its
      keys and a string its characters, neither of which has `.get`; a
      number, a boolean or null cannot be iterated. */
  function Items(products: Json): (r: Result<seq<Json>>)
    ensures products.JList? ==> r == Ok(products.items)
    ensures !products.JList? && Truthy(products) ==> r.Crash?
  {
    match products
    case JList(items) => Ok(items)
    case JObj(fields) => if fields == map[] then Ok([]) else Crash(AttributeError)
    case JStr(s) => if s == "" then Ok([]) else Crash(AttributeError)
    case _ => Crash(TypeError)
  }

  /** The shaping loop over `items`: the records in order, or the exception
      of the first product that cannot be shaped. */
  function Shaped(items: seq<Json>, yes: string): Result<seq<Row>>
    decreases |items|
  {
    if items == [] then Ok([])
    else
      match Shaped(items[..|items| - 1], yes)
      case Crash(e) => Crash(e)
      case Ok(rows) =>
        match Shape(items[|items| - 1], yes)
        case Crash(e) => Crash(e)
        case Ok(row) => Ok(rows + [row])
  }

  /** The loop succeeds exactly when every product can be shaped, and then
      gives one record per product, in order. */
  lemma {:induction false} ShapedPointwise(items: seq<Json>, yes: string)
    ensures Shaped(items, yes).Ok? <==> forall i :: 0 <= i < |items| ==> Shape(items[i], yes).Ok?
    ensures Shaped(items, yes).Ok? ==> |Shaped(items, yes).value| == |items|
    ensures Shaped(items, yes).Ok? ==>
              forall i :: 0 <= i < |items| ==> Shaped(items, yes).value[i] == Shape(items[i], yes).value
    decreases |items|
  {
    if items != [] {
      var init := items[..|items| - 1];
      ShapedPointwise(init, yes);
      assert forall i :: 0 <= i < |init| ==> init[i] == items[i];
    }
  }

  /** When the loop raises, it raises the exception of the first product
      that cannot be shaped. */
  lemma {:induction false} ShapedFirstFault(items: seq<Json>, yes: string)
    requires Shaped(items, yes).Crash?
    ensures exists i :: && 0 <= i < |items|
                        && Shape(items[i], yes) == Crash(Shaped(items, yes).fault)
                        && forall j :: 0 <= j < i ==> Shape(items[j], yes).Ok?
    decreases |items|
  {
    var init := items[..|items| - 1];
    var n := |items| - 1;
    ShapedPointwise(init, yes);
    if Shaped(init, yes).Crash? {
      ShapedFirstFault(init, yes);
      var i :| && 0 <= i < |init|
               && Shape(init[i], yes) == Crash(Shaped(init, yes).fault)
               && forall j :: 0 <= j < i ==> Shape(init[j], yes).Ok?;
      assert items[i] == init[i];
      assert forall j :: 0 <= j < i ==> items[j] == init[j];
    } else {
      assert forall j :: 0 <= j < n ==> items[j] == init[j];
      assert Shape(items[n], yes) == Crash(Shaped(items, yes).fault);
    }
  }

  /** The shaping loop: appends one record per product, in order. */
  method ShapeProducts(items: seq<Json>, yes: string) returns (r: Result<seq<Row>>)
    ensures r == Shaped(items, yes)
  {
    var cleaned: seq<Row> := [];
    var i := 0;
    while i < |items|
      invariant 0 <= i <= |items|
      invariant Shaped(items[..i], yes) == Ok(cleaned)
      decreases |items| - i
    {
      assert items[..i + 1][..i] == items[..i];
      var row := Shape(items[i], yes);
      if row.Crash? {
        ShapedStops(items, yes, i + 1);
        return Crash(row.fault);
      }
      cleaned := cleaned + [row.value];
      i := i + 1;
    }
    assert items[..i] == items;
    r := Ok(cleaned);
  }

  /** Once a product cannot be shaped, the loop's outcome is fixed. */
  lemma {:induction false} ShapedStops(items: seq<Json>, yes: string, i: nat)
    requires i <= |items| && Shaped(items[..i], yes).Crash?
    ensures Shaped(items, yes) == Shaped(items[..i], yes)
    decreases |items| - i
  {
    if i < |items| {
      assert items[..i + 1][..i] == items[..i];
      ShapedStops(items, yes, i + 1);
    } else {
      assert items[..i] == items;
    }
  }

  /** The listing as the storefront answers it: the status and the decoded
      body (absent when the body is not JSON). */
  datatype Listing = Listing(status: int, body: Option<Json>)

  const QueryFailedMessage: string := "Error al consultar PrestaShop"
  const NotFoundMessage: string := "Productos no encontrados"

  /** The collection a listing body holds and what the endpoint answers for
      it: 404 when it is empty, else the shaped records. */
  function ShapeListing(data: Json, yes: string): Response<seq<Row>> {
    var products := DictFirstProducts(data);
    if !Truthy(products) then Error("404", NotFoundMessage, None)
    else
      match Items(products)
      case Crash(e) => Crashed(e)
      case Ok(items) =>
        match Shaped(items, yes)
        case Crash(e) => Crashed(e)
        case Ok(rows) => Success(rows)
  }

  /** `get_products()`. */
  function GetProductsAnswer(cfg: Config, listing: Listing): Response<seq<Row>> {
    if !Configured(cfg) then Error("500", NotConfiguredMessage, None)
    else if listing.status != 200 then Error(IntToString(listing.status), QueryFailedMessage, None)
    else if listing.body.None? then Crashed(ValueError)
    else ShapeListing(listing.body.value, MojibakeYes)
  }

  /** The error branches of `get_products()`: no configuration, a failed
      listing, a body that is not JSON, and an empty collection. */
  lemma GetProductsErrors(cfg: Config, listing: Listing)
    ensures !Configured(cfg) ==> GetProductsAnswer(cfg, listing) == Error("500", NotConfiguredMessage, None)
    ensures Configured(cfg) && listing.status != 200 ==>
              GetProductsAnswer(cfg, listing) == Error(IntToString(listing.status), QueryFailedMessage, None)
    ensures Configured(cfg) && listing.status == 200 && listing.body.None? ==>
              GetProductsAnswer(cfg, listing) == Crashed(ValueError)
    ensures Configured(cfg) && listing.status == 200 && listing.body.Some? ==>
              (GetProductsAnswer(cfg, listing) == Error("404", NotFoundMessage, None)
               <==> !Truthy(DictFirstProducts(listing.body.value)))
  {
  }

  /** A successful `get_products()` lists one record per product of the
      listing, in order, each shaped from its product, the label being the
      affirmative one exactly for products whose `active` is "1". */
  lemma GetProductsRows(cfg: Config, listing: Listing)
    requires GetProductsAnswer(cfg, listing).Success?
    ensures listing.status == 200 && listing.body.Some?
    ensures var products := DictFirstProducts(listing.body.value);
      var rows := GetProductsAnswer(cfg, listing).data;
      && products.JList? && |rows| == |products.items| > 0
      && (forall i :: 0 <= i < |rows| ==> Shape(products.items[i], MojibakeYes) == Ok(rows[i]))
      && (forall i :: 0 <= i < |rows| ==>
            products.items[i].JObj? &&
            (rows[i].active == MojibakeYes <==> Get(products.items[i].fields, "active", JNull) == JStr("1")))
  {
    var products := DictFirstProducts(listing.body.value);
    assert Truthy(products) && Items(products).Ok?;
    ShapedPointwise(products.items, MojibakeYes);
  }

  /** `get_products()`: checks the configuration and the status, normalises
      the body and shapes every product. */
  method GetProducts(cfg: Config, listing: Listing) returns (r: Response<seq<Row>>)
    ensures r == GetProductsAnswer(cfg, listing)
  {
    if !Configured(cfg) {
      return Error("500", NotConfiguredMessage, None);
    }
    if listing.status != 200 {
      return Error(IntToString(listing.status), QueryFailedMessage, None);
    }
    if listing.body.None? {
      return Crashed(ValueError);
    }
    r := AnswerListing(listing.body.value, MojibakeYes);
  }

  /** Normalisation, the 404 check and the shaping loop, shared by the two
      listing endpoints. */
  method AnswerListing(data: Json, yes: string) returns (r: Response<seq<Row>>)
    ensures r == ShapeListing(data, yes)
  {
    var products := if data.JObj? then Get(data.fields, "products", JList([])) else data;
    if !Truthy(products) {
      return Error("404", NotFoundMessage, None);
    }
    var items := Items(products);
    if items.Crash? {
      return Crashed(items.fault);
    }
    var rows := ShapeProducts(items.value, yes);
    if rows.Crash? {
      return Crashed(rows.fault);
    }
    r := Success(rows.value);
  }
}
