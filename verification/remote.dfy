/** The two systems the bridge talks to, as the bridge sees them.

    The ERP is a read-only catalogue of products.  The storefront is a map
    from product reference to product id (the id of the FIRST product created
    with that reference: a lookup by reference returns it), a map from product
    id to its stock record, and the counters it assigns new ids from.  What a
    call answers (its status code) is an input; what a successful call does to
    the storefront is defined here.  Every outbound call is appended to a log,
    so that "no further call" can be stated. */
module Remote {
  import opened Common
  import opened Text
  import opened Json
  import opened XmlTokens

  /** A `product.product` row as `search_read` returns it.  `None` stands for
      Odoo's `False` on an empty char field. */
  datatype ErpProduct = ErpProduct(
    id: int,
    name: Option<string>,
    defaultCode: Option<string>,
    listPrice: real,
    qtyAvailable: real)

  /** The ERP row's internal reference as the endpoints read it,
      `(default_code or "").strip()`: the storefront SKU. */
  function SkuOf(p: ErpProduct): (sku: string)
    ensures Clean(sku)
    ensures p.defaultCode.None? ==> sku == ""
  {
    Strip(p.defaultCode.GetOr(""))
  }

  /** A `stock_available` record of the storefront. */
  datatype StockRecord = StockRecord(
    id: string,
    idProduct: string,
    idProductAttribute: string,
    idShop: string,
    idShopGroup: string,
    quantity: int,
    dependsOnStock: string,
    outOfStock: string)

  datatype Shop = Shop(
    refs: map<string, string>,
    stock: map<string, StockRecord>,
    nextProduct: nat,
    nextStock: nat)

  /** One outbound call. */
  datatype Call =
    | ErpSearch(reference: string)                    // search_read filtered on default_code
    | ErpSearchAll                                    // search_read of the whole catalogue
    | LookupReference(sku: string)                    // GET products?filter[reference]=[sku]&display=[id] (XML)
    | LookupReferenceJson(sku: string)                // GET products?filter[reference]=[sku] (JSON)
    | CreateProduct(name: string, sku: string, price: real)
    | FetchStock(productId: string)                   // GET stock_availables?filter[id_product]=[id]
    | PatchStock(stockId: string, body: Doc)
    | PutStock(stockId: string, body: Doc)

  /** The number of product creates among the calls. */
  function CreateCount(calls: seq<Call>): (n: nat)
    ensures n <= |calls|
    ensures n == 0 <==> forall c :: c in calls ==> !c.CreateProduct?
    decreases |calls|
  {
    if calls == [] then 0
    else
      var init := calls[..|calls| - 1];
      assert calls == init + [calls[|calls| - 1]];
      CreateCount(init) + if calls[|calls| - 1].CreateProduct? then 1 else 0
  }

  lemma {:induction false} CreateCountAppend(a: seq<Call>, b: seq<Call>)
    ensures CreateCount(a + b) == CreateCount(a) + CreateCount(b)
    decreases |b|
  {
    if b != [] {
      var init := b[..|b| - 1];
      assert a + b == (a + init) + [b[|b| - 1]];
      assert (a + b)[..|a + b| - 1] == a + init;
      CreateCountAppend(a, init);
    } else {
      assert a + b == a;
    }
  }

  /** `search_read([[("default_code", "=", reference)]])`: the catalogue rows
      whose internal reference is exactly `reference`, in catalogue order. */
  function ErpSearchRead(catalog: seq<ErpProduct>, reference: string): (r: seq<ErpProduct>)
    ensures forall p :: p in r ==> p in catalog && p.defaultCode == Some(reference)
    ensures forall p :: p in catalog && p.defaultCode == Some(reference) ==> p in r
    ensures |r| <= |catalog|
    decreases |catalog|
  {
    if catalog == [] then []
    else
      var rest := ErpSearchRead(catalog[..|catalog| - 1], reference);
      var last := catalog[|catalog| - 1];
      assert catalog == catalog[..|catalog| - 1] + [last];
      if last.defaultCode == Some(reference) then rest + [last] else rest
  }

  /** The search answers the rows with the reference in catalogue order, so
      its first row is the earliest such row of the catalogue. */
  lemma {:induction false} ErpSearchReadFirst(catalog: seq<ErpProduct>, reference: string)
    ensures forall k :: 0 <= k < |catalog| && catalog[k].defaultCode == Some(reference)
                        && (forall j :: 0 <= j < k ==> catalog[j].defaultCode != Some(reference)) ==>
              ErpSearchRead(catalog, reference) != [] && ErpSearchRead(catalog, reference)[0] == catalog[k]
    decreases |catalog|
  {
    if catalog != [] {
      var init := catalog[..|catalog| - 1];
      var last := catalog[|catalog| - 1];
      ErpSearchReadFirst(init, reference);
      assert catalog == init + [last];
      forall k | 0 <= k < |catalog| && catalog[k].defaultCode == Some(reference)
                 && (forall j :: 0 <= j < k ==> catalog[j].defaultCode != Some(reference))
        ensures ErpSearchRead(catalog, reference) != [] && ErpSearchRead(catalog, reference)[0] == catalog[k]
      {
        if k < |init| {
          assert forall j :: 0 <= j <= k ==> init[j] == catalog[j];
        }
      }
    }
  }

  /** The search answers every row with the reference as often as the
      catalogue holds it, and no other row. */
  lemma {:induction false} ErpSearchReadCounts(catalog: seq<ErpProduct>, reference: string)
    ensures forall p :: multiset(ErpSearchRead(catalog, reference))[p]
                        == if p.defaultCode == Some(reference) then multiset(catalog)[p] else 0
    decreases |catalog|
  {
    if catalog != [] {
      var init := catalog[..|catalog| - 1];
      var last := catalog[|catalog| - 1];
      ErpSearchReadCounts(init, reference);
      assert catalog == init + [last];
      assert multiset(catalog) == multiset(init) + multiset{last};
    }
  }

  /** The stock record the storefront creates with a product: quantity 0 and
      the storefront's own defaults. */
  function InitialStock(stockId: string, productId: string): StockRecord {
    StockRecord(stockId, productId, "0", "1", "0", 0, "0", "2")
  }

  /** What a create answered with `status` does: on 200 or 201 a new product
      gets the next id and its stock record the next stock id; the reference
      goes on answering with the first product that carried it. */
  function AfterCreate(s: Shop, sku: string, status: int): (t: Shop)
    ensures !Accepted(status) ==> t == s
    ensures Accepted(status) ==> t.nextProduct == s.nextProduct + 1 && t.nextStock == s.nextStock + 1
  {
    if !Accepted(status) then s
    else
      var pid := NatToString(s.nextProduct);
      Shop(
        if sku in s.refs then s.refs else s.refs[sku := pid],
        s.stock[pid := InitialStock(NatToString(s.nextStock), pid)],
        s.nextProduct + 1,
        s.nextStock + 1)
  }

  /** An accepted create lists the reference (under its first product when
      it was already listed), keeps every other listing, and gives the new
      product the initial stock record. */
  lemma CreateEffect(s: Shop, sku: string, status: int)
    requires Accepted(status)
    ensures var t := AfterCreate(s, sku, status);
      && sku in t.refs && t.refs[sku] == (if sku in s.refs then s.refs[sku] else NatToString(s.nextProduct))
      && (forall r :: r in s.refs ==> r in t.refs && t.refs[r] == s.refs[r])
      && t.refs.Keys == s.refs.Keys + {sku}
      && t.stock.Keys == s.stock.Keys + {NatToString(s.nextProduct)}
      && t.stock[NatToString(s.nextProduct)] == InitialStock(NatToString(s.nextStock), NatToString(s.nextProduct))
      && (forall p :: p in s.stock && p != NatToString(s.nextProduct) ==> t.stock[p] == s.stock[p])
  {
  }

  /** What a PATCH of `quantity` on stock record `stockId` answered with
      `status` does: on 200 or 201 every record with that id takes the new
      quantity and nothing else changes. */
  function AfterPatch(s: Shop, stockId: string, q: int, status: int): (t: Shop)
    ensures !Accepted(status) ==> t == s
    ensures t.refs == s.refs && t.stock.Keys == s.stock.Keys
    ensures t.nextProduct == s.nextProduct && t.nextStock == s.nextStock
  {
    if !Accepted(status) then s
    else s.(stock := map p | p in s.stock :: if s.stock[p].id == stockId then s.stock[p].(quantity := q) else s.stock[p])
  }

  /** What a PUT of a whole stock record answered with `status` does: on 200
      or 201 every record with that id is replaced by the one sent. */
  function AfterPut(s: Shop, rec: StockRecord, status: int): (t: Shop)
    ensures !Accepted(status) ==> t == s
    ensures t.refs == s.refs && t.stock.Keys == s.stock.Keys
    ensures t.nextProduct == s.nextProduct && t.nextStock == s.nextStock
  {
    if !Accepted(status) then s
    else s.(stock := map p | p in s.stock :: if s.stock[p].id == rec.id then rec else s.stock[p])
  }

  /** An accepted PATCH sets the quantity of the records with that id and
      leaves every other record as it was. */
  lemma PatchEffect(s: Shop, stockId: string, q: int, status: int, p: string)
    requires Accepted(status) && p in s.stock
    ensures AfterPatch(s, stockId, q, status).stock[p] ==
              if s.stock[p].id == stockId then s.stock[p].(quantity := q) else s.stock[p]
  {
  }

  /** An accepted PUT replaces the records with that id by the one sent and
      leaves every other record as it was. */
  lemma PutEffect(s: Shop, rec: StockRecord, status: int, p: string)
    requires Accepted(status) && p in s.stock
    ensures AfterPut(s, rec, status).stock[p] == if s.stock[p].id == rec.id then rec else s.stock[p]
  {
  }

  /** The XML listing a lookup by reference answers with `display=[id]`. */
  function ReferenceListing(s: Shop, sku: string): Doc {
    [Open("prestashop", ""), Open("products", "")]
    + (if sku in s.refs then [Open("product", "")] + Field("id", s.refs[sku]) + [Close("product")] else [])
    + [Close("products"), Close("prestashop")]
  }

  /** The XML listing of the stock records of one product, `display=full`. */
  function StockListing(rec: Option<StockRecord>): Doc {
    [Open("prestashop", ""), Open("stock_availables", "")]
    + (if rec.Some? then [Open("stock_available", "")] + StockFields(rec.value) + [Close("stock_available")] else [])
    + [Close("stock_availables"), Close("prestashop")]
  }

  /** The names of the fields of a stock record, in the storefront's order. */
  const StockNames: seq<string> := ["id", "id_product", "id_product_attribute", "id_shop",
    "id_shop_group", "quantity", "depends_on_stock", "out_of_stock"]

  /** The fields of a stock record with their values, in the storefront's order. */
  function StockPairs(rec: StockRecord): (fs: seq<(string, string)>)
    ensures |fs| == |StockNames| && forall k :: 0 <= k < |fs| ==> fs[k].0 == StockNames[k]
    ensures CleanRecord(rec) ==> forall k :: 0 <= k < |fs| ==> Clean(fs[k].1)
  {
    [("id", rec.id), ("id_product", rec.idProduct), ("id_product_attribute", rec.idProductAttribute),
     ("id_shop", rec.idShop), ("id_shop_group", rec.idShopGroup), ("quantity", IntToString(rec.quantity)),
     ("depends_on_stock", rec.dependsOnStock), ("out_of_stock", rec.outOfStock)]
  }

  /** The fields of a stock record as the storefront writes them. */
  function StockFields(rec: StockRecord): Doc {
    Fields(StockPairs(rec))
  }

  /** How the JSON lookup of one reference is answered. */
  datatype LookupReply =
    | Served   // 200 with the storefront's answer
    | Refused  // an error status with the storefront's JSON error object
    | Garbled  // a body that is not JSON

  /** The body of the JSON lookup of one reference, `None` when it is not
      JSON.  The storefront sends `[]` when nothing matches. */
  function ReferenceJson(s: Shop, sku: string, reply: LookupReply): Option<Json> {
    match reply
    case Served =>
      if sku in s.refs
      then Some(JObj(map["products" := JList([JObj(map["id" := JStr(s.refs[sku])])])]))
      else Some(JList([]))
    case Refused => Some(JObj(map["errors" := JList([JObj(map["code" := JInt(401)])])]))
    case Garbled => None
  }

  predicate CleanRecord(rec: StockRecord) {
    && Clean(rec.id) && Clean(rec.idProduct) && Clean(rec.idProductAttribute)
    && Clean(rec.idShop) && Clean(rec.idShopGroup)
    && Clean(rec.dependsOnStock) && Clean(rec.outOfStock)
  }

  /** The storefront never pads an id or a field with whitespace, and every
      product id is non-empty. */
  predicate Valid(s: Shop) {
    && (forall r :: r in s.refs ==> s.refs[r] != "" && Clean(s.refs[r]))
    && (forall p :: p in s.stock ==> CleanRecord(s.stock[p]))
  }

  lemma InitialStockClean(stockId: nat, productId: nat)
    ensures CleanRecord(InitialStock(NatToString(stockId), NatToString(productId)))
  {
    NatIsClean(stockId);
    NatIsClean(productId);
  }

  lemma NatIsClean(n: nat)
    ensures Clean(NatToString(n)) && NatToString(n) != ""
  {
    var r := NatToString(n);
    assert '0' <= r[0] <= '9' && '0' <= r[|r| - 1] <= '9';
  }

  /** Creating, patching and putting a clean record keep the storefront valid. */
  lemma ValidAfterCreate(s: Shop, sku: string, status: int)
    requires Valid(s)
    ensures Valid(AfterCreate(s, sku, status))
  {
    if Accepted(status) {
      CreateEffect(s, sku, status);
      NatIsClean(s.nextProduct);
      InitialStockClean(s.nextStock, s.nextProduct);
    }
  }

  lemma ValidAfterPatch(s: Shop, stockId: string, q: int, status: int)
    requires Valid(s)
    ensures Valid(AfterPatch(s, stockId, q, status))
  {
    var t := AfterPatch(s, stockId, q, status);
    forall p | p in t.stock
      ensures CleanRecord(t.stock[p])
    {
      if Accepted(status) {
        PatchEffect(s, stockId, q, status, p);
      }
    }
  }

  lemma ValidAfterPut(s: Shop, rec: StockRecord, status: int)
    requires Valid(s) && CleanRecord(rec)
    ensures Valid(AfterPut(s, rec, status))
  {
    var t := AfterPut(s, rec, status);
    forall p | p in t.stock
      ensures CleanRecord(t.stock[p])
    {
      if Accepted(status) {
        PutEffect(s, rec, status, p);
      }
    }
  }

  /** The ERP catalogue and the storefront, with the log of every call the
      bridge has made to either. */
  class Upstream {
    const erp: seq<ErpProduct>
    var refs: map<string, string>
    var stock: map<string, StockRecord>
    var nextProduct: nat
    var nextStock: nat
    var log: seq<Call>

    function State(): Shop
      reads this
    {
      Shop(refs, stock, nextProduct, nextStock)
    }

    constructor (catalog: seq<ErpProduct>, s: Shop)
      ensures erp == catalog && State() == s && log == []
    {
      erp := catalog;
      refs, stock, nextProduct, nextStock := s.refs, s.stock, s.nextProduct, s.nextStock;
      log := [];
    }

    method SetState(s: Shop)
      modifies this
      ensures State() == s
    {
      refs, stock, nextProduct, nextStock := s.refs, s.stock, s.nextProduct, s.nextStock;
    }

    /** `search_read` on `default_code = reference`. */
    method SearchErp(reference: string) returns (rows: seq<ErpProduct>)
      modifies this`log
      ensures rows == ErpSearchRead(erp, reference)
      ensures log == old(log) + [ErpSearch(reference)]
    {
      rows := ErpSearchRead(erp, reference);
      log := log + [ErpSearch(reference)];
    }

    /** `search_read` of the whole catalogue. */
    method ReadErpCatalog() returns (rows: seq<ErpProduct>)
      modifies this`log
      ensures rows == erp
      ensures log == old(log) + [ErpSearchAll]
    {
      rows := erp;
      log := log + [ErpSearchAll];
    }

    /** The XML lookup of a reference; the body only matters on a 200. */
    method LookupXml(sku: string, status: int) returns (body: Option<Doc>)
      modifies this`log
      ensures body == if status == 200 then Some(ReferenceListing(State(), sku)) else None
      ensures log == old(log) + [LookupReference(sku)]
    {
      body := if status == 200 then Some(ReferenceListing(State(), sku)) else None;
      log := log + [LookupReference(sku)];
    }

    /** The JSON lookup of a reference. */
    method LookupJson(sku: string, reply: LookupReply) returns (body: Option<Json>)
      modifies this`log
      ensures body == ReferenceJson(State(), sku, reply)
      ensures log == old(log) + [LookupReferenceJson(sku)]
    {
      body := ReferenceJson(State(), sku, reply);
      log := log + [LookupReferenceJson(sku)];
    }

    /** POST of a new product. */
    method Create(name: string, sku: string, price: real, status: int)
      modifies this
      ensures State() == AfterCreate(old(State()), sku, status)
      ensures log == old(log) + [CreateProduct(name, sku, price)]
    {
      var t := AfterCreate(State(), sku, status);
      refs, stock, nextProduct, nextStock := t.refs, t.stock, t.nextProduct, t.nextStock;
      log := log + [CreateProduct(name, sku, price)];
    }

    /** GET of the stock records of a product; the body only matters on a 200. */
    method FetchStockOf(productId: string, status: int) returns (body: Option<Doc>)
      modifies this`log
      ensures body == if status == 200 then Some(StockListing(if productId in stock then Some(stock[productId]) else None)) else None
      ensures log == old(log) + [FetchStock(productId)]
    {
      body := if status == 200 then Some(StockListing(if productId in stock then Some(stock[productId]) else None)) else None;
      log := log + [FetchStock(productId)];
    }

    /** PATCH of a stock record with a body that carries quantity `q`. */
    method Patch(stockId: string, body: Doc, q: int, status: int)
      modifies this
      ensures State() == AfterPatch(old(State()), stockId, q, status)
      ensures log == old(log) + [PatchStock(stockId, body)]
    {
      var t := AfterPatch(State(), stockId, q, status);
      stock := t.stock;
      log := log + [PatchStock(stockId, body)];
    }

    /** PUT of a whole stock record with a body that carries `rec`. */
    method Put(body: Doc, rec: StockRecord, status: int)
      modifies this
      ensures State() == AfterPut(old(State()), rec, status)
      ensures log == old(log) + [PutStock(rec.id, body)]
    {
      var t := AfterPut(State(), rec, status);
      stock := t.stock;
      log := log + [PutStock(rec.id, body)];
    }
  }
}
