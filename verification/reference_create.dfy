/** `GET /products/from-odoo/{reference}`: brings one ERP product into the
    storefront.  The product is looked up by reference, created when absent,
    and its stock record is set to the ERP's available quantity with a PATCH,
    falling back to a PUT of the whole record. */
module ReferenceCreate {
  import opened Common
  import opened Text
  import opened XmlTokens
  import opened Remote

  /** The dictionary `parse_stock_info` returns.  `id` and `id_product` have
      no default and are absent when the body has no such element. */
  datatype StockInfo = StockInfo(
    id: Option<string>,
    idProduct: Option<string>,
    idProductAttribute: string,
    idShop: string,
    idShopGroup: string,
    dependsOnStock: string,
    outOfStock: string)

  /** `_tag(xml, name) or default`: an absent or empty field reads as the default. */
  function TagOr(d: Doc, name: string, default: string): (r: string)
    requires default != "" && Clean(default)
    ensures r != "" && Clean(r)
    ensures Tag(d, name).Some? && Tag(d, name).value != "" ==> r == Tag(d, name).value
    ensures Tag(d, name).None? || Tag(d, name).value == "" ==> r == default
  {
    match Tag(d, name)
    case Some(v) => if v != "" then v else default
    case None => default
  }

  /** `parse_stock_info`: the fields of the first stock record of the body. */
  function ParseStockInfo(d: Doc): (info: StockInfo)
    ensures info.id == Tag(d, "id") && info.idProduct == Tag(d, "id_product")
    ensures info.idProductAttribute == TagOr(d, "id_product_attribute", "0")
    ensures info.idShop == TagOr(d, "id_shop", "1")
    ensures info.idShopGroup == TagOr(d, "id_shop_group", "0")
    ensures info.dependsOnStock == TagOr(d, "depends_on_stock", "0")
    ensures info.outOfStock == TagOr(d, "out_of_stock", "2")
  {
    StockInfo(
      Tag(d, "id"),
      Tag(d, "id_product"),
      TagOr(d, "id_product_attribute", "0"),
      TagOr(d, "id_shop", "1"),
      TagOr(d, "id_shop_group", "0"),
      TagOr(d, "depends_on_stock", "0"),
      TagOr(d, "out_of_stock", "2"))
  }

  /** Every field `parse_stock_info` returns is stripped, and the defaulted
      ones are never empty. */
  predicate WellFormedInfo(info: StockInfo) {
    && (info.id.Some? ==> Clean(info.id.value))
    && (info.idProduct.Some? ==> Clean(info.idProduct.value))
    && info.idProductAttribute != "" && Clean(info.idProductAttribute)
    && info.idShop != "" && Clean(info.idShop)
    && info.idShopGroup != "" && Clean(info.idShopGroup)
    && info.dependsOnStock != "" && Clean(info.dependsOnStock)
    && info.outOfStock != "" && Clean(info.outOfStock)
  }

  lemma ParsedInfoWellFormed(d: Doc)
    ensures WellFormedInfo(ParseStockInfo(d))
  {
  }

  /** `f"{v}"` of an optional field: `None` prints as "None". */
  function Shown(v: Option<string>): (r: string)
    ensures v.Some? ==> r == v.value
    ensures v.None? ==> r == "None"
  {
    if v.Some? then v.value else "None"
  }

  /** The body `patch_stock_quantity` sends. */
  function PatchStockDoc(stockId: string, q: int): Doc {
    [Open("prestashop", ""), Open("stock_available", "")]
    + Fields([("id", stockId), ("quantity", IntToString(q))])
    + [Close("stock_available"), Close("prestashop")]
  }

  /** The record the body of `put_stock_full` describes. */
  function PutRecord(info: StockInfo, q: int): StockRecord {
    StockRecord(Shown(info.id), Shown(info.idProduct), info.idProductAttribute,
                info.idShop, info.idShopGroup, q, info.dependsOnStock, info.outOfStock)
  }

  /** The body `put_stock_full` sends: every parsed field as it was read, and
      the new quantity. */
  function PutStockDoc(info: StockInfo, q: int): Doc {
    [Open("prestashop", ""), Open("stock_available", "")]
    + StockFields(PutRecord(info, q))
    + [Close("stock_available"), Close("prestashop")]
  }

  /** The stock record of a storefront product, as the stock query finds it. */
  function StockOf(s: Shop, productId: string): Option<StockRecord> {
    if productId in s.stock then Some(s.stock[productId]) else None
  }

  /** What `parse_stock_info` reads from the listing of a record: the record's
      own fields, with the defaults standing in for the empty ones. */
  function InfoOf(rec: StockRecord): StockInfo {
    StockInfo(
      Some(rec.id), Some(rec.idProduct),
      if rec.idProductAttribute != "" then rec.idProductAttribute else "0",
      if rec.idShop != "" then rec.idShop else "1",
      if rec.idShopGroup != "" then rec.idShopGroup else "0",
      if rec.dependsOnStock != "" then rec.dependsOnStock else "0",
      if rec.outOfStock != "" then rec.outOfStock else "2")
  }

  /** The opening tags before the fields of a stock body: the envelope's,
      whose names start with `p` or `s`. */
  predicate EnvelopeHead(head: Doc) {
    forall k :: 0 <= k < |head| ==> head[k].Open? ==>
      head[k].name != "" && (head[k].name[0] == 'p' || head[k].name[0] == 's')
  }

  /** No stock field name is a prefix of a field name listed before it, and
      none starts with the initial of an envelope tag. */
  lemma StockNamesUnprefixed()
    ensures forall i, j :: 0 <= j < i < |StockNames| ==> !(StockNames[i] <= StockNames[j])
    ensures forall k :: 0 <= k < |StockNames| ==>
      StockNames[k] != "" && StockNames[k][0] != 'p' && StockNames[k][0] != 's'
  {
    forall i, j | 0 <= j < i < |StockNames|
      ensures !(StockNames[i] <= StockNames[j])
    {
      var a, b := StockNames[i], StockNames[j];
      if |a| <= |b| {
        if a[0] != b[0] {
          DiffersAt(a, b, 0);
        } else {
          DiffersAt(a, b, 3);
        }
      }
    }
  }

  /** Each field of a stock body reads back as written: every opening tag
      before a field has a name that the field's name is not a prefix of. */
  lemma ReadStockField(head: Doc, rec: StockRecord, tail: Doc, k: nat)
    requires CleanRecord(rec) && EnvelopeHead(head) && k < |StockNames|
    ensures Tag(head + StockFields(rec) + tail, StockNames[k]) == Some(StockPairs(rec)[k].1)
  {
    var fs := StockPairs(rec);
    var n := StockNames[k];
    assert NoOpening(head, n) by {
      StockNamesUnprefixed();
      NoOpeningByInitial(head, n);
    }
    assert Tag(Fields(fs) + tail, n) == Some(fs[k].1) by {
      StockNamesUnprefixed();
      ReadFields(fs, k, tail);
    }
    assert head + StockFields(rec) + tail == head + (Fields(fs) + tail);
    TagSkips(head, Fields(fs) + tail, n);
  }

  /** All fields of a stock body read back as written. */
  lemma ReadStockFields(head: Doc, rec: StockRecord, tail: Doc)
    requires CleanRecord(rec) && EnvelopeHead(head)
    ensures Tag(head + StockFields(rec) + tail, "id") == Some(rec.id)
    ensures Tag(head + StockFields(rec) + tail, "id_product") == Some(rec.idProduct)
    ensures Tag(head + StockFields(rec) + tail, "id_product_attribute") == Some(rec.idProductAttribute)
    ensures Tag(head + StockFields(rec) + tail, "id_shop") == Some(rec.idShop)
    ensures Tag(head + StockFields(rec) + tail, "id_shop_group") == Some(rec.idShopGroup)
    ensures Tag(head + StockFields(rec) + tail, "quantity") == Some(IntToString(rec.quantity))
    ensures Tag(head + StockFields(rec) + tail, "depends_on_stock") == Some(rec.dependsOnStock)
    ensures Tag(head + StockFields(rec) + tail, "out_of_stock") == Some(rec.outOfStock)
  {
    ReadStockField(head, rec, tail, 0);
    ReadStockField(head, rec, tail, 1);
    ReadStockField(head, rec, tail, 2);
    ReadStockField(head, rec, tail, 3);
    ReadStockField(head, rec, tail, 4);
    ReadStockField(head, rec, tail, 5);
    ReadStockField(head, rec, tail, 6);
    ReadStockField(head, rec, tail, 7);
  }

  /** What `parse_stock_info` reads from a stock body whose envelope holds
      one record: the record's fields, defaulted where empty. */
  lemma ParseStockBody(head: Doc, rec: StockRecord, tail: Doc)
    requires CleanRecord(rec) && EnvelopeHead(head)
    ensures ParseStockInfo(head + StockFields(rec) + tail) == InfoOf(rec)
  {
    ReadStockFields(head, rec, tail);
  }

  /** Reading the storefront's stock listing of a product that has a record:
      the record's fields, defaulted where empty. */
  lemma ParseRecordListing(rec: StockRecord)
    requires CleanRecord(rec)
    ensures ParseStockInfo(StockListing(Some(rec))) == InfoOf(rec)
  {
    var head := [Open("prestashop", ""), Open("stock_availables", ""), Open("stock_available", "")];
    var tail := [Close("stock_available"), Close("stock_availables"), Close("prestashop")];
    assert StockListing(Some(rec)) == head + StockFields(rec) + tail;
    ParseStockBody(head, rec, tail);
  }

  /** Reading the listing of a product without a stock record: no id, and
      the defaults. */
  lemma ParseEmptyListing()
    ensures ParseStockInfo(StockListing(None)) == NoRecordInfo
  {
    EmptyListingLacks("id");
    EmptyListingLacks("id_product");
    EmptyListingLacks("id_product_attribute");
    EmptyListingLacks("id_shop");
    EmptyListingLacks("id_shop_group");
    EmptyListingLacks("depends_on_stock");
    EmptyListingLacks("out_of_stock");
  }

  /** The full PUT carries every field `parse_stock_info` read, unchanged, and
      the new quantity: parsing the body back gives the same record. */
  lemma PutStockRoundTrip(info: StockInfo, q: int)
    requires WellFormedInfo(info)
    requires info.id.Some? && info.idProduct.Some?
    ensures ParseStockInfo(PutStockDoc(info, q)) == info
    ensures Tag(PutStockDoc(info, q), "quantity") == Some(IntToString(q))
  {
    var head := [Open("prestashop", ""), Open("stock_available", "")];
    var tail := [Close("stock_available"), Close("prestashop")];
    assert PutStockDoc(info, q) == head + StockFields(PutRecord(info, q)) + tail;
    ReadStockFields(head, PutRecord(info, q), tail);
  }

  /** The PATCH carries the stock id and the new quantity. */
  lemma PatchStockRoundTrip(stockId: string, q: int)
    requires Clean(stockId)
    ensures Tag(PatchStockDoc(stockId, q), "id") == Some(stockId)
    ensures Tag(PatchStockDoc(stockId, q), "quantity") == Some(IntToString(q))
  {
    PatchFieldsRead(stockId, IntToString(q));
  }

  /** The two fields of the PATCH body read back as written. */
  lemma PatchFieldsRead(stockId: string, quantity: string)
    requires Clean(stockId) && Clean(quantity)
    ensures var doc := [Open("prestashop", ""), Open("stock_available", "")]
                       + Fields([("id", stockId), ("quantity", quantity)])
                       + [Close("stock_available"), Close("prestashop")];
      Tag(doc, "id") == Some(stockId) && Tag(doc, "quantity") == Some(quantity)
  {
    var tail := [Close("stock_available"), Close("prestashop")];
    var head := [Open("prestashop", ""), Open("stock_available", "")];
    var fs := [("id", stockId), ("quantity", quantity)];
    assert head + Fields(fs) + tail == head + (Fields(fs) + tail);
    PatchIdRead(stockId, quantity, tail);
    PatchQuantityRead(stockId, quantity, tail);
  }

  /** The stock id of the PATCH body read back past the two opening tags. */
  lemma PatchIdRead(stockId: string, quantity: string, tail: Doc)
    requires Clean(stockId)
    ensures Tag([Open("prestashop", ""), Open("stock_available", "")]
                + (Fields([("id", stockId), ("quantity", quantity)]) + tail), "id") == Some(stockId)
  {
    var head := [Open("prestashop", ""), Open("stock_available", "")];
    var fs := [("id", stockId), ("quantity", quantity)];
    NoOpeningByInitial(head, "id");
    TagSkips(head, Fields(fs) + tail, "id");
    ReadFields(fs, 0, tail);
  }

  /** The quantity of the PATCH body read back past the opening tags and the id. */
  lemma PatchQuantityRead(stockId: string, quantity: string, tail: Doc)
    requires Clean(quantity)
    ensures Tag([Open("prestashop", ""), Open("stock_available", "")]
                + (Fields([("id", stockId), ("quantity", quantity)]) + tail), "quantity") == Some(quantity)
  {
    var head := [Open("prestashop", ""), Open("stock_available", "")];
    var fs := [("id", stockId), ("quantity", quantity)];
    NoOpeningByInitial(head, "quantity");
    TagSkips(head, Fields(fs) + tail, "quantity");
    DiffersAt("quantity", "id", 0);
    ReadFields(fs, 1, tail);
  }

  /** `get_product_id_by_reference` against the storefront: the id the
      reference is listed under on a 200, nothing otherwise.  That this is
      what `_first_id` reads from the listing is `LookupReadsListing`. */
  function LookupId(s: Shop, sku: string, status: int): (r: Option<string>)
    ensures status != 200 ==> r == None
    ensures r.Some? ==> sku in s.refs && r.value == s.refs[sku]
  {
    if status == 200 && sku in s.refs then Some(s.refs[sku]) else None
  }

  /** `_first_id` of the listing a lookup by reference answers is the id the
      reference is listed under, and nothing when it is not listed. */
  lemma LookupReadsListing(s: Shop, sku: string, status: int)
    requires Valid(s)
    ensures LookupId(s, sku, status) == if status == 200 then FirstId(ReferenceListing(s, sku)) else None
  {
    var d := ReferenceListing(s, sku);
    if sku in s.refs {
      var pre := [Open("prestashop", ""), Open("products", ""), Open("product", "")];
      var post := [Close("product"), Close("products"), Close("prestashop")];
      assert d == pre + Field("id", s.refs[sku]) + post;
      NoOpeningByInitial(pre, "id");
      TagOfField(pre, "id", s.refs[sku], post);
    } else {
      NoOpeningByInitial(d, "id");
      TagOfAbsent(d, "id");
    }
  }

  /** Python truthiness of an optional string. */
  predicate Present(v: Option<string>) {
    v.Some? && v.value != ""
  }

  /** The statuses the storefront answers the calls of one import with. */
  datatype Replies = Replies(
    lookup: int,      // first lookup by reference
    create: int,      // POST of the new product
    relookup: int,    // lookup after the create
    stockFetch: int,  // GET of the stock records
    patch: int,       // PATCH of the quantity
    put: int)         // PUT of the whole record

  datatype Action = Created | Updated {
    /** The word `action_taken` holds. */
    function Word(): string {
      if Created? then "creado" else "actualizado"
    }
  }

  /** The outcomes of an import, one per `return` of the endpoint. */
  datatype ImportOutcome =
    | NotConfigured
    | NotInErp
    | SkippedZero
    | CreateFailed
    | IdNotRecovered
    | NoStockRecord
    | InvalidStockId
    | StockWriteFailed
    | Synced(action: Action, productId: string, sku: string, name: string, price: real, stock: real)
  {
    function Status(): string {
      match this
      case NotConfigured | NotInErp | CreateFailed | IdNotRecovered | StockWriteFailed => "error"
      case SkippedZero | NoStockRecord | InvalidStockId => "skipped"
      case Synced(_, _, _, _, _, _) => "success"
    }

    function Message(): string {
      match this
      case NotConfigured => NotConfiguredMessage
      case NotInErp => "Referencia no encontrada en Odoo"
      case SkippedZero => "Precio y stock en cero"
      case CreateFailed => "Error al crear el producto en PrestaShop"
      case IdNotRecovered => "Producto creado pero no se pudo recuperar el ID"
      case NoStockRecord => "No se encontró el registro de inventario"
      case InvalidStockId => "ID de inventario no válido"
      case StockWriteFailed => "No se pudo actualizar la cantidad de stock"
      case Synced(a, _, _, _, _, _) => "Producto " + a.Word() + " correctamente"
    }
  }

  /** The `data` of a successful import: `id_prestashop`, `referencia`,
      `nombre`, `precio` and `stock_sincronizado`. */
  datatype SyncedData = SyncedData(idPrestashop: string, reference: string, name: string, price: real, stock: real)

  /** The object the endpoint answers with.  A missing configuration is
      answered in the `{status, data, errors}` envelope with code "500"; every
      other outcome in a `{status, message}` object that carries `data` on
      success only. */
  datatype ImportAnswer =
    | Enveloped(response: Response<SyncedData>)
    | Plain(status: string, message: string, data: Option<SyncedData>)

  function AnswerOf(o: ImportOutcome): (r: ImportAnswer)
    ensures r.Enveloped? <==> o.NotConfigured?
    ensures r.Enveloped? ==> r.response == Error("500", NotConfiguredMessage, None)
    ensures r.Plain? ==> r.status == o.Status() && r.message == o.Message()
    ensures r.Plain? ==> (r.data.Some? <==> r.status == "success")
    ensures r.Plain? && r.data.Some? ==>
              r.data.value == SyncedData(o.productId, o.sku, o.name, o.price, o.stock)
  {
    match o
    case NotConfigured => Enveloped(Error("500", NotConfiguredMessage, None))
    case Synced(_, id, sku, name, price, stock) =>
      Plain(o.Status(), o.Message(), Some(SyncedData(id, sku, name, price, stock)))
    case _ => Plain(o.Status(), o.Message(), None)
  }

  /** An import: its outcome, the storefront afterwards and the calls made. */
  datatype ImportRun = ImportRun(outcome: ImportOutcome, shop: Shop, calls: seq<Call>)

  predicate StockCall(c: Call) {
    c.FetchStock? || c.PatchStock? || c.PutStock?
  }

  predicate StockWrite(c: Call) {
    c.PatchStock? || c.PutStock?
  }

  /** The order of the calls of an import: a failed create or a lost id ends
      it before any stock call, a missing stock record before any stock
      write; the PUT is sent only after the PATCH failed; an error is reported
      only when both failed and a success only when one of them succeeded. */
  predicate Disciplined(run: ImportRun, net: Replies) {
    && (run.outcome.CreateFailed? || run.outcome.IdNotRecovered? ==> forall c :: c in run.calls ==> !StockCall(c))
    && (run.outcome.NoStockRecord? || run.outcome.InvalidStockId? ==> forall c :: c in run.calls ==> !StockWrite(c))
    && (forall c :: c in run.calls && c.PutStock? ==> !Accepted(net.patch))
    && (run.outcome.StockWriteFailed? ==> !Accepted(net.patch) && !Accepted(net.put))
    && (run.outcome.Synced? ==> Accepted(net.patch) || Accepted(net.put))
  }

  /** What `parse_stock_info` reads from a product's stock listing with no
      record in it: no id, and the defaults. */
  const NoRecordInfo := StockInfo(None, None, "0", "1", "0", "0", "2")

  /** `get_stock_available_full_by_product` followed by `parse_stock_info`
      against the storefront: nothing unless the GET answered 200, otherwise
      the fields of the product's stock record, defaulted where empty.  That
      this is what the parser reads from the listing is `FetchedInfoIsParsed`. */
  function FetchedInfo(s: Shop, productId: string, status: int): (r: Option<StockInfo>)
    ensures r.None? <==> status != 200
    ensures r.Some? ==> (r.value.id.Some? <==> productId in s.stock)
  {
    if status != 200 then None
    else if productId in s.stock then Some(InfoOf(s.stock[productId]))
    else Some(NoRecordInfo)
  }

  /** A stock listing is never an empty text. */
  lemma StockListingNotEmpty(rec: Option<StockRecord>)
    ensures RenderAll(StockListing(rec)) != ""
  {
    var d := StockListing(rec);
    assert d[|d| - 1] == Close("prestashop");
    assert Render(d[|d| - 1]) == "</prestashop>";
  }

  /** A listing with no record holds no field of a stock record. */
  lemma EmptyListingLacks(n: string)
    requires n != "" && n[0] != 'p' && n[0] != 's'
    ensures Tag(StockListing(None), n) == None
  {
    NoOpeningByInitial(StockListing(None), n);
    TagOfAbsent(StockListing(None), n);
  }

  /** The endpoint's reading of the listing is the record's fields. */
  lemma FetchedInfoIsParsed(s: Shop, productId: string)
    requires Valid(s)
    ensures FetchedInfo(s, productId, 200) == Some(ParseStockInfo(StockListing(StockOf(s, productId))))
  {
    var rec := StockOf(s, productId);
    if rec.Some? {
      ParseRecordListing(rec.value);
    } else {
      ParseEmptyListing();
    }
  }

  /** The stock writes: PATCH the quantity, and PUT the whole record only
      when the PATCH was refused; `done` is reported when either was
      accepted (see `WriteStockCalls`). */
  function WriteStock(s: Shop, info: StockInfo, q: int, done: ImportOutcome, net: Replies): ImportRun
    requires Present(info.id)
  {
    var s1 := AfterPatch(s, info.id.value, q, net.patch);
    var c1 := [PatchStock(info.id.value, PatchStockDoc(info.id.value, q))];
    if Accepted(net.patch) then ImportRun(done, s1, c1)
    else
      var s2 := AfterPut(s1, PutRecord(info, q), net.put);
      var c2 := [PatchStock(info.id.value, PatchStockDoc(info.id.value, q)), PutStock(info.id.value, PutStockDoc(info, q))];
      ImportRun(if Accepted(net.put) then done else StockWriteFailed, s2, c2)
  }

  /** The stock part of an import, from `get_stock_available_full_by_product`
      to the end, once the product id is known (see `SyncStockCalls`). */
  function SyncStock(s: Shop, action: Action, productId: string, sku: string, name: string,
                     price: real, stock: real, net: Replies): ImportRun
  {
    var c0 := [FetchStock(productId)];
    match FetchedInfo(s, productId, net.stockFetch)
    case None => ImportRun(NoStockRecord, s, c0)
    case Some(info) =>
      if !Present(info.id) then ImportRun(InvalidStockId, s, c0)
      else
        var w := WriteStock(s, info, Trunc(stock), Synced(action, productId, sku, name, price, stock), net);
        ImportRun(w.outcome, w.shop, c0 + w.calls)
  }

  /** The ERP row's name as the import reads it, `(name or "").strip()`;
      the numbers are taken as they are. */
  function NameOf(p: ErpProduct): string { Strip(p.name.GetOr("")) }

  /** The create branch: POST the product, look it up again, then the stock
      (see `CreateAndSyncCalls`). */
  function CreateAndSync(s: Shop, sku: string, name: string, price: real, stock: real, net: Replies): ImportRun {
    var s1 := AfterCreate(s, sku, net.create);
    var c2 := [CreateProduct(name, sku, price)];
    if !Accepted(net.create) then ImportRun(CreateFailed, s1, c2)
    else
      var again := LookupId(s1, sku, net.relookup);
      var c3 := [CreateProduct(name, sku, price), LookupReference(sku)];
      if !Present(again) then ImportRun(IdNotRecovered, s1, c3)
      else
        var sync := SyncStock(s1, Created, again.value, sku, name, price, stock, net);
        ImportRun(sync.outcome, sync.shop, c3 + sync.calls)
  }

  /** The part of an import after the ERP read: lookup by reference, create
      when absent, then the stock (see `PlaceCalls`). */
  function Place(s: Shop, sku: string, name: string, price: real, stock: real, net: Replies): ImportRun {
    var found := LookupId(s, sku, net.lookup);
    var c1 := [LookupReference(sku)];
    if Present(found) then
      var sync := SyncStock(s, Updated, found.value, sku, name, price, stock, net);
      ImportRun(sync.outcome, sync.shop, c1 + sync.calls)
    else
      var made := CreateAndSync(s, sku, name, price, stock, net);
      ImportRun(made.outcome, made.shop, c1 + made.calls)
  }

  /** `import_product_from_odoo(reference)` against the ERP catalogue `erp`
      and the storefront `s`, the storefront answering with `net` (see
      `ImportCalls`). */
  function Import(s: Shop, erp: seq<ErpProduct>, cfg: Config, reference: string, net: Replies): ImportRun {
    if !Configured(cfg) then ImportRun(NotConfigured, s, [])
    else
      var rows := ErpSearchRead(erp, reference);
      var c0 := [ErpSearch(reference)];
      if rows == [] then ImportRun(NotInErp, s, c0)
      else
        var p := rows[0];
        if p.listPrice == 0.0 && p.qtyAvailable == 0.0 then ImportRun(SkippedZero, s, c0)
        else
          var placed := Place(s, SkuOf(p), NameOf(p), p.listPrice, p.qtyAvailable, net);
          ImportRun(placed.outcome, placed.shop, c0 + placed.calls)
  }

  /** The writes start with the PATCH; the PUT is sent only after the PATCH
      was refused, and carries the parsed record; the outcome is `done`
      exactly when one of them was accepted. */
  lemma WriteStockCalls(s: Shop, info: StockInfo, q: int, done: ImportOutcome, net: Replies)
    requires Present(info.id)
    ensures var run := WriteStock(s, info, q, done, net);
      && |run.calls| >= 1 && run.calls[0] == PatchStock(info.id.value, PatchStockDoc(info.id.value, q))
      && (forall c :: c in run.calls ==> StockWrite(c))
      && (forall c :: c in run.calls && c.PutStock? ==> !Accepted(net.patch) && c == PutStock(info.id.value, PutStockDoc(info, q)))
      && run.outcome == if Accepted(net.patch) || Accepted(net.put) then done else StockWriteFailed
  {
  }

  /** The stock part starts with the GET; a missing record or stock id ends
      it there and changes nothing; otherwise it succeeds exactly when the
      PATCH or the PUT was accepted. */
  lemma SyncStockCalls(s: Shop, action: Action, productId: string, sku: string, name: string,
                       price: real, stock: real, net: Replies)
    ensures var run := SyncStock(s, action, productId, sku, name, price, stock, net);
      && |run.calls| >= 1 && run.calls[0] == FetchStock(productId)
      && (forall c :: c in run.calls ==> StockCall(c))
      && (run.outcome.NoStockRecord? || run.outcome.InvalidStockId? ==> run.calls == [FetchStock(productId)] && run.shop == s)
      && (forall c :: c in run.calls && c.PutStock? ==> !Accepted(net.patch))
      && (run.outcome.StockWriteFailed? <==> !run.outcome.NoStockRecord? && !run.outcome.InvalidStockId? && !Accepted(net.patch) && !Accepted(net.put))
      && (run.outcome.Synced? ==> run.outcome == Synced(action, productId, sku, name, price, stock))
      && (run.outcome.NoStockRecord? || run.outcome.InvalidStockId? || run.outcome.StockWriteFailed? || run.outcome.Synced?)
      && (run.outcome.NoStockRecord? <==> net.stockFetch != 200)
      && (net.stockFetch == 200 && productId !in s.stock ==> run.outcome == InvalidStockId)
      && (net.stockFetch == 200 ==>
            (run.outcome.InvalidStockId? <==> !Present(FetchedInfo(s, productId, net.stockFetch).value.id)))
  {
    match FetchedInfo(s, productId, net.stockFetch)
    case None =>
    case Some(info) =>
      if Present(info.id) {
        var done := Synced(action, productId, sku, name, price, stock);
        WriteStockCalls(s, info, Trunc(stock), done, net);
        var w := WriteStock(s, info, Trunc(stock), done, net);
        forall c | c in [FetchStock(productId)] + w.calls
          ensures c == FetchStock(productId) || c in w.calls
        {
        }
      }
  }

  /** The create branch starts with the POST and fails exactly when the POST
      was refused; what it syncs, it reports as created. */
  lemma CreateAndSyncCalls(s: Shop, sku: string, name: string, price: real, stock: real, net: Replies)
    ensures var run := CreateAndSync(s, sku, name, price, stock, net);
      && |run.calls| >= 1 && run.calls[0] == CreateProduct(name, sku, price)
      && (run.outcome.CreateFailed? <==> !Accepted(net.create))
      && (run.outcome.IdNotRecovered? <==>
            Accepted(net.create) && !Present(LookupId(AfterCreate(s, sku, net.create), sku, net.relookup)))
      && (run.outcome.IdNotRecovered? ==> run.calls == [CreateProduct(name, sku, price), LookupReference(sku)])
      && !run.outcome.NotConfigured? && !run.outcome.NotInErp? && !run.outcome.SkippedZero?
      && Disciplined(run, net)
      && (run.outcome.Synced? ==> run.outcome.action == Created)
  {
    var s1 := AfterCreate(s, sku, net.create);
    var again := LookupId(s1, sku, net.relookup);
    if Accepted(net.create) && Present(again) {
      SyncStockCalls(s1, Created, again.value, sku, name, price, stock, net);
      var sync := SyncStock(s1, Created, again.value, sku, name, price, stock, net);
      var c3 := [CreateProduct(name, sku, price), LookupReference(sku)];
      forall c | c in c3 + sync.calls
        ensures c in c3 || c in sync.calls
      {
      }
    }
  }

  /** After the ERP read an import starts with the lookup by reference and
      keeps the order of calls. */
  lemma PlaceCalls(s: Shop, sku: string, name: string, price: real, stock: real, net: Replies)
    ensures var run := Place(s, sku, name, price, stock, net);
      && |run.calls| >= 1 && run.calls[0] == LookupReference(sku)
      && !run.outcome.NotConfigured? && !run.outcome.NotInErp? && !run.outcome.SkippedZero?
      && Disciplined(run, net)
  {
    var found := LookupId(s, sku, net.lookup);
    var c1 := [LookupReference(sku)];
    if Present(found) {
      SyncStockCalls(s, Updated, found.value, sku, name, price, stock, net);
      var sync := SyncStock(s, Updated, found.value, sku, name, price, stock, net);
      forall c | c in c1 + sync.calls
        ensures c in c1 || c in sync.calls
      {
      }
    } else {
      CreateAndSyncCalls(s, sku, name, price, stock, net);
      var made := CreateAndSync(s, sku, name, price, stock, net);
      forall c | c in c1 + made.calls
        ensures c in c1 || c in made.calls
      {
      }
    }
  }

  /** An import without configuration makes no call; otherwise it starts
      with the ERP search; it reports the reference missing exactly when the
      ERP has no row for it, and then, as when it skips a zero product,
      makes no other call and leaves the storefront as it was. */
  lemma ImportCalls(s: Shop, erp: seq<ErpProduct>, cfg: Config, reference: string, net: Replies)
    ensures var run := Import(s, erp, cfg, reference, net);
      && (!Configured(cfg) ==> run == ImportRun(NotConfigured, s, []))
      && (!Configured(cfg) ==> AnswerOf(run.outcome) == Enveloped(Error("500", NotConfiguredMessage, None)))
      && (Configured(cfg) ==> |run.calls| >= 1 && run.calls[0] == ErpSearch(reference))
      && (run.outcome.NotInErp? <==> Configured(cfg) && ErpSearchRead(erp, reference) == [])
      && (run.outcome.NotInErp? || run.outcome.SkippedZero? ==> run.calls == [ErpSearch(reference)] && run.shop == s)
      && Disciplined(run, net)
  {
    if Configured(cfg) {
      var rows := ErpSearchRead(erp, reference);
      if rows != [] {
        var p := rows[0];
        PlaceCalls(s, SkuOf(p), NameOf(p), p.listPrice, p.qtyAvailable, net);
        var placed := Place(s, SkuOf(p), NameOf(p), p.listPrice, p.qtyAvailable, net);
        var c0 := [ErpSearch(reference)];
        forall c | c in c0 + placed.calls
          ensures c in c0 || c in placed.calls
        {
        }
      }
    }
  }

  /** Only a missing configuration is answered in the error envelope; every
      outcome reached once the ERP was searched is a `{status, message}`
      object. */
  lemma ImportAnswers(s: Shop, erp: seq<ErpProduct>, cfg: Config, reference: string, net: Replies)
    ensures var a := AnswerOf(Import(s, erp, cfg, reference, net).outcome);
      a.Enveloped? <==> !Configured(cfg)
  {
  }

  /** The writes touch the stock records only and keep the storefront
      valid; when one of them is accepted, the record read under the stock
      id holds the new quantity. */
  lemma WriteStockEffect(s: Shop, info: StockInfo, q: int, done: ImportOutcome, net: Replies, productId: string)
    requires Valid(s) && Present(info.id) && WellFormedInfo(info)
    ensures var run := WriteStock(s, info, q, done, net);
      && run.shop.refs == s.refs && run.shop.stock.Keys == s.stock.Keys
      && run.shop.nextProduct == s.nextProduct && run.shop.nextStock == s.nextStock
      && Valid(run.shop)
      && CreateCount(run.calls) == 0
      && (productId in s.stock && s.stock[productId].id == info.id.value && (Accepted(net.patch) || Accepted(net.put)) ==>
            run.shop.stock[productId].quantity == q)
  {
    WriteStockCalls(s, info, q, done, net);
    var s1 := AfterPatch(s, info.id.value, q, net.patch);
    ValidAfterPatch(s, info.id.value, q, net.patch);
    if Accepted(net.patch) {
      if productId in s.stock {
        PatchEffect(s, info.id.value, q, net.patch, productId);
      }
    } else {
      var rec := PutRecord(info, q);
      assert CleanRecord(rec);
      ValidAfterPut(s1, rec, net.put);
      if Accepted(net.put) && productId in s.stock {
        PutEffect(s1, rec, net.put, productId);
      }
    }
  }

  /** The stock part touches the stock records only.  When it reports
      success, the product's stock record holds the ERP quantity truncated
      toward zero, whether the PATCH or the PUT set it; and it keeps the
      storefront valid. */
  lemma SyncStockEffect(s: Shop, action: Action, productId: string, sku: string, name: string,
                        price: real, stock: real, net: Replies)
    requires Valid(s)
    ensures var run := SyncStock(s, action, productId, sku, name, price, stock, net);
      && run.shop.refs == s.refs && run.shop.stock.Keys == s.stock.Keys
      && run.shop.nextProduct == s.nextProduct && run.shop.nextStock == s.nextStock
      && Valid(run.shop)
      && CreateCount(run.calls) == 0
      && (run.outcome.Synced? ==> productId in run.shop.stock && run.shop.stock[productId].quantity == Trunc(stock))
  {
    var c0 := [FetchStock(productId)];
    assert CreateCount(c0) == 0;
    match FetchedInfo(s, productId, net.stockFetch)
    case None =>
    case Some(info) =>
      if Present(info.id) {
        var done := Synced(action, productId, sku, name, price, stock);
        assert productId in s.stock && info == InfoOf(s.stock[productId]);
        assert WellFormedInfo(info);
        WriteStockEffect(s, info, Trunc(stock), done, net, productId);
        WriteStockCalls(s, info, Trunc(stock), done, net);
        CreateCountAppend(c0, WriteStock(s, info, Trunc(stock), done, net).calls);
      }
  }

  /** A product the lookup finds is not created: no POST is sent, and a
      success reports it as updated under the id the reference is listed
      under. */
  lemma PlaceFound(s: Shop, sku: string, name: string, price: real, stock: real, net: Replies)
    requires Valid(s) && Present(LookupId(s, sku, net.lookup))
    ensures var run := Place(s, sku, name, price, stock, net);
      && CreateCount(run.calls) == 0
      && (run.outcome.Synced? ==> run.outcome.action == Updated && run.outcome.productId == s.refs[sku])
  {
    var found := LookupId(s, sku, net.lookup);
    SyncStockEffect(s, Updated, found.value, sku, name, price, stock, net);
    SyncStockCalls(s, Updated, found.value, sku, name, price, stock, net);
    CreateCountAppend([LookupReference(sku)], SyncStock(s, Updated, found.value, sku, name, price, stock, net).calls);
  }

  /** A product the lookup does not find is created exactly once, and a
      success reports it as created. */
  lemma PlaceAbsent(s: Shop, sku: string, name: string, price: real, stock: real, net: Replies)
    requires Valid(s) && !Present(LookupId(s, sku, net.lookup))
    ensures var run := Place(s, sku, name, price, stock, net);
      && CreateCount(run.calls) == 1
      && (run.outcome.Synced? ==> run.outcome.action == Created)
  {
    CreateAndSyncCalls(s, sku, name, price, stock, net);
    var made := CreateAndSync(s, sku, name, price, stock, net);
    var c := [CreateProduct(name, sku, price), LookupReference(sku)];
    var s1 := AfterCreate(s, sku, net.create);
    var again := LookupId(s1, sku, net.relookup);
    if Accepted(net.create) && Present(again) {
      ValidAfterCreate(s, sku, net.create);
      SyncStockEffect(s1, Created, again.value, sku, name, price, stock, net);
      CreateCountAppend(c, SyncStock(s1, Created, again.value, sku, name, price, stock, net).calls);
    }
    assert CreateCount(c) == 1 by {
      assert c[..1] == [CreateProduct(name, sku, price)];
      assert [CreateProduct(name, sku, price)][..0] == [];
    }
    assert CreateCount([CreateProduct(name, sku, price)]) == 1 by {
      assert [CreateProduct(name, sku, price)][..0] == [];
    }
    CreateCountAppend([LookupReference(sku)], made.calls);
  }

  /** After a successful import the reference is listed under the reported
      product id, whose stock record holds the ERP quantity truncated toward
      zero; and every import keeps the storefront valid. */
  lemma PlaceEffect(s: Shop, sku: string, name: string, price: real, stock: real, net: Replies)
    requires Valid(s)
    ensures var run := Place(s, sku, name, price, stock, net);
      && Valid(run.shop)
      && (run.outcome.Synced? ==>
            && run.outcome.sku == sku
            && sku in run.shop.refs && run.shop.refs[sku] == run.outcome.productId
            && run.outcome.productId in run.shop.stock
            && run.shop.stock[run.outcome.productId].quantity == Trunc(stock))
  {
    var found := LookupId(s, sku, net.lookup);
    if Present(found) {
      SyncStockEffect(s, Updated, found.value, sku, name, price, stock, net);
      SyncStockCalls(s, Updated, found.value, sku, name, price, stock, net);
    } else {
      var s1 := AfterCreate(s, sku, net.create);
      var again := LookupId(s1, sku, net.relookup);
      ValidAfterCreate(s, sku, net.create);
      if Accepted(net.create) && Present(again) {
        SyncStockEffect(s1, Created, again.value, sku, name, price, stock, net);
        SyncStockCalls(s1, Created, again.value, sku, name, price, stock, net);
      }
    }
  }

  /** The ERP row an import works on, when it gets that far. */
  function ImportedRow(erp: seq<ErpProduct>, cfg: Config, reference: string): (r: Option<ErpProduct>)
    ensures r.Some? <==> Configured(cfg) && ErpSearchRead(erp, reference) != []
    ensures r.Some? ==> r.value == ErpSearchRead(erp, reference)[0] && r.value.defaultCode == Some(reference)
    ensures forall k :: 0 <= k < |erp| && erp[k].defaultCode == Some(reference)
                        && (forall j :: 0 <= j < k ==> erp[j].defaultCode != Some(reference)) ==>
              (Configured(cfg) ==> r == Some(erp[k]))
  {
    ErpSearchReadFirst(erp, reference);
    var rows := ErpSearchRead(erp, reference);
    if Configured(cfg) && rows != [] then
      assert rows[0] in rows;
      Some(rows[0])
    else None
  }

  predicate ZeroPriced(p: ErpProduct) {
    p.listPrice == 0.0 && p.qtyAvailable == 0.0
  }

  /** An import is skipped exactly when the ERP row has zero price and zero
      stock; it creates the product at most once, exactly when the lookup by
      reference did not find it, and reports it as created exactly then. */
  lemma ImportCreates(s: Shop, erp: seq<ErpProduct>, cfg: Config, reference: string, net: Replies)
    requires Valid(s)
    ensures var run := Import(s, erp, cfg, reference, net);
      var row := ImportedRow(erp, cfg, reference);
      && (run.outcome.SkippedZero? <==> row.Some? && ZeroPriced(row.value))
      && CreateCount(run.calls) <= 1
      && (CreateCount(run.calls) == 1 <==>
            row.Some? && !ZeroPriced(row.value) && !Present(LookupId(s, SkuOf(row.value), net.lookup)))
      && (run.outcome.Synced? ==> (run.outcome.action == Created <==> CreateCount(run.calls) == 1))
  {
    var row := ImportedRow(erp, cfg, reference);
    var c0 := [ErpSearch(reference)];
    assert CreateCount(c0) == 0;
    if row.Some? && !ZeroPriced(row.value) {
      var p := row.value;
      PlaceCalls(s, SkuOf(p), NameOf(p), p.listPrice, p.qtyAvailable, net);
      if Present(LookupId(s, SkuOf(p), net.lookup)) {
        PlaceFound(s, SkuOf(p), NameOf(p), p.listPrice, p.qtyAvailable, net);
      } else {
        PlaceAbsent(s, SkuOf(p), NameOf(p), p.listPrice, p.qtyAvailable, net);
      }
      CreateCountAppend(c0, Place(s, SkuOf(p), NameOf(p), p.listPrice, p.qtyAvailable, net).calls);
    }
  }

  /** Every import keeps the storefront valid; a successful one leaves the
      reference listed under the reported product id with the ERP quantity in
      its stock record. */
  lemma ImportEffect(s: Shop, erp: seq<ErpProduct>, cfg: Config, reference: string, net: Replies)
    requires Valid(s)
    ensures var run := Import(s, erp, cfg, reference, net);
      && Valid(run.shop)
      && (run.outcome.Synced? ==>
            var p := ImportedRow(erp, cfg, reference).value;
            && ImportedRow(erp, cfg, reference).Some?
            && run.outcome.sku == SkuOf(p)
            && SkuOf(p) in run.shop.refs && run.shop.refs[SkuOf(p)] == run.outcome.productId
            && run.outcome.productId in run.shop.stock
            && run.shop.stock[run.outcome.productId].quantity == Trunc(p.qtyAvailable))
  {
    var row := ImportedRow(erp, cfg, reference);
    if row.Some? && !ZeroPriced(row.value) {
      var p := row.value;
      PlaceEffect(s, SkuOf(p), NameOf(p), p.listPrice, p.qtyAvailable, net);
    }
  }

  /** Importing a reference again after a successful import creates nothing:
      the lookup finds the product, and a success reports it as updated under
      the same id. */
  lemma ImportAgainUpdates(s: Shop, erp: seq<ErpProduct>, cfg: Config, reference: string, net1: Replies, net2: Replies)
    requires Valid(s)
    requires Import(s, erp, cfg, reference, net1).outcome.Synced?
    requires net2.lookup == 200
    ensures var first := Import(s, erp, cfg, reference, net1);
      var again := Import(first.shop, erp, cfg, reference, net2);
      && CreateCount(again.calls) == 0
      && (again.outcome.Synced? ==> again.outcome.action == Updated && again.outcome.productId == first.outcome.productId)
  {
    var first := Import(s, erp, cfg, reference, net1);
    ImportEffect(s, erp, cfg, reference, net1);
    ImportCreates(s, erp, cfg, reference, net1);
    var p := ImportedRow(erp, cfg, reference).value;
    var t := first.shop;
    assert Present(LookupId(t, SkuOf(p), net2.lookup));
    ImportCreates(t, erp, cfg, reference, net2);
    PlaceFound(t, SkuOf(p), NameOf(p), p.listPrice, p.qtyAvailable, net2);
  }

  /** The full PUT rewrites the record it read with the new quantity and
      nothing else, when the storefront left none of its fields empty. */
  lemma PutKeepsRecord(rec: StockRecord, q: int)
    requires rec.idProductAttribute != "" && rec.idShop != "" && rec.idShopGroup != ""
    requires rec.dependsOnStock != "" && rec.outOfStock != ""
    ensures PutRecord(InfoOf(rec), q) == rec.(quantity := q)
  {
  }

  /** `get_product_id_by_reference(client, sku)`: GET the listing, read its
      first id. */
  method GetProductIdByReference(up: Upstream, sku: string, status: int) returns (id: Option<string>)
    requires Valid(up.State())
    modifies up`log
    ensures id == LookupId(up.State(), sku, status)
    ensures up.log == old(up.log) + [LookupReference(sku)]
  {
    var body := up.LookupXml(sku, status);
    id := if body.Some? then FirstId(body.value) else None;
    LookupReadsListing(up.State(), sku, status);
  }

  /** The check `if not stock_xml` and `parse_stock_info(stock_xml)` on the
      body of the stock GET. */
  method ReadStockBody(body: Option<Doc>, ghost s: Shop, ghost productId: string, ghost status: int)
    returns (info: Option<StockInfo>)
    requires Valid(s)
    requires body == if status == 200 then Some(StockListing(StockOf(s, productId))) else None
    ensures info == FetchedInfo(s, productId, status)
  {
    if body.None? || RenderAll(body.value) == "" {
      if body.Some? {
        StockListingNotEmpty(StockOf(s, productId));
      }
      info := None;
    } else {
      info := Some(ParseStockInfo(body.value));
      FetchedInfoIsParsed(s, productId);
    }
  }

  /** `patch_stock_quantity`, then `put_stock_full` when the PATCH was
      refused. */
  method WriteStockOf(up: Upstream, info: StockInfo, q: int, done: ImportOutcome, net: Replies)
    returns (outcome: ImportOutcome)
    requires Present(info.id)
    modifies up
    ensures var run := WriteStock(old(up.State()), info, q, done, net);
            outcome == run.outcome && up.State() == run.shop && up.log == old(up.log) + run.calls
  {
    up.Patch(info.id.value, PatchStockDoc(info.id.value, q), q, net.patch);
    outcome := done;
    if !Accepted(net.patch) {
      up.Put(PutStockDoc(info, q), PutRecord(info, q), net.put);
      if !Accepted(net.put) {
        outcome := StockWriteFailed;
      }
    }
  }

  /** The stock part of `import_product_from_odoo`: GET the stock record,
      parse it, then write the quantity. */
  method SyncStockOf(up: Upstream, action: Action, productId: string, sku: string, name: string,
                     price: real, stock: real, net: Replies) returns (outcome: ImportOutcome)
    requires Valid(up.State())
    modifies up
    ensures var run := SyncStock(old(up.State()), action, productId, sku, name, price, stock, net);
            outcome == run.outcome && up.State() == run.shop && up.log == old(up.log) + run.calls
  {
    ghost var s0 := up.State();
    ghost var log0 := up.log;
    var body := up.FetchStockOf(productId, net.stockFetch);
    var read := ReadStockBody(body, s0, productId, net.stockFetch);
    if read.None? {
      return NoStockRecord;
    }
    var info := read.value;
    if !Present(info.id) {
      return InvalidStockId;
    }
    ghost var w := WriteStock(s0, info, Trunc(stock), Synced(action, productId, sku, name, price, stock), net);
    outcome := WriteStockOf(up, info, Trunc(stock), Synced(action, productId, sku, name, price, stock), net);
    AppendAssoc(log0, [FetchStock(productId)], w.calls);
  }

  /** `create_product`, then, when the POST was accepted, the new lookup by
      reference that recovers the product id. */
  method CreateAndFind(up: Upstream, sku: string, name: string, price: real, net: Replies)
    returns (productId: Option<string>)
    requires Valid(up.State())
    modifies up
    ensures up.State() == AfterCreate(old(up.State()), sku, net.create) && Valid(up.State())
    ensures !Accepted(net.create) ==> productId == None && up.log == old(up.log) + [CreateProduct(name, sku, price)]
    ensures Accepted(net.create) ==>
      && productId == LookupId(up.State(), sku, net.relookup)
      && up.log == old(up.log) + [CreateProduct(name, sku, price), LookupReference(sku)]
  {
    ghost var log0 := up.log;
    ValidAfterCreate(up.State(), sku, net.create);
    up.Create(name, sku, price, net.create);
    if !Accepted(net.create) {
      return None;
    }
    productId := GetProductIdByReference(up, sku, net.relookup);
    AppendAssoc(log0, [CreateProduct(name, sku, price)], [LookupReference(sku)]);
  }

  /** The create branch of `import_product_from_odoo`: POST the product, look
      it up again by reference, then the stock. */
  method CreateAndSyncOf(up: Upstream, sku: string, name: string, price: real, stock: real, net: Replies)
    returns (outcome: ImportOutcome)
    requires Valid(up.State())
    modifies up
    ensures var run := CreateAndSync(old(up.State()), sku, name, price, stock, net);
            outcome == run.outcome && up.State() == run.shop && up.log == old(up.log) + run.calls
  {
    ghost var log0 := up.log;
    var productId := CreateAndFind(up, sku, name, price, net);
    if !Accepted(net.create) {
      outcome := CreateFailed;
    } else if !Present(productId) {
      outcome := IdNotRecovered;
    } else {
      ghost var sync := SyncStock(up.State(), Created, productId.value, sku, name, price, stock, net);
      outcome := SyncStockOf(up, Created, productId.value, sku, name, price, stock, net);
      AppendAssoc(log0, [CreateProduct(name, sku, price), LookupReference(sku)], sync.calls);
    }
  }

  /** The part of `import_product_from_odoo` after the ERP read: look the
      reference up, create the product when it is not found, then the stock. */
  method PlaceOf(up: Upstream, sku: string, name: string, price: real, stock: real, net: Replies)
    returns (outcome: ImportOutcome)
    requires Valid(up.State())
    modifies up
    ensures var run := Place(old(up.State()), sku, name, price, stock, net);
            outcome == run.outcome && up.State() == run.shop && up.log == old(up.log) + run.calls
  {
    ghost var s0 := up.State();
    ghost var log0 := up.log;
    var productId := GetProductIdByReference(up, sku, net.lookup);
    ghost var rest: seq<Call>;
    if Present(productId) {
      rest := SyncStock(s0, Updated, productId.value, sku, name, price, stock, net).calls;
      outcome := SyncStockOf(up, Updated, productId.value, sku, name, price, stock, net);
    } else {
      rest := CreateAndSync(s0, sku, name, price, stock, net).calls;
      outcome := CreateAndSyncOf(up, sku, name, price, stock, net);
    }
    AppendAssoc(log0, [LookupReference(sku)], rest);
  }

  /** `import_product_from_odoo(reference)`, step by step against the ERP
      and the storefront held by `up`. */
  method ImportProduct(up: Upstream, cfg: Config, reference: string, net: Replies) returns (outcome: ImportOutcome)
    requires Valid(up.State())
    modifies up
    ensures var run := Import(old(up.State()), up.erp, cfg, reference, net);
            outcome == run.outcome && up.State() == run.shop && up.log == old(up.log) + run.calls
  {
    if !Configured(cfg) {
      return NotConfigured;
    }
    ghost var log0 := up.log;
    var results := up.SearchErp(reference);
    if results == [] {
      return NotInErp;
    }
    var product := results[0];
    var price := product.listPrice;
    var stock := product.qtyAvailable;
    if price == 0.0 && stock == 0.0 {
      return SkippedZero;
    }
    ghost var placed := Place(up.State(), SkuOf(product), NameOf(product), price, stock, net);
    outcome := PlaceOf(up, SkuOf(product), NameOf(product), price, stock, net);
    AppendAssoc(log0, [ErpSearch(reference)], placed.calls);
  }
}
