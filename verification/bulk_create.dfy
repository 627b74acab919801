/** `POST /products/from-odoo/bulk`: walks the whole ERP catalogue and
    creates in the storefront every product that has a reference and stock
    and is not there yet, sorting the rows into four lists. */
module BulkCreate {
  import opened Common
  import opened Text
  import opened Json
  import opened Remote

  /** `product_exists` on the body of the JSON lookup: `bool` of the
      normalised collection.  A body that is not JSON, or JSON that is
      neither a list nor a dict, raises. */
  function ProductExists(body: Option<Json>): (r: Result<bool>)
    ensures body.None? ==> r == Crash(ValueError)
    ensures body.Some? && body.value.JList? ==> r == Ok(body.value.items != [])
    ensures body.Some? && body.value.JObj? ==>
              r == Ok("products" in body.value.fields && Truthy(body.value.fields["products"]))
    ensures r.Crash? <==> body.None? || !(body.value.JList? || body.value.JObj?)
  {
    match body
    case None => Crash(ValueError)
    case Some(data) =>
      match ListFirstProducts(data)
      case Crash(f) => Crash(f)
      case Ok(products) => Ok(Truthy(products))
  }

  /** The lookup finds the product exactly when the storefront answers with
      the reference listed; an error answer reads as "not there", and a body
      that is not JSON raises. */
  lemma ExistsMeansListed(s: Shop, sku: string, reply: LookupReply)
    ensures reply == Served ==> ProductExists(ReferenceJson(s, sku, reply)) == Ok(sku in s.refs)
    ensures reply == Refused ==> ProductExists(ReferenceJson(s, sku, reply)) == Ok(false)
    ensures reply == Garbled ==> ProductExists(ReferenceJson(s, sku, reply)) == Crash(ValueError)
  {
    if reply == Served && sku in s.refs {
      var body := JObj(map["products" := JList([JObj(map["id" := JStr(s.refs[sku])])])]);
      assert Truthy(body.fields["products"]);
    }
  }

  /** The statuses the storefront answers the calls for one row with. */
  datatype BulkReply = BulkReply(lookup: LookupReply, create: int)

  /** Which list a row lands in. */
  datatype Kind = NoStock | Exists | Created | Failed

  /** The `data` of the answer: the four lists. */
  datatype BulkData = BulkData(
    created: seq<string>,        // SKUs created
    skippedNoStock: seq<int>,    // ERP ids of rows without reference or stock
    skippedExists: seq<string>,  // SKUs already in the storefront
    errors: seq<string>)         // SKUs whose create was refused

  /** The loop's state after some rows: the lists, the storefront, the calls
      made, the kind of every row handled, and the exception that ended the
      loop, if one did. */
  datatype Bulk = Bulk(data: BulkData, shop: Shop, calls: seq<Call>, kinds: seq<Kind>, fault: Option<Fault>)

  /** `stock <= 0` on `qty_available or 0`, or an empty SKU: the row is
      skipped without a storefront call. */
  predicate NoStockRow(p: ErpProduct) {
    SkuOf(p) == "" || p.qtyAvailable <= 0.0
  }

  /** The name `create_product` writes: `p.get("name", "")` put into the XML
      with an f-string, so an Odoo `False` becomes "False". */
  function CreateName(p: ErpProduct): string {
    if p.name.Some? then p.name.value else "False"
  }

  /** What the loop body decides for row `p`: its list, or the exception
      the lookup raises. */
  function Verdict(shop: Shop, p: ErpProduct, reply: BulkReply): (r: Result<Kind>)
    ensures r == Ok(NoStock) <==> NoStockRow(p)
    ensures r.Ok? && r.value in {Created, Failed} ==> (r.value == Created <==> Accepted(reply.create))
    ensures !NoStockRow(p) ==>
              (r == Ok(Exists) <==> ProductExists(ReferenceJson(shop, SkuOf(p), reply.lookup)) == Ok(true))
    ensures !NoStockRow(p) ==>
              (r.Crash? <==> ProductExists(ReferenceJson(shop, SkuOf(p), reply.lookup)).Crash?)
  {
    if NoStockRow(p) then Ok(NoStock)
    else
      match ProductExists(ReferenceJson(shop, SkuOf(p), reply.lookup))
      case Crash(f) => Crash(f)
      case Ok(true) => Ok(Exists)
      case Ok(false) => Ok(if Accepted(reply.create) then Created else Failed)
  }

  /** A row with reference and stock whose reference the storefront lists
      and answers for is reported as already there. */
  lemma ListedIsExists(shop: Shop, p: ErpProduct, reply: BulkReply)
    requires !NoStockRow(p) && reply.lookup == Served && SkuOf(p) in shop.refs
    ensures Verdict(shop, p, reply) == Ok(Exists)
  {
    ExistsMeansListed(shop, SkuOf(p), Served);
  }

  /** The lists after row `p` landed in list `k`. */
  function Add(d: BulkData, k: Kind, p: ErpProduct): (r: BulkData)
    ensures r.created == d.created + if k == Created then [SkuOf(p)] else []
    ensures r.skippedNoStock == d.skippedNoStock + if k == NoStock then [p.id] else []
    ensures r.skippedExists == d.skippedExists + if k == Exists then [SkuOf(p)] else []
    ensures r.errors == d.errors + if k == Failed then [SkuOf(p)] else []
  {
    match k
    case NoStock => d.(skippedNoStock := d.skippedNoStock + [p.id])
    case Exists => d.(skippedExists := d.skippedExists + [SkuOf(p)])
    case Created => d.(created := d.created + [SkuOf(p)])
    case Failed => d.(errors := d.errors + [SkuOf(p)])
  }

  /** The calls made for a row of list `k`: none for a skipped row, the
      lookup, and the create for a row that was not found. */
  function CallsFor(p: ErpProduct, k: Kind): (r: seq<Call>)
    ensures |r| == (if k == NoStock then 0 else if k == Exists then 1 else 2)
    ensures CreateCount(r) == if k in {Created, Failed} then 1 else 0
    ensures k != NoStock ==> r[0] == LookupReferenceJson(SkuOf(p))
    ensures k in {Created, Failed} ==> r[1] == CreateProduct(CreateName(p), SkuOf(p), p.listPrice)
  {
    var lookup := LookupReferenceJson(SkuOf(p));
    var create := CreateProduct(CreateName(p), SkuOf(p), p.listPrice);
    match k
    case NoStock => []
    case Exists => [lookup]
    case _ =>
      assert [lookup, create][..1] == [lookup] && [lookup][..0] == [];
      [lookup, create]
  }

  /** The storefront after a row of list `k`: only a create changes it. */
  function ShopAfter(shop: Shop, p: ErpProduct, k: Kind, reply: BulkReply): Shop {
    if k in {Created, Failed} then AfterCreate(shop, SkuOf(p), reply.create) else shop
  }

  /** One pass of the loop body on row `p`. */
  function Step(b: Bulk, p: ErpProduct, reply: BulkReply): Bulk {
    match Verdict(b.shop, p, reply)
    case Crash(f) => b.(calls := b.calls + [LookupReferenceJson(SkuOf(p))], fault := Some(f))
    case Ok(k) => Bulk(Add(b.data, k, p), ShopAfter(b.shop, p, k, reply), b.calls + CallsFor(p, k), b.kinds + [k], None)
  }

  const Empty := BulkData([], [], [], [])

  /** The loop over the rows `ps`, the storefront answering row `i` with
      `net(i)`; an exception ends it. */
  function BulkRun(s: Shop, ps: seq<ErpProduct>, net: nat -> BulkReply): Bulk
    decreases |ps|
  {
    if ps == [] then Bulk(Empty, s, [], [], None)
    else
      var b := BulkRun(s, ps[..|ps| - 1], net);
      if b.fault.Some? then b else Step(b, ps[|ps| - 1], net(|ps| - 1))
  }

  /** `create_products_bulk` against the catalogue `erp` and the storefront
      `s`: the answer, the storefront afterwards and the calls made. */
  function Bulked(s: Shop, erp: seq<ErpProduct>, cfg: Config, net: nat -> BulkReply): (Response<BulkData>, Shop, seq<Call>) {
    if !Configured(cfg) then (Error("500", NotConfiguredMessage, None), s, [])
    else
      var b := BulkRun(s, erp, net);
      (if b.fault.Some? then Crashed(b.fault.value) else Success(b.data), b.shop, [ErpSearchAll] + b.calls)
  }

  /** Without configuration the endpoint answers 500 before reading the
      catalogue; otherwise the catalogue is read first, and the answer is a
      success whatever happened to single rows unless an exception escaped. */
  lemma BulkedAnswer(s: Shop, erp: seq<ErpProduct>, cfg: Config, net: nat -> BulkReply)
    ensures !Configured(cfg) ==> Bulked(s, erp, cfg, net) == (Error("500", NotConfiguredMessage, None), s, [])
    ensures Configured(cfg) ==> Bulked(s, erp, cfg, net).2[0] == ErpSearchAll
    ensures Configured(cfg) && BulkRun(s, erp, net).fault.None? ==>
              Bulked(s, erp, cfg, net).0 == Success(BulkRun(s, erp, net).data)
  {
  }

  /** The rows of `ps` whose kind in `ks` is `k`, in order. */
  function Picked(ps: seq<ErpProduct>, ks: seq<Kind>, k: Kind): (r: seq<ErpProduct>)
    requires |ps| == |ks|
    ensures |r| <= |ps|
    decreases |ps|
  {
    if ps == [] then []
    else Picked(ps[..|ps| - 1], ks[..|ks| - 1], k) + if ks[|ks| - 1] == k then [ps[|ps| - 1]] else []
  }

  function Skus(ps: seq<ErpProduct>): (r: seq<string>)
    ensures |r| == |ps| && forall i :: 0 <= i < |ps| ==> r[i] == SkuOf(ps[i])
    decreases |ps|
  {
    if ps == [] then [] else Skus(ps[..|ps| - 1]) + [SkuOf(ps[|ps| - 1])]
  }

  function Ids(ps: seq<ErpProduct>): (r: seq<int>)
    ensures |r| == |ps| && forall i :: 0 <= i < |ps| ==> r[i] == ps[i].id
    decreases |ps|
  {
    if ps == [] then [] else Ids(ps[..|ps| - 1]) + [ps[|ps| - 1].id]
  }

  lemma SkusAppend(ps: seq<ErpProduct>, more: seq<ErpProduct>)
    requires |more| <= 1
    ensures Skus(ps + more) == Skus(ps) + Skus(more)
    ensures Ids(ps + more) == Ids(ps) + Ids(more)
  {
    if more != [] {
      assert (ps + more)[..|ps + more| - 1] == ps;
      assert more[..0] == [];
    } else {
      assert ps + more == ps;
    }
  }

  /** Every row is picked for exactly one kind. */
  lemma {:induction false} PickedCover(ps: seq<ErpProduct>, ks: seq<Kind>)
    requires |ps| == |ks|
    ensures |Picked(ps, ks, Created)| + |Picked(ps, ks, NoStock)|
            + |Picked(ps, ks, Exists)| + |Picked(ps, ks, Failed)| == |ps|
    decreases |ps|
  {
    if ps != [] {
      PickedCover(ps[..|ps| - 1], ks[..|ks| - 1]);
    }
  }

  /** The rows without reference or stock, in catalogue order. */
  function NoStockRows(ps: seq<ErpProduct>): (r: seq<ErpProduct>)
    ensures forall p :: p in r ==> p in ps && NoStockRow(p)
    decreases |ps|
  {
    if ps == [] then []
    else NoStockRows(ps[..|ps| - 1]) + if NoStockRow(ps[|ps| - 1]) then [ps[|ps| - 1]] else []
  }

  /** A run of the loop over `ps` extends the run over all rows but the last
      by one step, unless that one raised. */
  lemma RunStep(s: Shop, ps: seq<ErpProduct>, net: nat -> BulkReply)
    requires ps != []
    ensures var b0 := BulkRun(s, ps[..|ps| - 1], net);
      BulkRun(s, ps, net) == if b0.fault.Some? then b0 else Step(b0, ps[|ps| - 1], net(|ps| - 1))
  {
  }

  /** A row the loop body handles without raising extends the lists, the
      storefront, the calls and the kinds by that row's share. */
  lemma StepOk(b: Bulk, p: ErpProduct, reply: BulkReply, k: Kind)
    requires Verdict(b.shop, p, reply) == Ok(k)
    ensures Step(b, p, reply) == Bulk(Add(b.data, k, p), ShopAfter(b.shop, p, k, reply), b.calls + CallsFor(p, k), b.kinds + [k], None)
  {
  }

  /** The loop run over one more row that the body handled as `k`. */
  lemma RowHandled(s: Shop, ps: seq<ErpProduct>, net: nat -> BulkReply, i: nat, k: Kind)
    requires i < |ps| && BulkRun(s, ps[..i], net).fault.None?
    requires Verdict(BulkRun(s, ps[..i], net).shop, ps[i], net(i)) == Ok(k)
    ensures var b := BulkRun(s, ps[..i], net);
      BulkRun(s, ps[..i + 1], net) == Bulk(Add(b.data, k, ps[i]), ShopAfter(b.shop, ps[i], k, net(i)), b.calls + CallsFor(ps[i], k), b.kinds + [k], None)
  {
    assert ps[..i + 1][..i] == ps[..i];
    RunStep(s, ps[..i + 1], net);
    StepOk(BulkRun(s, ps[..i], net), ps[i], net(i), k);
  }

  /** The loop run when the body raises `f` on row `i`: the run ends there
      with the lookup as its last call. */
  lemma RowRaises(s: Shop, ps: seq<ErpProduct>, net: nat -> BulkReply, i: nat, f: Fault)
    requires i < |ps| && BulkRun(s, ps[..i], net).fault.None?
    requires Verdict(BulkRun(s, ps[..i], net).shop, ps[i], net(i)) == Crash(f)
    ensures var b := BulkRun(s, ps[..i], net);
      BulkRun(s, ps, net) == b.(calls := b.calls + [LookupReferenceJson(SkuOf(ps[i]))], fault := Some(f))
  {
    assert ps[..i + 1][..i] == ps[..i];
    RunStep(s, ps[..i + 1], net);
    FaultSticks(s, ps, net, i + 1);
  }

  /** Once the loop has raised, the remaining rows change nothing. */
  lemma {:induction false} FaultSticks(s: Shop, ps: seq<ErpProduct>, net: nat -> BulkReply, i: nat)
    requires i <= |ps| && BulkRun(s, ps[..i], net).fault.Some?
    ensures BulkRun(s, ps, net) == BulkRun(s, ps[..i], net)
    decreases |ps| - i
  {
    if i < |ps| {
      assert ps[..i + 1][..i] == ps[..i];
      RunStep(s, ps[..i + 1], net);
      FaultSticks(s, ps, net, i + 1);
    } else {
      assert ps[..i] == ps;
    }
  }

  /** A loop that ran to the end put every row in exactly one list, in
      catalogue order: each list is the rows of its kind. */
  lemma {:induction false} Partition(s: Shop, ps: seq<ErpProduct>, net: nat -> BulkReply)
    requires BulkRun(s, ps, net).fault.None?
    ensures var b := BulkRun(s, ps, net);
      && |b.kinds| == |ps|
      && b.data.created == Skus(Picked(ps, b.kinds, Created))
      && b.data.skippedNoStock == Ids(Picked(ps, b.kinds, NoStock))
      && b.data.skippedExists == Skus(Picked(ps, b.kinds, Exists))
      && b.data.errors == Skus(Picked(ps, b.kinds, Failed))
    decreases |ps|
  {
    if ps != [] {
      RunSnoc(s, ps, net);
      Partition(s, ps[..|ps| - 1], net);
      var b0 := BulkRun(s, ps[..|ps| - 1], net);
      var b := BulkRun(s, ps, net);
      PickedSkus(ps, b.kinds, Created, b0.data.created, b.data.created);
      PickedIds(ps, b.kinds, NoStock, b0.data.skippedNoStock, b.data.skippedNoStock);
      PickedSkus(ps, b.kinds, Exists, b0.data.skippedExists, b.data.skippedExists);
      PickedSkus(ps, b.kinds, Failed, b0.data.errors, b.data.errors);
    }
  }

  /** A run that finished over `ps` is the run over all rows but the last
      with that row's kind appended and its list extended. */
  lemma RunSnoc(s: Shop, ps: seq<ErpProduct>, net: nat -> BulkReply)
    requires ps != [] && BulkRun(s, ps, net).fault.None?
    ensures var b0 := BulkRun(s, ps[..|ps| - 1], net);
      var b := BulkRun(s, ps, net);
      && b0.fault.None?
      && |b.kinds| == |b0.kinds| + 1
      && b.kinds[..|b0.kinds|] == b0.kinds
      && b.data == Add(b0.data, b.kinds[|b0.kinds|], ps[|ps| - 1])
  {
    RunStep(s, ps, net);
    var b0 := BulkRun(s, ps[..|ps| - 1], net);
    if b0.fault.None? {
      match Verdict(b0.shop, ps[|ps| - 1], net(|ps| - 1))
      case Ok(k) => StepOk(b0, ps[|ps| - 1], net(|ps| - 1), k);
      case Crash(_) =>
    }
  }

  /** The last row, of kind `ks[n]`, joins the list of its kind only. */
  lemma PickedSkus(ps: seq<ErpProduct>, ks: seq<Kind>, k: Kind, before: seq<string>, after: seq<string>)
    requires |ps| == |ks| && ps != []
    requires var n := |ps| - 1;
      && before == Skus(Picked(ps[..n], ks[..n], k))
      && after == before + if ks[n] == k then [SkuOf(ps[n])] else []
    ensures after == Skus(Picked(ps, ks, k))
  {
    var n := |ps| - 1;
    SkusAppend(Picked(ps[..n], ks[..n], k), if ks[n] == k then [ps[n]] else []);
  }

  lemma PickedIds(ps: seq<ErpProduct>, ks: seq<Kind>, k: Kind, before: seq<int>, after: seq<int>)
    requires |ps| == |ks| && ps != []
    requires var n := |ps| - 1;
      && before == Ids(Picked(ps[..n], ks[..n], k))
      && after == before + if ks[n] == k then [ps[n].id] else []
    ensures after == Ids(Picked(ps, ks, k))
  {
    var n := |ps| - 1;
    SkusAppend(Picked(ps[..n], ks[..n], k), if ks[n] == k then [ps[n]] else []);
  }

  /** The rows skipped for want of reference or stock are exactly those,
      whatever the storefront answers. */
  lemma {:induction false} NoStockIsInputOnly(s: Shop, ps: seq<ErpProduct>, net: nat -> BulkReply)
    requires BulkRun(s, ps, net).fault.None?
    ensures BulkRun(s, ps, net).data.skippedNoStock == Ids(NoStockRows(ps))
    decreases |ps|
  {
    if ps != [] {
      var n := |ps| - 1;
      var init := ps[..n];
      RunStep(s, ps, net);
      var b0 := BulkRun(s, init, net);
      assert b0.fault.None?;
      NoStockIsInputOnly(s, init, net);
      var k := Verdict(b0.shop, ps[n], net(n)).value;
      assert BulkRun(s, ps, net).data == Add(b0.data, k, ps[n]);
      SkusAppend(NoStockRows(init), if NoStockRow(ps[n]) then [ps[n]] else []);
    }
  }

  /** Rows without reference or stock cause no call, rows already in the
      storefront one lookup and no create, and the others a lookup and one
      create each. */
  lemma {:induction false} CallsPerRow(s: Shop, ps: seq<ErpProduct>, net: nat -> BulkReply)
    requires BulkRun(s, ps, net).fault.None?
    ensures var b := BulkRun(s, ps, net);
      && CreateCount(b.calls) == |b.data.created| + |b.data.errors|
      && |b.calls| == |b.data.skippedExists| + 2 * (|b.data.created| + |b.data.errors|)
    decreases |ps|
  {
    if ps != [] {
      var n := |ps| - 1;
      var init := ps[..n];
      RunStep(s, ps, net);
      var b0 := BulkRun(s, init, net);
      assert b0.fault.None?;
      CallsPerRow(s, init, net);
      var k := Verdict(b0.shop, ps[n], net(n)).value;
      assert BulkRun(s, ps, net).calls == b0.calls + CallsFor(ps[n], k);
      assert BulkRun(s, ps, net).data == Add(b0.data, k, ps[n]);
      CreateCountAppend(b0.calls, CallsFor(ps[n], k));
    }
  }

  /** Every SKU reported created is listed in the storefront afterwards, and
      no reference listed before disappears. */
  lemma {:induction false} CreatedAreListed(s: Shop, ps: seq<ErpProduct>, net: nat -> BulkReply)
    ensures var b := BulkRun(s, ps, net);
      && s.refs.Keys <= b.shop.refs.Keys
      && forall k :: k in b.data.created ==> k in b.shop.refs
    decreases |ps|
  {
    if ps != [] {
      var n := |ps| - 1;
      var init := ps[..n];
      RunStep(s, ps, net);
      var b0 := BulkRun(s, init, net);
      CreatedAreListed(s, init, net);
      var status := net(n).create;
      if b0.fault.None? {
        var v := Verdict(b0.shop, ps[n], net(n));
        if v.Ok? && v.value in {Created, Failed} && Accepted(status) {
          CreateEffect(b0.shop, SkuOf(ps[n]), status);
        }
      }
    }
  }

  /** A row whose reference the storefront listed before the loop, and whose
      lookup is answered, only adds its SKU to `skipped_exists` and its lookup
      to the calls: no create is sent for it and the storefront is unchanged. */
  lemma ListedRowSkipped(s: Shop, ps: seq<ErpProduct>, net: nat -> BulkReply, i: nat)
    requires i < |ps| && BulkRun(s, ps[..i], net).fault.None?
    requires !NoStockRow(ps[i]) && net(i).lookup == Served && SkuOf(ps[i]) in s.refs
    ensures var b := BulkRun(s, ps[..i], net);
      BulkRun(s, ps[..i + 1], net)
        == b.(data := b.data.(skippedExists := b.data.skippedExists + [SkuOf(ps[i])]),
              calls := b.calls + [LookupReferenceJson(SkuOf(ps[i]))],
              kinds := b.kinds + [Exists])
  {
    var b := BulkRun(s, ps[..i], net);
    CreatedAreListed(s, ps[..i], net);
    ListedIsExists(b.shop, ps[i], net(i));
    RowHandled(s, ps, net, i, Exists);
  }

  /** A loop that ran to the end passed through every shorter run without
      raising, and those runs' kinds and skipped lists are prefixes of its own. */
  lemma {:induction false} RunPrefix(s: Shop, ps: seq<ErpProduct>, net: nat -> BulkReply, j: nat)
    requires j <= |ps| && BulkRun(s, ps, net).fault.None?
    ensures var b := BulkRun(s, ps, net);
      var bj := BulkRun(s, ps[..j], net);
      && bj.fault.None? && bj.kinds <= b.kinds && bj.data.skippedExists <= b.data.skippedExists
    decreases |ps|
  {
    if j == |ps| {
      assert ps[..j] == ps;
    } else {
      var n := |ps| - 1;
      OneStepPrefix(s, ps, net);
      RunPrefix(s, ps[..n], net, j);
      assert ps[..n][..j] == ps[..j];
    }
  }

  /** The run over all rows but the last is a prefix of the whole run. */
  lemma OneStepPrefix(s: Shop, ps: seq<ErpProduct>, net: nat -> BulkReply)
    requires ps != [] && BulkRun(s, ps, net).fault.None?
    ensures var b := BulkRun(s, ps, net);
      var b0 := BulkRun(s, ps[..|ps| - 1], net);
      && b0.fault.None? && b0.kinds <= b.kinds && b0.data.skippedExists <= b.data.skippedExists
  {
    var n := |ps| - 1;
    RunStep(s, ps, net);
    var b0 := BulkRun(s, ps[..n], net);
    var k := Verdict(b0.shop, ps[n], net(n)).value;
    StepOk(b0, ps[n], net(n), k);
  }

  /** In a loop that ran to the end, every row with reference and stock that
      the storefront already listed and answered the lookup for is of kind
      `Exists`, and its SKU is in `skipped_exists`. */
  lemma ListedIsSkipped(s: Shop, ps: seq<ErpProduct>, net: nat -> BulkReply, i: nat)
    requires i < |ps| && BulkRun(s, ps, net).fault.None?
    requires !NoStockRow(ps[i]) && net(i).lookup == Served && SkuOf(ps[i]) in s.refs
    ensures i < |BulkRun(s, ps, net).kinds| && BulkRun(s, ps, net).kinds[i] == Exists
    ensures SkuOf(ps[i]) in BulkRun(s, ps, net).data.skippedExists
  {
    Partition(s, ps, net);
    RunPrefix(s, ps, net, i);
    RunPrefix(s, ps, net, i + 1);
    Partition(s, ps[..i], net);
    ListedRowSkipped(s, ps, net, i);
    var b1 := BulkRun(s, ps[..i + 1], net);
    assert b1.kinds[i] == Exists;
    assert b1.data.skippedExists[|b1.data.skippedExists| - 1] == SkuOf(ps[i]);
  }

  /** A reference repeated in the catalogue is created once: when the first
      row with it was created and the lookup for a later one is answered,
      the later one is reported as already there. */
  lemma RepeatedReferenceExists(s: Shop, ps: seq<ErpProduct>, net: nat -> BulkReply, p: ErpProduct)
    requires BulkRun(s, ps, net).fault.None?
    requires SkuOf(p) in BulkRun(s, ps, net).data.created && !NoStockRow(p)
    requires net(|ps|).lookup == Served
    ensures var b := BulkRun(s, ps + [p], net);
      && b.fault.None? && b.kinds == BulkRun(s, ps, net).kinds + [Exists]
      && b.data.created == BulkRun(s, ps, net).data.created
  {
    CreatedAreListed(s, ps, net);
    var b0 := BulkRun(s, ps, net);
    assert (ps + [p])[..|ps|] == ps;
    RunStep(s, ps + [p], net);
    ExistsMeansListed(b0.shop, SkuOf(p), Served);
  }

  /** `create_products_bulk()`: reads the catalogue once and handles the
      rows in order; the answer is a success whatever happened to the
      single rows, unless an exception escapes the loop. */
  method CreateProductsBulk(up: Upstream, cfg: Config, net: nat -> BulkReply) returns (r: Response<BulkData>)
    modifies up
    ensures var (answer, shop, calls) := Bulked(old(up.State()), up.erp, cfg, net);
            r == answer && up.State() == shop && up.log == old(up.log) + calls
  {
    if !Configured(cfg) {
      return Error("500", NotConfiguredMessage, None);
    }
    ghost var s0 := up.State();
    ghost var log0 := up.log;
    var created: seq<string> := [];
    var skippedNoStock: seq<int> := [];
    var skippedExists: seq<string> := [];
    var failed: seq<string> := [];
    var products := up.ReadErpCatalog();
    var i := 0;
    while i < |products|
      invariant 0 <= i <= |products| && products == up.erp
      invariant var b := BulkRun(s0, products[..i], net);
        && b.fault.None?
        && b.data == BulkData(created, skippedNoStock, skippedExists, failed)
        && up.State() == b.shop
        && up.log == log0 + [ErpSearchAll] + b.calls
      decreases |products| - i
    {
      ghost var b := BulkRun(s0, products[..i], net);
      var p := products[i];
      var v := HandleRow(up, p, net(i));
      if v.Crash? {
        RowRaises(s0, products, net, i, v.fault);
        AppendAssoc(log0 + [ErpSearchAll], b.calls, [LookupReferenceJson(SkuOf(p))]);
        AppendAssoc(log0, [ErpSearchAll], b.calls + [LookupReferenceJson(SkuOf(p))]);
        return Crashed(v.fault);
      }
      var k := v.value;
      RowHandled(s0, products, net, i, k);
      AppendAssoc(log0 + [ErpSearchAll], b.calls, CallsFor(p, k));
      match k {
        case NoStock => skippedNoStock := skippedNoStock + [p.id];
        case Exists => skippedExists := skippedExists + [SkuOf(p)];
        case Created => created := created + [SkuOf(p)];
        case Failed => failed := failed + [SkuOf(p)];
      }
      i := i + 1;
    }
    assert products[..i] == products;
    AppendAssoc(log0, [ErpSearchAll], BulkRun(s0, products, net).calls);
    r := Success(BulkData(created, skippedNoStock, skippedExists, failed));
  }

  /** The loop body on row `p`: skips a row without reference or stock,
      looks the reference up, and creates the product when it is not found. */
  method HandleRow(up: Upstream, p: ErpProduct, reply: BulkReply) returns (v: Result<Kind>)
    modifies up
    ensures v == Verdict(old(up.State()), p, reply)
    ensures v.Ok? ==> up.State() == ShopAfter(old(up.State()), p, v.value, reply)
                      && up.log == old(up.log) + CallsFor(p, v.value)
    ensures v.Crash? ==> up.State() == old(up.State()) && up.log == old(up.log) + [LookupReferenceJson(SkuOf(p))]
  {
    var sku := SkuOf(p);
    var stock := p.qtyAvailable;
    if sku == "" || stock <= 0.0 {
      return Ok(NoStock);
    }
    var body := up.LookupJson(sku, reply.lookup);
    var found := ProductExists(body);
    if found.Crash? {
      return Crash(found.fault);
    }
    if found.value {
      return Ok(Exists);
    }
    up.Create(CreateName(p), sku, p.listPrice, reply.create);
    v := Ok(if Accepted(reply.create) then Created else Failed);
    assert CallsFor(p, v.value) == [LookupReferenceJson(sku), CreateProduct(CreateName(p), sku, p.listPrice)];
  }
}
