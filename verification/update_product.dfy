/** `GET /update-products`: lists the storefront catalogue, shapes it like
    `GET /product` and sends the shaped list to the ERP. */
module UpdateProduct {
  import opened Common
  import opened Text
  import opened Json
  import opened Products

  /** This endpoint's affirmative label, U+0053 U+00ED. */
  const Yes: string := "S\U{00ED}"

  /** `update_products_prestashop()`: the answer, and the list sent to the
      ERP with `PUT /products` when one is sent.  The listing's status is
      not looked at, and the outcome of the `PUT` does not change the answer. */
  function UpdateAnswer(cfg: Config, listing: Listing): (Response<seq<Row>>, Option<seq<Row>>) {
    if !Configured(cfg) then (Error("500", NotConfiguredMessage, None), None)
    else if listing.body.None? then (Crashed(ValueError), None)
    else
      var r := ShapeListing(listing.body.value, Yes);
      (r, if r.Success? then Some(r.data) else None)
  }

  /** Whatever status the listing has, a JSON body is shaped as if it were a
      successful listing; the ERP receives exactly the records answered, and
      only when the answer is a success. */
  lemma UpdateIgnoresStatus(cfg: Config, listing: Listing, status: int)
    ensures UpdateAnswer(cfg, listing) == UpdateAnswer(cfg, listing.(status := status))
    ensures !Configured(cfg) ==> UpdateAnswer(cfg, listing).0 == Error("500", NotConfiguredMessage, None)
    ensures Configured(cfg) && listing.body.Some? ==>
              (UpdateAnswer(cfg, listing).0 == Error("404", NotFoundMessage, None)
               <==> !Truthy(DictFirstProducts(listing.body.value)))
    ensures UpdateAnswer(cfg, listing).1.Some? <==> UpdateAnswer(cfg, listing).0.Success?
    ensures UpdateAnswer(cfg, listing).1.Some? ==> UpdateAnswer(cfg, listing).1.value == UpdateAnswer(cfg, listing).0.data
  {
  }

  /** The two listing endpoints answer alike except for the label: on a
      listing with status 200 they succeed together, with the same records
      up to `activo`, where "Sí" here stands for the other's mojibake. */
  lemma SameShapeAsGetProducts(cfg: Config, listing: Listing)
    requires listing.status == 200
    ensures UpdateAnswer(cfg, listing).0.Success? <==> GetProductsAnswer(cfg, listing).Success?
    ensures UpdateAnswer(cfg, listing).0.Success? ==>
              var a := UpdateAnswer(cfg, listing).0.data;
              var b := GetProductsAnswer(cfg, listing).data;
              && |a| == |b|
              && forall i :: 0 <= i < |a| ==>
                   && a[i].(active := b[i].active) == b[i]
                   && (a[i].active == Yes <==> b[i].active == MojibakeYes)
  {
    if Configured(cfg) && listing.body.Some? {
      var products := DictFirstProducts(listing.body.value);
      if Truthy(products) && Items(products).Ok? {
        var items := Items(products).value;
        ShapedPointwise(items, Yes);
        ShapedPointwise(items, MojibakeYes);
      }
    }
  }

  /** `update_products_prestashop()`: the answer and the list sent to the ERP. */
  method UpdateProducts(cfg: Config, listing: Listing, putStatus: int) returns (r: Response<seq<Row>>, sent: Option<seq<Row>>)
    ensures (r, sent) == UpdateAnswer(cfg, listing)
  {
    if !Configured(cfg) {
      return Error("500", NotConfiguredMessage, None), None;
    }
    if listing.body.None? {
      return Crashed(ValueError), None;
    }
    r := AnswerListing(listing.body.value, Yes);
    sent := None;
    if r.Success? {
      sent := Some(r.data);
    }
  }
}
