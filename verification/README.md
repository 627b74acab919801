# Odoo → PrestaShop bridge: a verified model

This project models the part of the bridge between the Odoo ERP and the
PrestaShop storefront that makes decisions rather than just relaying a call:

- `GET /products/from-odoo/{reference}` (`import_product_from_odoo`): reads
  one ERP product by internal reference, finds or creates the storefront
  product with that reference, then sets its stock record to the ERP's
  available quantity with a PATCH, falling back to a full PUT;
- `POST /products/from-odoo/bulk` (`create_products_bulk`): walks the whole
  ERP catalogue and sorts every row into `created`, `skipped_no_stock`,
  `skipped_exists` or `errors`;
- `GET /product/{reference}` (`deactivate_product`): finds a storefront
  product by reference, rewrites its XML document with `active` set to 0
  and without the five fields the storefront refuses, and writes it back;
- `GET /product` (`get_products`) and `GET /update-products`
  (`update_products_prestashop`): list the storefront catalogue and shape
  every product into a flat record (`id`, `nombre`, `referencia`, `precio`,
  `stock`, `activo`); the second sends the shaped list to the ERP.

The modules:

- `Common` (`common.dfy`): options, the Python exceptions that escape an
  endpoint (`Fault`), the configuration and the `{status, data, errors}`
  envelope (`Response`).
- `Text` (`text.dfy`): `strip`, `str(int)`, `int(float)` and `[:n]`.
- `Json` (`json.dfy`): decoded JSON bodies, Python truthiness, `dict.get`,
  `str()`, and the two list-or-dict normalisations of a product listing.
- `XmlTokens` (`xml_tokens.dfy`): XML text as a list of tokens and the
  regular-expression helper `_tag` on it.
- `Remote` (`remote.dfy`): the ERP catalogue and the storefront as values
  (reference → product id, product id → stock record, id counters), what an
  accepted create, PATCH or PUT does to them, and the class `Upstream`
  whose methods make one call each and log it.
- `ReferenceCreate`, `BulkCreate`, `ProductDeactivate`, `Products`,
  `UpdateProduct`: one module per endpoint file.

Each endpoint is a specification function (`Import`, `Bulked`,
`Deactivation`, `GetProductsAnswer`, `UpdateAnswer`) and a method that
performs the steps in the source's order and is proved equal to it; the
properties are lemmas about the specification function.  Remote answers
(status codes, whether a body is JSON, whether XML parses) are inputs.

Some behaviours of the code are kept as written: the single import
reports "creado" / "actualizado"; the bulk import has no "updated" list,
and a product already in the storefront goes to `skipped_exists`; `get_products` labels active products with the three
characters "S", U+00C3 ("Ã") and U+00AD (a soft hyphen), which is the
UTF-8 encoding of "Sí" read back as Latin-1, while
`update_products_prestashop` uses "Sí"; and `update_products_prestashop`
shapes the body whatever the listing's status, since its status check is
commented out.

## Model

| member | source | states |
|---|---|---|
| Common.RStripSlash | src/repo_api_equipo_e/routers/Prestashop/referenceCreateFromOdoo.py:9 | `rstrip("/")` keeps a prefix of the setting, drops only slashes, and leaves none at the end |
| Text.LStrip | src/repo_api_equipo_e/routers/Prestashop/referenceCreateFromOdoo.py:25 | `lstrip` never leaves leading whitespace and never lengthens |
| Text.RStrip | src/repo_api_equipo_e/routers/Prestashop/referenceCreateFromOdoo.py:25 | `rstrip` keeps a prefix and never leaves trailing whitespace |
| Text.Strip | src/repo_api_equipo_e/routers/Prestashop/referenceCreateFromOdoo.py:25 | the result of `strip` has no whitespace at either end, and a string without any is left as it is |
| Text.LStripDropsLeadingSpace | src/repo_api_equipo_e/routers/Prestashop/referenceCreateFromOdoo.py:25 | `lstrip` removes exactly a leading run of whitespace |
| Text.RStripDropsTrailingSpace | src/repo_api_equipo_e/routers/Prestashop/referenceCreateFromOdoo.py:25 | `rstrip` removes exactly a trailing run of whitespace |
| Text.StripTrims | src/repo_api_equipo_e/routers/Prestashop/referenceCreateFromOdoo.py:25 | `strip(s)` is a slice `s[i..j]` with only whitespace outside it |
| Text.LStripSkipsSpace | src/repo_api_equipo_e/routers/Prestashop/referenceCreateFromOdoo.py:24 | whitespace in front (the pattern's leading `\s*`) does not change what `lstrip` keeps |
| Text.RStripSkipsSpace | src/repo_api_equipo_e/routers/Prestashop/referenceCreateFromOdoo.py:24 | whitespace at the end (the pattern's trailing `\s*`) does not change what `rstrip` keeps |
| Text.NatToString | src/repo_api_equipo_e/routers/Prestashop/referenceCreateFromOdoo.py:99 | `str(n)` is a non-empty string of decimal digits |
| Text.DecimalOfNatToString | src/repo_api_equipo_e/routers/Prestashop/referenceCreateFromOdoo.py:99 | reading back the digits `str(n)` writes gives `n` |
| Text.IntToString | src/repo_api_equipo_e/routers/Prestashop/referenceCreateFromOdoo.py:99 | `str(i)` is non-empty and unpadded |
| Text.IntToStringValue | src/repo_api_equipo_e/routers/Prestashop/referenceCreateFromOdoo.py:99 | `str(i)` reads back as `i`: for `i >= 0` the digits whose decimal value is `i`, for `i < 0` a minus sign followed by the digits of `-i` |
| Text.Trunc | src/repo_api_equipo_e/routers/Prestashop/referenceCreateFromOdoo.py:99 | `int(x)` truncates toward zero: within one of `x`, on the side of zero |
| Text.Take | src/repo_api_equipo_e/routers/Prestashop/productDeactivate.py:140 | `text[:300]` is a prefix of at most 300 characters, the whole text when it is shorter |
| Json.PyStr | src/repo_api_equipo_e/routers/Prestashop/productDeactivate.py:123 | `str()` of a JSON string is the string, of an integer its decimal form, of null "None", of a boolean "True" or "False", and of a list or a dict a non-empty, unpadded text |
| Json.ListFirstProducts | src/repo_api_equipo_e/routers/Prestashop/bulkCreateFromOdoo.py:32-34 | a list body is the collection, a dict body its `products` entry or `[]`, and any other body raises `AttributeError` |
| Json.DictFirstProducts | src/repo_api_equipo_e/routers/Prestashop/products.py:50-53 | a dict body gives its `products` entry or `[]`, anything else is the collection itself |
| Json.NormalisationsAgree | src/repo_api_equipo_e/routers/Prestashop/bulkCreateFromOdoo.py:33 | the two normalisations agree on lists and dicts and differ only on scalars |
| XmlTokens.FirstOpen | src/repo_api_equipo_e/routers/Prestashop/referenceCreateFromOdoo.py:24 | finds the first opening tag that `<name[^>]*>` matches from a position, or proves there is none |
| XmlTokens.FirstClose | src/repo_api_equipo_e/routers/Prestashop/referenceCreateFromOdoo.py:24 | finds the first `</name>` from a position, or proves there is none |
| XmlTokens.Group | src/repo_api_equipo_e/routers/Prestashop/referenceCreateFromOdoo.py:24-25 | the captured group, stripped, never has whitespace at either end |
| XmlTokens.DropOpenMarker | src/repo_api_equipo_e/routers/Prestashop/referenceCreateFromOdoo.py:24 | an optional `<![CDATA[` in front is removed |
| XmlTokens.DropCloseMarker | src/repo_api_equipo_e/routers/Prestashop/referenceCreateFromOdoo.py:24 | an optional `]]>` at the end is removed |
| XmlTokens.Tag | src/repo_api_equipo_e/routers/Prestashop/referenceCreateFromOdoo.py:23-25 | `_tag` gives nothing exactly when no element is spanned, and otherwise an unpadded value |
| XmlTokens.InnerMeaning | src/repo_api_equipo_e/routers/Prestashop/referenceCreateFromOdoo.py:23-25 | `_tag` is absent iff no matching opening is followed by `</name>`; otherwise it spans the first matching opening to the first `</name>` after it |
| XmlTokens.NoCloseAfterFirstOpen | src/repo_api_equipo_e/routers/Prestashop/referenceCreateFromOdoo.py:24 | if the first matching opening has no closing after it, no later opening has one |
| XmlTokens.GroupOfCData | src/repo_api_equipo_e/routers/Prestashop/referenceCreateFromOdoo.py:24-25 | a CDATA-wrapped unpadded value reads back as itself |
| XmlTokens.GroupStripsWrapper | src/repo_api_equipo_e/routers/Prestashop/referenceCreateFromOdoo.py:24-25 | whitespace, the CDATA wrapper and the padding of the value are all removed |
| XmlTokens.GroupOfNothing | src/repo_api_equipo_e/routers/Prestashop/referenceCreateFromOdoo.py:24-25 | an empty element reads as "" |
| XmlTokens.TagOfLeadingField | src/repo_api_equipo_e/routers/Prestashop/referenceCreateFromOdoo.py:23-25 | a field at the start of a body reads back as the value written in it |
| XmlTokens.FirstOpenIs | src/repo_api_equipo_e/routers/Prestashop/referenceCreateFromOdoo.py:24 | the search for an opening stops at the first one |
| XmlTokens.FirstCloseIs | src/repo_api_equipo_e/routers/Prestashop/referenceCreateFromOdoo.py:24 | the search for a closing stops at the first one |
| XmlTokens.FirstOpenPast | src/repo_api_equipo_e/routers/Prestashop/referenceCreateFromOdoo.py:24 | tokens without matching openings in front shift the first opening and nothing else |
| XmlTokens.FirstClosePast | src/repo_api_equipo_e/routers/Prestashop/referenceCreateFromOdoo.py:24 | tokens in front shift the first closing and nothing else |
| XmlTokens.InnerSkips | src/repo_api_equipo_e/routers/Prestashop/referenceCreateFromOdoo.py:23-25 | tokens without matching openings in front do not change what the pattern spans |
| XmlTokens.TagSkips | src/repo_api_equipo_e/routers/Prestashop/referenceCreateFromOdoo.py:23-25 | tokens without matching openings in front do not change `_tag` |
| XmlTokens.SkipField | src/repo_api_equipo_e/routers/Prestashop/referenceCreateFromOdoo.py:23-25 | a field whose name the searched name is not a prefix of is passed over |
| XmlTokens.TagOfField | src/repo_api_equipo_e/routers/Prestashop/referenceCreateFromOdoo.py:23-25 | a field reads back as written when no earlier opening matches its name |
| XmlTokens.ReadFields | src/repo_api_equipo_e/routers/Prestashop/referenceCreateFromOdoo.py:83-93 | field `i` of a run of fields reads back as written when its name is no prefix of an earlier field's name |
| XmlTokens.TagOfAbsent | src/repo_api_equipo_e/routers/Prestashop/referenceCreateFromOdoo.py:25 | a body without a matching opening gives `None` |
| Remote.SkuOf | src/repo_api_equipo_e/routers/Prestashop/referenceCreateFromOdoo.py:139 | `(default_code or "").strip()` is unpadded, and empty when the ERP has no code |
| Remote.ErpSearchRead | src/repo_api_equipo_e/routers/Prestashop/referenceCreateFromOdoo.py:13-20 | `search_read` on `default_code` returns exactly the catalogue rows with that code |
| Remote.ErpSearchReadFirst | src/repo_api_equipo_e/routers/Prestashop/referenceCreateFromOdoo.py:13-20 | the first row answered is the earliest catalogue row with the code |
| Remote.ErpSearchReadCounts | src/repo_api_equipo_e/routers/Prestashop/referenceCreateFromOdoo.py:13-20 | each row with the code is answered as many times as the catalogue holds it, and no other row is |
| Remote.AfterCreate | src/repo_api_equipo_e/routers/Prestashop/referenceCreateFromOdoo.py:66-71 | a refused create changes nothing; an accepted one uses up one product id and one stock id |
| Remote.CreateEffect | src/repo_api_equipo_e/routers/Prestashop/referenceCreateFromOdoo.py:66-71 | an accepted create lists the reference (under its first product), keeps every other listing and gives the new product the initial stock record |
| Remote.AfterPatch | src/repo_api_equipo_e/routers/Prestashop/referenceCreateFromOdoo.py:101-106 | a PATCH changes only the stock records, and nothing when refused |
| Remote.PatchEffect | src/repo_api_equipo_e/routers/Prestashop/referenceCreateFromOdoo.py:101-106 | an accepted PATCH sets the quantity of the records with that id and leaves the others |
| Remote.AfterPut | src/repo_api_equipo_e/routers/Prestashop/referenceCreateFromOdoo.py:120-125 | a PUT changes only the stock records, and nothing when refused |
| Remote.PutEffect | src/repo_api_equipo_e/routers/Prestashop/referenceCreateFromOdoo.py:120-125 | an accepted PUT replaces the records with that id and leaves the others |
| Remote.StockPairs | src/repo_api_equipo_e/routers/Prestashop/referenceCreateFromOdoo.py:110-119 | a stock body carries the eight fields in the storefront's order, each unpadded when the record is |
| Remote.ValidAfterCreate | src/repo_api_equipo_e/routers/Prestashop/referenceCreateFromOdoo.py:66-71 | a create keeps every id and field unpadded |
| Remote.ValidAfterPatch | src/repo_api_equipo_e/routers/Prestashop/referenceCreateFromOdoo.py:101-106 | a PATCH keeps every field unpadded |
| Remote.ValidAfterPut | src/repo_api_equipo_e/routers/Prestashop/referenceCreateFromOdoo.py:120-125 | a PUT of an unpadded record keeps every field unpadded |
| Remote.Upstream.SearchErp | src/repo_api_equipo_e/routers/Prestashop/referenceCreateFromOdoo.py:13-20 | returns the rows with the reference and logs one ERP search |
| Remote.Upstream.ReadErpCatalog | src/repo_api_equipo_e/routers/Prestashop/bulkCreateFromOdoo.py:12-19 | returns the whole catalogue and logs one ERP read |
| Remote.Upstream.LookupXml | src/repo_api_equipo_e/routers/Prestashop/referenceCreateFromOdoo.py:32-37 | on 200 answers the XML listing of the reference, and logs one lookup |
| Remote.Upstream.LookupJson | src/repo_api_equipo_e/routers/Prestashop/bulkCreateFromOdoo.py:23-32 | answers the JSON listing of the reference, or an error or non-JSON body, and logs one lookup |
| Remote.Upstream.Create | src/repo_api_equipo_e/routers/Prestashop/referenceCreateFromOdoo.py:40-71 | applies the create's effect and logs one create |
| Remote.Upstream.FetchStockOf | src/repo_api_equipo_e/routers/Prestashop/referenceCreateFromOdoo.py:73-81 | on 200 answers the stock listing of the product, and logs one stock GET |
| Remote.Upstream.Patch | src/repo_api_equipo_e/routers/Prestashop/referenceCreateFromOdoo.py:95-106 | applies the PATCH's effect and logs it with its body |
| Remote.Upstream.Put | src/repo_api_equipo_e/routers/Prestashop/referenceCreateFromOdoo.py:108-125 | applies the PUT's effect and logs it with its body |
| ReferenceCreate.TagOr | src/repo_api_equipo_e/routers/Prestashop/referenceCreateFromOdoo.py:88-92 | `_tag(...) or default` is the field when non-empty, the default otherwise |
| ReferenceCreate.ParseStockInfo | src/repo_api_equipo_e/routers/Prestashop/referenceCreateFromOdoo.py:83-93 | `id` and `id_product` have no default; the five others default to "0", "1", "0", "0", "2" when absent or empty |
| ReferenceCreate.ParsedInfoWellFormed | src/repo_api_equipo_e/routers/Prestashop/referenceCreateFromOdoo.py:83-93 | every parsed field is unpadded and every defaulted one non-empty |
| ReferenceCreate.Shown | src/repo_api_equipo_e/routers/Prestashop/referenceCreateFromOdoo.py:111-112 | an f-string of a missing field prints "None" |
| ReferenceCreate.StockNamesUnprefixed | src/repo_api_equipo_e/routers/Prestashop/referenceCreateFromOdoo.py:110-119 | no stock field name is a prefix of an earlier one, so each is found at its own element |
| ReferenceCreate.ReadStockField | src/repo_api_equipo_e/routers/Prestashop/referenceCreateFromOdoo.py:83-93 | each field of a stock body reads back as written |
| ReferenceCreate.ReadStockFields | src/repo_api_equipo_e/routers/Prestashop/referenceCreateFromOdoo.py:83-93 | all eight fields of a stock body read back as written |
| ReferenceCreate.InfoOf | src/repo_api_equipo_e/routers/Prestashop/referenceCreateFromOdoo.py:83-93 | what `parse_stock_info` yields for a record: its `id` and `id_product`, each of the five other fields defaulted when empty; `ParseStockBody` and `ParseRecordListing` prove that parsing a body holding the record gives exactly this |
| ReferenceCreate.ParseStockBody | src/repo_api_equipo_e/routers/Prestashop/referenceCreateFromOdoo.py:83-93 | parsing a body holding one record gives its fields, defaulted where empty |
| ReferenceCreate.ParseRecordListing | src/repo_api_equipo_e/routers/Prestashop/referenceCreateFromOdoo.py:83-93 | parsing the stock listing of a product gives its record's fields |
| ReferenceCreate.ParseEmptyListing | src/repo_api_equipo_e/routers/Prestashop/referenceCreateFromOdoo.py:83-93 | parsing a listing with no record gives no id and the defaults |
| ReferenceCreate.PatchStockDoc | src/repo_api_equipo_e/routers/Prestashop/referenceCreateFromOdoo.py:95-100 | the PATCH body `patch_stock_quantity` sends; `PatchStockRoundTrip` proves that reading its `id` and `quantity` back gives the stock id and the integer quantity |
| ReferenceCreate.PutRecord | src/repo_api_equipo_e/routers/Prestashop/referenceCreateFromOdoo.py:108-119 | the record `put_stock_full` writes: the parsed fields with the new quantity; `PutKeepsRecord` proves it is the record read with only the quantity changed |
| ReferenceCreate.PutStockDoc | src/repo_api_equipo_e/routers/Prestashop/referenceCreateFromOdoo.py:108-119 | the full PUT body; `PutStockRoundTrip` proves that parsing it back gives the parsed record with the new quantity |
| ReferenceCreate.PutStockRoundTrip | src/repo_api_equipo_e/routers/Prestashop/referenceCreateFromOdoo.py:108-119 | the full PUT body parses back to the parsed record, with the new quantity in it |
| ReferenceCreate.PatchStockRoundTrip | src/repo_api_equipo_e/routers/Prestashop/referenceCreateFromOdoo.py:95-100 | the PATCH body carries the stock id and the new quantity |
| ReferenceCreate.PutKeepsRecord | src/repo_api_equipo_e/routers/Prestashop/referenceCreateFromOdoo.py:108-119 | the PUT rewrites the record it read with the new quantity and nothing else |
| ReferenceCreate.LookupId | src/repo_api_equipo_e/routers/Prestashop/referenceCreateFromOdoo.py:32-38 | no id unless the lookup answered 200, and then the id the reference is listed under |
| ReferenceCreate.LookupReadsListing | src/repo_api_equipo_e/routers/Prestashop/referenceCreateFromOdoo.py:27-38 | `_first_id` of the listing is that id |
| ReferenceCreate.FetchedInfo | src/repo_api_equipo_e/routers/Prestashop/referenceCreateFromOdoo.py:73-81 | the stock read fails exactly when the GET is not 200, and has an id exactly when the product has a record |
| ReferenceCreate.StockListingNotEmpty | src/repo_api_equipo_e/routers/Prestashop/referenceCreateFromOdoo.py:164 | a listing answered with 200 is never the empty text |
| ReferenceCreate.EmptyListingLacks | src/repo_api_equipo_e/routers/Prestashop/referenceCreateFromOdoo.py:83-93 | a listing without a record holds none of the record's fields |
| ReferenceCreate.FetchedInfoIsParsed | src/repo_api_equipo_e/routers/Prestashop/referenceCreateFromOdoo.py:163-169 | what the endpoint reads is `parse_stock_info` of the listing |
| ReferenceCreate.WriteStock | src/repo_api_equipo_e/routers/Prestashop/referenceCreateFromOdoo.py:174-179 | the PATCH, the PUT fallback after a refused PATCH, and the error when both are refused; `WriteStockCalls` and `WriteStockEffect` state the calls, the outcome and the storefront afterwards |
| ReferenceCreate.SyncStock | src/repo_api_equipo_e/routers/Prestashop/referenceCreateFromOdoo.py:162-179 | the stock fetch, the two skips (no record, no valid id) and the write; `SyncStockCalls` and `SyncStockEffect` state which input leads to which outcome and the calls made |
| ReferenceCreate.CreateAndSync | src/repo_api_equipo_e/routers/Prestashop/referenceCreateFromOdoo.py:154-179 | create, look the reference up again, then sync the stock; `CreateAndSyncCalls` states the outcome for a refused create and for an id not recovered |
| ReferenceCreate.Place | src/repo_api_equipo_e/routers/Prestashop/referenceCreateFromOdoo.py:149-179 | update when the lookup finds the reference, create otherwise; `PlaceCalls`, `PlaceFound`, `PlaceAbsent` and `PlaceEffect` state the branch taken, the calls and the storefront afterwards |
| ReferenceCreate.Import | src/repo_api_equipo_e/routers/Prestashop/referenceCreateFromOdoo.py:128-191 | `import_product_from_odoo`: the configuration check, the ERP search, the zero price and stock skip, then placing the product; `ImportCalls`, `ImportAnswers`, `ImportedRow`, `ImportCreates`, `ImportEffect` and `ImportAgainUpdates` state its answers, calls and effect |
| ReferenceCreate.WriteStockCalls | src/repo_api_equipo_e/routers/Prestashop/referenceCreateFromOdoo.py:174-179 | PATCH first; the PUT only after a refused PATCH and with the parsed record; an error only when both are refused |
| ReferenceCreate.SyncStockCalls | src/repo_api_equipo_e/routers/Prestashop/referenceCreateFromOdoo.py:163-179 | the stock GET comes first; a missing record or id ends there with no write and no change; only stock calls follow |
| ReferenceCreate.CreateAndSyncCalls | src/repo_api_equipo_e/routers/Prestashop/referenceCreateFromOdoo.py:154-160 | the create comes first, the import fails exactly when it is refused, a lost id makes no stock call, and a success reports "creado" |
| ReferenceCreate.PlaceCalls | src/repo_api_equipo_e/routers/Prestashop/referenceCreateFromOdoo.py:150-160 | the lookup by reference comes first and the order of calls is kept |
| ReferenceCreate.AnswerOf | src/repo_api_equipo_e/routers/Prestashop/referenceCreateFromOdoo.py:130-191 | the answer is the `{status, data, errors}` envelope with code "500" exactly for a missing configuration; every other outcome is `{status, message}` with its status and message, carrying `data` (id, reference, name, price, stock) exactly on success |
| ReferenceCreate.ImportAnswers | src/repo_api_equipo_e/routers/Prestashop/referenceCreateFromOdoo.py:130-191 | the envelope answer is given exactly when the configuration is missing |
| ReferenceCreate.ImportCalls | src/repo_api_equipo_e/routers/Prestashop/referenceCreateFromOdoo.py:130-147 | no configuration: the error envelope with code "500" and no call; otherwise the ERP search first; a missing reference or a zero product makes no other call and changes nothing |
| ReferenceCreate.WriteStockEffect | src/repo_api_equipo_e/routers/Prestashop/referenceCreateFromOdoo.py:174-179 | the writes touch stock records only, keep the storefront valid, and an accepted one sets the quantity |
| ReferenceCreate.SyncStockEffect | src/repo_api_equipo_e/routers/Prestashop/referenceCreateFromOdoo.py:163-179 | on success the product's stock record holds the truncated ERP quantity |
| ReferenceCreate.PlaceFound | src/repo_api_equipo_e/routers/Prestashop/referenceCreateFromOdoo.py:150-151 | a product found by reference is never created and is reported "actualizado" under its id |
| ReferenceCreate.PlaceAbsent | src/repo_api_equipo_e/routers/Prestashop/referenceCreateFromOdoo.py:154-160 | a product not found is created exactly once and reported "creado" |
| ReferenceCreate.PlaceEffect | src/repo_api_equipo_e/routers/Prestashop/referenceCreateFromOdoo.py:150-179 | after a success the reference is listed under the reported id, whose stock holds the truncated quantity |
| ReferenceCreate.ImportedRow | src/repo_api_equipo_e/routers/Prestashop/referenceCreateFromOdoo.py:133-136 | with configuration, the row imported is the earliest catalogue row with the reference; there is none exactly when the search answers nothing |
| ReferenceCreate.ImportCreates | src/repo_api_equipo_e/routers/Prestashop/referenceCreateFromOdoo.py:144-160 | skipped exactly when price and stock are zero; at most one create, made exactly when the lookup failed, and "creado" exactly then |
| ReferenceCreate.ImportEffect | src/repo_api_equipo_e/routers/Prestashop/referenceCreateFromOdoo.py:128-191 | every import keeps the storefront valid; a success leaves the reference listed under the reported id with the ERP quantity |
| ReferenceCreate.ImportAgainUpdates | src/repo_api_equipo_e/routers/Prestashop/referenceCreateFromOdoo.py:150-151 | importing again after a success creates nothing and reports "actualizado" under the same id |
| ReferenceCreate.GetProductIdByReference | src/repo_api_equipo_e/routers/Prestashop/referenceCreateFromOdoo.py:32-38 | the method reads the id the reference is listed under, with one logged lookup |
| ReferenceCreate.ReadStockBody | src/repo_api_equipo_e/routers/Prestashop/referenceCreateFromOdoo.py:164-169 | the emptiness check and the parse give the stock read of `FetchedInfo` |
| ReferenceCreate.WriteStockOf | src/repo_api_equipo_e/routers/Prestashop/referenceCreateFromOdoo.py:175-179 | the method makes the calls and the changes of `WriteStock` |
| ReferenceCreate.SyncStockOf | src/repo_api_equipo_e/routers/Prestashop/referenceCreateFromOdoo.py:163-179 | the method makes the calls and the changes of `SyncStock` |
| ReferenceCreate.CreateAndFind | src/repo_api_equipo_e/routers/Prestashop/referenceCreateFromOdoo.py:154-160 | the create, then a new lookup only when it was accepted |
| ReferenceCreate.CreateAndSyncOf | src/repo_api_equipo_e/routers/Prestashop/referenceCreateFromOdoo.py:154-179 | the method makes the calls and the changes of `CreateAndSync` |
| ReferenceCreate.PlaceOf | src/repo_api_equipo_e/routers/Prestashop/referenceCreateFromOdoo.py:150-179 | the method makes the calls and the changes of `Place` |
| ReferenceCreate.ImportProduct | src/repo_api_equipo_e/routers/Prestashop/referenceCreateFromOdoo.py:128-191 | the endpoint's outcome, storefront and call log are those of `Import` |
| BulkCreate.ProductExists | src/repo_api_equipo_e/routers/Prestashop/bulkCreateFromOdoo.py:22-34 | true iff the normalised collection is non-empty; a non-JSON body or a scalar raises |
| BulkCreate.ExistsMeansListed | src/repo_api_equipo_e/routers/Prestashop/bulkCreateFromOdoo.py:22-34 | the lookup says "exists" exactly when the reference is listed; an error answer reads as absent |
| BulkCreate.NoStockRow | src/repo_api_equipo_e/routers/Prestashop/bulkCreateFromOdoo.py:66-71 | a row without SKU or without positive stock; `Verdict` proves such a row, and only such a row, is skipped for stock, and `NoStockIsInputOnly` that the list of these rows does not depend on the storefront |
| BulkCreate.CreateName | src/repo_api_equipo_e/routers/Prestashop/bulkCreateFromOdoo.py:77 | the name `create_product` receives; `CallsFor` proves the create call carries it with the SKU and the price |
| BulkCreate.Verdict | src/repo_api_equipo_e/routers/Prestashop/bulkCreateFromOdoo.py:66-78 | a row is skipped for stock exactly when its SKU is empty or its stock is not positive; otherwise it lands in `skipped_exists` exactly when `product_exists` answers true, raises exactly when `product_exists` raises, and a create lands in `created` iff answered 200/201 |
| BulkCreate.ListedIsExists | src/repo_api_equipo_e/routers/Prestashop/bulkCreateFromOdoo.py:69-75 | a row with SKU and stock whose reference the storefront lists and answers for is reported as existing |
| BulkCreate.ListedRowSkipped | src/repo_api_equipo_e/routers/Prestashop/bulkCreateFromOdoo.py:69-75 | such a row, in the loop, only appends its SKU to `skipped_exists` and its lookup to the calls: no create, storefront unchanged |
| BulkCreate.RunPrefix | src/repo_api_equipo_e/routers/Prestashop/bulkCreateFromOdoo.py:65-78 | a loop that ran to the end passed every shorter run without raising; their kinds and `skipped_exists` are prefixes of its own |
| BulkCreate.ListedIsSkipped | src/repo_api_equipo_e/routers/Prestashop/bulkCreateFromOdoo.py:65-75 | in a loop that ran to the end, every row with SKU and stock already listed in the storefront is of kind "exists" and its SKU is in `skipped_exists` |
| BulkCreate.Add | src/repo_api_equipo_e/routers/Prestashop/bulkCreateFromOdoo.py:69-78 | a row is appended to exactly one list, the one of its kind |
| BulkCreate.CallsFor | src/repo_api_equipo_e/routers/Prestashop/bulkCreateFromOdoo.py:69-78 | no call for a stock skip, one lookup for an existing one, a lookup and one create otherwise |
| BulkCreate.StepOk | src/repo_api_equipo_e/routers/Prestashop/bulkCreateFromOdoo.py:69-78 | a row handled without raising extends its own list, the storefront by its create, the calls and the kinds by that row's share, and leaves no fault |
| BulkCreate.Step | src/repo_api_equipo_e/routers/Prestashop/bulkCreateFromOdoo.py:65-78 | one pass of the loop body; `StepOk` and `RowRaises` state the pass that handles the row and the one that raises |
| BulkCreate.BulkRun | src/repo_api_equipo_e/routers/Prestashop/bulkCreateFromOdoo.py:64-78 | the loop over the catalogue; `Partition`, `PickedCover`, `RunPrefix`, `FaultSticks`, `CallsPerRow` and `ListedIsSkipped` state what a run keeps in each list and in which order |
| BulkCreate.Bulked | src/repo_api_equipo_e/routers/Prestashop/bulkCreateFromOdoo.py:54-89 | `create_products_bulk`: the configuration check, the catalogue read and the loop; `BulkedAnswer` states the answer and the first call |
| BulkCreate.BulkedAnswer | src/repo_api_equipo_e/routers/Prestashop/bulkCreateFromOdoo.py:55-89 | no configuration: 500 before the catalogue is read; otherwise the catalogue is read first and the answer is a success whatever happened to single rows |
| BulkCreate.PickedCover | src/repo_api_equipo_e/routers/Prestashop/bulkCreateFromOdoo.py:60-78 | every row is picked for exactly one kind |
| BulkCreate.RowRaises | src/repo_api_equipo_e/routers/Prestashop/bulkCreateFromOdoo.py:73 | an exception in the lookup ends the loop with that lookup as the last call |
| BulkCreate.FaultSticks | src/repo_api_equipo_e/routers/Prestashop/bulkCreateFromOdoo.py:65-78 | after an exception the remaining rows change nothing |
| BulkCreate.Partition | src/repo_api_equipo_e/routers/Prestashop/bulkCreateFromOdoo.py:60-78 | each list holds exactly the rows of its kind, in catalogue order |
| BulkCreate.NoStockIsInputOnly | src/repo_api_equipo_e/routers/Prestashop/bulkCreateFromOdoo.py:66-71 | `skipped_no_stock` is the ids of the rows without SKU or stock, whatever the storefront answers |
| BulkCreate.CallsPerRow | src/repo_api_equipo_e/routers/Prestashop/bulkCreateFromOdoo.py:69-78 | one create per row in `created` or `errors`, and the number of calls follows the lists |
| BulkCreate.CreatedAreListed | src/repo_api_equipo_e/routers/Prestashop/bulkCreateFromOdoo.py:77-78 | every SKU reported created is listed afterwards, and no listing disappears |
| BulkCreate.RepeatedReferenceExists | src/repo_api_equipo_e/routers/Prestashop/bulkCreateFromOdoo.py:73-78 | a reference repeated in the catalogue is created once; the later row is reported as existing |
| BulkCreate.CreateProductsBulk | src/repo_api_equipo_e/routers/Prestashop/bulkCreateFromOdoo.py:55-89 | the method's answer, storefront and call log are those of `Bulked` |
| BulkCreate.HandleRow | src/repo_api_equipo_e/routers/Prestashop/bulkCreateFromOdoo.py:66-78 | the loop body decides `Verdict` and makes only its row's change |
| Products.DisplayName | src/repo_api_equipo_e/routers/Prestashop/products.py:68-69 | no name gives "", a name that is not a list is shown as it is, an empty list raises |
| Products.FirstTranslationShown | src/repo_api_equipo_e/routers/Prestashop/products.py:68-69 | a translated name shows the text of its first language |
| Products.Label | src/repo_api_equipo_e/routers/Prestashop/products.py:77 | the affirmative label exactly when `active` is the string "1", else "No" |
| Products.Shape | src/repo_api_equipo_e/routers/Prestashop/products.py:68-78 | a non-dict raises; otherwise the record carries `id`, the name, `reference`, `price`, `quantity` and the label |
| Products.Items | src/repo_api_equipo_e/routers/Prestashop/products.py:67 | iterating a list yields its items, and any other non-empty value raises |
| Products.Shaped | src/repo_api_equipo_e/routers/Prestashop/products.py:66-78 | the shaping loop as a function; `ShapedPointwise`, `ShapedFirstFault` and `ShapedStops` prove it shapes every product in order or raises at the first that cannot be shaped |
| Products.ShapedPointwise | src/repo_api_equipo_e/routers/Prestashop/products.py:66-78 | the loop succeeds iff every product can be shaped, and then gives one record per product, in order |
| Products.ShapedFirstFault | src/repo_api_equipo_e/routers/Prestashop/products.py:66-78 | when the loop raises, it raises the exception of the first product that cannot be shaped |
| Products.ShapedStops | src/repo_api_equipo_e/routers/Prestashop/products.py:66-78 | once a product cannot be shaped the loop's outcome is fixed |
| Products.ShapeProducts | src/repo_api_equipo_e/routers/Prestashop/products.py:66-78 | the loop builds the records of `Shaped` |
| Products.ShapeListing | src/repo_api_equipo_e/routers/Prestashop/products.py:48-85 | normalisation, the 404 check and the shaping, shared with `update_products_prestashop`; `GetProductsErrors`, `GetProductsRows` and `SameShapeAsGetProducts` state its answers |
| Products.GetProductsAnswer | src/repo_api_equipo_e/routers/Prestashop/products.py:12-85 | `get_products`: the answer for a listing; `GetProductsErrors` and `GetProductsRows` state its error cases and its rows |
| Products.GetProductsErrors | src/repo_api_equipo_e/routers/Prestashop/products.py:14-65 | 500 without configuration, the status as code when not 200, a crash on non-JSON, and 404 exactly when the collection is empty |
| Products.GetProductsRows | src/repo_api_equipo_e/routers/Prestashop/products.py:66-85 | a success lists one record per product, in order, labelled affirmative exactly when `active` is "1" |
| Products.GetProducts | src/repo_api_equipo_e/routers/Prestashop/products.py:12-85 | the endpoint's answer is `GetProductsAnswer` |
| Products.AnswerListing | src/repo_api_equipo_e/routers/Prestashop/products.py:48-85 | normalisation, the 404 check and the loop answer `ShapeListing` |
| UpdateProduct.UpdateAnswer | src/repo_api_equipo_e/routers/Prestashop/updateProduct.py:13-92 | `update_products_prestashop`: the answer and the rows sent to the ERP; `UpdateIgnoresStatus` and `SameShapeAsGetProducts` state its answers |
| UpdateProduct.UpdateIgnoresStatus | src/repo_api_equipo_e/routers/Prestashop/updateProduct.py:38-92 | the listing's status changes nothing; 500 without configuration; 404 exactly when the collection is empty; the ERP receives exactly the records answered, and only on success |
| UpdateProduct.SameShapeAsGetProducts | src/repo_api_equipo_e/routers/Prestashop/updateProduct.py:69-82 | on a 200 listing both listing endpoints succeed together with the same records up to the label |
| UpdateProduct.UpdateProducts | src/repo_api_equipo_e/routers/Prestashop/updateProduct.py:14-92 | the endpoint's answer and the list sent are those of `UpdateAnswer`, whatever the PUT answers |
| ProductDeactivate.LocalName | src/repo_api_equipo_e/routers/Prestashop/productDeactivate.py:62 | `tag.split("}")[-1]`; `LocalNameIsSuffix` and `LocalNameOfPlainTag` prove it is the part after the last `}`, and the tag itself when it has none |
| ProductDeactivate.LocalNameIsSuffix | src/repo_api_equipo_e/routers/Prestashop/productDeactivate.py:62 | the local name is the part of the tag after its last `}` |
| ProductDeactivate.LocalNameOfPlainTag | src/repo_api_equipo_e/routers/Prestashop/productDeactivate.py:62 | a tag without a namespace is its own local name |
| ProductDeactivate.ActiveIsWritable | src/repo_api_equipo_e/routers/Prestashop/productDeactivate.py:50-64 | the `active` element just set is never removed |
| ProductDeactivate.Keep | src/repo_api_equipo_e/routers/Prestashop/productDeactivate.py:61-64 | the children left after the removal loop; `KeepSound`, `KeepComplete`, `KeepAppend` and `KeepAllWritable` prove they are exactly the writable ones, in order |
| ProductDeactivate.KeepAppend | src/repo_api_equipo_e/routers/Prestashop/productDeactivate.py:61-64 | the removal keeps the surviving children in document order |
| ProductDeactivate.KeepSound | src/repo_api_equipo_e/routers/Prestashop/productDeactivate.py:61-64 | only writable children survive |
| ProductDeactivate.KeepComplete | src/repo_api_equipo_e/routers/Prestashop/productDeactivate.py:61-64 | every writable child survives |
| ProductDeactivate.KeepAllWritable | src/repo_api_equipo_e/routers/Prestashop/productDeactivate.py:61-64 | children that are all writable are kept whole |
| ProductDeactivate.ActiveIndex | src/repo_api_equipo_e/routers/Prestashop/productDeactivate.py:46 | finds the first child tagged `active`, or proves there is none |
| ProductDeactivate.FindIn | src/repo_api_equipo_e/routers/Prestashop/productDeactivate.py:46-52 | a search result at or below an element is a matching element (first-ness and absence: `FindInFirst`, `FindInNone`) |
| ProductDeactivate.FindAmong | src/repo_api_equipo_e/routers/Prestashop/productDeactivate.py:46-52 | a search result among siblings is a matching element (first-ness and absence: `FindAmongFirst`, `FindAmongNone`) |
| ProductDeactivate.Find | src/repo_api_equipo_e/routers/Prestashop/productDeactivate.py:46-52 | `root.find` returns a path to a matching element below the root (first-ness and absence: `FindFirst`) |
| ProductDeactivate.FindInNone | src/repo_api_equipo_e/routers/Prestashop/productDeactivate.py:46-52 | a search below an element that finds nothing: neither the element nor anything below it matches |
| ProductDeactivate.FindAmongNone | src/repo_api_equipo_e/routers/Prestashop/productDeactivate.py:46-52 | a search from sibling `i` on that finds nothing: nothing at or below those siblings matches |
| ProductDeactivate.FindInFirst | src/repo_api_equipo_e/routers/Prestashop/productDeactivate.py:46-52 | the search below an element answers the first match in document order: nothing before it matches |
| ProductDeactivate.FindAmongFirst | src/repo_api_equipo_e/routers/Prestashop/productDeactivate.py:46-52 | the search from sibling `i` on answers a path starting at `i` or later, and no path before it from `i` on matches |
| ProductDeactivate.FindFirst | src/repo_api_equipo_e/routers/Prestashop/productDeactivate.py:46-52 | `root.find` answers the first matching element below the root in document order, and nothing exactly when no element below the root matches |
| ProductDeactivate.FindIgnoresText | src/repo_api_equipo_e/routers/Prestashop/productDeactivate.py:50-52 | setting the text of an element moves no search result |
| ProductDeactivate.FindWeaker | src/repo_api_equipo_e/routers/Prestashop/productDeactivate.py:46-53 | a document with `product/active` has a product |
| ProductDeactivate.Marked | src/repo_api_equipo_e/routers/Prestashop/productDeactivate.py:50 | the tree with one `active` element set to "0"; `MarkedFacts` proves nothing else changes |
| ProductDeactivate.Stripped | src/repo_api_equipo_e/routers/Prestashop/productDeactivate.py:52-64 | the tree with the first product's non-writable children removed; `StrippedFirst` proves what that product holds afterwards |
| ProductDeactivate.Disabled | src/repo_api_equipo_e/routers/Prestashop/productDeactivate.py:46-64 | the document to send back, if any; `DisabledStripsFirst` and `DisabledMarksActive` prove when there is one, that `active` is "0" in it, and what its first product holds |
| ProductDeactivate.MarkedFacts | src/repo_api_equipo_e/routers/Prestashop/productDeactivate.py:50 | `active.text = "0"` changes that one element of the product holding it |
| ProductDeactivate.StrippedFirst | src/repo_api_equipo_e/routers/Prestashop/productDeactivate.py:52-64 | after the removal loop the first product holds exactly its writable children |
| ProductDeactivate.DisabledStripsFirst | src/repo_api_equipo_e/routers/Prestashop/productDeactivate.py:46-64 | there is something to send iff the document has `product/active`, and the first product sent has only writable children |
| ProductDeactivate.DisabledMarksActive | src/repo_api_equipo_e/routers/Prestashop/productDeactivate.py:46-64 | when `active` is in the first product, it is sent with `active` = "0" and all its other writable children, in order |
| ProductDeactivate.DropNonWritable | src/repo_api_equipo_e/routers/Prestashop/productDeactivate.py:61-64 | the removal loop over a snapshot of the children leaves exactly the writable ones, in order |
| ProductDeactivate.DisableTree | src/repo_api_equipo_e/routers/Prestashop/productDeactivate.py:46-64 | the in-order rewrite gives `Disabled` |
| ProductDeactivate.Disable | src/repo_api_equipo_e/routers/Prestashop/productDeactivate.py:35-74 | `_disable_product_active_field`: the fetch, the rewrite and the PUT; `DisableProductActiveField` computes it step by step and `DisableAnswers` states which response it ends with |
| ProductDeactivate.DisableAnswers | src/repo_api_equipo_e/routers/Prestashop/productDeactivate.py:36-74 | the status and text returned are the PUT's when the document is written back, and the fetch's otherwise |
| ProductDeactivate.DisableProductActiveField | src/repo_api_equipo_e/routers/Prestashop/productDeactivate.py:35-74 | a failed fetch, a parse error or no `active` passes the fetch response back with no PUT; otherwise the rewritten document is PUT |
| ProductDeactivate.First | src/repo_api_equipo_e/routers/Prestashop/productDeactivate.py:122 | `products[0]` is the head of a non-empty list; a dict, number or boolean raises |
| ProductDeactivate.ProductIdOf | src/repo_api_equipo_e/routers/Prestashop/productDeactivate.py:123 | the id is unpadded, empty when absent and "None" when null |
| ProductDeactivate.Deactivation | src/repo_api_equipo_e/routers/Prestashop/productDeactivate.py:77-167 | `deactivate_product`: the answer and the requests made; `DeactivationEarlyErrors`, `DeactivationNeedsId`, `DeactivationRequests` and `DeactivationAnswer` state them case by case |
| ProductDeactivate.DeactivationEarlyErrors | src/repo_api_equipo_e/routers/Prestashop/productDeactivate.py:80-120 | 500 with no request without configuration, the lookup status as code when not 200, 404 on an empty collection |
| ProductDeactivate.DeactivationNeedsId | src/repo_api_equipo_e/routers/Prestashop/productDeactivate.py:122-135 | a product with an empty id answers 500 and is neither fetched nor written |
| ProductDeactivate.DeactivationRequests | src/repo_api_equipo_e/routers/Prestashop/productDeactivate.py:35-74 | the document is fetched, and PUT back as rewritten exactly when the fetch is 200, parses and holds `product/active` |
| ProductDeactivate.DeactivationAnswer | src/repo_api_equipo_e/routers/Prestashop/productDeactivate.py:137-166 | a status outside 200/201 answers an error with the first 300 characters of the text; otherwise the product is shown with `activo` "No" |
| ProductDeactivate.DeactivateProduct | src/repo_api_equipo_e/routers/Prestashop/productDeactivate.py:77-167 | the endpoint's answer and requests are those of `Deactivation` |

## Left out

- Network, async and timeouts: every HTTP and XML-RPC call is a method of `Remote.Upstream` or an input whose status and body are given; transport exceptions from `httpx` and `connect_odoo` are not modelled.
- Environment variables: `PRESTASHOP_BASE_URL`, `PRESTASHOP_API_KEY` and `ODOO_URL` are parameters (`Config`); the ERP URL of `update_products_prestashop` is not modelled.
- Floating point: ERP prices and quantities are reals; `float(...)` is the identity and `int(qty)` is `Text.Trunc`.
- The create bodies: a create call records the name, SKU and price it sends; the rest of the create XML, including `link_rewrite` with `sku.lower()`, is not modelled.
- XML text: a body is a list of tokens (opening tags, closing tags, text, CDATA); the regular expression of `_tag` is modelled on it, assuming that CDATA sections hold no markup. Self-closing elements (`<name/>`) are not modelled: the pattern `<name[^>]*>` also matches them and then runs on to the next `</name>`.
- `\s` and `strip()` cover the ASCII whitespace only, not the other Unicode spaces.
- The storefront keeps one stock record per product, and a reference lists the first product created with it.
- `Remote.Valid`, that the storefront pads no id or field with whitespace, is an assumption about the storefront, not a property of the bridge.
- Odoo's filtering of archived products is not modelled: `search_read` returns the whole catalogue given.
- The storefront → ERP direction has no implementation in the repository and is not modelled.
- The route registration files, the pass-through read endpoints, and `UpdateProductsPrestashop.py` (it decorates with an undefined `app` and returns nothing) are not part of this model.
- `ProductDeactivate`: XML attributes, element tails and namespaces beyond the local name are not modelled. `ET.tostring` is not modelled: the PUT carries the rewritten tree. A body that does not parse is given as an absent tree. The tree is rewritten as a value rather than in place: `Disabled` sets `active` and then strips the first product within that same rewritten tree, both addressed by path, so the two updates compose as they do on the one tree in the code, also when they hit the same product.
- ProductDeactivate.DisabledMarksActive: proved only when `active` belongs to the first product of the document, as in the storefront's own documents; otherwise only DisabledStripsFirst applies.
- ReferenceCreate.PutKeepsRecord: holds only for records without empty fields, since `parse_stock_info` replaces empty fields by defaults.
- Json.PyStr: `str()` of a list or dict is a fixed marker, not its `repr`. JSON numbers with a fraction are not modelled.
- BulkCreate: the storefront's answers for row `i` are given by a function of `i` (`net`).
