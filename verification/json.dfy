/** The decoded JSON bodies the storefront answers with (`response.json()`),
    Python truthiness on them, `dict.get`, `str()`, and the two ways the
    endpoints turn a body into the collection of products. */
module Json {
  import opened Common
  import opened Text

  /** A decoded JSON value.  JSON numbers with a fraction are not modelled;
      the storefront sends prices and quantities as strings. */
  datatype Json =
    | JNull
    | JBool(b: bool)
    | JInt(i: int)
    | JStr(s: string)
    | JList(items: seq<Json>)
    | JObj(fields: map<string, Json>)

  /** Python's `bool(v)`: null, false, zero and empty containers are false. */
  predicate Truthy(j: Json) {
    match j
    case JNull => false
    case JBool(b) => b
    case JInt(i) => i != 0
    case JStr(s) => s != ""
    case JList(items) => items != []
    case JObj(fields) => fields != map[]
  }

  /** `d.get(key, default)`. */
  function Get(fields: map<string, Json>, key: string, default: Json): Json {
    if key in fields then fields[key] else default
  }

  /** `str(v)` for a JSON scalar; a list or a dict is rendered as a fixed
      non-empty marker (its exact `repr` is not modelled). */
  function PyStr(j: Json): (r: string)
    ensures j.JStr? ==> r == j.s
    ensures j.JInt? ==> r == IntToString(j.i)
    ensures j.JNull? ==> r == "None"
    ensures j.JBool? ==> r == (if j.b then "True" else "False")
    ensures !j.JStr? ==> r != [] && Clean(r)
  {
    match j
    case JNull => "None"
    case JBool(b) => if b then "True" else "False"
    case JInt(i) => IntToString(i)
    case JStr(s) => s
    case JList(_) => "[...]"
    case JObj(_) => "{...}"
  }

  /** `data if isinstance(data, list) else data.get("products", [])`: the
      normalisation of the product lookups that ask for one reference.  A
      body that is neither a list nor a dict has no `.get`. */
  function ListFirstProducts(data: Json): (r: Result<Json>)
    ensures data.JList? ==> r == Ok(data)
    ensures data.JObj? && "products" in data.fields ==> r == Ok(data.fields["products"])
    ensures data.JObj? && "products" !in data.fields ==> r == Ok(JList([]))
    ensures r.Crash? <==> !data.JList? && !data.JObj?
    ensures r.Crash? ==> r.fault == AttributeError
  {
    match data
    case JList(_) => Ok(data)
    case JObj(fields) => Ok(Get(fields, "products", JList([])))
    case _ => Crash(AttributeError)
  }

  /** `data.get("products", []) if isinstance(data, dict) else data`: the
      normalisation of the catalogue listings; anything that is not a dict is
      taken as the collection itself. */
  function DictFirstProducts(data: Json): (r: Json)
    ensures data.JObj? && "products" in data.fields ==> r == data.fields["products"]
    ensures data.JObj? && "products" !in data.fields ==> r == JList([])
    ensures !data.JObj? ==> r == data
  {
    if data.JObj? then Get(data.fields, "products", JList([])) else data
  }

  /** The two normalisations agree on every body the storefront can send for
      a product listing, a list or a dict; they differ only on a bare scalar,
      which one keeps and the other cannot `.get`. */
  lemma NormalisationsAgree(data: Json)
    ensures data.JList? || data.JObj? ==> ListFirstProducts(data) == Ok(DictFirstProducts(data))
    ensures !data.JList? && !data.JObj? ==> ListFirstProducts(data).Crash? && DictFirstProducts(data) == data
  {
  }
}
