/** Shared vocabulary of the bridge's endpoints: optional values, the Python
    exceptions that escape an endpoint, the storefront configuration and the
    response envelope every storefront endpoint answers with. */
module Common {

  datatype Option<+T> = None | Some(value: T) {
    function GetOr(default: T): T {
      match this
      case Some(v) => v
      case None => default
    }
  }

  /** A Python exception that no handler catches; the web framework then
      answers with its own internal-server-error page instead of an envelope. */
  datatype Fault =
    | IndexError      // `xs[0]` on an empty list
    | KeyError        // `d[0]` on a dict
    | AttributeError  // `.get` on something that is not a dict
    | TypeError       // indexing or iterating a number or a boolean
    | ValueError      // `response.json()` on a body that is not JSON

  /** The value of a Python expression, or the exception it raises. */
  datatype Result<+T> = Ok(value: T) | Crash(fault: Fault)

  /** The two environment settings every storefront endpoint reads at import time. */
  datatype Config = Config(baseUrl: string, apiKey: string)

  /** `s.rstrip("/")`: drops every trailing slash. */
  function RStripSlash(s: string): (r: string)
    ensures |r| <= |s| && r == s[..|r|]
    ensures r == [] || r[|r| - 1] != '/'
    ensures forall i :: |r| <= i < |s| ==> s[i] == '/'
  {
    if s != [] && s[|s| - 1] == '/' then RStripSlash(s[..|s| - 1]) else s
  }

  /** The guard `not BASE_URL or not API_KEY`, negated, with BASE_URL read
      through `rstrip("/")` as every storefront module does. */
  predicate Configured(cfg: Config) {
    RStripSlash(cfg.baseUrl) != "" && cfg.apiKey != ""
  }

  /** The uniform envelope `{status, data, errors}`.  `Error` stands for
      `{"status": "error", "data": None, "errors": [{code, message[, detail]}]}`
      and `Success` for `{"status": "success", "data": data, "errors": []}`;
      `Crashed` is an exception that escaped the endpoint. */
  datatype Response<+T> =
    | Success(data: T)
    | Error(code: string, message: string, detail: Option<string>)
    | Crashed(fault: Fault)

  const NotConfiguredMessage: string := "PrestaShop no configurado"

  /** The `status_code in (200, 201)` test used for every write. */
  predicate Accepted(status: int) {
    status == 200 || status == 201
  }

  /** Appending to a log in two steps appends the two parts in order. */
  lemma AppendAssoc<T>(a: seq<T>, b: seq<T>, c: seq<T>)
    ensures a + b + c == a + (b + c)
  {
  }
}
