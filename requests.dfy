/**
  Request construction for the three purge operations: the header gate
  `requestHeaders` (lib/index.js:114-130), the API origin and `fastlyUrl`
  (lib/index.js:18, 171-173), and the option merging that `url`, `service`
  and `key` perform before they build their request (lib/index.js:26-91).
*/
module Requests {
  import opened Js

  datatype Method = PURGE | POST

  /** Header values are the JavaScript values the headers object holds. */
  type Headers = map<string, Value>

  /** What the client hands to the HTTP transport. */
  datatype Request = Request(verb: Method, url: string, headers: Headers)

  const FASTLY_API_ENDPOINT: string := "https://api.fastly.com"

  const FASTLY_KEY: string := "Fastly-Key"
  const FASTLY_SOFT_PURGE: string := "Fastly-Soft-Purge"
  const ACCEPT: string := "Accept"

  /** An API path made absolute against the fixed API origin. */
  function FastlyUrl(path: string): (u: string)
    ensures |u| == |FASTLY_API_ENDPOINT| + |path|
    ensures u[..|FASTLY_API_ENDPOINT|] == FASTLY_API_ENDPOINT
    ensures u[|FASTLY_API_ENDPOINT|..] == path
  {
    FASTLY_API_ENDPOINT + path
  }

  /**
    The headers of a request, gated on the truthiness of the merged options:
    each header is present exactly when its option is truthy, and no other
    header is ever set.
  */
  function RequestHeaders(options: Props): (h: Headers)
    ensures FASTLY_KEY in h <==> Truthy(Get(options, "apiKey"))
    ensures FASTLY_KEY in h ==> h[FASTLY_KEY] == options["apiKey"]
    ensures FASTLY_SOFT_PURGE in h <==> Truthy(Get(options, "softPurge"))
    ensures FASTLY_SOFT_PURGE in h ==> h[FASTLY_SOFT_PURGE] == Num(1)
    ensures ACCEPT in h <==> Truthy(Get(options, "accept"))
    ensures ACCEPT in h ==> h[ACCEPT] == options["accept"]
    ensures h.Keys <= {FASTLY_KEY, FASTLY_SOFT_PURGE, ACCEPT}
  {
    var headers: Headers := map[];
    var headers := if Truthy(Get(options, "apiKey")) then headers[FASTLY_KEY := options["apiKey"]] else headers;
    var headers := if Truthy(Get(options, "softPurge")) then headers[FASTLY_SOFT_PURGE := Num(1)] else headers;
    if Truthy(Get(options, "accept")) then headers[ACCEPT := options["accept"]] else headers
  }

  /** The literal `{softPurge: this._options.softPurge}` that `url` and `key` default from. */
  function SoftPurgeDefault(client: Props): Literal {
    [("softPurge", Get(client, "softPurge"))]
  }

  /** The literal `{apiKey: this._apiKey, accept: 'application/json'}` that `service` and `key` extend with. */
  function Credentials(apiKey: string): Literal {
    [("apiKey", Str(apiKey)), ("accept", Str(APPLICATION_JSON))]
  }

  /**
    Reference reading of "the call's softPurge if given, else the client's":
    the call's value wins whenever the call's options own the key.
  */
  function EffectiveSoftPurge(client: Props, caller: Props): Value {
    if "softPurge" in caller then caller["softPurge"] else Get(client, "softPurge")
  }

  /** The caller's options object after `url` has merged into it. */
  function UrlOptions(client: Props, caller: Props): Props {
    Defaulted(caller, SoftPurgeDefault(client))
  }

  /** The caller's options object after `service` has merged into it. */
  function ServiceOptions(apiKey: string, caller: Props): Props {
    Extended(caller, Credentials(apiKey))
  }

  /** The caller's options object after `key` has merged into it. */
  function KeyOptions(apiKey: string, client: Props, caller: Props): (r: Props)
    ensures "softPurge" in r && r["softPurge"] == EffectiveSoftPurge(client, caller)
    ensures r.Keys == caller.Keys + {"softPurge", "apiKey", "accept"}
    ensures r["apiKey"] == Str(apiKey) && r["accept"] == Str(APPLICATION_JSON)
    ensures forall k :: k in caller && k !in {"apiKey", "accept"} ==> r[k] == caller[k]
  {
    var c := Credentials(apiKey);
    assert c[0].0 == "apiKey" && c[1].0 == "accept";
    Extended(Defaulted(caller, SoftPurgeDefault(client)), c)
  }

  /**
    `url(url, options)`: a PURGE of exactly the caller's URL. The soft-purge
    header follows the call's option if the call owns one, else the client
    default; the key and Accept headers appear only if the caller's own
    options carry a truthy `apiKey` or `accept`.
  */
  function UrlRequest(client: Props, url: string, caller: Props): (r: Request)
    ensures r.verb == PURGE && r.url == url
    ensures FASTLY_SOFT_PURGE in r.headers <==> Truthy(EffectiveSoftPurge(client, caller))
    ensures FASTLY_KEY in r.headers <==> Truthy(Get(caller, "apiKey"))
    ensures ACCEPT in r.headers <==> Truthy(Get(caller, "accept"))
    ensures FASTLY_KEY in r.headers ==> r.headers[FASTLY_KEY] == caller["apiKey"]
    ensures ACCEPT in r.headers ==> r.headers[ACCEPT] == caller["accept"]
    ensures FASTLY_SOFT_PURGE in r.headers ==> r.headers[FASTLY_SOFT_PURGE] == Num(1)
    ensures r.headers.Keys <= {FASTLY_KEY, FASTLY_SOFT_PURGE, ACCEPT}
  {
    Request(PURGE, url, RequestHeaders(UrlOptions(client, caller)))
  }

  /**
    `service(serviceId, options)`: a POST to the service's purge_all path with
    the client's key and `Accept: application/json`. The client's soft-purge
    default is never consulted: the soft-purge header follows the caller's
    options alone.
  */
  function ServiceRequest(apiKey: string, serviceId: string, caller: Props): (r: Request)
    ensures r.verb == POST
    ensures r.url == FASTLY_API_ENDPOINT + "/service/" + serviceId + "/purge_all"
    ensures FASTLY_KEY in r.headers <==> apiKey != ""
    ensures FASTLY_KEY in r.headers ==> r.headers[FASTLY_KEY] == Str(apiKey)
    ensures ACCEPT in r.headers && r.headers[ACCEPT] == Str(APPLICATION_JSON)
    ensures FASTLY_SOFT_PURGE in r.headers <==> Truthy(Get(caller, "softPurge"))
    ensures FASTLY_SOFT_PURGE in r.headers ==> r.headers[FASTLY_SOFT_PURGE] == Num(1)
    ensures r.headers.Keys <= {FASTLY_KEY, FASTLY_SOFT_PURGE, ACCEPT}
  {
    var c := Credentials(apiKey);
    assert c[0].0 == "apiKey" && c[1].0 == "accept";
    Request(POST, FastlyUrl("/service/" + serviceId + "/purge_all"), RequestHeaders(ServiceOptions(apiKey, caller)))
  }

  /**
    `key(serviceId, key, options)`: a POST to the surrogate key's purge path
    with the client's key and `Accept: application/json`, whatever the
    caller's options say about them; the soft-purge header follows the call's
    option if the call owns one, else the client default.
  */
  function KeyRequest(apiKey: string, client: Props, serviceId: string, key: string, caller: Props): (r: Request)
    ensures r.verb == POST
    ensures r.url == FASTLY_API_ENDPOINT + "/service/" + serviceId + "/purge/" + key
    ensures FASTLY_KEY in r.headers <==> apiKey != ""
    ensures FASTLY_KEY in r.headers ==> r.headers[FASTLY_KEY] == Str(apiKey)
    ensures ACCEPT in r.headers && r.headers[ACCEPT] == Str(APPLICATION_JSON)
    ensures FASTLY_SOFT_PURGE in r.headers <==> Truthy(EffectiveSoftPurge(client, caller))
    ensures FASTLY_SOFT_PURGE in r.headers ==> r.headers[FASTLY_SOFT_PURGE] == Num(1)
    ensures r.headers.Keys <= {FASTLY_KEY, FASTLY_SOFT_PURGE, ACCEPT}
  {
    Request(POST, FastlyUrl("/service/" + serviceId + "/purge/" + key), RequestHeaders(KeyOptions(apiKey, client, caller)))
  }

  /**
    `key` run again on the options object it has already merged into, with
    any client options, merges nothing more.
  */
  lemma KeyOptionsRepeatable(apiKey: string, client: Props, client': Props, caller: Props)
    ensures KeyOptions(apiKey, client', KeyOptions(apiKey, client, caller)) == KeyOptions(apiKey, client, caller)
  {
  }

  /**
    So a second `key` call with the same options object, as the shielding
    purge makes, sends the very same request as the first.
  */
  lemma KeyRequestRepeatable(apiKey: string, client: Props, client': Props, serviceId: string, key: string, caller: Props)
    ensures KeyRequest(apiKey, client', serviceId, key, KeyOptions(apiKey, client, caller))
         == KeyRequest(apiKey, client, serviceId, key, caller)
  {
  }
}
