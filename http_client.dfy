/**
 * The federation client: it resolves a service endpoint in the registry,
 * fills the path template, optionally attaches a freshly signed internal
 * token, performs the call (the transport is an oracle) and unwraps the
 * response envelope.
 */
module HttpClient {
  import opened Js
  import opened JsString
  import opened ServiceRegistry
  import opened Jwt

  /** The caller's `options`: extra headers (if any) and whether to authenticate as a service. */
  datatype Options = Options(headers: Option<map<string, string>>, internal: bool)

  /** The request handed to the transport. */
  datatype HttpCall = HttpCall(verb: HttpMethod, url: string, data: Value, headers: map<string, string>)

  /** What the transport does with the call: it throws, or answers with a parsed JSON body. */
  datatype Transport = Threw(error: Exception) | Answered(body: Value)

  /** The URL after each parameter in turn has replaced its placeholder's first occurrence. */
  function Substituted(url: string, params: seq<(string, string)>): string
    decreases |params|
  {
    if params == [] then url
    else Substituted(ReplaceFirst(url, ":" + params[0].0, params[0].1), params[1..])
  }

  /**
   * `buildUrl(baseUrl, path, params)`, with `params` listed in the order
   * `Object.entries` yields them.
   */
  method BuildUrl(baseUrl: string, path: string, params: seq<(string, string)>) returns (finalUrl: string)
    ensures finalUrl == Substituted(baseUrl + path, params)
  {
    finalUrl := baseUrl + path;
    for i := 0 to |params|
      invariant Substituted(finalUrl, params[i..]) == Substituted(baseUrl + path, params)
    {
      assert params[i..][1..] == params[i + 1..];
      finalUrl := ReplaceFirst(finalUrl, ":" + params[i].0, params[i].1);
    }
  }

  /** `${url}` in a template literal: an unset URL prints as "undefined". */
  function UrlText(url: Option<string>): string
  {
    match url
    case None => "undefined"
    case Some(u) => u
  }

  /**
   * Parameters whose placeholders do not occur leave the URL exactly as it
   * is, so leftover placeholders stay in it and nothing fails.
   */
  lemma {:induction false} SubstitutedAbsent(url: string, params: seq<(string, string)>)
    requires forall k, j :: 0 <= k < |params| && 0 <= j <= |url| ==> !OccursAt(url, ":" + params[k].0, j)
    ensures Substituted(url, params) == url
    decreases |params|
  {
    if params != [] {
      ReplaceAbsent(url, ":" + params[0].0, params[0].1);
      SubstitutedAbsent(url, params[1..]);
    }
  }

  /**
   * One parameter replaces the first occurrence of its placeholder only; a
   * second occurrence further on remains in the URL.
   */
  lemma SingleParamFirstOnly(url: string, key: string, value: string, i: nat, j: nat)
    requires OccursAt(url, ":" + key, i) && forall k :: 0 <= k < i ==> !OccursAt(url, ":" + key, k)
    requires i + |key| + 1 <= j && OccursAt(url, ":" + key, j)
    ensures Substituted(url, [(key, value)]) == url[..i] + value + url[i + |key| + 1..]
    ensures OccursAt(Substituted(url, [(key, value)]), ":" + key, j - |key| - 1 + |value|)
  {
    ReplaceKeepsLaterOccurrence(url, ":" + key, value, i, j);
    assert [(key, value)][1..] == [];
  }

  /** `response.data.data || response.data`; reading `.data` of a null body throws. */
  function Unwrap(body: Value): (r: Result<Value>)
    ensures Nullish(body) <==> r.Err?
    ensures r.Err? ==> r.error.name == "TypeError"
    ensures r.Ok? ==> !Nullish(r.value)
    ensures r.Ok? && Truthy(Get(body, "data")) ==> r.value == Get(body, "data")
    ensures r.Ok? && !Truthy(Get(body, "data")) ==> r.value == body
  {
    if Nullish(body) then
      Err(Exception("TypeError", "Cannot read properties of " + TypeText(body) + " (reading 'data')", []))
    else if Truthy(Get(body, "data")) then Ok(Get(body, "data"))
    else Ok(body)
  }

  function TypeText(v: Value): string
  {
    if v.Null? then "null" else "undefined"
  }

  /** What the awaited call settles to once the transport has acted: its error, or the unwrapped body. */
  function Received(transport: Transport): Result<Value>
  {
    match transport
    case Threw(e) => Err(e)
    case Answered(body) => Unwrap(body)
  }

  /**
   * `request(serviceName, endpointName, params, data, options)` at clock time
   * `now`: `sent` is the call handed to the transport, if any, and `result`
   * what the promise settles to.
   */
  method Request(env: Env, crypto: Crypto, now: int, serviceName: string, endpointName: string,
                 params: seq<(string, string)>, data: Value, options: Options, transport: Transport)
    returns (sent: Option<HttpCall>, result: Result<Value>)
    ensures GetServiceEndpoint(env, serviceName, endpointName).Err? ==>
      sent == None && result == Err(GetServiceEndpoint(env, serviceName, endpointName).error)
    ensures GetServiceEndpoint(env, serviceName, endpointName).Ok? ==>
      var resolved := GetServiceEndpoint(env, serviceName, endpointName).value;
      && sent.Some?
      && sent.value.verb == resolved.endpoint.verb
      && sent.value.url == Substituted(UrlText(resolved.url) + resolved.endpoint.path, params)
      && sent.value.data == data
    ensures sent.Some? && !options.internal ==>
      sent.value.headers == (if options.headers.Some? then options.headers.value else map[])
    ensures sent.Some? && options.internal ==>
      sent.value.headers == (if options.headers.Some? then options.headers.value else map[])
        ["Authorization" := "Internal " + Sign(crypto, map["service" := Str(serviceName)], InternalSecret, InternalTtl, now)]
    ensures sent.Some? ==> result == Received(transport)
  {
    var lookup := GetServiceEndpoint(env, serviceName, endpointName);
    if lookup.Err? {
      return None, Err(lookup.error);
    }
    var resolved := lookup.value;
    var finalUrl := BuildUrl(UrlText(resolved.url), resolved.endpoint.path, params);

    var headers: map<string, string> := if options.headers.Some? then options.headers.value else map[];
    if options.internal {
      var internalToken := Sign(crypto, map["service" := Str(serviceName)], InternalSecret, InternalTtl, now);
      headers := headers["Authorization" := "Internal " + internalToken];
    }

    sent := Some(HttpCall(resolved.endpoint.verb, finalUrl, data, headers));
    match transport
    case Threw(e) =>
      result := Err(e);
    case Answered(body) =>
      result := Unwrap(body);
  }
}
