/** The requests the tool sends: the query URL, the update URL, the headers and
    the update payload. `encodeURIComponent` and `JSON.stringify` are not
    modelled: the query URL takes the identifier already encoded, and a payload
    is the object before it is serialised. */
module Requests {
  import opened JsValues
  import opened Configuration
  import StatusFields

  /** `config.endpoints[name] || ""` */
  function EndpointPath(ep: Endpoints, name: string): string {
    match name
    case "base" => ep.base
    case "resource" => ep.resource
    case "query" => ep.query
    case "update" => ep.update
    case _ => ""
  }

  /** `getApiUrl(name)`: the base URL followed by the named endpoint's path. */
  function ApiUrl(ep: Endpoints, name: string): (url: string)
    ensures |url| >= |ep.base| && url[..|ep.base|] == ep.base
    ensures name == "base" ==> url == ep.base + ep.base
    ensures name == "resource" ==> url == ep.base + ep.resource
    ensures name == "query" ==> url == ep.base + ep.query
    ensures name == "update" ==> url == ep.base + ep.update
    ensures name !in {"base", "resource", "query", "update"} ==> url == ep.base
  {
    ep.base + EndpointPath(ep, name)
  }

  const LIMIT_SUFFIX: string := "&limit=1"

  /** What precedes the encoded identifier in a query URL. */
  function QueryPrefix(ep: Endpoints, searchParam: string): string {
    ApiUrl(ep, "resource") + "?" + searchParam + "="
  }

  /** The search URL of `getResourceInfo`:
      `{base}{resource}?{searchParam}={encodedId}&limit=1`. */
  function QueryUrl(ep: Endpoints, searchParam: string, encodedId: string): (url: string)
    ensures |url| == |QueryPrefix(ep, searchParam)| + |encodedId| + |LIMIT_SUFFIX|
    ensures url[..|QueryPrefix(ep, searchParam)|] == QueryPrefix(ep, searchParam)
    ensures url[|url| - |LIMIT_SUFFIX|..] == LIMIT_SUFFIX
  {
    QueryPrefix(ep, searchParam) + encodedId + LIMIT_SUFFIX
  }

  /** Reads the encoded identifier back out of a query URL for the given
      endpoint and parameter name; None when the URL does not have that shape. */
  function QueryArgument(url: string, ep: Endpoints, searchParam: string): Option<string> {
    var prefix := QueryPrefix(ep, searchParam);
    if |url| >= |prefix| + |LIMIT_SUFFIX| && url[..|prefix|] == prefix
       && url[|url| - |LIMIT_SUFFIX|..] == LIMIT_SUFFIX
    then Some(url[|prefix|..|url| - |LIMIT_SUFFIX|])
    else None
  }

  /** The query URL carries exactly the encoded identifier, whatever it contains. */
  lemma QueryUrlRoundTrip(ep: Endpoints, searchParam: string, encodedId: string)
    ensures QueryArgument(QueryUrl(ep, searchParam, encodedId), ep, searchParam) == Some(encodedId)
  {
    var prefix := QueryPrefix(ep, searchParam);
    var url := QueryUrl(ep, searchParam, encodedId);
    assert url == prefix + encodedId + LIMIT_SUFFIX;
    assert url[|prefix|..|url| - |LIMIT_SUFFIX|] == encodedId;
  }

  /** The update URL of `updateResourceStatus`: `{base}{resource}/{id}`, the id
      converted as a template literal converts it. */
  function UpdateUrl(ep: Endpoints, id: Value): (url: string)
    ensures var prefix := ApiUrl(ep, "resource") + "/";
      |url| >= |prefix| && url[..|prefix|] == prefix && url[|prefix|..] == TemplateString(id)
  {
    ApiUrl(ep, "resource") + "/" + TemplateString(id)
  }

  /** A record without an `id` is still updated, at the URL ending in `/undefined`. */
  lemma MissingIdUpdatesUndefined(ep: Endpoints, rec: Record)
    requires "id" !in rec
    ensures UpdateUrl(ep, Get(rec, "id")) == ApiUrl(ep, "resource") + "/undefined"
  {
  }

  /** `generateHeaders`: JSON content type and accept headers, plus the
      `Authorization` header `{authType} {token}` unless it is switched off. */
  function GenerateHeaders(c: Config): (h: map<string, string>)
    ensures h.Keys == {"Content-Type", "Accept"} + (if c.useAuthHeader then {"Authorization"} else {})
    ensures h["Content-Type"] == "application/json" && h["Accept"] == "application/json"
    ensures c.useAuthHeader ==> h["Authorization"] == c.authType + " " + c.authToken
  {
    var headers := map["Content-Type" := "application/json", "Accept" := "application/json"];
    if c.useAuthHeader then headers["Authorization" := c.authType + " " + c.authToken] else headers
  }

  /** The update body: the object literal
      `{id, [statusField]: target, updatedAt, metadata}`. A later key of the
      literal overwrites an earlier one of the same name. */
  function UpdatePayload(rec: Record, statusField: string, target: string, now: string): (body: Record)
    ensures body.Keys == {"id", statusField, "updatedAt", "metadata"}
    ensures body["id"] == if statusField == "id" then Str(target) else Get(rec, "id")
    ensures statusField !in {"updatedAt", "metadata"} ==> body[statusField] == Str(target)
    ensures body["updatedAt"] == Str(now)
    ensures body["metadata"] == if Truthy(Get(rec, "metadata")) then Get(rec, "metadata") else Obj(map[])
  {
    map["id" := Get(rec, "id")][statusField := Str(target)]["updatedAt" := Str(now)]
       ["metadata" := Or(Get(rec, "metadata"), Obj(map[]))]
  }

  datatype Request = Request(verb: string, url: string, headers: map<string, string>, body: Record)

  /** The request one update attempt sends for `rec`: the configured verb, the
      record's update URL, the headers, and the payload carrying the target
      under the field the write path resolves. */
  function UpdateRequest(c: Config, rec: Record, now: string): (r: Request)
    ensures r.verb == c.updateMethod
    ensures r.url == c.endpoints.base + c.endpoints.resource + "/" + TemplateString(Get(rec, "id"))
    ensures r.headers == GenerateHeaders(c)
    ensures var field := StatusFields.StatusFieldName(rec, c.candidates);
      && r.body.Keys == {"id", field, "updatedAt", "metadata"}
      && (field !in {"updatedAt", "metadata"} ==> r.body[field] == Str(c.target))
      && r.body["id"] == (if field == "id" then Str(c.target) else Get(rec, "id"))
      && r.body["updatedAt"] == Str(now)
      && r.body["metadata"] == (if Truthy(Get(rec, "metadata")) then Get(rec, "metadata") else Obj(map[]))
  {
    Request(c.updateMethod, UpdateUrl(c.endpoints, Get(rec, "id")), GenerateHeaders(c),
            UpdatePayload(rec, StatusFields.StatusFieldName(rec, c.candidates), c.target, now))
  }

  /** With the default candidates the payload always carries the target under the
      resolved field and keeps the record's id; every other field of the record
      is dropped. */
  lemma DefaultPayloadCarriesTarget(c: Config, rec: Record, now: string)
    requires c.candidates == DEFAULT_CANDIDATES
    ensures var field := StatusFields.StatusFieldName(rec, c.candidates);
      var body := UpdateRequest(c, rec, now).body;
      && body[field] == Str(c.target)
      && body["id"] == Get(rec, "id")
      && forall k :: k in rec && k !in {"id", field, "updatedAt", "metadata"} ==> k !in body
  {
    var field := StatusFields.StatusFieldName(rec, c.candidates);
    assert field in DEFAULT_CANDIDATES || field == "status";
    assert field !in {"id", "updatedAt", "metadata"};
  }

  /** The query and the update of one record address the same resource URL,
      `{base}{resource}`: the query adds `?`, the update adds `/`. */
  lemma QueryAndUpdateShareResourceUrl(ep: Endpoints, searchParam: string, encodedId: string, id: Value)
    ensures var resource := ep.base + ep.resource;
      var q := QueryUrl(ep, searchParam, encodedId);
      var u := UpdateUrl(ep, id);
      && |q| > |resource| && q[..|resource|] == resource && q[|resource|] == '?'
      && |u| > |resource| && u[..|resource|] == resource && u[|resource|] == '/'
  {
    var resource := ep.base + ep.resource;
    var q := QueryUrl(ep, searchParam, encodedId);
    assert QueryPrefix(ep, searchParam) == resource + "?" + searchParam + "=";
    assert q[..|QueryPrefix(ep, searchParam)|] == QueryPrefix(ep, searchParam);
    assert q[..|resource| + 1] == QueryPrefix(ep, searchParam)[..|resource| + 1];
  }
}
