/** `fetch` (pylode/profiles/supermodel/loader.py:26-44): proxy substitution, an HTTP GET
    with content negotiation, the status check and the choice of the effective media type.
    The HTTP server is an abstract map from requests to responses. */
module Fetcher {
  import opened Wrappers
  import opened Errors

  /** One GET: the URL requested and its `Accept` header. */
  datatype Request = Request(url: string, accept: string)

  /** The response's status, its `Content-Type` header and its body text. */
  datatype Response = Response(status: int, contentType: string, text: string)

  /** What the network answers; a request without an entry fails at transport level. */
  type Web = map<Request, Response>

  /** The body and the effective media type returned by a successful fetch. */
  datatype Fetched = Fetched(text: string, mediaType: string)

  const TextTurtle := "text/turtle"

  /** The keys of `MEDIA_TYPES`, in the dictionary's iteration order. */
  const MediaTypes: seq<string> := ["text/turtle", "application/n-triples", "application/n-quads"]

  /** The fixed URL-substitution table of `fetch`. */
  const Proxies: map<string, string> := map[
    "https://linked.data.gov.au/def/csdm/geometryprim" := "http://localhost:8000/geometryprim.ttl",
    "http://www.opengis.net/ont/geosparql" := "https://cdn.jsdelivr.net/gh/opengeospatial/ogc-geosparql@master/1.1/geo.ttl",
    "http://datashapes.org/dash" := "https://cdn.jsdelivr.net/gh/zazuko/rdf-vocabularies@master/ontologies/dash/dash.nq"
  ]

  /** The request `fetch` issues for `url` with the `Accept` header `accept`. */
  function RequestFor(url: string, accept: string): (r: Request)
    ensures r.accept == accept
    ensures url in Proxies ==> r.url == Proxies[url]
    ensures url !in Proxies ==> r.url == url
  {
    Request(if url in Proxies then Proxies[url] else url, accept)
  }

  /** Substitution happens once: no proxy target is itself a key of the table. */
  lemma ProxyTargetsAreFinal(url: string, accept: string)
    ensures RequestFor(url, accept).url !in Proxies
  {
  }

  predicate OccursAt(hay: string, needle: string, i: nat)
  {
    i + |needle| <= |hay| && hay[i..i + |needle|] == needle
  }

  /** Python's substring test `needle in hay`. */
  predicate Contains(hay: string, needle: string)
  {
    exists i: nat :: i <= |hay| && OccursAt(hay, needle, i)
  }

  /** The value of `content_type` after the loop at lines 41-43 has run over `types`:
      the last entry occurring in the header, or the requested type. */
  function LastMatch(types: seq<string>, header: string, requested: string): (r: string)
    ensures r == requested || r in types
  {
    if types == [] then requested
    else if Contains(header, types[|types| - 1]) then types[|types| - 1]
    else LastMatch(types[..|types| - 1], header, requested)
  }

  /** `LastMatch` picks the latest entry of `types` found in the header, and falls back
      to the requested type exactly when no entry is found. */
  lemma {:induction false} LastMatchIsLatestOccurring(types: seq<string>, header: string, requested: string)
    ensures (forall i :: 0 <= i < |types| ==> !Contains(header, types[i])) ==>
              LastMatch(types, header, requested) == requested
    ensures (exists i :: 0 <= i < |types| && Contains(header, types[i])) ==>
              exists i :: 0 <= i < |types| && LastMatch(types, header, requested) == types[i]
                && Contains(header, types[i])
                && forall j :: i < j < |types| ==> !Contains(header, types[j])
  {
    if types != [] {
      var n := |types| - 1;
      var front := types[..n];
      LastMatchIsLatestOccurring(front, header, requested);
      if !Contains(header, types[n]) {
        if exists i :: 0 <= i < |types| && Contains(header, types[i]) {
          var k :| 0 <= k < |types| && Contains(header, types[k]);
          assert k < n && front[k] == types[k];
          var i :| 0 <= i < |front| && LastMatch(front, header, requested) == front[i]
                   && Contains(header, front[i])
                   && forall j :: i < j < |front| ==> !Contains(header, front[j]);
          assert forall j :: i < j < |types| ==> !Contains(header, types[j]) by {
            forall j | i < j < |types| ensures !Contains(header, types[j]) {
              if j < n { assert front[j] == types[j]; }
            }
          }
        } else {
          assert forall i :: 0 <= i < |front| ==> front[i] == types[i];
        }
      }
    }
  }

  /** The specification of `fetch(url, client, content_type)`. */
  function FetchResult(web: Web, url: string, contentType: string): (r: Result<Fetched, LoadError>)
    ensures var req := RequestFor(url, contentType);
      && (r.Success? <==> req in web && web[req].status == 200)
      && (r.Success? ==> r.value.text == web[req].text
                         && r.value.mediaType == LastMatch(MediaTypes, web[req].contentType, contentType))
      && (req in web && web[req].status != 200 ==>
            r == Failure(HttpError(web[req].status, req.url, web[req].text)))
      && (req !in web ==> r == Failure(TransportError(req.url)))
  {
    var req := RequestFor(url, contentType);
    if req !in web then Failure(TransportError(req.url))
    else if web[req].status != 200 then Failure(HttpError(web[req].status, req.url, web[req].text))
    else Success(Fetched(web[req].text, LastMatch(MediaTypes, web[req].contentType, contentType)))
  }

  /** The media type of a successful fetch is the requested one or a member of `MEDIA_TYPES`;
      it is a member of `MEDIA_TYPES` exactly when one of them occurs in `Content-Type`. */
  lemma FetchedTypeIsAllowed(web: Web, url: string, contentType: string)
    requires FetchResult(web, url, contentType).Success?
    ensures var t := FetchResult(web, url, contentType).value.mediaType;
            var header := web[RequestFor(url, contentType)].contentType;
      && (t == contentType || t in MediaTypes)
      && ((exists i :: 0 <= i < |MediaTypes| && Contains(header, MediaTypes[i])) ==>
            t in MediaTypes && Contains(header, t))
  {
    var header := web[RequestFor(url, contentType)].contentType;
    LastMatchIsLatestOccurring(MediaTypes, header, contentType);
  }

  /** `fetch`: overwrites `url` by the proxy target, issues the GET, raises on a status other
      than 200 and loops over `MEDIA_TYPES` overwriting `content_type`. */
  method Fetch(web: Web, url: string, contentType: string) returns (r: Result<Fetched, LoadError>)
    ensures r == FetchResult(web, url, contentType)
  {
    var target := url;
    if url in Proxies {
      target := Proxies[url];
    }
    var req := Request(target, contentType);
    if req !in web {
      return Failure(TransportError(target));
    }
    var response := web[req];
    if response.status != 200 {
      return Failure(HttpError(response.status, target, response.text));
    }
    var header := response.contentType;
    var effective := contentType;
    for i := 0 to |MediaTypes|
      invariant effective == LastMatch(MediaTypes[..i], header, contentType)
    {
      if Contains(header, MediaTypes[i]) {
        effective := MediaTypes[i];
      }
      assert MediaTypes[..i + 1][..i] == MediaTypes[..i];
    }
    assert MediaTypes[..|MediaTypes|] == MediaTypes;
    return Success(Fetched(response.text, effective));
  }
}
