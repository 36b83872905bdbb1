/** The collaborators the loader calls but whose code is not modelled: the network, rdflib's
    parser, its concise-bounded-description extraction and its store iteration order. */
module Environment {
  import opened Wrappers
  import opened Errors
  import opened Rdf
  import opened Fetcher

  datatype World = World(
    /** What every HTTP GET answers. */
    web: Web,
    /** `Graph.parse(data=text, format=format)`; `None` when rdflib raises. */
    parse: (string, string) -> Option<set<Triple>>,
    /** `graph.cbd(resource)`. */
    cbd: (set<Triple>, Term) -> set<Triple>,
    /** The order in which the store yields the triples of a graph. */
    order: set<Triple> -> seq<Triple>)

  /** What the loader relies on: a CBD is part of its graph, and iteration visits exactly
      the graph's triples. */
  ghost predicate Sound(w: World)
  {
    && (forall g, s :: w.cbd(g, s) <= g)
    && (forall g :: Enumerates(w.order(g), g))
  }

  /** `graph.subjects(RDF.type, PROF.Profile)`, as a snapshot. */
  function ProfileSubjects(w: World, ts: set<Triple>): seq<Term>
  {
    Subjects(w.order(ts), RdfType, ProfProfile)
  }

  /** `graph.objects(None, PROF.hasResource)`, as a snapshot. */
  function ResourceDescriptors(w: World, ts: set<Triple>): seq<Term>
  {
    Objects(w.order(ts), ProfHasResource)
  }

  /** `graph.value(subject, p)`. */
  function Value(w: World, ts: set<Triple>, subject: Term, p: Term): Option<Term>
  {
    FirstObject(w.order(ts), subject, p)
  }

  /** The snapshots and lookups range over the graph itself. */
  lemma QueriesMatchGraph(w: World, ts: set<Triple>)
    requires Sound(w)
    ensures forall x :: x in ProfileSubjects(w, ts) <==> Triple(x, RdfType, ProfProfile) in ts
    ensures forall d :: d in ResourceDescriptors(w, ts) <==> exists t :: t in ts && t.p == ProfHasResource && t.o == d
    ensures forall s, p :: Value(w, ts, s, p).Some? ==> Triple(s, p, Value(w, ts, s, p).value) in ts
    ensures forall s, p, o :: Value(w, ts, s, p).None? ==> Triple(s, p, o) !in ts
  {
    assert Enumerates(w.order(ts), ts);
  }

  /** `fetch(url, client, content_type)` followed by `Graph().parse(data=..., format=...)`
      under the effective media type. */
  function FetchGraph(w: World, url: string, contentType: string): (r: Result<set<Triple>, LoadError>)
    ensures var f := FetchResult(w.web, url, contentType);
      && (r.Success? <==> f.Success? && w.parse(f.value.text, f.value.mediaType).Some?)
      && (r.Success? ==> r.value == w.parse(f.value.text, f.value.mediaType).value)
      && (f.Success? && r.Failure? ==> r.error == ParseError(f.value.mediaType))
    ensures r.Failure? ==> !r.error.ImportFailed? && !r.error.BudgetExhausted?
  {
    match FetchResult(w.web, url, contentType)
    case Failure(e) => Failure(e)
    case Success(f) =>
      match w.parse(f.text, f.mediaType)
      case None => Failure(ParseError(f.mediaType))
      case Some(ts) => Success(ts)
  }
}
