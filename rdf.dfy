/** RDF terms, triples, the vocabulary the loader consumes, graphs as mutable triple sets,
    and the triple-pattern queries the loader runs over a snapshot of a graph. */
module Rdf {
  import opened Wrappers

  /** An RDF term; only its kind and its string form matter to the loader. */
  datatype Term = Iri(value: string) | BNode(value: string) | Literal(value: string)

  datatype Triple = Triple(s: Term, p: Term, o: Term)

  /** Python's `str(term)`: the IRI, the blank-node id or the lexical form. */
  function Str(t: Term): string
  {
    t.value
  }

  /** `str(x)` of an rdflib lookup that may have found nothing (`None`). */
  function StrOpt(t: Option<Term>): string
  {
    if t.Some? then Str(t.value) else "None"
  }

  const RdfType := Iri("http://www.w3.org/1999/02/22-rdf-syntax-ns#type")
  const OwlImports := Iri("http://www.w3.org/2002/07/owl#imports")
  const ProfProfile := Iri("http://www.w3.org/ns/dx/prof/Profile")
  const ProfHasResource := Iri("http://www.w3.org/ns/dx/prof/hasResource")
  const ProfHasRole := Iri("http://www.w3.org/ns/dx/prof/hasRole")
  const ProfHasArtifact := Iri("http://www.w3.org/ns/dx/prof/hasArtifact")
  const DctermsFormat := Iri("http://purl.org/dc/terms/format")
  /** The pyLODE role "this artifact is documentation configuration" (`LODE.config`).
      Only its identity matters: it differs from every other term above. */
  const LodeConfig := Iri("urn:pylode:role:config")

  /** `s` lists exactly the triples of `g`: an iteration order of the store. */
  ghost predicate Enumerates(s: seq<Triple>, g: set<Triple>)
  {
    forall t :: t in g <==> t in s
  }

  /** `graph.objects(None, p)` over an iteration snapshot, in iteration order. */
  function Objects(s: seq<Triple>, p: Term): (r: seq<Term>)
    ensures forall o :: o in r <==> exists t :: t in s && t.p == p && t.o == o
  {
    if s == [] then []
    else
      var rest := Objects(s[1..], p);
      assert forall t :: t in s[1..] ==> t in s;
      if s[0].p == p then [s[0].o] + rest else rest
  }

  /** `graph.subjects(p, o)` over an iteration snapshot, in iteration order. */
  function Subjects(s: seq<Triple>, p: Term, o: Term): (r: seq<Term>)
    ensures forall x :: x in r <==> Triple(x, p, o) in s
  {
    if s == [] then []
    else
      var rest := Subjects(s[1..], p, o);
      assert forall t :: t in s[1..] ==> t in s;
      if s[0].p == p && s[0].o == o then [s[0].s] + rest else rest
  }

  /** `graph.value(subject, p)`: the object of the first matching triple, or `None`. */
  function FirstObject(s: seq<Triple>, subject: Term, p: Term): (r: Option<Term>)
    ensures r.Some? ==> Triple(subject, p, r.value) in s
    ensures r.None? ==> forall o :: Triple(subject, p, o) !in s
  {
    if s == [] then None
    else if s[0].s == subject && s[0].p == p then Some(s[0].o)
    else
      assert forall o :: Triple(subject, p, o) in s ==> Triple(subject, p, o) in s[1..] by {
        assert s == [s[0]] + s[1..];
      }
      FirstObject(s[1..], subject, p)
  }

  /** An rdflib `Graph`: a set of triples that the loader merges into in place. */
  class Graph {
    var triples: set<Triple>

    constructor (ts: set<Triple>)
      ensures triples == ts
    {
      triples := ts;
    }

    /** `graph.__iadd__(other)` and `graph.parse(...)` into an existing graph. */
    method Merge(ts: set<Triple>)
      modifies this
      ensures triples == old(triples) + ts
    {
      triples := triples + ts;
    }
  }
}
