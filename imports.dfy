/** `ProfilesDataset.load_owl_imports` (pylode/profiles/supermodel/loader.py:48-65) as a
    specification over values: the graph's triples and the visited-URL set
    (`external_resources`) go in, the resolved graph or the raised error, the new visited set
    and the URLs requested from the network come out. */
module Imports {
  import opened Wrappers
  import opened Errors
  import opened Rdf
  import opened Fetcher
  import opened Environment

  /** `[str(v) for v in objs if str(v) not in visited]`. */
  function Unvisited(objs: seq<Term>, visited: set<string>): (r: seq<string>)
    ensures forall u :: u in r <==> u !in visited && exists o :: o in objs && Str(o) == u
    ensures r != [] ==> exists k :: 0 <= k < |objs| && r[0] == Str(objs[k])
                                  && forall j :: 0 <= j < k ==> Str(objs[j]) in visited
  {
    if objs == [] then []
    else
      var rest := Unvisited(objs[1..], visited);
      assert forall o :: o in objs <==> o == objs[0] || o in objs[1..] by {
        assert objs == [objs[0]] + objs[1..];
      }
      if Str(objs[0]) !in visited then [Str(objs[0])] + rest else rest
  }

  /** `import_values` at line 50, in store iteration order. */
  function UnvisitedImports(w: World, ts: set<Triple>, visited: set<string>): seq<string>
  {
    Unvisited(Objects(w.order(ts), OwlImports), visited)
  }

  /** The URLs a graph declares with `owl:imports`. */
  function ImportTargets(ts: set<Triple>): set<string>
  {
    set t | t in ts && t.p == OwlImports :: Str(t.o)
  }

  lemma UnvisitedImportsAreNew(w: World, ts: set<Triple>, visited: set<string>)
    requires Sound(w)
    ensures forall u :: u in UnvisitedImports(w, ts, visited) <==> u in ImportTargets(ts) && u !in visited
  {
    assert Enumerates(w.order(ts), ts);
    forall u | u in ImportTargets(ts) && u !in visited
      ensures u in UnvisitedImports(w, ts, visited)
    {
      var t :| t in ts && t.p == OwlImports && Str(t.o) == u;
      assert t.o in Objects(w.order(ts), OwlImports);
    }
  }

  /** Every URL some fetch can succeed for: a URL requested from the server, or a proxied one. */
  function Universe(web: Web): set<string>
  {
    (set r | r in web :: r.url) + Proxies.Keys
  }

  lemma FetchedUrlInUniverse(w: World, url: string, contentType: string)
    requires FetchGraph(w, url, contentType).Success?
    ensures url in Universe(w.web)
  {
    var req := RequestFor(url, contentType);
    assert req in w.web;
    if url !in Proxies {
      assert req.url == url;
    }
  }

  lemma VisitShrinks(universe: set<string>, visited: set<string>, u: string)
    requires u in universe && u !in visited
    ensures |universe - (visited + {u})| < |universe - visited|
  {
    assert universe - (visited + {u}) == (universe - visited) - {u};
  }

  /** The result of `load_owl_imports`: the returned graph's triples or the raised error,
      `external_resources` afterwards, and the URLs passed to `fetch`, in order. */
  datatype Resolution = Resolution(result: Result<set<Triple>, LoadError>, visited: set<string>,
                                   requested: seq<string>)

  /** `load_owl_imports(graph)`: when some import is unvisited, only the first one is fetched,
      marked visited, and the resolution of the fetched graph alone is returned; every error
      inside the `try` is re-raised naming that URL. */
  function Resolve(w: World, ts: set<Triple>, visited: set<string>): (r: Resolution)
    ensures visited <= r.visited
    ensures r.requested == [] <==> UnvisitedImports(w, ts, visited) == []
    ensures r.requested == [] ==> r.result == Success(ts) && r.visited == visited
    decreases |Universe(w.web) - visited|
  {
    var urls := UnvisitedImports(w, ts, visited);
    if urls == [] then Resolution(Success(ts), visited, [])
    else
      var u := urls[0];
      match FetchGraph(w, u, TextTurtle)
      case Failure(e) => Resolution(Failure(ImportFailed(u, e)), visited, [u])
      case Success(g) =>
        FetchedUrlInUniverse(w, u, TextTurtle);
        VisitShrinks(Universe(w.web), visited, u);
        var inner := Resolve(w, g, visited + {u});
        var result := if inner.result.Success? then inner.result else Failure(ImportFailed(u, inner.result.error));
        Resolution(result, inner.visited, [u] + inner.requested)
  }

  /** One unfolding of `Resolve` when the first unvisited import is fetched and parsed. */
  lemma ResolveStep(w: World, ts: set<Triple>, visited: set<string>) returns (u: string, g: set<Triple>)
    requires UnvisitedImports(w, ts, visited) != []
    requires FetchGraph(w, UnvisitedImports(w, ts, visited)[0], TextTurtle).Success?
    ensures u == UnvisitedImports(w, ts, visited)[0] && u !in visited
    ensures Success(g) == FetchGraph(w, u, TextTurtle)
    ensures |Universe(w.web) - (visited + {u})| < |Universe(w.web) - visited|
    ensures var inner := Resolve(w, g, visited + {u});
            var r := Resolve(w, ts, visited);
      && r.requested == [u] + inner.requested
      && r.visited == inner.visited
      && (r.result.Success? <==> inner.result.Success?)
      && (r.result.Success? ==> r.result == inner.result)
      && (r.result.Failure? ==> r.result.error == ImportFailed(u, inner.result.error))
  {
    u := UnvisitedImports(w, ts, visited)[0];
    g := FetchGraph(w, u, TextTurtle).value;
    FetchedUrlInUniverse(w, u, TextTurtle);
    VisitShrinks(Universe(w.web), visited, u);
  }

  /** Once some import is unvisited, the input graph matters only through its first unvisited
      import: two graphs that agree on it resolve identically, whatever else they hold. */
  lemma ResolveDependsOnlyOnFirstImport(w: World, ts1: set<Triple>, ts2: set<Triple>, visited: set<string>)
    requires UnvisitedImports(w, ts1, visited) != [] && UnvisitedImports(w, ts2, visited) != []
    requires UnvisitedImports(w, ts1, visited)[0] == UnvisitedImports(w, ts2, visited)[0]
    ensures Resolve(w, ts1, visited) == Resolve(w, ts2, visited)
  {
  }

  /** No element of `s` occurs twice. */
  predicate Distinct(s: seq<string>)
  {
    s == [] || (s[0] !in s[1..] && Distinct(s[1..]))
  }

  /** Visitation is idempotent: only URLs outside the starting visited set are requested,
      and none twice. */
  lemma {:induction false} ResolveRequestsOnlyUnvisited(w: World, ts: set<Triple>, visited: set<string>)
    ensures var r := Resolve(w, ts, visited);
      (forall u :: u in r.requested ==> u !in visited) && Distinct(r.requested)
    decreases |Universe(w.web) - visited|
  {
    var urls := UnvisitedImports(w, ts, visited);
    if urls != [] && FetchGraph(w, urls[0], TextTurtle).Success? {
      var u, g := ResolveStep(w, ts, visited);
      ResolveRequestsOnlyUnvisited(w, g, visited + {u});
      var req := Resolve(w, ts, visited).requested;
      assert req[1..] == Resolve(w, g, visited + {u}).requested;
    }
  }

  function Last(s: seq<string>): string
    requires s != []
  {
    s[|s| - 1]
  }

  lemma ConsElements(u: string, s: seq<string>)
    ensures (set x | x in [u] + s) == {u} + set x | x in s
    ensures s != [] ==> Last([u] + s) == Last(s)
  {
  }

  /** After a successful resolution the visited set has grown by exactly the requested URLs. */
  lemma {:induction false} ResolveVisitsRequested(w: World, ts: set<Triple>, visited: set<string>)
    ensures var r := Resolve(w, ts, visited);
      r.result.Success? ==> r.visited == visited + set u | u in r.requested
    decreases |Universe(w.web) - visited|
  {
    var urls := UnvisitedImports(w, ts, visited);
    if urls == [] {
    } else if FetchGraph(w, urls[0], TextTurtle).Failure? {
      var u := ResolveFetchFailure(w, ts, visited);
    } else {
      var u, g := ResolveStep(w, ts, visited);
      var inner := Resolve(w, g, visited + {u});
      if inner.result.Success? {
        ResolveVisitsRequested(w, g, visited + {u});
        VisitedRequestsExtend(visited, u, inner.visited, inner.requested);
      }
    }
  }

  /** The set bookkeeping of one succeeding step: prepending the URL fetched at this level
      keeps the visited set equal to the starting one plus the requested URLs. */
  lemma VisitedRequestsExtend(visited: set<string>, u: string, innerVisited: set<string>, innerRequested: seq<string>)
    requires innerVisited == visited + {u} + set x | x in innerRequested
    ensures innerVisited == visited + set x | x in [u] + innerRequested
  {
    ConsElements(u, innerRequested);
  }

  /** One unfolding of `Resolve` when the first unvisited import cannot be fetched or parsed. */
  lemma ResolveFetchFailure(w: World, ts: set<Triple>, visited: set<string>) returns (u: string)
    requires UnvisitedImports(w, ts, visited) != []
    requires FetchGraph(w, UnvisitedImports(w, ts, visited)[0], TextTurtle).Failure?
    ensures u == UnvisitedImports(w, ts, visited)[0] && u !in visited
    ensures Resolve(w, ts, visited)
         == Resolution(Failure(ImportFailed(u, FetchGraph(w, u, TextTurtle).error)), visited, [u])
  {
    u := UnvisitedImports(w, ts, visited)[0];
  }

  /** The set bookkeeping of one failing step: prepending the URL fetched at this level keeps
      the last requested URL unvisited and the visited set one short of the requested ones. */
  lemma FailedRequestsExtend(visited: set<string>, u: string, innerVisited: set<string>, innerRequested: seq<string>)
    requires innerRequested != [] && Last(innerRequested) !in innerVisited
    requires innerVisited + {Last(innerRequested)} == visited + {u} + set x | x in innerRequested
    ensures Last([u] + innerRequested) !in innerVisited
    ensures innerVisited + {Last([u] + innerRequested)} == visited + set x | x in [u] + innerRequested
  {
    ConsElements(u, innerRequested);
  }

  /** After a failed resolution the visited set has grown by the requested URLs except the
      last one: the URL whose fetch or parse failed is not marked visited. */
  lemma {:induction false} ResolveFailureLeavesUrlUnvisited(w: World, ts: set<Triple>, visited: set<string>)
    ensures var r := Resolve(w, ts, visited);
      r.result.Failure? ==> r.requested != [] && Last(r.requested) !in r.visited
                            && r.visited + {Last(r.requested)} == visited + set u | u in r.requested
    decreases |Universe(w.web) - visited|
  {
    var urls := UnvisitedImports(w, ts, visited);
    if urls == [] {
    } else if FetchGraph(w, urls[0], TextTurtle).Failure? {
      var u := ResolveFetchFailure(w, ts, visited);
      assert (set x | x in [u]) == {u};
    } else {
      var u, g := ResolveStep(w, ts, visited);
      var inner := Resolve(w, g, visited + {u});
      var r := Resolve(w, ts, visited);
      if r.result.Failure? {
        ResolveFailureLeavesUrlUnvisited(w, g, visited + {u});
        FailedRequestsExtend(visited, u, inner.visited, inner.requested);
      }
    }
  }

  /** A failure is reported as a chain of `ImportFailed` wrappers naming exactly the requested
      URLs, outermost first: the last one is the import whose fetch or parse failed. */
  lemma {:induction false} ResolveErrorNamesRequests(w: World, ts: set<Triple>, visited: set<string>)
    ensures var r := Resolve(w, ts, visited);
      r.result.Failure? ==> r.result.error.ImportFailed? && ImportChain(r.result.error) == r.requested
    decreases |Universe(w.web) - visited|
  {
    var urls := UnvisitedImports(w, ts, visited);
    if urls != [] {
      if FetchGraph(w, urls[0], TextTurtle).Success? {
        var u, g := ResolveStep(w, ts, visited);
        ResolveErrorNamesRequests(w, g, visited + {u});
      } else {
        var f := FetchResult(w.web, urls[0], TextTurtle);
        assert f.Failure? ==> !f.error.ImportFailed?;
      }
    }
  }

  /** The resolved graph has no unvisited import left: every `owl:imports` URL it declares is
      in the visited set afterwards. */
  lemma {:induction false} ResolvedGraphIsClosed(w: World, ts: set<Triple>, visited: set<string>)
    requires Sound(w)
    ensures var r := Resolve(w, ts, visited);
      r.result.Success? ==> ImportTargets(r.result.value) <= r.visited
    decreases |Universe(w.web) - visited|
  {
    var urls := UnvisitedImports(w, ts, visited);
    if urls == [] {
      UnvisitedImportsAreNew(w, ts, visited);
    } else if FetchGraph(w, urls[0], TextTurtle).Success? {
      var u, g := ResolveStep(w, ts, visited);
      ResolvedGraphIsClosed(w, g, visited + {u});
    }
  }
}
