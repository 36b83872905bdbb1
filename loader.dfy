/** `ProfilesDataset` (pylode/profiles/supermodel/loader.py:47-136): the dataset of named
    graphs that the loader fills by splitting profiles out of their graphs, resolving
    `owl:imports` and following `prof:hasResource` descriptors. */
module Loader {
  import opened Wrappers
  import opened Errors
  import opened Rdf
  import opened Fetcher
  import opened Environment
  import opened Imports

  /** `PYLODE_CONFIG_GRAPH`: the identifier of the graph collecting documentation configuration. */
  const PylodeConfigGraph := "urn:graph:pylode-config"

  /** What lines 86-98 do with one resource descriptor. */
  datatype Route =
    | ConfigArtifact(url: string, format: string)
    | DataArtifact(url: string, format: string)
    | Unsupported

  /** The classification of `descriptor` by its role and `dcterms:format` in the graph `ts`. */
  function RouteOf(w: World, ts: set<Triple>, descriptor: Term): (r: Route)
    ensures r.ConfigArtifact? <==> Value(w, ts, descriptor, ProfHasRole) == Some(LodeConfig)
    ensures r.DataArtifact? ==> r.format in MediaTypes
    ensures r.DataArtifact? <==> Value(w, ts, descriptor, ProfHasRole) != Some(LodeConfig)
                                 && StrOpt(Value(w, ts, descriptor, DctermsFormat)) in MediaTypes
    ensures !r.Unsupported? ==> r.url == StrOpt(Value(w, ts, descriptor, ProfHasArtifact))
                                && r.format == StrOpt(Value(w, ts, descriptor, DctermsFormat))
  {
    var format := Value(w, ts, descriptor, DctermsFormat);
    var role := Value(w, ts, descriptor, ProfHasRole);
    var artifact := Value(w, ts, descriptor, ProfHasArtifact);
    if role == Some(LodeConfig) then ConfigArtifact(StrOpt(artifact), StrOpt(format))
    else if StrOpt(format) in MediaTypes then DataArtifact(StrOpt(artifact), StrOpt(format))
    else Unsupported
  }

  /** A descriptor is routed to the config graph only if the graph gives it the config role,
      to the data path only if the graph gives it a format of `MEDIA_TYPES`, and a descriptor
      with neither a role nor a format is ignored. */
  lemma RouteFollowsDescriptor(w: World, ts: set<Triple>, descriptor: Term)
    requires Sound(w)
    ensures var r := RouteOf(w, ts, descriptor);
      && (r.ConfigArtifact? ==> Triple(descriptor, ProfHasRole, LodeConfig) in ts)
      && (r.DataArtifact? ==> exists f :: Triple(descriptor, DctermsFormat, f) in ts && Str(f) in MediaTypes
                                         && Str(f) == r.format)
      && ((forall x :: Triple(descriptor, ProfHasRole, x) !in ts && Triple(descriptor, DctermsFormat, x) !in ts)
            ==> r.Unsupported?)
  {
    QueriesMatchGraph(w, ts);
  }

  /** Lines 80-90 over descriptors none of which takes the data path: the union of the config
      artifacts they name, fetched in order, or the first fetch or parse error. A data route
      contributes nothing here; it is not meant to occur. */
  function ConfigArtifacts(w: World, ts: set<Triple>, ds: seq<Term>): (r: Result<set<Triple>, LoadError>)
    ensures r.Failure? ==> !r.error.ImportFailed? && !r.error.BudgetExhausted?
  {
    if ds == [] then Success({})
    else
      var init := ConfigArtifacts(w, ts, ds[..|ds| - 1]);
      if init.Failure? then init
      else match RouteOf(w, ts, ds[|ds| - 1])
        case ConfigArtifact(url, format) =>
          var f := FetchGraph(w, url, format);
          if f.Failure? then Failure(f.error) else Success(init.value + f.value)
        case _ => init
  }

  /** What resolving one descriptor that does not take the data path does to the config
      graph's triples (`before` to `after`) and to the outcome `o`. */
  predicate ConfigEffect(w: World, ts: set<Triple>, d: Term, before: set<Triple>, after: set<Triple>,
                         o: Outcome<LoadError>)
  {
    match RouteOf(w, ts, d)
    case Unsupported => o.Pass? && after == before
    case ConfigArtifact(url, format) =>
      var f := FetchGraph(w, url, format);
      && (o.Pass? <==> f.Success?)
      && (o.Fail? ==> o.error == f.error)
      && after == before + (if f.Success? then f.value else {})
    case DataArtifact(_, _) => false
  }

  /** One more descriptor after a successful prefix: its effect on the config graph extends
      the union of the prefix's config artifacts, and its error is the run's error. */
  lemma ConfigArtifactsStep(w: World, ts: set<Triple>, ds: seq<Term>, j: nat, base: set<Triple>,
                            before: set<Triple>, after: set<Triple>, o: Outcome<LoadError>)
    requires j < |ds| && ConfigArtifacts(w, ts, ds[..j]).Success?
    requires before == base + ConfigArtifacts(w, ts, ds[..j]).value
    requires ConfigEffect(w, ts, ds[j], before, after, o)
    ensures var next := ConfigArtifacts(w, ts, ds[..j + 1]);
      && (o.Pass? <==> next.Success?)
      && (o.Pass? ==> after == base + next.value)
      && (o.Fail? ==> o.error == next.error)
  {
    assert ds[..j + 1][..j] == ds[..j];
  }

  /** The first error stops the loop: once a prefix of the descriptors fails, the whole run
      fails with the same error. */
  lemma {:induction false} ConfigArtifactsStopAtFailure(w: World, ts: set<Triple>, ds: seq<Term>, k: nat)
    requires k <= |ds| && ConfigArtifacts(w, ts, ds[..k]).Failure?
    ensures ConfigArtifacts(w, ts, ds) == ConfigArtifacts(w, ts, ds[..k])
    decreases |ds| - k
  {
    if k < |ds| {
      assert ds[..k + 1][..k] == ds[..k];
      ConfigArtifactsStopAtFailure(w, ts, ds, k + 1);
    } else {
      assert ds[..k] == ds;
    }
  }

  /** Lines 75 and 78 for one profile of `ts`, with `visited` before it: a failing import
      resolution of the rest of the graph is raised with `prev_graph` and the registry as they
      were, and a failing re-resolution of the whole graph is raised after the split. */
  predicate ImportFailureEffect(w: World, ts: set<Triple>, profile: Term, visited: set<string>,
                                prevBefore: set<Triple>, prevAfter: set<Triple>,
                                namedBefore: map<string, Graph>, namedAfter: map<string, Graph>,
                                o: Outcome<LoadError>)
  {
    var split := Resolve(w, ts - w.cbd(ts, profile), visited);
    var again := Resolve(w, ts, split.visited);
    && (split.result.Failure? ==> o == Fail(split.result.error) && prevAfter == prevBefore && namedAfter == namedBefore)
    && (split.result.Success? && again.result.Failure? ==> o == Fail(again.result.error))
  }

  /** Lines 75-78 for a profile of `ts` that raised nothing, with `visited` before it: both
      import resolutions succeeded and `prev_graph` holds the resolved rest of the graph. */
  predicate ProfileResolved(w: World, ts: set<Triple>, profile: Term, visited: set<string>, prevAfter: set<Triple>)
  {
    var split := Resolve(w, ts - w.cbd(ts, profile), visited);
    && split.result.Success? && split.result.value <= prevAfter
    && Resolve(w, ts, split.visited).result.Success?
  }

  /** The loop at lines 112-115 over the given profile subjects: each profile's CBD, taken from
      what is left of the graph, moves into the profiles part. Yields (profiles, remainder). */
  function SeedSplit(w: World, subjects: seq<Term>, rest: set<Triple>): (r: (set<Triple>, set<Triple>))
    ensures r.1 <= rest
    ensures subjects == [] ==> r.0 == {}
  {
    if subjects == [] then ({}, rest)
    else
      var c := w.cbd(rest, subjects[0]);
      var tail := SeedSplit(w, subjects[1..], rest - c);
      (c + tail.0, tail.1)
  }

  /** The split partitions the graph: every triple lands in exactly one of the two parts, so
      no CBD triple is left in the remainder. */
  lemma {:induction false} SeedSplitPartitions(w: World, subjects: seq<Term>, rest: set<Triple>)
    requires Sound(w)
    ensures var r := SeedSplit(w, subjects, rest);
      r.0 + r.1 == rest && r.0 !! r.1
  {
    if subjects != [] {
      var c := w.cbd(rest, subjects[0]);
      assert c <= rest;
      SeedSplitPartitions(w, subjects[1..], rest - c);
    }
  }

  /** Lines 111-115: splits the import-resolved seed graph into its profiles' CBDs and the rest. */
  method SplitSeed(w: World, ts: set<Triple>) returns (profiles: set<Triple>, rest: set<Triple>)
    requires Sound(w)
    ensures (profiles, rest) == SeedSplit(w, ProfileSubjects(w, ts), ts)
    ensures profiles + rest == ts && profiles !! rest
  {
    var subjects := ProfileSubjects(w, ts);
    ghost var whole := SeedSplit(w, subjects, ts);
    profiles, rest := {}, ts;
    assert subjects[0..] == subjects;
    for i := 0 to |subjects|
      invariant profiles + SeedSplit(w, subjects[i..], rest).0 == whole.0
      invariant SeedSplit(w, subjects[i..], rest).1 == whole.1
    {
      ghost var tail := SeedSplit(w, subjects[i + 1..], rest - w.cbd(rest, subjects[i]));
      assert subjects[i..][0] == subjects[i] && subjects[i..][1..] == subjects[i + 1..];
      assert SeedSplit(w, subjects[i..], rest) == (w.cbd(rest, subjects[i]) + tail.0, tail.1);
      var c := w.cbd(rest, subjects[i]);
      profiles := profiles + c;
      rest := rest - c;
    }
    assert subjects[|subjects|..] == [];
    SeedSplitPartitions(w, subjects, ts);
  }

  /** `g` has only gained triples. */
  twostate predicate Grown(g: Graph)
    reads g
  {
    old(g.triples) <= g.triples
  }

  class ProfilesDataset {
    const rootProfileIri: string
    /** The network, rdflib and the store order the loader runs against. */
    const world: World
    /** `external_resources`: the `owl:imports` URLs loaded so far. */
    var visited: set<string>
    /** The dataset's named graphs, by identifier (`add_graph` / `get_graph`). */
    var named: map<string, Graph>

    /** Lines 101-106: an empty dataset with no URL loaded. */
    constructor (rootProfileIri: string, world: World)
      ensures this.rootProfileIri == rootProfileIri && this.world == world
      ensures visited == {} && named == map[]
    {
      this.rootProfileIri := rootProfileIri;
      this.world := world;
      visited := {};
      named := map[];
    }

    /** The `root_graph` property: the graph registered under `root_profile_iri`. */
    function RootGraph(): (g: Option<Graph>)
      reads this
      ensures g.Some? <==> rootProfileIri in named
      ensures g.Some? ==> g.value == named[rootProfileIri]
    {
      if rootProfileIri in named then Some(named[rootProfileIri]) else None
    }

    /** The `modules_graph` property: the graph registered under `PYLODE_CONFIG_GRAPH`. */
    function ModulesGraph(): (g: Option<Graph>)
      reads this
      ensures g.Some? <==> PylodeConfigGraph in named
      ensures g.Some? ==> g.value == named[PylodeConfigGraph]
    {
      if PylodeConfigGraph in named then Some(named[PylodeConfigGraph]) else None
    }

    /** `g` is the graph of no identifier. */
    predicate Unregistered(g: Graph)
      reads this
    {
      forall k :: k in named ==> named[k] != g
    }

    /** The dataset only grows: URLs stay visited, identifiers stay registered, and every
        identifier keeps its graph or is given a new one. */
    twostate predicate Grew()
      reads this
    {
      && old(visited) <= visited
      && old(named.Keys) <= named.Keys
      && (forall k :: k in named ==> (k in old(named) && named[k] == old(named[k])) || fresh(named[k]))
    }

    /** Lines 57-58, 91-92 and 95-97: fetches `url` asking for `contentType` and parses the
        body in the media type the response declares; either step failing fails the whole. */
    method FetchAndParse(url: string, contentType: string) returns (r: Result<set<Triple>, LoadError>)
      ensures r == FetchGraph(world, url, contentType)
    {
      var fetched := Fetch(world.web, url, contentType);
      if fetched.Failure? {
        return Failure(fetched.error);
      }
      var parsed := world.parse(fetched.value.text, fetched.value.mediaType);
      if parsed.None? {
        return Failure(ParseError(fetched.value.mediaType));
      }
      return Success(parsed.value);
    }

    /** `load_owl_imports(graph)`: returns `graph` itself when it has no unvisited import,
        and otherwise the resolution of the first unvisited import's graph, a new object. */
    method LoadOwlImports(graph: Graph) returns (r: Result<Graph, LoadError>)
      modifies this`visited
      decreases |Universe(world.web) - visited|
      ensures var spec := Resolve(world, graph.triples, old(visited));
        && visited == spec.visited
        && (r.Success? <==> spec.result.Success?)
        && (r.Success? ==> r.value.triples == spec.result.value)
        && (r.Failure? ==> r.error == spec.result.error)
      ensures r.Success? ==> (r.value == graph <==> UnvisitedImports(world, graph.triples, old(visited)) == [])
      ensures r.Success? ==> r.value == graph || fresh(r.value)
      ensures old(visited) <= visited
    {
      var imports := UnvisitedImports(world, graph.triples, visited);
      if imports == [] {
        return Success(graph);
      }
      // The loop at lines 52-63 never gets past its first element: it returns or raises.
      var url := imports[0];
      var fetched := FetchAndParse(url, TextTurtle);
      if fetched.Failure? {
        ghost var failed := ResolveFetchFailure(world, graph.triples, visited);
        return Failure(ImportFailed(url, fetched.error));
      }
      var imported := new Graph(fetched.value);
      ghost var u, g := ResolveStep(world, graph.triples, visited);
      visited := visited + {url};
      var inner := LoadOwlImports(imported);
      if inner.Failure? {
        return Failure(ImportFailed(url, inner.error));
      }
      return inner;
    }

    /** Lines 70-77, for one profile: registers a new graph holding exactly the profile's CBD,
        and merges the import resolution of the rest of `graph` into `prev`. */
    method SplitProfile(graph: Graph, prev: Graph, profile: Term) returns (o: Outcome<LoadError>)
      requires graph != prev
      modifies this`visited, this`named, prev
      ensures var c := world.cbd(graph.triples, profile);
              var spec := Resolve(world, graph.triples - c, old(visited));
        && visited == spec.visited
        && (o.Pass? <==> spec.result.Success?)
        && (o.Pass? ==>
              && prev.triples == old(prev.triples) + spec.result.value
              && Str(profile) in named && fresh(named[Str(profile)])
              && named[Str(profile)].triples == c
              && named == old(named)[Str(profile) := named[Str(profile)]])
        && (o.Fail? ==> o.error == spec.result.error && prev.triples == old(prev.triples) && named == old(named))
      ensures Grew()
    {
      var c := world.cbd(graph.triples, profile);
      var profileGraph := new Graph(c);
      var other := new Graph(graph.triples - c);
      var resolved := LoadOwlImports(other);
      if resolved.Failure? {
        return Fail(resolved.error);
      }
      prev.Merge(resolved.value.triples);
      named := named[Str(profile) := profileGraph];
      return Pass;
    }

    /** Lines 86-98, for one resource descriptor of `graph`: a config artifact is parsed into
        the config graph and nowhere else; an RDF artifact is merged into `graph` and its
        profiles are loaded with `graph` as their accumulator; anything else is ignored. */
    method ResolveDescriptor(graph: Graph, descriptor: Term, fuel: nat) returns (o: Outcome<LoadError>)
      requires PylodeConfigGraph in named && Unregistered(graph)
      modifies this`visited, this`named, graph, named[PylodeConfigGraph]
      decreases fuel, 0
      ensures Grew() && Grown(graph) && Grown(old(named[PylodeConfigGraph]))
      ensures !RouteOf(world, old(graph.triples), descriptor).DataArtifact? ==>
        && unchanged(this, graph)
        && ConfigEffect(world, old(graph.triples), descriptor, old(named[PylodeConfigGraph].triples),
                        named[PylodeConfigGraph].triples, o)
      ensures RouteOf(world, old(graph.triples), descriptor).Unsupported? ==> unchanged(old(named[PylodeConfigGraph]))
      ensures match RouteOf(world, old(graph.triples), descriptor)
        case DataArtifact(url, format) =>
          var fetched := FetchGraph(world, url, format);
          && (fetched.Failure? ==> o == Fail(fetched.error) && unchanged(this, graph) && unchanged(old(named[PylodeConfigGraph])))
          && (fetched.Success? ==>
                var ps := ProfileSubjects(world, fetched.value);
                && old(graph.triples) + fetched.value <= graph.triples
                && (ps == [] ==>
                      && o.Pass? && graph.triples == old(graph.triples) + fetched.value
                      && unchanged(this) && unchanged(old(named[PylodeConfigGraph])))
                && (ps != [] && fuel == 0 ==>
                      && o == Fail(BudgetExhausted) && graph.triples == old(graph.triples) + fetched.value
                      && unchanged(this) && unchanged(old(named[PylodeConfigGraph])))
                && (ps != [] && fuel > 0 ==>
                      ImportFailureEffect(world, fetched.value, ps[0], old(visited),
                                          old(graph.triples) + fetched.value, graph.triples, old(named), named, o))
                && (o.Pass? ==> forall p :: p in ps ==> Str(p) in named)
                && (o.Pass? && ps != [] ==>
                      var first := Resolve(world, fetched.value - world.cbd(fetched.value, ps[0]), old(visited));
                      first.result.Success? && first.result.value <= graph.triples))
        case _ => true
    {
      match RouteOf(world, graph.triples, descriptor)
      case Unsupported =>
        return Pass;
      case ConfigArtifact(url, format) =>
        var config := named[PylodeConfigGraph];
        var fetched := FetchAndParse(url, format);
        if fetched.Failure? {
          return Fail(fetched.error);
        }
        config.Merge(fetched.value);
        return Pass;
      case DataArtifact(url, format) =>
        var fetched := FetchAndParse(url, format);
        if fetched.Failure? {
          return Fail(fetched.error);
        }
        var newGraph := new Graph(fetched.value);
        graph.Merge(newGraph.triples);
        // A graph without profiles makes the nested `load_profiles` do nothing; only a
        // graph with profiles recurses and spends fuel.
        if ProfileSubjects(world, newGraph.triples) == [] {
          return Pass;
        }
        if fuel == 0 {
          return Fail(BudgetExhausted);
        }
        o := LoadProfiles(newGraph, graph, fuel - 1);
    }

    /** Lines 80-98: resolves every `prof:hasResource` descriptor of a snapshot of `graph`,
        stopping at the first error. */
    method ResolveDescriptors(graph: Graph, fuel: nat) returns (o: Outcome<LoadError>)
      requires PylodeConfigGraph in named && Unregistered(graph)
      modifies this`visited, this`named, graph, named[PylodeConfigGraph]
      decreases fuel, 1
      ensures Grew() && Grown(graph) && Grown(old(named[PylodeConfigGraph]))
      ensures var ds := ResourceDescriptors(world, old(graph.triples));
              var spec := ConfigArtifacts(world, old(graph.triples), ds);
        (forall d :: d in ds ==> !RouteOf(world, old(graph.triples), d).DataArtifact?) ==>
          && unchanged(this, graph)
          && (o.Pass? <==> spec.Success?)
          && (o.Pass? ==> named[PylodeConfigGraph].triples == old(named[PylodeConfigGraph].triples) + spec.value)
          && (o.Fail? ==> o.error == spec.error)
    {
      var descriptors := ResourceDescriptors(world, graph.triples);
      ghost var ts := graph.triples;
      ghost var noData := forall d :: d in descriptors ==> !RouteOf(world, ts, d).DataArtifact?;
      o := Pass;
      var j := 0;
      // The first exception leaves the loop.
      while j < |descriptors| && o.Pass?
        invariant j <= |descriptors|
        invariant Unregistered(graph) && PylodeConfigGraph in named
        invariant Grew() && Grown(graph) && Grown(old(named[PylodeConfigGraph]))
        invariant noData ==>
          var spec := ConfigArtifacts(world, ts, descriptors[..j]);
          && unchanged(this, graph)
          && (o.Pass? <==> spec.Success?)
          && (o.Pass? ==> named[PylodeConfigGraph].triples == old(named[PylodeConfigGraph].triples) + spec.value)
          && (o.Fail? ==> o.error == spec.error)
      {
        ghost var before := named[PylodeConfigGraph].triples;
        o := ResolveDescriptor(graph, descriptors[j], fuel);
        if noData {
          assert descriptors[j] in descriptors;
          ConfigArtifactsStep(world, ts, descriptors, j, old(named[PylodeConfigGraph].triples),
                              before, named[PylodeConfigGraph].triples, o);
        }
        j := j + 1;
      }
      if noData {
        if o.Fail? {
          ConfigArtifactsStopAtFailure(world, ts, descriptors, j);
        } else {
          assert descriptors[..j] == descriptors;
        }
      }
    }

    /** Lines 77-98: re-resolves `graph`'s imports and resolves the descriptors of the graph
        that results, which is returned as the `graph` of the next iteration. */
    method ReloadProfileGraph(graph: Graph, fuel: nat) returns (o: Outcome<LoadError>, next: Graph)
      requires PylodeConfigGraph in named && Unregistered(graph)
      modifies this`visited, this`named, graph, named[PylodeConfigGraph]
      decreases fuel, 2
      ensures Grew() && Grown(graph) && Grown(old(named[PylodeConfigGraph]))
      ensures next == graph || fresh(next)
      ensures Unregistered(next)
      ensures var again := Resolve(world, old(graph.triples), old(visited));
        && (again.result.Failure? ==> o == Fail(again.result.error) && named == old(named))
        && (o.Pass? ==> again.result.Success? && again.result.value <= next.triples)
      ensures var again := Resolve(world, old(graph.triples), old(visited));
        again.result.Success? ==>
          var ds := ResourceDescriptors(world, again.result.value);
          (forall d :: d in ds ==> !RouteOf(world, again.result.value, d).DataArtifact?) ==>
            var spec := ConfigArtifacts(world, again.result.value, ds);
            && next.triples == again.result.value
            && named == old(named)
            && (o.Pass? <==> spec.Success?)
            && (o.Pass? ==> old(named[PylodeConfigGraph]).triples == old(named[PylodeConfigGraph].triples) + spec.value)
            && (o.Fail? ==> o.error == spec.error)
    {
      var resolved := LoadOwlImports(graph);
      if resolved.Failure? {
        return Fail(resolved.error), graph;
      }
      next := resolved.value;
      o := ResolveDescriptors(next, fuel);
    }

    /** Lines 70-98, one iteration of the profile loop: splits `profile` out of `graph`,
        re-resolves `graph`'s imports and resolves the descriptors of the graph that results,
        which is returned as the `graph` of the next iteration. */
    method LoadProfile(graph: Graph, prev: Graph, profile: Term, fuel: nat) returns (o: Outcome<LoadError>, next: Graph)
      requires PylodeConfigGraph in named
      requires graph != prev && Unregistered(graph) && Unregistered(prev)
      modifies this`visited, this`named, graph, prev, named[PylodeConfigGraph]
      decreases fuel, 3
      ensures Grew() && Grown(graph) && Grown(prev) && Grown(old(named[PylodeConfigGraph]))
      ensures next == graph || fresh(next)
      ensures next != prev && Unregistered(next)
      ensures o.Pass? ==> Str(profile) in named
      ensures o.Pass? ==> ProfileResolved(world, old(graph.triples), profile, old(visited), prev.triples)
      ensures ImportFailureEffect(world, old(graph.triples), profile, old(visited),
                                  old(prev.triples), prev.triples, old(named), named, o)
      ensures o.Pass? ==>
        var ts := old(graph.triples);
        var split := Resolve(world, ts - world.cbd(ts, profile), old(visited));
        var again := Resolve(world, ts, split.visited);
        && split.result.Success? && prev.triples == old(prev.triples) + split.result.value
        && again.result.Success? && again.result.value <= next.triples
      ensures Str(profile) != PylodeConfigGraph ==>
        var ts := old(graph.triples);
        var split := Resolve(world, ts - world.cbd(ts, profile), old(visited));
        var again := Resolve(world, ts, split.visited);
        split.result.Success? && again.result.Success? ==>
          var ds := ResourceDescriptors(world, again.result.value);
          (forall d :: d in ds ==> !RouteOf(world, again.result.value, d).DataArtifact?) ==>
            var spec := ConfigArtifacts(world, again.result.value, ds);
            && next.triples == again.result.value
            && Str(profile) in named && named[Str(profile)].triples == world.cbd(ts, profile)
            && named == old(named)[Str(profile) := named[Str(profile)]]
            && (o.Pass? <==> spec.Success?)
            && (o.Pass? ==> old(named[PylodeConfigGraph]).triples == old(named[PylodeConfigGraph].triples) + spec.value)
            && (o.Fail? ==> o.error == spec.error)
    {
      o := SplitProfile(graph, prev, profile);
      if o.Fail? {
        return o, graph;
      }
      o, next := ReloadProfileGraph(graph, fuel);
    }

    /** `load_profiles(graph, prev_graph)`: every profile of `graph` gets a named graph, and
        nothing already in the dataset, in `graph` or in `prev_graph` is lost. */
    method LoadProfiles(graph: Graph, prev: Graph, fuel: nat) returns (o: Outcome<LoadError>)
      requires PylodeConfigGraph in named
      requires graph != prev && Unregistered(graph) && Unregistered(prev)
      modifies this`visited, this`named, graph, prev, named[PylodeConfigGraph]
      decreases fuel, 4
      ensures Grew() && Grown(graph) && Grown(prev) && Grown(old(named[PylodeConfigGraph]))
      ensures o.Pass? ==> forall p :: p in ProfileSubjects(world, old(graph.triples)) ==> Str(p) in named
      ensures ProfileSubjects(world, old(graph.triples)) == [] ==>
                o.Pass? && unchanged(this, graph, prev) && unchanged(old(named[PylodeConfigGraph]))
      ensures o.Pass? && ProfileSubjects(world, old(graph.triples)) != [] ==>
        ProfileResolved(world, old(graph.triples), ProfileSubjects(world, old(graph.triples))[0], old(visited), prev.triples)
      ensures ProfileSubjects(world, old(graph.triples)) != [] ==>
        ImportFailureEffect(world, old(graph.triples), ProfileSubjects(world, old(graph.triples))[0], old(visited),
                            old(prev.triples), prev.triples, old(named), named, o)
    {
      var profiles := ProfileSubjects(world, graph.triples);
      ghost var ts := graph.triples;
      var current := graph;
      for i := 0 to |profiles|
        invariant current == graph || fresh(current)
        invariant current != prev && Unregistered(current) && PylodeConfigGraph in named
        invariant Unregistered(graph) && Unregistered(prev)
        invariant Grew() && Grown(graph) && Grown(prev) && Grown(old(named[PylodeConfigGraph]))
        invariant forall k :: 0 <= k < i ==> Str(profiles[k]) in named
        invariant i == 0 ==> current == graph && unchanged(this, graph, prev) && unchanged(old(named[PylodeConfigGraph]))
        invariant i > 0 ==> ProfileResolved(world, ts, profiles[0], old(visited), prev.triples)
      {
        ghost var visitedBefore, triplesBefore, keysBefore := visited, current.triples, named.Keys;
        o, current := LoadProfile(current, prev, profiles[i], fuel);
        if i == 0 {
          assert visitedBefore == old(visited) && triplesBefore == ts;
        }
        if o.Fail? {
          return;
        }
        forall k | 0 <= k <= i
          ensures Str(profiles[k]) in named
        {
          if k < i {
            assert Str(profiles[k]) in keysBefore;
          }
        }
      }
      return Pass;
    }

    /** Lines 111-122, on the import-resolved seed: moves every profile's CBD into the initial
        profiles graph, registers the empty config graph, loads the profiles with the remainder
        as accumulator and registers the remainder as the root graph. */
    method LoadSeed(seed: Graph, fuel: nat) returns (o: Outcome<LoadError>)
      requires Sound(world) && named == map[]
      modifies this`visited, this`named
      ensures o.Pass? ==>
        var split := SeedSplit(world, ProfileSubjects(world, old(seed.triples)), old(seed.triples));
        && ModulesGraph().Some? && fresh(ModulesGraph().value)
        && RootGraph().Some? && fresh(RootGraph().value)
        && split.1 <= RootGraph().value.triples
        && (ProfileSubjects(world, split.0) == [] ==>
              && (rootProfileIri != PylodeConfigGraph ==> ModulesGraph().value.triples == {})
              && RootGraph().value.triples == split.1)
        && (ProfileSubjects(world, split.0) != [] ==>
              var first := Resolve(world, split.0 - world.cbd(split.0, ProfileSubjects(world, split.0)[0]),
                                   old(visited));
              first.result.Success? && first.result.value <= RootGraph().value.triples)
        && forall p :: p in ProfileSubjects(world, split.0) ==> Str(p) in named
    {
      var profiles, rest := SplitSeed(world, seed.triples);
      var initialProfiles := new Graph(profiles);
      var remainder := new Graph(rest);
      var config := new Graph({});
      named := named[PylodeConfigGraph := config];
      o := LoadProfiles(initialProfiles, remainder, fuel);
      if o.Fail? {
        return;
      }
      var root := new Graph(remainder.triples);
      named := named[rootProfileIri := root];
      return Pass;
    }

    /** Lines 108-122: parses the seed, resolves its imports and loads the result. */
    method Init(data: string, fuel: nat) returns (o: Outcome<LoadError>)
      requires Sound(world) && visited == {} && named == map[]
      modifies this`visited, this`named
      ensures world.parse(data, TextTurtle).None? ==>
                o == Fail(ParseError(TextTurtle)) && visited == {} && named == map[]
      ensures world.parse(data, TextTurtle).Some? ==>
        var resolved := Resolve(world, world.parse(data, TextTurtle).value, {});
        resolved.result.Failure? ==> o == Fail(resolved.result.error) && named == map[]
      ensures o.Pass? ==>
        && world.parse(data, TextTurtle).Some?
        && var resolved := Resolve(world, world.parse(data, TextTurtle).value, {});
        && resolved.result.Success?
        && var split := SeedSplit(world, ProfileSubjects(world, resolved.result.value), resolved.result.value);
        && ModulesGraph().Some? && fresh(ModulesGraph().value)
        && RootGraph().Some? && fresh(RootGraph().value)
        && split.1 <= RootGraph().value.triples
        && (ProfileSubjects(world, split.0) == [] ==>
              && (rootProfileIri != PylodeConfigGraph ==> ModulesGraph().value.triples == {})
              && RootGraph().value.triples == split.1)
        && (ProfileSubjects(world, split.0) != [] ==>
              var first := Resolve(world, split.0 - world.cbd(split.0, ProfileSubjects(world, split.0)[0]),
                                   resolved.visited);
              first.result.Success? && first.result.value <= RootGraph().value.triples)
        && forall p :: p in ProfileSubjects(world, split.0) ==> Str(p) in named
    {
      var seed := world.parse(data, TextTurtle);
      if seed.None? {
        return Fail(ParseError(TextTurtle));
      }
      var graph := new Graph(seed.value);
      var resolved := LoadOwlImports(graph);
      if resolved.Failure? {
        return Fail(resolved.error);
      }
      o := LoadSeed(resolved.value, fuel);
    }
  }
}
