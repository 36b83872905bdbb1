# pyLODE profile loader, modelled in Dafny

This project models the profile-loading engine of pyLODE's "supermodel" documentation
profile (`pylode/profiles/supermodel/loader.py`): the `fetch` helper with its proxy table,
status check and media-type selection, and the `ProfilesDataset` class that resolves
`owl:imports` against a set of visited URLs (`external_resources`), splits every
`prof:Profile`'s concise bounded description (CBD) into its own named graph, merges what is
left into an accumulator graph passed by reference, and routes `prof:hasResource`
descriptors either into the reserved config graph or back into `load_profiles`.

Files:

- `wrappers.dfy` — `Option`, `Result` and `Outcome` (the raised-or-not of a Python call).
- `errors.dfy` — the exceptions the loader raises, including the `RuntimeError` that
  `load_owl_imports` wraps around every failure (`ImportFailed`).
- `rdf.dfy` — RDF terms and triples, the vocabulary the loader reads, the pattern queries it
  makes (`objects`, `subjects`, `value`) over an enumeration of a graph, and `Graph`, a class
  with a mutable set of triples and the in-place merge `__iadd__`.
- `fetch.dfy` — `MEDIA_TYPES`, the proxy table, the specification `FetchResult` of `fetch`
  and the method `Fetch` that computes it with the source's overwriting loop.
- `environment.dfy` — the `World` the loader runs in: a web of responses keyed by request,
  the RDF parser, the CBD operation and the store's iteration order, all as values; `Sound`
  states what the model assumes of them (a CBD is part of its graph; the iteration order
  enumerates the graph).
- `imports.dfy` — `Resolve`, the specification of `load_owl_imports`, with its termination
  argument over the finite universe of fetchable URLs and the lemmas about it.
- `loader.dfy` — the `ProfilesDataset` class: `load_owl_imports`, `load_profiles` (split into
  one method per loop level), `__init__`, `root_graph` and `modules_graph`.

The HTTP client is replaced by the `web` map from a request (URL after proxying, `Accept`
header) to a response (status, `Content-Type` header, body); a request with no entry is a
transport error. The RDF parser is the `parse` function of the world, returning `None` for
a parse error. Loops over live rdflib generators iterate a snapshot taken before the loop,
in the store's iteration order.

Behaviour kept exactly as the source has it:

- `load_owl_imports` fetches only the first unvisited import and returns the resolution of
  the fetched graph alone; the input graph's triples are not part of the result
  (`loader.py:52-61`).
- A URL is marked visited only after its fetch and parse succeed, so a failing URL stays
  unvisited; an error in the nested call leaves the URL visited and is re-wrapped naming it
  (`loader.py:56-63`).
- The descriptor fetches of `load_profiles` neither consult nor update the visited set, and
  nothing bounds the recursion at `loader.py:98`; the model bounds it by `fuel`.

## Model

| member | source | states |
|---|---|---|
| Rdf.Objects | pylode/profiles/supermodel/loader.py:50 | `graph.objects(None, p)`: a term is listed exactly when some triple of the graph has predicate `p` and that object |
| Rdf.Subjects | pylode/profiles/supermodel/loader.py:68 | `graph.subjects(p, o)`: a term is listed exactly when the triple (term, `p`, `o`) is in the graph |
| Rdf.FirstObject | pylode/profiles/supermodel/loader.py:82-84 | `graph.value(s, p)`: a returned object forms a triple of the graph with `s` and `p`; `None` only when there is no such triple |
| Rdf.Graph.constructor | pylode/profiles/supermodel/loader.py:55 | a new graph holds exactly the given triples |
| Rdf.Graph.Merge | pylode/profiles/supermodel/loader.py:72 | `__iadd__`: the graph afterwards holds its old triples plus the merged ones, and only those |
| Fetcher.RequestFor | pylode/profiles/supermodel/loader.py:28-36 | a URL in the proxy table is requested at its mapped URL, any other URL unchanged, with the requested type as `Accept` |
| Fetcher.ProxyTargetsAreFinal | pylode/profiles/supermodel/loader.py:28-35 | whatever the `Accept` header, no target of the proxy table is itself a key of it, so the single lookup at lines 33-35 yields the URL actually requested |
| Fetcher.LastMatch | pylode/profiles/supermodel/loader.py:40-44 | the selected media type is the requested type or a member of `MEDIA_TYPES` |
| Fetcher.LastMatchIsLatestOccurring | pylode/profiles/supermodel/loader.py:40-44 | with no `MEDIA_TYPES` entry inside the header the requested type is kept; otherwise the result is the entry occurring in the header that comes last in table order |
| Fetcher.FetchResult | pylode/profiles/supermodel/loader.py:26-44 | `fetch` succeeds exactly when the proxied request gets status 200, then returning the body and the selected media type; any other status raises an HTTP error carrying status, URL and body, and no response is a transport error |
| Fetcher.FetchedTypeIsAllowed | pylode/profiles/supermodel/loader.py:40-44 | a fetched type is the requested one or in `MEDIA_TYPES`, and is a `MEDIA_TYPES` entry found in the header whenever any entry occurs there |
| Fetcher.Fetch | pylode/profiles/supermodel/loader.py:26-44 | the method with the overwriting loop computes exactly `FetchResult` |
| Environment.FetchGraph | pylode/profiles/supermodel/loader.py:57-58 | `fetch` followed by `parse` under the negotiated type: succeeds exactly when the fetch does and the body parses, yielding the parsed triples; after a successful fetch the error is a parse error under that type; its errors are never the import wrapper nor the recursion bound |
| Environment.QueriesMatchGraph | pylode/profiles/supermodel/loader.py:68-84 | over a sound world, the profile subjects, the resource descriptors and `value` lookups agree with the triples of the graph |
| Imports.Unvisited | pylode/profiles/supermodel/loader.py:50 | a URL is listed exactly when it is the string of some object and is not visited; the first URL listed is that of the first object in iteration order whose string is not visited, the one lines 52-61 fetch |
| Imports.UnvisitedImportsAreNew | pylode/profiles/supermodel/loader.py:50 | the import candidates are exactly the `owl:imports` targets of the graph that are not visited |
| Imports.FetchedUrlInUniverse | pylode/profiles/supermodel/loader.py:57-61 | a URL that fetches and parses belongs to the finite universe of fetchable URLs (the termination measure) |
| Imports.VisitShrinks | pylode/profiles/supermodel/loader.py:60-61 | marking a new URL of the universe visited shrinks the unvisited part of the universe |
| Imports.Resolve | pylode/profiles/supermodel/loader.py:48-65 | the specification of `load_owl_imports`: the visited set only grows; nothing is requested exactly when no import is unvisited, and then the input graph itself is the result with the visited set unchanged |
| Imports.ResolveStep | pylode/profiles/supermodel/loader.py:52-61 | with an unvisited import that fetches, the result is that of the fetched graph resolved with the URL added to the visited set; the URL is requested first, and a nested error is wrapped naming it |
| Imports.ResolveFetchFailure | pylode/profiles/supermodel/loader.py:56-63 | when the first unvisited import cannot be fetched or parsed, the error is wrapped naming that URL, only that URL was requested, and the visited set is unchanged |
| Imports.ResolveDependsOnlyOnFirstImport | pylode/profiles/supermodel/loader.py:52-61 | once an import is unvisited, the input graph's other triples play no part: two graphs with the same first unvisited import resolve identically |
| Imports.ResolveRequestsOnlyUnvisited | pylode/profiles/supermodel/loader.py:50-60 | only URLs outside the starting visited set are fetched, and none of them twice |
| Imports.ResolveVisitsRequested | pylode/profiles/supermodel/loader.py:56-61 | on success the visited set grows by exactly the URLs fetched |
| Imports.ResolveFailureLeavesUrlUnvisited | pylode/profiles/supermodel/loader.py:56-63 | on failure every fetched URL except the failing one is marked visited, and the failing URL is not |
| Imports.ResolveErrorNamesRequests | pylode/profiles/supermodel/loader.py:56-63 | every failure is the wrapped `RuntimeError`, and its chain of wrapped URLs is exactly the sequence of URLs fetched |
| Imports.ResolvedGraphIsClosed | pylode/profiles/supermodel/loader.py:48-65 | over a sound world, every `owl:imports` target of the returned graph is visited afterwards |
| Loader.RouteOf | pylode/profiles/supermodel/loader.py:82-91 | the config route is taken exactly when the first `prof:hasRole` value is `LODE.config`; the data route exactly when it is not and the first `dcterms:format` value is in `MEDIA_TYPES`; a routed descriptor carries the string of its first `prof:hasArtifact` and `dcterms:format` values |
| Loader.RouteFollowsDescriptor | pylode/profiles/supermodel/loader.py:82-98 | a descriptor goes to the config graph only with the `LODE.config` role, to the data path only with a `dcterms:format` in `MEDIA_TYPES`, and with neither a role nor a format it is ignored |
| Loader.ConfigArtifacts | pylode/profiles/supermodel/loader.py:80-90 | over descriptors that do not take the data path, the union of the config artifacts fetched in order or the first error, which is a fetch or parse error |
| Loader.ConfigArtifactsStep | pylode/profiles/supermodel/loader.py:86-90 | after a successful prefix, one more descriptor's effect on the config graph extends the union of the prefix, and its error becomes the run's error |
| Loader.ConfigArtifactsStopAtFailure | pylode/profiles/supermodel/loader.py:80-90 | once a prefix of the descriptors fails, the whole run fails with that error: the first exception ends the loop |
| Loader.SeedSplit | pylode/profiles/supermodel/loader.py:111-115 | the remainder left by the seed split is part of the graph, and with no profile subject nothing moves into the profiles part |
| Loader.SeedSplitPartitions | pylode/profiles/supermodel/loader.py:111-115 | the seed split partitions the graph: profiles and remainder are disjoint and together are the graph, so no CBD triple stays in the remainder |
| Loader.SplitSeed | pylode/profiles/supermodel/loader.py:111-115 | the loop moving each profile's CBD out of the seed computes `SeedSplit` and partitions the graph |
| Loader.ProfilesDataset.constructor | pylode/profiles/supermodel/loader.py:100-106 | a new dataset has no URL visited and no graph registered |
| Loader.ProfilesDataset.RootGraph | pylode/profiles/supermodel/loader.py:130-132 | the graph registered under `root_profile_iri`, when there is one |
| Loader.ProfilesDataset.ModulesGraph | pylode/profiles/supermodel/loader.py:134-136 | the graph registered under `PYLODE_CONFIG_GRAPH`, when there is one |
| Loader.ProfilesDataset.FetchAndParse | pylode/profiles/supermodel/loader.py:57-58 | fetching a URL and parsing the body under the negotiated type computes exactly `FetchGraph` |
| Loader.ProfilesDataset.LoadOwlImports | pylode/profiles/supermodel/loader.py:48-65 | result and visited set are those of `Resolve`; the input graph object itself comes back exactly when no import is unvisited, otherwise a new graph; the visited set only grows |
| Loader.ProfilesDataset.SplitProfile | pylode/profiles/supermodel/loader.py:70-77 | a new graph holding exactly the profile's CBD is registered under `str(profile)` and nothing else is registered; the import resolution of the graph minus the CBD is merged into `prev_graph`; on failure neither `prev_graph` nor the registry changes |
| Loader.ProfilesDataset.ResolveDescriptor | pylode/profiles/supermodel/loader.py:82-98 | a config descriptor leaves `graph` and the registry alone and adds exactly the fetched triples to the config graph; an unsupported one changes nothing; fetch errors change nothing; a data descriptor adds the fetched triples to `graph`, and then: a fetched graph with no profile succeeds with `graph` grown by exactly those triples and nothing else changed; otherwise the nested `load_profiles` runs with `graph` as its accumulator, so a failing import resolution of its first profile is raised as is, and on success every profile of the fetched graph is registered and `graph` holds the first profile's resolved remainder |
| Loader.ProfilesDataset.ResolveDescriptors | pylode/profiles/supermodel/loader.py:80-98 | the dataset, `graph` and the config graph only grow; when no descriptor of the snapshot takes the data path, `graph` and the registry are untouched, the run succeeds exactly when every config artifact fetches and parses, the config graph gains exactly their union, and otherwise the first error is raised |
| Loader.ProfilesDataset.ReloadProfileGraph | pylode/profiles/supermodel/loader.py:78-98 | the graph carried on is the input or a new, unregistered graph holding the import resolution of the input; a failing resolution raises its error with nothing registered; when no descriptor of the resolution takes the data path, the carried graph is exactly the resolution, the registry is unchanged, and the run and the config graph follow `ConfigArtifacts` |
| Loader.ProfilesDataset.LoadProfile | pylode/profiles/supermodel/loader.py:69-98 | after one profile the profile is registered; `prev_graph` gained exactly the import resolution of the graph minus the profile's CBD; a failing resolution of that rest is raised as is with `prev_graph` and the registry unchanged, and a failing re-resolution of the whole graph is raised as is; the graph carried to the next profile (the input or a new, unregistered graph) holds the import resolution of the whole graph from the visited set after the split; `graph` and the config graph only grew; when no descriptor of that resolution takes the data path, the carried graph is exactly the resolution, the only new registration is a graph holding exactly the profile's CBD, and the run and the config graph follow `ConfigArtifacts` |
| Loader.ProfilesDataset.LoadProfiles | pylode/profiles/supermodel/loader.py:67-98 | when no error is raised every profile subject of the input graph has a registered graph and `prev_graph` holds the resolved remainder of the first profile; a failing import resolution of the first profile's rest is raised as is with `prev_graph` and the registry unchanged, and a failing re-resolution after it is raised as is; a graph with no profile leaves the dataset, `graph`, `prev_graph` and the config graph untouched; nothing registered, in `graph` or in `prev_graph` is lost |
| Loader.ProfilesDataset.LoadSeed | pylode/profiles/supermodel/loader.py:111-122 | on the import-resolved seed: a new config graph and a new root graph are registered, the root graph holds the seed remainder and the first profile's resolved remainder, and every profile split out of the seed is registered; with no profile the config graph is registered empty and the root graph holds exactly the remainder |
| Loader.ProfilesDataset.Init | pylode/profiles/supermodel/loader.py:108-122 | an unparsable seed raises a parse error with nothing loaded; a failing import resolution of the seed raises its error with nothing registered; on success the seed's imports resolve, a new config graph and a new root graph are registered, the root graph holds the seed remainder and the first profile's resolved remainder, and every profile split out of the seed is registered; with no profile the config graph is registered empty and the root graph holds exactly the remainder |

## Left out

- The httpx client, redirects, `client.close` in `__exit__`, logging and `time`: the network
  is the `web` map, and a missing entry stands for every transport failure.
- A response without a `Content-Type` header (a `TypeError` at `loader.py:42`): the header
  is always a string here.
- rdflib's parsers, its serialisation and the internals of `Graph.cbd`: parsing and CBD are
  functions of the world; the only property assumed of CBD is that it is part of its graph.
- `Dataset(default_union=True)` store semantics: `add_graph` is a map update from identifier
  to graph object and `get_graph` a lookup; a later registration under the same identifier
  replaces the earlier one.
- Mutation of a graph while one of its generators is live (`loader.py:68, 80, 97`): each
  loop iterates a snapshot taken before it starts.
- `LODE.config` is a fixed IRI constant: `pylode/profiles/supermodel/namespace.py` is not
  part of this model.
- The seed at `loader.py:109` is parsed with rdflib's default format, modelled as
  `text/turtle`.
- `load_remote_resources`, `load_owl_imports2` and `load_prof_resources`
  (`loader.py:138-195`): nothing in `__init__` or `load_profiles` reaches them.
- The module-level `load_profiles` function (`loader.py:198-213`): timing, logging and
  writing the dataset to a file around the constructor.
- `pylode/profiles/supermodel/component/preamble.py`: HTML presentation code.
- Loader.ProfilesDataset.ResolveDescriptor: the recursion at `loader.py:98` is bounded by
  `fuel`; when the fetched graph has profiles and no fuel is left, the data artifact is still
  merged and `BudgetExhausted` is reported instead of loading them. The source has no such
  bound. A fetched graph without profiles needs no fuel, as the nested `load_profiles` does
  nothing with it.
- Loader.ProfilesDataset.ResolveDescriptor: with profiles in the fetched graph, the outcome is
  stated as far as the nested `load_profiles` contract goes: the errors of its first profile's
  import resolutions and what success registers, not when a later profile fails.
- Loader.ProfilesDataset.LoadProfiles: states that profiles are registered, what the first
  profile adds to `prev_graph` and that nothing is lost, not the exact final contents of
  `graph`, `prev_graph` and the config graph after later profiles, which depend on every
  nested fetch; the error raised is stated only for the first profile's import resolutions.
- Loader.ProfilesDataset.ResolveDescriptors: states the exact effect only when no descriptor
  takes the data path; once one does, the routes of later descriptors are judged on the
  grown graph and only growth is stated.
- Loader.ProfilesDataset.Init: states the exact config and root contents only for a seed
  without profiles; with profiles it states what the first profile contributes.
- Loader.ProfilesDataset.LoadSeed: states the exact config and root contents only for a seed
  without profiles; with profiles it states what the first profile contributes.
- Loader.ProfilesDataset.LoadProfile: states the exact effect of the descriptor loop only when
  no descriptor of the re-resolved graph takes the data path and the profile IRI is not
  `PYLODE_CONFIG_GRAPH`; otherwise only growth, the registration of the profile and the
  errors of the two import resolutions.
- Loader.ProfilesDataset.ReloadProfileGraph: states the exact effect of the descriptor loop
  only when no descriptor of the resolved graph takes the data path; otherwise only growth.
- Loader.ProfilesDataset.Init: requires a sound world, since the partition of the seed
  relies on every CBD being part of its graph.
