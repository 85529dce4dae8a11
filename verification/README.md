# Coordinated workers: a verified model

The repository is a library for Juju charms that deploy one application as a *coordinator*, which
runs nginx and knows the configuration, and any number of *workers*, which run the workload. This
project models the parts of it whose correctness is spread over several functions, and proves what
they achieve together.

* **The telemetry proxy** (`WorkerTelemetry`, `Nginx`, `Routing`, `Coordinator`, `Published`,
  `Publication`). Workers send metrics, logs, traces and samples through the coordinator's nginx.
  The coordinator derives nginx upstreams, nginx locations, an address table and the URLs it
  publishes in four separate places that agree only in how they spell names. The main result is
  that a published URL, resolved through the generated nginx configuration, leads to the endpoint
  it stands for and nowhere else.
* **The cluster protocol** (`Cluster`, `Roles`, `Protocol`, `Convergence`). Workers publish
  addresses and roles, the coordinator publishes configuration behind three gates. Proved over all
  runs: whatever is on a worker's disk had been published to the relation it was read from, by a
  leader through open gates. Proved over all schedules: two rounds of the workers around one turn of
  the coordinator are enough, even though the configuration is computed from what workers publish.
* **The worker's reconciler** (`Worker`, `WorkerRuns`): exact change detection over the files and the
  pebble plan, its fixpoint, a bound on restarts over unbounded runs, and independence of history.
* **Folding cores**: pod-label reconciliation (`Labels`), log forwarding (`LogForwarding`), the
  deployment probe (`Probe`), the choice of a Grafana datasource (`Correlation`).

Objects that the program updates in place are classes whose methods are proved against functions on
values; the lemmas are then about those functions. `Prelude`, `Text` and `Urls` hold what Python's
standard library contributes.

## How the surroundings are modelled

* A databag is what decodes from it: `None` is an empty or invalid one. YAML is a pair of functions
  with `load(dump(y)) == y`; `load` may fail, as it does on malformed text.
* The compiler takes `urlparse` and the verdict "is an IP address" as parameters, so routing holds
  whatever they answer. Module `Urls` gives the parser of section 3 of RFC 3986 (authority: section
  3.2) down to characters; it is what clients of published URLs use. It leaves out the `;params`
  component and the errors Python raises for unbalanced brackets.
* The library that renders nginx configurations is not part of this model. A location is taken to
  work as in the repository's sample configuration
  (`tests/unit/resources/sample_litmus_conf_with_rewrite.txt:48-53`): set `$backend` to
  `scheme://upstream` plus the backend URL, rewrite, proxy to `$backend`. An exact match wins over
  the longest prefix. Rewrite rules of a form other than the one the coordinator generates are not
  interpreted.
* Every pebble entry overrides by replacing. The outcomes of commands, restarts and stops are
  parameters, so results hold for all of them; a restart that fails for good aborts the dispatch.
* Each dispatch builds its objects from the current databags; `Protocol` therefore takes one
  dispatch as one step, and `Environment` steps may change almost anything between two. Juju drops
  the databag changes of a hook that fails, so they take effect only if the dispatch completes; what
  was done to a container stays.

## Where the code and its documentation part

Each of these is proved: the exact condition where there is one, and an input at which it happens.

* A Loki or remote-write URL without a path is not reached at its own path: nginx forwards the
  proxy's path. A tracing receiver with a path receives everything at that path, whatever the client
  appended (`Routing.ForwardedPath`; `Routing.PathlessExample`, `Routing.ReceiverPathExample`).
* A tracing receiver whose URL names no host still gets an upstream, without an address unless
  another endpoint supplies one under its name (`Published.UpstreamsWithoutAddresses`;
  `Published.HostlessExample`).
* A Loki unit without an endpoint is given a proxy URL that has no location
  (`Published.LokiRoutedIffEndpoint`; `Publication.LokiWithoutEndpointExample`).
* `restart` relies on Juju retrying the hook (`src/coordinated_workers/worker.py:548-557`). The retry
  finds files and plan up to date and restarts nothing (`WorkerRuns.FailedRestartIsNotRetried`;
  `WorkerRuns.FailedRestartExample`). Services that are down are not restarted either, despite the
  comment at `src/coordinated_workers/worker.py:344-346` (`WorkerRuns.QuietReconcile`;
  `WorkerRuns.DownServicesExample`).
* When the plan contains a service or check that the layer no longer defines, every ready reconcile
  restarts (`WorkerRuns.ReconcileTwice`, `WorkerRuns.OutgrownPlanRestartsEveryTime`;
  `WorkerRuns.OutgrownPlanExample`).
* A configuration file on disk that is not valid YAML aborts every ready reconcile and is never
  replaced (`WorkerRuns.CorruptConfigBlocks`; `WorkerRuns.CorruptConfigExample`); convergence therefore
  starts from readable disks.
* A label call interrupted after patching the ConfigMap leaks the labels it was to remove from the
  objects it had not reached (`Labels.RetryAfterInterruption`, `Labels.LeakedLabelStays`;
  `Labels.LeakExample`).
* The probe never reports several roles on one application (`Probe.GetRolesFromConfig`;
  `Probe.TwoRolesExample`), and looks for the worker charm in the first bundle rather than in all of
  them (`Probe.NotFoundIff`; `Probe.SecondBundleExample`).
* Only a leader validates roles before publishing; a follower that published could fail on them
  (`Cluster.RolesMayNotLoadForFollowers`). The coordinator never calls it on a follower.

## Model

| member | source | states |
|---|---|---|
| Urls.AbsoluteUrlRoundTrip | src/coordinated_workers/worker_telemetry.py:432-449 | a URL assembled from scheme, host, port and path parses back to exactly those parts |
| Urls.UrlWithoutPort | src/coordinated_workers/worker_telemetry.py:67-71 | without an explicit port, a plain URL parses to its parts and gets port 443 if its scheme ends in "s", 80 otherwise |
| Urls.UrlRoundTrip | src/coordinated_workers/worker_telemetry.py:134-144 | any URL with scheme, user information, host, port, path and query or fragment parses to its scheme and host in lower case, its port (malformed beyond 65535) and its path alone |
| Urls.IpLiteralRoundTrip | src/coordinated_workers/worker_telemetry.py:134-144 | the same for an IP literal in brackets |
| Urls.UrlTextParses | src/coordinated_workers/worker_telemetry.py:67-71 | the port used is the explicit one, else 443 if the last letter of the scheme is s, else 80; TLS follows the same letter |
| Urls.BareAuthority | src/coordinated_workers/worker_telemetry.py:74-83 | plain parsing finds no host in `host:port`; with `//` in front it finds host and port |
| Urls.HostnameHasNoDelimiter | src/coordinated_workers/worker_telemetry.py:142-143 | a parsed host name never contains a slash, question mark or hash |
| Nginx.ChooseExact | tests/unit/resources/sample_litmus_conf_with_rewrite.txt:48-53 | a location that alone matches exactly is chosen, whatever prefixes match as well |
| Nginx.ChoosePrefix | tests/unit/resources/sample_litmus_conf_with_rewrite.txt:48-53 | without an exact match, the strictly longest matching prefix is chosen |
| Nginx.RewriteDropsPrefix | src/coordinated_workers/worker_telemetry.py:412 | the rewrite of a tracing location turns prefix plus rest into a slash plus rest |
| WorkerTelemetry.TolerantParseRecoversAuthority | src/coordinated_workers/worker_telemetry.py:74-83 | tolerant parsing yields host and port of a bare authority, where plain parsing yields no host |
| WorkerTelemetry.SanitizeHostname | src/coordinated_workers/worker_telemetry.py:42-64 | a host that is no IP address becomes a non-empty name of letters, digits and dashes that neither starts nor ends with a dash, or an error; an IP address never fails |
| WorkerTelemetry.SanitizedFromFirstLabel | src/coordinated_workers/worker_telemetry.py:53-64 | the name consists of the safe characters of the first label in order, up to dashes at either end; it is an error exactly when that label has no letter and no digit |
| WorkerTelemetry.SanitizedCharacters | src/coordinated_workers/worker_telemetry.py:55-59 | a sanitised name consists of ASCII letters, digits and dashes |
| WorkerTelemetry.UnitLabelIsKept | src/coordinated_workers/worker_telemetry.py:43-46 | a domain name whose first label is safe sanitises to exactly that label |
| WorkerTelemetry.AddressesClash | src/coordinated_workers/worker_telemetry.py:48-51 | two IP addresses get the same name if and only if they differ at most in which separator stands where; IPv4 addresses never clash |
| WorkerTelemetry.AddressIsDashed | src/coordinated_workers/worker_telemetry.py:48-51 | an IP address keeps every character but dots and colons, which become dashes |
| WorkerTelemetry.SanitizedHasNoDelimiter | src/coordinated_workers/worker_telemetry.py:42-64 | sanitising introduces no URL delimiter, for names and IP addresses alike |
| WorkerTelemetry.GenerateNginxConfigFromSpec | src/coordinated_workers/worker_telemetry.py:236-276 | one location per specification in order, field by field, with HTTP/1.1 forced and no gRPC; one upstream per name, that of the first specification carrying it |
| WorkerTelemetry.GenerateNginxConfig | src/coordinated_workers/worker_telemetry.py:279-421 | the generators' loop yields the configuration of all endpoints, or the first endpoint's failure |
| WorkerTelemetry.GetNginxUpstreamsAndLocations | src/coordinated_workers/worker_telemetry.py:163-233 | refuses gRPC workload tracing; otherwise the four kinds' parts in order, or the first failure |
| WorkerTelemetry.AssignAddresses | src/coordinated_workers/worker_telemetry.py:134-158 | one loop over endpoints leaves the table obtained by assigning them in order, or the first failure |
| WorkerTelemetry.GetUpstreamsToAddresses | src/coordinated_workers/worker_telemetry.py:110-160 | workers first, then Loki, remote-write and tracing endpoints, later assignments replacing earlier ones |
| WorkerTelemetry.ProxyLokiEndpointsByUnit | src/coordinated_workers/worker_telemetry.py:424-450 | exactly the units of the logging relations get a proxy URL, each its own |
| WorkerTelemetry.ProxiedRemoteWrite | src/coordinated_workers/worker_telemetry.py:453-479 | succeeds if and only if every host sanitises, and then gives one proxy URL per endpoint in order |
| WorkerTelemetry.ProxyRemoteWriteEndpoints | src/coordinated_workers/worker_telemetry.py:470-479 | the loop computes those URLs or stops at the first failing endpoint |
| WorkerTelemetry.ProxyTracingReceiversUrls | src/coordinated_workers/worker_telemetry.py:482-508 | exactly the given protocols get a proxy URL, each its own |
| Routing.UpstreamsFirstWins | src/coordinated_workers/worker_telemetry.py:242-254 | deduplication repeats no name, loses none, and keeps the first specification's upstream |
| Routing.CombinedNamesUnique | src/coordinated_workers/worker_telemetry.py:205-219 | the combined upstream names are unique if and only if the names derived from the four kinds of endpoint are pairwise disjoint |
| Routing.SanitizedInjective | src/coordinated_workers/worker_telemetry.py:286-288 | replacing the slash by a dash keeps different unit names different |
| Routing.ExactPathsDistinct | src/coordinated_workers/worker_telemetry.py:23-29 | two exact locations have the same path if and only if they are of the same kind and of the same unit as far as sanitising can tell, and then they share their upstream |
| Routing.TracingNeverExact | src/coordinated_workers/worker_telemetry.py:23-29 | no request below a tracing prefix equals the path of an exact location |
| Routing.TracingPrefixFree | src/coordinated_workers/worker_telemetry.py:23-29 | one tracing prefix starts a request below another only if kind and protocol agree |
| Routing.LastAssignmentWins | src/coordinated_workers/worker_telemetry.py:128-160 | the table holds the last assignment to a key |
| Routing.TableKeys | src/coordinated_workers/worker_telemetry.py:128-160 | a key is in the table if and only if it was there before or an endpoint assigned it |
| Routing.KeysAgree | src/coordinated_workers/worker_telemetry.py:134-158 | the address table and the nginx specification of an endpoint use the same key and the URL's host; a tracing receiver without a host is left out of the table |
| Routing.RoutesToOriginal | src/coordinated_workers/worker_telemetry.py:110-421 | with unambiguous names, a request for an endpoint's published path, below it for tracing, goes to exactly that endpoint: TLS flag, host, explicit or default port, and URI |
| Routing.ForwardedPath | src/coordinated_workers/worker_telemetry.py:335-412 | requests arrive at the endpoint's own path if and only if it has one; a tracing prefix is transparent if and only if the receiver has no path |
| Routing.PathlessExample | src/coordinated_workers/worker_telemetry.py:365-370 | Loki at a URL without a path receives at the path of the proxy |
| Routing.ReceiverPathExample | src/coordinated_workers/worker_telemetry.py:404-412 | a receiver at a URL with a path receives every request at that path |
| Routing.PublishedUrlReachesEndpoint | src/coordinated_workers/worker_telemetry.py:424-508 | parsing a proxy URL gives the coordinator's host, port and scheme, and its path routes to the original endpoint |
| Routing.UnitsNamedApart | src/coordinated_workers/worker_telemetry.py:285-361 | worker and Loki units share an upstream name if and only if they have the same unit name |
| Routing.LookupKeysClash | src/coordinated_workers/worker_telemetry.py:285-418 | endpoints with distinct upstreams share a lookup key if and only if a sanitised remote-write host equals the upstream name of a tracing receiver |
| Routing.UnambiguousIff | src/coordinated_workers/worker_telemetry.py:285-418 | upstream names and lookup keys are unambiguous if and only if no derived name repeats and no remote-write host is named like a tracing receiver |
| Routing.RemoteWriteUnitHasNoDelimiter | src/coordinated_workers/worker_telemetry.py:323-325 | a sanitised remote-write host contains no URL delimiter |
| Cluster.RolesRoundTrip | src/coordinated_workers/interfaces/cluster.py:274-282 | expanding the published role string gives the union of the roles' one-level expansions |
| Cluster.ExpandedIff | src/coordinated_workers/interfaces/cluster.py:274-282 | a role is in the expansion of a published string if and only if one of its comma-separated pieces is a meta role with that member, or is no meta role and is the role itself |
| Cluster.NoRolesDoNotRoundTrip | src/coordinated_workers/worker.py:405-408 | an empty list of roles would come back as the empty role, hence the worker's guard |
| Cluster.PublishedRolesIgnoreOrder | src/coordinated_workers/interfaces/cluster.py:484-492 | the published string is the same for every ordering of the roles |
| Cluster.PublishedRolesAreSorted | src/coordinated_workers/interfaces/cluster.py:491 | the published pieces are the roles in lexicographic order, each as often as listed |
| Cluster.ClusterProvider.PublishData | src/coordinated_workers/interfaces/cluster.py:228-265 | writes exactly the ready relations, which then show the payload and the ports of their own role, and changes no other field; never fails for a leader; a failing role load leaves a prefix published |
| Cluster.RolesLoadForLeaders | src/coordinated_workers/interfaces/cluster.py:242-248 | for a leader the role of every relation it publishes to loads |
| Cluster.RolesMayNotLoadForFollowers | src/coordinated_workers/interfaces/cluster.py:385-392 | for a follower there are relations on which the load fails |
| Cluster.ReadyWhenAllPublished | src/coordinated_workers/interfaces/cluster.py:369-392 | a relation is ready if and only if its application is known and each of its units regards itself as published, for leaders and followers alike |
| Cluster.ClusterProvider.ExpandRoleString | src/coordinated_workers/interfaces/cluster.py:274-282 | the result has a role if and only if some piece of the string is a meta role with that member, or no meta role and the role itself |
| Cluster.ClusterProvider.AddRelation | src/coordinated_workers/interfaces/cluster.py:287-306 | one relation adds each valid unit address to each expanded role and nothing else |
| Cluster.ClusterProvider.GatherAddressesByRole | src/coordinated_workers/interfaces/cluster.py:284-307 | the dict of sets holds exactly the role-address pairs of all relations, with no empty set |
| Cluster.ClusterProvider.GatherAddresses | src/coordinated_workers/interfaces/cluster.py:309-316 | the strictly sorted union of the addresses of all roles |
| Cluster.ClusterProvider.GatherRoles | src/coordinated_workers/interfaces/cluster.py:318-336 | the keys are exactly the roles for which some application publishes a piece that stands for them; each count is the sum of unit counts over its relations |
| Cluster.RoleShareIff | src/coordinated_workers/interfaces/cluster.py:330-333 | a relation counts for a role with all its units, published or not, if it provides it, and not at all otherwise |
| Cluster.ClusterProvider.GatherTopology | src/coordinated_workers/interfaces/cluster.py:338-360 | the valid unit data of all relations, in order |
| Cluster.ClusterRequirer.PublishAddress | src/coordinated_workers/interfaces/cluster.py:468-482 | sets this unit's data and no other's; a non-leader has thereby done its part |
| Cluster.ClusterRequirer.PublishRoles | src/coordinated_workers/interfaces/cluster.py:484-492 | fails exactly for non-leaders; a leader replaces the application data only |
| Cluster.SortedSet | src/coordinated_workers/interfaces/cluster.py:316 | the elements of the set, strictly sorted |
| Roles.CoherenceIsMonotone | src/coordinated_workers/coordinator.py:601-616 | further relations never break default coherence, and then no role is missing |
| Roles.CoherentIff | src/coordinated_workers/coordinator.py:159-161 | default coherence holds if and only if each role of the minimal deployment is provided by some application; the missing roles are exactly those that none provides |
| Roles.MetaRoleCovers | src/coordinated_workers/interfaces/cluster.py:274-282 | one application with a meta role whose members cover the minimal deployment makes the cluster coherent |
| Roles.CheckRolesConfig | src/coordinated_workers/coordinator.py:137-157 | each of the three errors is reported exactly in its case |
| Roles.GatheredRolesAreDeclared | src/coordinated_workers/coordinator.py:137-161 | under a valid roles configuration, workers that publish declared roles contribute declared roles only |
| Roles.AddressesWithinCount | src/coordinated_workers/interfaces/cluster.py:284-336 | no role has more distinct addresses than its unit count |
| Roles.TopologyMembers | src/coordinated_workers/interfaces/cluster.py:338-360 | the topology contains a unit's data if and only if that unit has published it |
| Roles.PairsMembers | src/coordinated_workers/interfaces/cluster.py:284-307 | an address serves a role if and only if a unit with it sits in a relation whose roles expand to that role |
| Roles.GatheredAddressInTopology | src/coordinated_workers/interfaces/cluster.py:309-360 | every gathered address belongs to a unit of the topology |
| Coordinator.RegistersReconciler | src/coordinated_workers/coordinator.py:365-393 | the reconciler is registered if and only if there are workers, S3 is ready, and the custom checker agrees or, by default, every required role is provided |
| Coordinator.CollectUnitStatus | src/coordinated_workers/coordinator.py:847-865 | the unit is active if and only if the coordinator can handle events; with the default checker no role is then missing; each other status appears exactly in its case |
| Coordinator.S3ReadyNeedsRelation | tests/integration/testers/coordinator/lib/charms/data_platform_libs/v0/s3.py:777-783 | valid connection data comes from some relation |
| Coordinator.S3ReadyIff | src/coordinated_workers/coordinator.py:105-118 | S3 is ready if and only if the first relation with a known application has an endpoint, a bucket and both keys, each under either spelling |
| Coordinator.UpstreamLokiEndpointsByUnit | src/coordinated_workers/coordinator.py:543-565 | the nested loops fill the dict that results from all units in order |
| Coordinator.LastEndpointCounts | src/coordinated_workers/coordinator.py:554-565 | a unit is listed with a URL if and only if that is the last endpoint it has published |
| Coordinator.WorkersScrapeJobs | src/coordinated_workers/coordinator.py:740-786 | one job per entry of the topology: with a non-zero proxy port at `/proxy/worker/<unit>/metrics` of the coordinator, otherwise directly at the worker |
| Coordinator.Coordinator.BuildNginxConfig | src/coordinated_workers/coordinator.py:1019-1083 | the charm's parts first, then the telemetry parts, in new lists; the charm's own lists are not written; the address table gains the telemetry entries; a failure changes nothing |
| Coordinator.BuildRepeatedly | src/coordinated_workers/coordinator.py:1019-1083 | any number of builds in one dispatch leaves the charm's lists as they were, gives equal upstreams and equal locations at every port, the charm's first, and leaves the table of a single build; a failure is the first build's and changes nothing |
| Coordinator.BuildsDoNotAccumulate | src/coordinated_workers/coordinator.py:1074-1083 | adding the telemetry table again changes nothing; a role keeps its addresses if and only if no telemetry key with other addresses has its name |
| Coordinator.CoordinatorBuilds | src/coordinated_workers/coordinator.py:1040-1083 | the combined configuration and table satisfy the hypotheses of the routing theorem |
| Published.LocationsServeEndpoints | src/coordinated_workers/worker_telemetry.py:205-219 | a path has a location if and only if it is the published path of an endpoint |
| Published.UpstreamsServeEndpoints | src/coordinated_workers/worker_telemetry.py:205-210 | every upstream stems from an endpoint |
| Published.WorkersImplyRouted | src/coordinated_workers/coordinator.py:1040-1083 | with workers and the proxy enabled, the configuration has a location for every endpoint, and a table entry for every upstream if all tracing URLs name hosts |
| Published.PublishedImpliesRouted | src/coordinated_workers/coordinator.py:395-441 | a relation ready for publication means there are workers, so every endpoint has its location in that dispatch, and every upstream its table entry if all tracing URLs name hosts |
| Published.UpstreamsWithoutAddresses | src/coordinated_workers/worker_telemetry.py:152-158 | for any names: every upstream has a table entry if and only if, for each tracing receiver whose URL names no host, a unit is named like it, a remote-write host sanitises to its name, or a receiver of the same kind and protocol has a host |
| Published.OnlyNamesakesSupply | src/coordinated_workers/worker_telemetry.py:139-158 | with unit names, hosts and protocols as Juju has them, only a remote-write host of the receiver's name can supply the address |
| Published.HostlessExample | src/coordinated_workers/worker_telemetry.py:154-156 | a receiver with the empty URL gets an upstream whose key is not in the table |
| Published.LokiRoutedIffEndpoint | src/coordinated_workers/worker_telemetry.py:442-449 | the proxy URL of a Loki unit has a location if and only if the unit has an endpoint |
| Published.SourceMembers | src/coordinated_workers/coordinator.py:1047-1073 | the compiled endpoints are exactly the topology, the Loki units, the remote-write URLs and the receivers of both tracing kinds |
| Published.TracingReceiverReached | src/coordinated_workers/worker_telemetry.py:382-421 | below the published prefix of a protocol, every suffix reaches the receiver of that kind and protocol |
| Published.LokiReached | src/coordinated_workers/worker_telemetry.py:349-379 | the published path of a Loki unit reaches its endpoint |
| Published.RemoteWriteReached | src/coordinated_workers/worker_telemetry.py:312-346 | the published path of a remote-write endpoint reaches it |
| Published.WorkerReached | src/coordinated_workers/worker_telemetry.py:279-309 | the proxied metrics path of a worker reaches its address and metrics port at /metrics |
| Published.ReceiverUrlReached | src/coordinated_workers/worker_telemetry.py:382-421 | a request below `/proxy/charm-tracing/<protocol>/` or its workload counterpart goes to the receiver whose URL text has that host, that port (else 443 or 80) and that scheme, for every suffix |
| Published.BareReceiverReached | src/coordinated_workers/worker_telemetry.py:74-83 | a receiver given as `host:port` is reached there, without TLS, at the suffix |
| Published.LokiUrlReached | src/coordinated_workers/worker_telemetry.py:349-379 | `/proxy/loki/<app>-<number>/push` goes to where the URL text of unit app/number points |
| Published.RemoteWriteUrlReached | src/coordinated_workers/worker_telemetry.py:312-346 | `/proxy/remote-write/<label>/write`, for the first label of the host, goes to where the URL text points |
| Published.WorkerUnitReached | src/coordinated_workers/worker_telemetry.py:279-309 | `/proxy/worker/<app>-<number>/metrics` goes to that unit's address and metrics port at /metrics |
| Published.PortsBeyondRangeAreRefused | src/coordinated_workers/worker_telemetry.py:67-71 | a URL with a port beyond 65535 makes the compiler fail |
| Published.ScrapeJobReachesWorker | src/coordinated_workers/coordinator.py:740-786 | a proxied scrape job reaches exactly what the direct job would scrape |
| Publication.GatherTelemetryUrls | src/coordinated_workers/coordinator.py:450-599 | proxy URLs if the proxy port is set, the endpoints' own otherwise |
| Publication.PublishedTracingUrlLeads | src/coordinated_workers/coordinator.py:450-509 | the tracing URL published for a protocol leads a client to the proxy port and on to its receiver, for every suffix |
| Publication.PublishedLokiUrlLeads | src/coordinated_workers/coordinator.py:567-599 | the URL published for a Loki unit with an endpoint leads to that endpoint |
| Publication.PublishedRemoteWriteUrlLeads | src/coordinated_workers/coordinator.py:511-540 | the i-th published remote-write URL leads to the i-th endpoint |
| Publication.EveryLokiUnitIsNamed | src/coordinated_workers/worker_telemetry.py:442-449 | every unit of a logging relation is among those that get a URL |
| Publication.LokiWithoutEndpointExample | src/coordinated_workers/worker_telemetry.py:442-449 | a logging unit that has published no endpoint gets a URL that no location serves |
| Publication.PublishedTellsWorkers | src/coordinated_workers/coordinator.py:917-944 | field by field: with the proxy on, exactly the charm protocols, workload protocols, logging units and remote-write endpoints have URLs, and each leads to its own endpoint; with the proxy off each has its endpoint's own URL; everything else is as given |
| Publication.ReconcileWorkers | src/coordinated_workers/coordinator.py:395-441 | nginx is built before anything is published; a failure leaves all databags alone; a leader publishes to the ready relations a payload that tells the workers the above; and on every unit, leader or not, whenever there are workers and the proxy is on, nginx and the address table are those the URL lemmas are about; databags change only if there are workers |
| Publication.SmallBuildIsRoutable | src/coordinated_workers/coordinator.py:1040-1083 | the hypotheses of the routing results can be met by a build with worker, Loki, remote-write and tracing endpoints at once |
| Worker.Worker.SyncTlsFiles | src/coordinated_workers/worker.py:477-520 | file by file: CA, server certificate, S3 chain and private key are each present exactly with their non-empty content, no other file changes, the charm's CA copy follows; true exactly when a file differs before and after; fails, changing nothing, exactly when a secret is named and not found |
| Worker.SyncAllTls | src/coordinated_workers/worker.py:487-493 | the five destinations are distinct, so the five writes together amount to the target state |
| Worker.FalsyValues | src/coordinated_workers/worker.py:449-451 | the configurations that count as none are exactly null, false, 0 and the empty string, list and mapping |
| Worker.ManagedPathsDistinct | src/coordinated_workers/worker.py:38-43 | the six managed files are at six different paths |
| Worker.Worker.UpdateWorkerConfig | src/coordinated_workers/worker.py:456-475 | writes exactly when the parsed file differs from the configuration; fails exactly on an unreadable file |
| Worker.Worker.SetPebbleLayer | src/coordinated_workers/worker.py:272-298 | combines the layer into the plan exactly when their services or checks differ: its entries replace those of the same name and all others stay |
| Worker.Worker.UpdateConfig | src/coordinated_workers/worker.py:262-270 | carries out all three updates and returns true exactly when a TLS file, the parsed configuration or the plan had to change |
| Worker.Worker.RestartServices | src/coordinated_workers/worker.py:541-608 | asks for one restart exactly if the file, a role and a layer with services are there; all of the layer's services then run if it works, and nothing else changes |
| Worker.Worker.WipeConfigs | src/coordinated_workers/worker.py:362-374 | removes the six managed files and nothing else |
| Worker.Worker.StopServices | src/coordinated_workers/worker.py:376-385 | exactly the services of the plan stop, and fails only if there are some and stopping fails |
| Worker.Worker.ReconcileContainer | src/coordinated_workers/worker.py:331-360 | updates and restarts on change when ready; wipes and stops when not ready but reachable; otherwise changes nothing |
| WorkerRuns.UpdateResult | src/coordinated_workers/worker.py:262-298 | after a completed update the TLS files are in sync and the file parses to the configuration; the files changed if and only if one of the two was out of date |
| WorkerRuns.ReadyIff | src/coordinated_workers/worker.py:439-454 | a worker is ready if and only if its container is reachable, it has a role, and the published configuration loads to something not empty |
| WorkerRuns.WithoutDatabagWiped | src/coordinated_workers/worker.py:352-358 | without a published configuration a reachable worker loses exactly its managed files and never restarts |
| WorkerRuns.FlagMeansChange | src/coordinated_workers/worker.py:262-298 | the restart flag is raised if and only if a file or the plan changed, or the plan already contains the whole layer and more |
| WorkerRuns.RestartsExactlyOnChange | src/coordinated_workers/worker.py:331-350 | a dispatch asks for one restart exactly when a ready worker completes a needed update and the charm has services; if it works, all of them run |
| WorkerRuns.LayerCarriesProxySettings | src/coordinated_workers/worker.py:300-310 | every service has exactly the given proxy settings, in both spellings, and all its other variables as before |
| WorkerRuns.LayerCarriesReadinessCheck | src/coordinated_workers/worker.py:312-329 | the check named ready is the charm's readiness check if it has one; all other checks stay |
| WorkerRuns.LayerIsStable | src/coordinated_workers/worker.py:300-329 | extending a layer that has been extended already changes nothing |
| WorkerRuns.SettledAfterUpdate | src/coordinated_workers/worker.py:286-298 | after an update something is still to do if and only if the plan contains more than the layer |
| WorkerRuns.QuietReconcile | src/coordinated_workers/worker.py:338-350 | with nothing to update, a reconcile touches neither files, plan nor services, running or not |
| WorkerRuns.ReconcileTwice | src/coordinated_workers/worker.py:331-350 | the second of two equal reconciles restarts again if and only if the plan contains more than the layer |
| WorkerRuns.OutgrownPlanRestartsEveryTime | src/coordinated_workers/worker.py:286-298 | while the plan contains more than the layer, n ready reconciles restart n times |
| WorkerRuns.OutgrownPlanExample | src/coordinated_workers/worker.py:286-298 | that happens with a service that the charm has dropped from its layer |
| WorkerRuns.FailedRestartIsNotRetried | src/coordinated_workers/worker.py:541-608 | after a failed restart the next reconcile completes without a restart |
| WorkerRuns.FailedRestartExample | src/coordinated_workers/worker.py:541-608 | in a fresh container whose first restart fails the retry completes, with one restart in all and nothing running |
| WorkerRuns.DownServicesExample | src/coordinated_workers/worker.py:344-350 | with an up-to-date file and plan, services that are down stay down |
| WorkerRuns.CorruptConfigBlocks | src/coordinated_workers/worker.py:422-437 | a ready update succeeds if and only if the file on disk is absent or valid YAML; otherwise the file stays |
| WorkerRuns.CorruptConfigExample | src/coordinated_workers/worker.py:422-437 | any text on disk that does not load makes a ready worker's reconcile abort and stays |
| WorkerRuns.CompletedReconcile | src/coordinated_workers/worker.py:331-385 | a completed reconcile puts files and services in order, whatever was there before |
| WorkerRuns.UnmanagedUntouched | src/coordinated_workers/worker.py:331-385 | files the worker does not manage survive every reconcile, completed or aborted |
| WorkerRuns.RestartPotential | src/coordinated_workers/worker.py:331-360 | restarts plus pending work grow by at most one per change of input, disk or plan |
| WorkerRuns.RestartBound | src/coordinated_workers/worker.py:331-360 | in any run there is at most one restart more than there are changes of input, disk or plan |
| WorkerRuns.UnobservedEventsLeaveNoTrace | src/coordinated_workers/helpers.py:17-24 | leaving all stop and check-failed events out of a run changes neither its end state nor its restarts |
| WorkerRuns.HistoryIndependence | src/coordinated_workers/worker.py:331-385 | after any run ending in a completed reconcile of a reachable container the managed files follow from databag and secret alone, and unmanaged files changed only if something else edited them |
| WorkerRuns.OrderIsUnique | src/coordinated_workers/worker.py:439-539 | two workloads in order for the same input have the same TLS files and the same parsed configuration |
| Protocol.WorkerReconcile | src/coordinated_workers/worker.py:331-420 | the worker's and the requirer's objects together carry out the worker step of the protocol; its databag writes count only if it completes |
| Protocol.CoordinatorReconcile | src/coordinated_workers/coordinator.py:365-441 | gate, nginx build, telemetry URLs and publication, on the objects of a dispatch, carry out the coordinator step with the payload that contains those URLs; a closed gate or a failed build publishes nothing |
| Protocol.UsableAfterPublication | src/coordinated_workers/interfaces/cluster.py:194-197 | publishing through the usable relations equals publishing to all, since only usable ones are ready |
| Protocol.RunStaysWellFormed | src/coordinated_workers/interfaces/cluster.py:468-492 | in every reachable state units sit in relations of their own application |
| Protocol.DatabagProvenance | src/coordinated_workers/interfaces/cluster.py:242-265 | in every reachable state, what a relation shows was published to that relation by a leader through open gates, with the ports of the role published then |
| Protocol.ConfigFileAfterReconcile | src/coordinated_workers/worker.py:456-475 | a reconcile leaves the configuration file alone, removes it, or makes it parse to the databag's configuration |
| Protocol.DiskProvenance | src/coordinated_workers/coordinator.py:365-393 | in every reachable state a configuration on a worker's disk was written by that unit in an earlier dispatch from what its relation showed then, and has stayed since; before that it had been published to that very relation, by id and application, by a coordinator leader, when the cluster was coherent, S3 ready, and all units and the leader of the relation had valid data |
| Convergence.SettledGivesTarget | src/coordinated_workers/coordinator.py:917-944 | once every worker shows what it publishes now, the coordinator sees exactly the sides determined by the workers, whatever they showed before |
| Convergence.GateOpens | src/coordinated_workers/coordinator.py:365-393 | once all workers have published roles covering the minimal deployment, and S3 is ready, the gate is open and every relation ready |
| Convergence.ScheduleSettles | src/coordinated_workers/worker.py:402-408 | in any schedule, every unit that has completed a turn shows exactly its own data and roles, and keeps showing them |
| Convergence.ScheduleConfigures | src/coordinated_workers/coordinator.py:917-944 | with all workers settled, any schedule in which the leader completes a turn leaves every relation with the payload computed from the settled sides |
| Convergence.ScheduleReachesDisk | src/coordinated_workers/worker.py:331-360 | with all relations settled and configured, every unit that has a turn ends with that configuration on disk, whatever happens in between |
| Convergence.TurnCompletesWhen | src/coordinated_workers/worker.py:331-360 | a worker's turn completes if no command fails, its databag loads and its secret is there, the file on disk is readable, and its layer has services |
| Convergence.Convergence | src/coordinated_workers/interfaces/cluster.py:228-265 | from any databags, every worker, then the coordinator leader, then every worker, in any order and with any turns in between, ends with the configuration on every disk that the coordinator computes from what the workers publish |
| Convergence.SmallSystemIsSteady | src/coordinated_workers/coordinator.py:365-393 | the hypotheses of convergence can be met: one unit that has every role is enough, for any non-empty configuration |
| Labels.MergePatch | tests/integration/testers/coordinator/lib/charms/istio_beacon_k8s/v0/service_mesh.py:690-692 | null deletes a key, a value sets it, other keys stay (section 2 of RFC 7386) |
| Labels.Kubernetes.ReconcileCharmLabels | tests/integration/testers/coordinator/lib/charms/istio_beacon_k8s/v0/service_mesh.py:635-705 | the state after each of the three patches: the ConfigMap remembers exactly the wanted labels first, then on StatefulSet and on Service the remembered ones go and the wanted ones are set |
| Labels.CallsTelescope | tests/integration/testers/coordinator/lib/charms/istio_beacon_k8s/v0/service_mesh.py:642-654 | after any sequence of calls the last call's labels hold, labels of earlier calls only are gone, all others are as at the start |
| Labels.RetryAfterInterruption | tests/integration/testers/coordinator/lib/charms/istio_beacon_k8s/v0/service_mesh.py:686-692 | calling again after an interruption behind the ConfigMap patch repairs an object if and only if it had been patched, or no label was to be taken back |
| Labels.LeakedLabelStays | tests/integration/testers/coordinator/lib/charms/istio_beacon_k8s/v0/service_mesh.py:686-692 | otherwise the label stays through all later calls that do not set it, while an uninterrupted call removes it |
| Labels.LeakExample | tests/integration/testers/coordinator/lib/charms/istio_beacon_k8s/v0/service_mesh.py:686-692 | that happens with one label, an interrupted call that wants none, and any number of further calls |
| LogForwarding.BuildLogTargets | tests/integration/testers/coordinator/lib/charms/loki_k8s/v1/loki_push_api.py:2535-2553 | one target per endpoint with its location, for all services with topology labels or disabled without labels |
| LogForwarding.LabelsOfTarget | tests/integration/testers/coordinator/lib/charms/loki_k8s/v1/loki_push_api.py:2519-2531 | each label carries its own field of the topology |
| LogForwarding.DisableInactiveEndpoints | tests/integration/testers/coordinator/lib/charms/loki_k8s/v1/loki_push_api.py:2555-2579 | exactly the enabled targets that are not active become disabled, over a snapshot of the plan |
| LogForwarding.EnableEndpoints | tests/integration/testers/coordinator/lib/charms/loki_k8s/v1/loki_push_api.py:2581-2595 | exactly the given endpoints' targets are replaced by enabled ones |
| LogForwarding.UpdateLogging | src/coordinated_workers/worker.py:695-712 | every reachable container is brought up to date, others are left alone |
| LogForwarding.DisableLogging | src/coordinated_workers/worker.py:714-722 | every reachable container has all its targets disabled, others are left alone |
| LogForwarding.EnabledAfterStep | src/coordinated_workers/worker.py:695-722 | after a step the enabled targets and their locations are exactly what the step wants |
| LogForwarding.TracksLastStep | src/coordinated_workers/worker.py:138-150 | over any steps only the last one counts, and a removed relation leaves nothing enabled even with stale endpoints in sight |
| LogForwarding.TargetsAreKept | tests/integration/testers/coordinator/lib/charms/loki_k8s/v1/loki_push_api.py:2555-2595 | no target is ever dropped from the plan |
| Probe.GetRolesFromConfig | probes/cluster_consistency.py:33-56 | each option `role-x` that is True counts x, or each member of the meta role x as often as it occurs, times the scale (1 if absent), and nothing else counts; no error is ever reported |
| Probe.TwoRolesExample | probes/cluster_consistency.py:39-56 | one unit with two roles set counts for both, and nothing is reported for either |
| Probe.CheckBundles | probes/cluster_consistency.py:59-139 | the nested loops compute the verdict defined by sums over all applications; parameters are refused if and only if a meta role expands to a role that is not recommended |
| Probe.NotFoundIff | probes/cluster_consistency.py:99-121 | the charm is reported as not found exactly when it is in no bundle, if and only if there is a bundle and either the first has it or none has |
| Probe.SecondBundleExample | probes/cluster_consistency.py:120-121 | with the charm in the second of two bundles only, it is reported as not found |
| Probe.AcceptedIff | probes/cluster_consistency.py:120-139 | one bundle with the worker charm is accepted if and only if each recommended role is counted or an unconfigured application supplies units, and both together reach the target |
| Probe.SharesDirectly | probes/cluster_consistency.py:100-118 | what one application adds to the counters: its scale to all roles if it has no options, otherwise scale times how often its options give a role, and nothing for another charm |
| Probe.MetaRoleAccepted | probes/cluster_consistency.py:49-52 | a lone application whose enabled meta role covers every recommended role is accepted at sufficient scale |
| Probe.UnconfiguredAccepted | probes/cluster_consistency.py:106-112 | a lone application without options is accepted if and only if its scale reaches every recommendation |
| Probe.VerdictIgnoresOrder | probes/cluster_consistency.py:92-139 | the verdict does not depend on the order of the applications |
| Probe.CountsIgnoreOrder | probes/cluster_consistency.py:97-118 | neither do the counters |
| Probe.ShortfallIsExact | probes/cluster_consistency.py:123-135 | adding units of a role clears its report if and only if there are at least as many as the reported shortfall, or as recommended for a missing role |
| Probe.ScalingUpKeepsAcceptance | probes/cluster_consistency.py:106-135 | scaling an application up never turns acceptance into rejection |
| Correlation.GrafanaSourceUids | src/coordinated_workers/telemetry_correlation.py:152-173 | exactly the non-empty uids that the relations name, failing exactly when one that names itself lists malformed uids |
| Correlation.FindCorrelatedDatasource | src/coordinated_workers/telemetry_correlation.py:34-150 | a result if and only if some admitted relation carries a datasource of the right kind on a connected Grafana; then no such datasource comes earlier in its databag, and none in an admitted relation with a lower id |
| Correlation.FirstMatchOfSorted | src/coordinated_workers/telemetry_correlation.py:75-94 | the first match in the concatenated databags of sorted relations comes from the lowest relation that has one |
| Correlation.ChoiceIgnoresOrder | src/coordinated_workers/telemetry_correlation.py:56-95 | with distinct ids the choice does not depend on the order of any relation list |

## Left out

- Event emission and the snapshot of `ConfigReceivedEvent`: plumbing; its `restore` writes another field than `snapshot` reads.
- TLS certificate handling, mesh policies, dashboards, catalogue, alert rules, port opening, tracing export, the peer relation and nginx's own scrape jobs: they use libraries that are not part of this model or carry no property of their own.
- `app_hostname`, `_truncate_label_value`, S3 endpoint stripping and status texts: only easy members.
- Exceptions other than those named in the datatypes, such as malformed JSON in a Loki unit's databag, an S3 databag whose optional fields have the wrong type, a charm without any `role-` option, or objects without label metadata.
- Withdrawal: published roles and configurations are never withdrawn when conditions stop holding; the code does not do it.
- Services and log targets set by layers that the worker did not add and that override by merging; directories at managed paths; files that change while a reconcile runs.
- Query strings, fragments and percent-decoding in nginx, and locations with regular expressions or other modifiers.
- The second copy of the CA certificate written by the tracing setup (src/coordinated_workers/worker.py:628-653).
- Worker.Worker.RestartServices: does not model the retry timing of tenacity; the outcome stands for the last attempt, and one call counts as one restart.
- Text.Lower: ASCII letters only, so host names with other capitals are lower-cased differently.
- Convergence.Convergence: requires configuration files on disk to be readable, because an unreadable one blocks the worker for good (WorkerRuns.CorruptConfigBlocks), turns of the first two parts to complete, because Juju drops what a failed hook has published, and commands of the last part to succeed.
- Protocol.WorkerReconcile: does not model failures of the hook outside publication and the container, such as a failing label call or port change; a turn that fails there counts as one that did not complete or did not happen.
- Routing.RoutesToOriginal: requires unambiguous names, because sanitising host names is not injective; Routing.CombinedNamesUnique and Routing.LookupKeysClash say when names clash.
- WorkerRuns.RestartBound: requires that layers define everything in the plan whenever a ready worker reconciles, because otherwise every reconcile restarts (WorkerRuns.ReconcileTwice).
