/**
 The coordinator/worker protocol as a step system over databags and container disks. Every
 dispatch rebuilds its objects, so each step reads the databags afresh. What a dispatch writes to
 databags takes effect only if the dispatch completes: Juju drops the changes of a failed hook.
 What it does to a container takes effect at once. Between dispatches the environment may do almost
 anything: add and remove units and relations, change or corrupt the workers' databags, lose files,
 move leadership, change configuration.
 */
module Protocol {
  import opened Prelude
  import opened Text
  import opened Cluster
  import opened Roles
  import opened Coordinator
  import opened Publication
  import opened Worker
  import opened WorkerRuns
  import Routing
  import Telemetry = WorkerTelemetry

  /** The worker units' containers, by unit name, and the cluster relations. */
  datatype System = System(relations: seq<Relation>, workloads: map<string, Workload>)

  /** What a coordinator dispatch finds besides the relations. */
  datatype CoordinatorEnv = CoordinatorEnv(
    config: RolesConfig, checker: Checker, ports: Ports, s3: seq<S3Relation>, payload: Payload)

  /** What a worker dispatch finds besides its databag. */
  datatype WorkerEnv = WorkerEnv(
    charmName: string,
    address: string,
    roles: seq<string>,
    canConnect: bool,
    secret: Secret,
    layer: Option<Layer>,
    readinessCheck: Option<string>,
    proxy: ProxyEnv)

  // ----- dispatches

  function AppOf(unit: string): string { unit[..IndexOf(unit, {'/'})] }

  lemma AppOfUnit(app: string, number: string)
    requires '/' !in app
    ensures AppOf(app + "/" + number) == app
  {
    assert app + "/" + number == app + ("/" + number);
    IndexOfAppend(app, "/" + number, {'/'});
  }

  predicate HasUnit(rel: Relation, unit: string) {
    exists i :: 0 <= i < |rel.units| && rel.units[i].0 == unit
  }

  /** The relation that a worker unit sees, or the number of relations if there is none. */
  function Locate(relations: seq<Relation>, unit: string): (r: nat)
    ensures r <= |relations|
    ensures r < |relations| ==> relations[r].app.Some? && HasUnit(relations[r], unit)
    ensures forall q :: 0 <= q < r ==> !(relations[q].app.Some? && HasUnit(relations[q], unit))
  {
    if |relations| == 0 || (relations[0].app.Some? && HasUnit(relations[0], unit)) then 0
    else 1 + Locate(relations[1..], unit)
  }

  /** `_update_cluster_relation`. */
  function PublishFrom(rel: Relation, unit: string, isLeader: bool, env: WorkerEnv): Relation {
    var published := PublishUnitAddress(rel, unit, UnitData(AppOf(unit), unit, env.charmName, env.address));
    if isLeader && |env.roles| > 0 then PublishAppRoles(published, env.roles) else published
  }

  function InputOf(env: WorkerEnv, data: Option<ProviderData>): Input {
    Input(env.canConnect, env.roles, data, env.secret, env.layer, env.readinessCheck, env.proxy)
  }

  /** A worker unit publishes what it has, then reconciles its container. */
  function WorkerDispatch(s: System, unit: string, isLeader: bool, env: WorkerEnv, o: Outcomes, codec: Codec): System
    requires unit in s.workloads
  {
    var r := Locate(s.relations, unit);
    var data := if r < |s.relations| then s.relations[r].local else None;
    var (w, status) := Reconcile(s.workloads[unit], InputOf(env, data), o, codec);
    System(
      if r < |s.relations| && status == Completed then
        s.relations[r := PublishFrom(s.relations[r], unit, isLeader, env)]
      else s.relations,
      s.workloads[unit := w])
  }

  predicate Gate(s: System, env: CoordinatorEnv) {
    CanHandleEvents(env.config, env.checker, Usable(s.relations), env.s3)
  }

  /**
   A coordinator unit publishes if it is the leader and may handle events at all. The dispatch
   completes only if all that comes with it, such as building the nginx configuration, succeeds.
   */
  function CoordinatorDispatch(s: System, isLeader: bool, env: CoordinatorEnv, completes: bool): System {
    if Gate(s, env) && isLeader && completes then
      s.(relations := PublishAll(s.relations, isLeader, env.ports, env.payload))
    else s
  }

  /** The relation as the worker unit sees it. */
  function Seen(relations: seq<Relation>, unit: string): Option<Relation> {
    var r := Locate(relations, unit);
    if r < |relations| then Some(relations[r]) else None
  }

  /** The relations after the worker unit has changed the one it sees. */
  function Stored(relations: seq<Relation>, unit: string, relation: Option<Relation>): seq<Relation> {
    var r := Locate(relations, unit);
    if r < |relations| && relation.Some? then relations[r := relation.value] else relations
  }

  function Received(relation: Option<Relation>): Option<ProviderData> {
    if relation.Some? then relation.value.local else None
  }

  /**
   `_reconcile` on the two objects that a worker dispatch builds: publication first, then the
   container. Together they carry out the worker's step of the protocol.
   */
  method WorkerReconcile(worker: Worker, requirer: ClusterRequirer, env: WorkerEnv, o: Outcomes, ghost s: System)
    returns (status: Status)
    requires requirer.application == AppOf(requirer.unit) && requirer.charmName == env.charmName
    requires requirer.unit in s.workloads && worker.View() == s.workloads[requirer.unit]
    requires requirer.relation == Seen(s.relations, requirer.unit)
    modifies worker, requirer
    ensures status == Reconcile(old(worker.View()), InputOf(env, Received(Seen(s.relations, requirer.unit))), o, worker.codec).1
    ensures WorkerDispatch(s, requirer.unit, requirer.isLeader, env, o, worker.codec)
         == System(if status == Completed then Stored(s.relations, requirer.unit, requirer.relation) else s.relations,
                   s.workloads[requirer.unit := worker.View()])
  {
    hide Reconcile, PublishedRoles, SetUnitData;
    requirer.PublishAddress(env.address);
    if requirer.isLeader && |env.roles| > 0 {
      var _ := requirer.PublishRoles(env.roles);
    }
    var input := Input(env.canConnect, env.roles, Received(requirer.relation), env.secret, env.layer, env.readinessCheck, env.proxy);
    status := worker.ReconcileContainer(input, o);
  }

  lemma PublishKeepsApp(rel: Relation, isLeader: bool, ports: Ports, payload: Payload)
    ensures Publish(rel, isLeader, ports, payload).app == rel.app
  {
  }

  lemma PublishAllSplit(first: Relation, rest: seq<Relation>, isLeader: bool, ports: Ports, payload: Payload)
    ensures PublishAll([first] + rest, isLeader, ports, payload)
         == [Publish(first, isLeader, ports, payload)] + PublishAll(rest, isLeader, ports, payload)
  {
    hide Publish;
  }

  lemma UsableSplit(first: Relation, rest: seq<Relation>)
    ensures Usable([first] + rest) == (if first.app.Some? then [first] else []) + Usable(rest)
  {
    assert ([first] + rest)[1..] == rest;
  }

  /** Publication does not change which relations are usable. */
  lemma {:induction false} UsableAfterPublication(relations: seq<Relation>, isLeader: bool, ports: Ports, payload: Payload)
    ensures Usable(PublishAll(relations, isLeader, ports, payload)) == PublishAll(Usable(relations), isLeader, ports, payload)
  {
    hide Publish, PublishAll;
    if |relations| == 0 {
    } else {
      hide Usable;
      var first, rest := relations[0], relations[1..];
      assert relations == [first] + rest;
      UsableAfterPublication(rest, isLeader, ports, payload);
      PublishKeepsApp(first, isLeader, ports, payload);
      UsableSplit(first, rest);
      UsableSplit(Publish(first, isLeader, ports, payload), PublishAll(rest, isLeader, ports, payload));
      PublishAllSplit(first, rest, isLeader, ports, payload);
      if first.app.Some? {
        PublishAllSplit(first, Usable(rest), isLeader, ports, payload);
      }
    }
  }

  /**
   A coordinator dispatch, from the gate to publication, on the objects it builds: the coordinator's
   step of the protocol, where `env.payload` is what is published besides the telemetry URLs. It
   completes unless the gate is open and nginx or the URLs cannot be configured.
   */
  method CoordinatorReconcile(coordinator: Coordinator, provider: ClusterProvider, lokiRelations: seq<seq<LokiUnit>>,
                              remoteWrite: Option<seq<string>>, charmTracing: Items, workloadTracing: Items,
                              protocols: seq<string>, hostname: string, setup: Telemetry.Setup, env: CoordinatorEnv,
                              ghost s: System)
    returns (completed: bool, published: Payload)
    requires provider.relations == Usable(s.relations) && provider.workerPorts == env.ports
    modifies coordinator`upstreamsToAddresses, provider
    ensures provider.relations
         == Usable(CoordinatorDispatch(s, provider.isLeader, env.(payload := published), completed).relations)
    ensures !Gate(s, env) ==> completed && coordinator.upstreamsToAddresses == old(coordinator.upstreamsToAddresses)
    ensures Gate(s, env) && completed && provider.isLeader ==>
      var e := Telemetry.Endpoints(Topology(Usable(s.relations)), EndpointsOf(Flatten(lokiRelations)),
                                   remoteWrite, charmTracing, workloadTracing);
      var urls := TelemetryFor(coordinator.proxyPort, hostname, setup, e, LokiUnitNames(lokiRelations));
      && urls.Ok? && published == WithUrls(env.payload, urls.value)
      && TellsWorkers(published, env.payload, coordinator.proxyPort, hostname,
                      old(BuildFor(coordinator, e, protocols, setup)), lokiRelations)
    ensures !(Gate(s, env) && completed && provider.isLeader) ==> provider.relations == Usable(s.relations)
  {
    hide Usable, PublishAll, CanHandleEvents, TelemetryFor, Topology, EndpointsOf, Flatten, LokiUnitNames, WithUrls;
    hide TellsWorkers, Telemetry.NginxConfigFor, Telemetry.TableFor, Telemetry.SpecsOf, Telemetry.AllSources, Routing.PublishedPath;
    published := env.payload;
    var registered := RegistersReconciler(env.config, env.checker, provider.relations, env.s3);
    if !registered {
      return true, published;
    }
    var r, e, p := ReconcileWorkers(coordinator, provider, lokiRelations, remoteWrite, charmTracing, workloadTracing,
                                 protocols, hostname, setup, env.payload);
    completed := r.Ok?;
    if completed && provider.isLeader {
      published := p;
      UsableAfterPublication(s.relations, true, env.ports, published);
    }
  }

  // ----- runs

  datatype Step =
    | Environment
    | WorkerStep(unit: string, isLeader: bool, worker: WorkerEnv, o: Outcomes)
    | CoordinatorStep(isLeader: bool, coordinator: CoordinatorEnv, completes: bool)

  /** Units sit in relations of their own application. */
  ghost predicate WellFormed(s: System) {
    forall rel, i :: rel in s.relations && 0 <= i < |rel.units| && rel.app.Some? ==> AppOf(rel.units[i].0) == rel.app.value
  }

  predicate SameConfigFile(a: Workload, b: Workload) {
    ConfigFile in a.files && ConfigFile in b.files && a.files[ConfigFile] == b.files[ConfigFile]
  }

  /** The environment never writes a coordinator databag or a worker's configuration file itself. */
  ghost predicate EnvironmentMay(s: System, s': System) {
    && WellFormed(s')
    && (forall rel' :: rel' in s'.relations && rel'.local.Some? ==>
          exists rel :: rel in s.relations && rel.id == rel'.id && rel.local == rel'.local
                        && (rel'.app.Some? ==> rel.app == rel'.app))
    && (forall u :: u in s'.workloads && ConfigFile in s'.workloads[u].files ==>
          u in s.workloads && SameConfigFile(s.workloads[u], s'.workloads[u]))
  }

  ghost predicate Next(s: System, step: Step, s': System, codec: Codec) {
    match step
    case Environment => EnvironmentMay(s, s')
    case WorkerStep(unit, isLeader, env, o) =>
      unit in s.workloads && s' == WorkerDispatch(s, unit, isLeader, env, o, codec)
    case CoordinatorStep(isLeader, env, completes) => s' == CoordinatorDispatch(s, isLeader, env, completes)
  }

  ghost predicate Initial(s: System) {
    && WellFormed(s)
    && (forall rel :: rel in s.relations ==> rel.local.None?)
    && (forall u :: u in s.workloads ==> ConfigFile !in s.workloads[u].files)
  }

  ghost predicate IsRun(states: seq<System>, steps: seq<Step>, codec: Codec) {
    && |states| == |steps| + 1
    && Initial(states[0])
    && forall k :: 0 <= k < |steps| ==> Next(states[k], steps[k], states[k + 1], codec)
  }

  // ----- provenance

  /**
   At step `k` a coordinator leader published `payload` to an application: the cluster was
   coherent, S3 was ready, and every unit as well as the leader of that relation had valid data.
   */
  ghost predicate PublishedAt(states: seq<System>, steps: seq<Step>, k: int, rel: Relation, payload: Payload)
    requires |states| == |steps| + 1
  {
    && 0 <= k < |steps|
    && steps[k].CoordinatorStep? && steps[k].isLeader && steps[k].completes && Gate(states[k], steps[k].coordinator)
    && rel in states[k].relations && RemoteDataReady(rel, true)
    && steps[k].coordinator.payload == payload
  }

  /** The databag of relation `id` stems from an earlier publication to that very relation. */
  ghost predicate DatabagExplained(states: seq<System>, steps: seq<Step>, n: nat, rel: Relation)
    requires |states| == |steps| + 1 && rel.local.Some?
  {
    exists k, rel0 :: k < n && PublishedAt(states, steps, k, rel0, rel.local.value.payload)
      && rel0.id == rel.id && (rel.app.Some? ==> rel0.app == rel.app)
      && rel.local.value.workerPorts == WorkerPorts(rel0, steps[k].coordinator.ports)
  }

  /** At step `m` the unit was dispatched, and `rel` was its relation then. */
  ghost predicate ReadAt(states: seq<System>, steps: seq<Step>, m: int, unit: string, rel: Relation)
    requires |states| == |steps| + 1
  {
    && 0 <= m < |steps|
    && steps[m].WorkerStep? && steps[m].unit == unit
    && Seen(states[m].relations, unit) == Some(rel)
  }

  /** From state `from` to state `to` the configuration file of the unit holds `text`. */
  ghost predicate FileHolds(states: seq<System>, from: int, to: int, unit: string, text: string) {
    forall j :: 0 <= from <= j <= to < |states| ==>
      unit in states[j].workloads && ConfigFile in states[j].workloads[unit].files
      && states[j].workloads[unit].files[ConfigFile] == text
  }

  /**
   `payload` was published at step `k` to the very relation, same id and same application, that the
   unit read at the later step `m`. The databag still showed it then, and the unit wrote `text`,
   which parses to its configuration and has been on disk ever since.
   */
  ghost predicate Explains(states: seq<System>, steps: seq<Step>, k: int, m: int, n: int, rel0: Relation, rel: Relation,
                           unit: string, text: string, codec: Codec)
    requires |states| == |steps| + 1
  {
    && k < m < n
    && ReadAt(states, steps, m, unit, rel) && rel.local.Some?
    && PublishedAt(states, steps, k, rel0, rel.local.value.payload)
    && rel0.id == rel.id && rel0.app == rel.app == Some(AppOf(unit))
    && codec.load(text).Some? && codec.load(text) == codec.load(rel.local.value.payload.workerConfig)
    && FileHolds(states, m + 1, n, unit, text)
  }

  ghost predicate DiskExplained(states: seq<System>, steps: seq<Step>, n: nat, unit: string, text: string, codec: Codec)
    requires |states| == |steps| + 1
  {
    exists k, m, rel0, rel :: Explains(states, steps, k, m, n, rel0, rel, unit, text, codec)
  }

  lemma PublishMembers(relations: seq<Relation>, isLeader: bool, ports: Ports, payload: Payload, rel': Relation)
    requires rel' in PublishAll(relations, isLeader, ports, payload)
    ensures exists rel :: rel in relations && rel' == Publish(rel, isLeader, ports, payload)
  {
    var i :| 0 <= i < |relations| && PublishAll(relations, isLeader, ports, payload)[i] == rel';
    assert relations[i] in relations;
  }

  lemma {:induction false} RunStaysWellFormed(states: seq<System>, steps: seq<Step>, codec: Codec, n: nat)
    requires IsRun(states, steps, codec) && n < |states|
    ensures WellFormed(states[n])
  {
    hide Reconcile, Gate, RemoteDataReady, AppOf;
    if n == 0 {
    } else {
      RunStaysWellFormed(states, steps, codec, n - 1);
      var s, s' := states[n - 1], states[n];
      assert Next(s, steps[n - 1], s', codec);
      forall rel', i | rel' in s'.relations && 0 <= i < |rel'.units| && rel'.app.Some?
        ensures AppOf(rel'.units[i].0) == rel'.app.value
      {
        match steps[n - 1]
        case Environment =>
        case CoordinatorStep(isLeader, env, completes) =>
          if rel' !in s.relations {
            PublishMembers(s.relations, isLeader, env.ports, env.payload, rel');
          }
        case WorkerStep(unit, isLeader, env, o) =>
          if rel' !in s.relations {
            WorkerDispatchRelation(s, unit, isLeader, env, o, codec, rel');
          }
      }
    }
  }

  /** Neither the identity nor the coordinator's side of the relation differs. */
  ghost predicate OwnSideOnly(rel: Relation, rel': Relation) {
    && rel.id == rel'.id && rel.app == rel'.app && rel.local == rel'.local
    && |rel.units| == |rel'.units| && forall i :: 0 <= i < |rel.units| ==> rel.units[i].0 == rel'.units[i].0
  }

  /** A worker dispatch changes at most the worker's own side of one relation. */
  lemma WorkerDispatchRelation(s: System, unit: string, isLeader: bool, env: WorkerEnv, o: Outcomes, codec: Codec, rel': Relation)
    requires unit in s.workloads && rel' in WorkerDispatch(s, unit, isLeader, env, o, codec).relations
    ensures exists rel :: rel in s.relations && OwnSideOnly(rel, rel')
  {
    hide Reconcile, PublishedRoles;
    var r := Locate(s.relations, unit);
    if rel' in s.relations {
    } else {
      assert rel' == PublishFrom(s.relations[r], unit, isLeader, env);
      assert s.relations[r] in s.relations;
    }
  }

  /** What a relation shows was published to it earlier in the run. */
  lemma {:induction false} DatabagProvenance(states: seq<System>, steps: seq<Step>, codec: Codec, n: nat, rel: Relation)
    requires IsRun(states, steps, codec) && n < |states| && rel in states[n].relations && rel.local.Some?
    ensures DatabagExplained(states, steps, n, rel)
  {
    hide Reconcile, Gate, RemoteDataReady, AppOf, WorkerPorts;
    if n == 0 {
    } else {
      var s, s' := states[n - 1], states[n];
      assert Next(s, steps[n - 1], s', codec);
      match steps[n - 1]
      case Environment =>
        var before :| before in s.relations && before.id == rel.id && before.local == rel.local
          && (rel.app.Some? ==> before.app == rel.app);
        DatabagProvenance(states, steps, codec, n - 1, before);
      case WorkerStep(unit, isLeader, env, o) =>
        WorkerDispatchRelation(s, unit, isLeader, env, o, codec, rel);
        var before :| before in s.relations && OwnSideOnly(before, rel);
        DatabagProvenance(states, steps, codec, n - 1, before);
      case CoordinatorStep(isLeader, env, completes) =>
        if rel in s.relations {
          DatabagProvenance(states, steps, codec, n - 1, rel);
        } else {
          PublishMembers(s.relations, isLeader, env.ports, env.payload, rel);
          var before :| before in s.relations && rel == Publish(before, isLeader, env.ports, env.payload);
          assert PublishedAt(states, steps, n - 1, before, env.payload);
        }
    }
  }

  /** A reconcile leaves the configuration file alone, removes it, or makes it parse to the databag's configuration. */
  lemma ConfigFileAfterReconcile(w: Workload, i: Input, o: Outcomes, codec: Codec)
    requires codec.Lawful()
    ensures var w' := Reconcile(w, i, o, codec).0;
            ConfigFile in w'.files ==>
              SameConfigFile(w, w')
              || (i.data.Some? && WorkerConfig(i, codec).Ok?
                  && codec.load(w'.files[ConfigFile]) == Some(WorkerConfig(i, codec).value))
  {
    hide PrivateKey, EffectiveLayer, Combine;
    if Ready(i, codec) {
      ReadyFacts(i, codec);
      if PrivateKey(i).Ok? {
        TlsKeepsConfig(w.files, i, PrivateKey(i).value);
      }
    }
  }

  /**
   Provenance. In every reachable state, a configuration on a worker's disk was written by that unit in
   an earlier dispatch, from what its relation showed then; and that had been published before, to this
   very relation, by a coordinator leader, when the cluster was coherent, S3 was ready, and every unit
   and the leader of the relation had valid data.
   */
  lemma {:induction false} DiskProvenance(states: seq<System>, steps: seq<Step>, codec: Codec, n: nat, unit: string)
    requires codec.Lawful() && IsRun(states, steps, codec) && n < |states|
    requires unit in states[n].workloads && ConfigFile in states[n].workloads[unit].files
    ensures DiskExplained(states, steps, n, unit, states[n].workloads[unit].files[ConfigFile], codec)
  {
    hide Reconcile, Gate, RemoteDataReady, AppOf, WorkerPorts, Codec.Lawful, Explains, PublishedAt;
    if n == 0 {
    } else {
      var s, s' := states[n - 1], states[n];
      assert Next(s, steps[n - 1], s', codec);
      if unit in s.workloads && SameConfigFile(s.workloads[unit], s'.workloads[unit]) {
        var text := s.workloads[unit].files[ConfigFile];
        DiskProvenance(states, steps, codec, n - 1, unit);
        var k, m, rel0, rel :| Explains(states, steps, k, m, n - 1, rel0, rel, unit, text, codec);
        StillExplains(states, steps, k, m, n, rel0, rel, unit, text, codec);
      } else {
        WrittenFromDatabag(states, steps, codec, n, unit);
      }
    }
  }

  lemma StillExplains(states: seq<System>, steps: seq<Step>, k: int, m: int, n: nat, rel0: Relation, rel: Relation,
                      unit: string, text: string, codec: Codec)
    requires |states| == |steps| + 1 && 0 < n < |states|
    requires Explains(states, steps, k, m, n - 1, rel0, rel, unit, text, codec)
    requires unit in states[n].workloads && ConfigFile in states[n].workloads[unit].files
    requires states[n].workloads[unit].files[ConfigFile] == text
    ensures Explains(states, steps, k, m, n, rel0, rel, unit, text, codec)
  {
    hide PublishedAt, ReadAt, AppOf;
  }

  lemma WrittenFromDatabag(states: seq<System>, steps: seq<Step>, codec: Codec, n: nat, unit: string)
    requires codec.Lawful() && IsRun(states, steps, codec) && 0 < n < |states|
    requires unit in states[n].workloads && ConfigFile in states[n].workloads[unit].files
    requires !(unit in states[n - 1].workloads && SameConfigFile(states[n - 1].workloads[unit], states[n].workloads[unit]))
    ensures DiskExplained(states, steps, n, unit, states[n].workloads[unit].files[ConfigFile], codec)
  {
    hide Reconcile, Gate, RemoteDataReady, AppOf, WorkerPorts, Codec.Lawful, PublishedAt;
    var s, s' := states[n - 1], states[n];
    assert Next(s, steps[n - 1], s', codec);
    assert steps[n - 1].WorkerStep? && steps[n - 1].unit == unit;
    var WorkerStep(_, isLeader, env, o) := steps[n - 1];
    var r := Locate(s.relations, unit);
    var data := if r < |s.relations| then s.relations[r].local else None;
    ConfigFileAfterReconcile(s.workloads[unit], InputOf(env, data), o, codec);
    var rel := s.relations[r];
    assert rel in s.relations;
    DatabagProvenance(states, steps, codec, n - 1, rel);
    RunStaysWellFormed(states, steps, codec, n - 1);
    var k, rel0 :| k < n - 1 && PublishedAt(states, steps, k, rel0, rel.local.value.payload)
      && rel0.id == rel.id && (rel.app.Some? ==> rel0.app == rel.app);
    assert Explains(states, steps, k, n - 1, n, rel0, rel, unit, s'.workloads[unit].files[ConfigFile], codec);
  }
}
