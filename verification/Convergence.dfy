/**
 Convergence of the protocol: once the environment stands still, a round of the workers, a
 dispatch of the coordinator leader and another round of the workers bring the coordinator's
 configuration to every disk, from any databags and in any order. The configuration may depend on
 everything the workers publish; the first round is what makes it stand still as well.
 */
module Convergence {
  import opened Prelude
  import opened Text
  import opened Cluster
  import opened Roles
  import opened Coordinator
  import opened Worker
  import opened WorkerRuns
  import opened Protocol

  /** The workers' side of a relation: all that the coordinator can learn from it. */
  datatype WorkerSide = WorkerSide(app: Option<string>, appData: Option<AppData>, units: seq<(string, Option<UnitData>)>)

  function SidesOf(relations: seq<Relation>): (r: seq<WorkerSide>)
    ensures |r| == |relations|
    ensures forall k :: 0 <= k < |r| ==> r[k] == WorkerSide(relations[k].app, relations[k].appData, relations[k].units)
  {
    seq(|relations|, k requires 0 <= k < |relations| =>
      WorkerSide(relations[k].app, relations[k].appData, relations[k].units))
  }

  /** The environment while it stands still; `configure` computes what the coordinator publishes. */
  datatype World = World(
    config: RolesConfig,
    checker: Checker,
    ports: Ports,
    s3: seq<S3Relation>,
    configure: seq<WorkerSide> -> Payload,
    workers: map<string, WorkerEnv>,
    leaders: set<string>)
  {
    function CoordinatorEnvFor(relations: seq<Relation>): CoordinatorEnv {
      CoordinatorEnv(config, checker, ports, s3, configure(SidesOf(relations)))
    }
  }

  datatype Act = WorkerActs(unit: string, o: Outcomes) | CoordinatorActs(isLeader: bool, completes: bool)

  function Perform(s: System, act: Act, world: World, codec: Codec): System {
    match act
    case CoordinatorActs(isLeader, completes) =>
      CoordinatorDispatch(s, isLeader, world.CoordinatorEnvFor(s.relations), completes)
    case WorkerActs(unit, o) =>
      if unit in s.workloads && unit in world.workers then
        WorkerDispatch(s, unit, unit in world.leaders, world.workers[unit], o, codec)
      else s
  }

  function PerformAll(s: System, acts: seq<Act>, world: World, codec: Codec): System {
    if |acts| == 0 then s
    else Perform(PerformAll(s, acts[..|acts| - 1], world, codec), acts[|acts| - 1], world, codec)
  }

  /** The unit's dispatch completes, so what it publishes takes effect. */
  predicate TurnCompletes(s: System, act: Act, unit: string, world: World, codec: Codec) {
    && act.WorkerActs? && act.unit == unit && unit in s.workloads && unit in world.workers
    && Reconcile(s.workloads[unit], InputOf(world.workers[unit], Received(Seen(s.relations, unit))), act.o, codec).1 == Completed
  }

  // ----- what stays put

  predicate SameShape(a: seq<Relation>, b: seq<Relation>) {
    && |a| == |b|
    && forall r :: 0 <= r < |a| ==>
         a[r].app == b[r].app && |a[r].units| == |b[r].units|
         && forall i :: 0 <= i < |a[r].units| ==> a[r].units[i].0 == b[r].units[i].0
  }

  predicate IsUnit(relations: seq<Relation>, r: int, i: int) {
    0 <= r < |relations| && 0 <= i < |relations[r].units|
  }

  function UnitAt(relations: seq<Relation>, r: int, i: int): string
    requires IsUnit(relations, r, i)
  {
    relations[r].units[i].0
  }

  /** Every relation is alive and has units, each unit belongs to one relation only, and one unit of each relation leads it. */
  ghost predicate WellShaped(relations: seq<Relation>, world: World) {
    && |relations| > 0
    && (forall r :: 0 <= r < |relations| ==> relations[r].app.Some?)
    && (forall r, i, r', i' ::
          (IsUnit(relations, r, i) && IsUnit(relations, r', i') && UnitAt(relations, r, i) == UnitAt(relations, r', i')) ==>
          r == r' && i == i')
    && (forall r, i :: IsUnit(relations, r, i) ==> UnitAt(relations, r, i) in world.workers)
    && (forall r :: 0 <= r < |relations| ==> HasLeader(relations, world, r))
    && (forall r, i, j :: LeadsAt(relations, world, r, i) && LeadsAt(relations, world, r, j) ==> i == j)
  }

  ghost predicate LeadsAt(relations: seq<Relation>, world: World, r: int, i: int) {
    IsUnit(relations, r, i) && UnitAt(relations, r, i) in world.leaders
  }

  ghost predicate HasLeader(relations: seq<Relation>, world: World, r: int) {
    exists i :: LeadsAt(relations, world, r, i)
  }

  /** The roles that the leader of relation `r` publishes. */
  ghost predicate LeaderRoles(relations: seq<Relation>, world: World, r: int, roles: seq<string>) {
    exists i :: LeadsAt(relations, world, r, i) && UnitAt(relations, r, i) in world.workers
      && world.workers[UnitAt(relations, r, i)].roles == roles
  }

  /** What a unit publishes in a completed dispatch. */
  function DataOf(unit: string, world: World): Option<UnitData> {
    if unit in world.workers then
      Some(UnitData(AppOf(unit), unit, world.workers[unit].charmName, world.workers[unit].address))
    else None
  }

  /** What the leader among the units publishes for their application. */
  function LeaderData(units: seq<(string, Option<UnitData>)>, world: World): Option<AppData> {
    if |units| == 0 then None
    else if units[0].0 in world.leaders && units[0].0 in world.workers then
      Some(AppData(PublishedRoles(world.workers[units[0].0].roles)))
    else LeaderData(units[1..], world)
  }

  function SettledUnits(units: seq<(string, Option<UnitData>)>, world: World): (r: seq<(string, Option<UnitData>)>)
    ensures |r| == |units| && forall i :: 0 <= i < |r| ==> r[i] == (units[i].0, DataOf(units[i].0, world))
  {
    seq(|units|, i requires 0 <= i < |units| => (units[i].0, DataOf(units[i].0, world)))
  }

  /** The workers' sides once every worker has published what it has now. */
  function SettledSides(relations: seq<Relation>, world: World): (r: seq<WorkerSide>)
    ensures |r| == |relations|
    ensures forall k :: 0 <= k < |r| ==>
      r[k] == WorkerSide(relations[k].app, LeaderData(relations[k].units, world), SettledUnits(relations[k].units, world))
  {
    seq(|relations|, k requires 0 <= k < |relations| =>
      WorkerSide(relations[k].app, LeaderData(relations[k].units, world), SettledUnits(relations[k].units, world)))
  }

  /** What the coordinator publishes once the workers' sides are settled. */
  function Target(relations: seq<Relation>, world: World): Payload {
    world.configure(SettledSides(relations, world))
  }

  /** The payload can be used by every worker: valid YAML, not empty, and its secret is there. */
  ghost predicate UsableBy(payload: Payload, world: World, codec: Codec) {
    && codec.load(payload.workerConfig).Some? && codec.load(payload.workerConfig).value.Truthy()
    && forall u :: u in world.workers && world.workers[u].secret.NotFound? ==> !NonEmpty(payload.privkeySecretId)
  }

  /** The roles cover the minimal deployment, S3 is ready, containers are connected, the settled configuration is usable. */
  ghost predicate Favourable(relations: seq<Relation>, world: World, codec: Codec) {
    && codec.Lawful()
    && world.checker.None? && S3Ready(world.s3)
    && UsableBy(Target(relations, world), world, codec)
    && (forall u :: u in world.workers ==>
          && world.workers[u].canConnect
          && |world.workers[u].roles| > 0 && (forall role :: role in world.workers[u].roles ==> ',' !in role))
    && (forall role :: role in world.config.minimalDeployment ==>
          exists r, roles :: LeaderRoles(relations, world, r, roles) && role in ExpandAll(world.config.metaRoles, roles))
  }

  /** No unit has a corrupt configuration file. */
  ghost predicate DisksReadable(s: System, codec: Codec) {
    && (forall r, i :: IsUnit(s.relations, r, i) ==> UnitAt(s.relations, r, i) in s.workloads)
    && (forall u :: u in s.workloads ==> RunningConfig(s.workloads[u].files, codec).Ok?)
  }

  // ----- what makes progress

  /** A unit shows exactly what it publishes now, and so does the application of a leader. */
  ghost predicate UnitSettled(relations: seq<Relation>, world: World, r: int, i: int) {
    IsUnit(relations, r, i) ==>
      && relations[r].units[i].1.Some? && relations[r].units[i].1 == DataOf(UnitAt(relations, r, i), world)
      && (UnitAt(relations, r, i) in world.leaders && UnitAt(relations, r, i) in world.workers ==>
            relations[r].appData == Some(AppData(PublishedRoles(world.workers[UnitAt(relations, r, i)].roles))))
  }

  ghost predicate AllSettled(relations: seq<Relation>, world: World) {
    forall r, i :: IsUnit(relations, r, i) ==> UnitSettled(relations, world, r, i)
  }

  ghost predicate AllConfigured(relations: seq<Relation>, world: World) {
    forall r :: 0 <= r < |relations| ==>
      relations[r].local.Some? && relations[r].local.value.payload == Target(relations, world)
  }

  /** The configuration file of the unit parses to the configuration of the payload. */
  predicate DiskCurrent(s: System, payload: Payload, codec: Codec, unit: string) {
    && unit in s.workloads
    && codec.load(payload.workerConfig).Some?
    && RunningConfig(s.workloads[unit].files, codec) == Ok(codec.load(payload.workerConfig).value)
  }

  // ----- one act

  lemma LocateUnit(relations: seq<Relation>, world: World, r: int, i: int)
    requires WellShaped(relations, world) && IsUnit(relations, r, i)
    ensures Locate(relations, UnitAt(relations, r, i)) == r
  {
    var unit := UnitAt(relations, r, i);
    assert HasUnit(relations[r], unit);
    var q := Locate(relations, unit);
    if q < |relations| {
      var j :| 0 <= j < |relations[q].units| && relations[q].units[j].0 == unit;
      assert IsUnit(relations, q, j) && UnitAt(relations, q, j) == unit;
    }
  }

  /** What a worker's dispatch makes of the system. */
  lemma WorkerActResult(s: System, world: World, codec: Codec, r: int, i: int, o: Outcomes)
    requires WellShaped(s.relations, world) && IsUnit(s.relations, r, i)
    requires UnitAt(s.relations, r, i) in s.workloads
    ensures var unit := UnitAt(s.relations, r, i);
            var s' := Perform(s, WorkerActs(unit, o), world, codec);
            var input := InputOf(world.workers[unit], s.relations[r].local);
            && s'.relations
               == (if TurnCompletes(s, WorkerActs(unit, o), unit, world, codec)
                   then s.relations[r := PublishFrom(s.relations[r], unit, unit in world.leaders, world.workers[unit])]
                   else s.relations)
            && s'.workloads == s.workloads[unit := Reconcile(s.workloads[unit], input, o, codec).0]
  {
    hide Reconcile, PublishedRoles, Locate, AppOf;
    LocateUnit(s.relations, world, r, i);
  }

  lemma ActKeepsShape(s: System, act: Act, world: World, codec: Codec)
    ensures SameShape(s.relations, Perform(s, act, world, codec).relations)
    ensures s.workloads.Keys == Perform(s, act, world, codec).workloads.Keys
  {
    hide Reconcile, PublishedRoles, RemoteDataReady, Gate;
  }

  lemma {:induction false} ShapeKeepsLeaderData(a: seq<(string, Option<UnitData>)>, b: seq<(string, Option<UnitData>)>, world: World)
    requires |a| == |b| && forall i :: 0 <= i < |a| ==> a[i].0 == b[i].0
    ensures LeaderData(a, world) == LeaderData(b, world)
  {
    if |a| == 0 {
    } else {
      ShapeKeepsLeaderData(a[1..], b[1..], world);
    }
  }

  /** The target depends on who is there, not on what they have published so far. */
  lemma ShapeKeepsTarget(a: seq<Relation>, b: seq<Relation>, world: World)
    requires SameShape(a, b)
    ensures Target(a, world) == Target(b, world)
  {
    ShapeKeepsSides(a, b, world);
  }

  lemma ShapeKeepsSides(a: seq<Relation>, b: seq<Relation>, world: World)
    requires SameShape(a, b)
    ensures SettledSides(a, world) == SettledSides(b, world)
  {
    hide DataOf, LeaderData;
    forall k | 0 <= k < |a| ensures SettledSides(a, world)[k] == SettledSides(b, world)[k] {
      ShapeKeepsLeaderData(a[k].units, b[k].units, world);
      assert SettledUnits(a[k].units, world) == SettledUnits(b[k].units, world);
    }
    assert SettledSides(a, world) == SettledSides(b, world);
  }

  /** Once every worker has published, the coordinator computes the target. */
  lemma SettledGivesTarget(relations: seq<Relation>, world: World)
    requires WellShaped(relations, world) && AllSettled(relations, world)
    ensures SidesOf(relations) == SettledSides(relations, world)
  {
    hide DataOf, PublishedRoles;
    forall k | 0 <= k < |relations| ensures SidesOf(relations)[k] == SettledSides(relations, world)[k] {
      var rel := relations[k];
      forall i | 0 <= i < |rel.units| ensures rel.units[i] == SettledUnits(rel.units, world)[i] {
        assert IsUnit(relations, k, i) && UnitSettled(relations, world, k, i);
      }
      assert rel.units == SettledUnits(rel.units, world);
      assert HasLeader(relations, world, k);
      var l :| LeadsAt(relations, world, k, l);
      LeaderDataFound(relations, world, k, 0, l);
    }
  }

  /** The leader found from position `from` on has published. */
  lemma {:induction false} LeaderDataFound(relations: seq<Relation>, world: World, k: int, from: int, l: int)
    requires WellShaped(relations, world) && AllSettled(relations, world)
    requires LeadsAt(relations, world, k, l) && 0 <= from <= l
    ensures LeaderData(relations[k].units[from..], world) == relations[k].appData
    decreases l - from
  {
    hide DataOf, PublishedRoles;
    var units := relations[k].units;
    assert IsUnit(relations, k, from) && UnitSettled(relations, world, k, from);
    assert units[from..][1..] == units[from + 1..];
    if from == l {
    } else {
      assert !LeadsAt(relations, world, k, from);
      LeaderDataFound(relations, world, k, from + 1, l);
    }
  }

  lemma ShapeKeepsWorld(a: seq<Relation>, b: seq<Relation>, world: World, codec: Codec)
    requires SameShape(a, b) && WellShaped(a, world) && Favourable(a, world, codec)
    ensures WellShaped(b, world) && Favourable(b, world, codec)
  {
    hide ExpandAll, S3Ready, Codec.Lawful, UsableBy, Target;
    ShapeKeepsTarget(a, b, world);
    forall r, i ensures IsUnit(a, r, i) <==> IsUnit(b, r, i)
                ensures IsUnit(a, r, i) ==> UnitAt(a, r, i) == UnitAt(b, r, i)
                ensures LeadsAt(a, world, r, i) <==> LeadsAt(b, world, r, i) {
    }
    forall r | 0 <= r < |b| ensures HasLeader(b, world, r) {
      assert HasLeader(a, world, r);
      var i :| LeadsAt(a, world, r, i);
      assert LeadsAt(b, world, r, i);
    }
    forall r, roles | LeaderRoles(a, world, r, roles) ensures LeaderRoles(b, world, r, roles) {
      var i :| LeadsAt(a, world, r, i) && UnitAt(a, r, i) in world.workers && world.workers[UnitAt(a, r, i)].roles == roles;
      assert LeadsAt(b, world, r, i);
    }
  }

  /** No act corrupts a configuration file. */
  lemma ReconcileKeepsReadable(w: Workload, i: Input, o: Outcomes, codec: Codec)
    requires codec.Lawful() && RunningConfig(w.files, codec).Ok?
    ensures RunningConfig(Reconcile(w, i, o, codec).0.files, codec).Ok?
  {
    hide PrivateKey, EffectiveLayer, Combine;
    if Ready(i, codec) {
      ReadyFacts(i, codec);
      if PrivateKey(i).Ok? {
        TlsKeepsConfig(w.files, i, PrivateKey(i).value);
      }
    }
  }

  lemma ActKeepsReadable(s: System, act: Act, world: World, codec: Codec)
    requires codec.Lawful() && DisksReadable(s, codec)
    ensures DisksReadable(Perform(s, act, world, codec), codec)
  {
    hide Reconcile, RunningConfig, PublishedRoles, RemoteDataReady, Gate, Codec.Lawful;
    var s' := Perform(s, act, world, codec);
    ActKeepsShape(s, act, world, codec);
    forall r, i | IsUnit(s'.relations, r, i) ensures UnitAt(s'.relations, r, i) in s'.workloads {
      assert IsUnit(s.relations, r, i) && UnitAt(s.relations, r, i) == UnitAt(s'.relations, r, i);
    }
    if act.WorkerActs? && act.unit in s.workloads && act.unit in world.workers {
      var r := Locate(s.relations, act.unit);
      var data := if r < |s.relations| then s.relations[r].local else None;
      ReconcileKeepsReadable(s.workloads[act.unit], InputOf(world.workers[act.unit], data), act.o, codec);
    }
  }

  // ----- the first round: publication

  /** A completed turn settles the unit; no turn of a worker unsettles any. */
  lemma WorkerActSettles(s: System, world: World, codec: Codec, act: Act, r: int, i: int)
    requires WellShaped(s.relations, world) && (forall u :: u in world.workers ==> |world.workers[u].roles| > 0)
    requires act.WorkerActs? && IsUnit(s.relations, r, i)
    requires UnitSettled(s.relations, world, r, i) || TurnCompletes(s, act, UnitAt(s.relations, r, i), world, codec)
    ensures UnitSettled(Perform(s, act, world, codec).relations, world, r, i)
  {
    hide Reconcile, PublishedRoles, AppOf;
    var unit := act.unit;
    var q := Locate(s.relations, unit);
    if unit in s.workloads && unit in world.workers && q < |s.relations| {
      var j :| 0 <= j < |s.relations[q].units| && s.relations[q].units[j].0 == unit;
      assert IsUnit(s.relations, q, j) && UnitAt(s.relations, q, j) == unit;
      WorkerActResult(s, world, codec, q, j, act.o);
      if r == q && unit in world.leaders && UnitAt(s.relations, r, i) in world.leaders {
        assert LeadsAt(s.relations, world, r, i) && LeadsAt(s.relations, world, r, j);
      }
    }
    if TurnCompletes(s, act, UnitAt(s.relations, r, i), world, codec) {
      LocateUnit(s.relations, world, r, i);
    }
  }

  lemma CoordinatorActSettles(s: System, world: World, codec: Codec, act: Act, r: int, i: int)
    requires act.CoordinatorActs? && UnitSettled(s.relations, world, r, i)
    ensures UnitSettled(Perform(s, act, world, codec).relations, world, r, i)
  {
    hide RemoteDataReady, Gate, PublishedRoles, DataOf;
    ActKeepsShape(s, act, world, codec);
  }

  // ----- the coordinator's turn

  lemma UsableWhenAlive(relations: seq<Relation>)
    requires forall r :: 0 <= r < |relations| ==> relations[r].app.Some?
    ensures Usable(relations) == relations
  {
    if |relations| == 0 {
    } else {
      UsableWhenAlive(relations[1..]);
    }
  }

  /** With everything published the coordinator handles events. */
  lemma GateOpens(s: System, world: World, codec: Codec)
    requires WellShaped(s.relations, world) && Favourable(s.relations, world, codec) && AllSettled(s.relations, world)
    ensures Gate(s, world.CoordinatorEnvFor(s.relations))
    ensures forall r :: 0 <= r < |s.relations| ==> RemoteDataReady(s.relations[r], true)
  {
    hide ExpandRoles, ExpandAll, PublishedRoles, Codec.Lawful, S3Ready, DataOf, UsableBy, Target;
    var meta := world.config.metaRoles;
    UsableWhenAlive(s.relations);
    forall r | 0 <= r < |s.relations| ensures RemoteDataReady(s.relations[r], true) {
      assert HasLeader(s.relations, world, r);
      var l :| LeadsAt(s.relations, world, r, l);
      assert UnitSettled(s.relations, world, r, l);
      forall i | 0 <= i < |s.relations[r].units| ensures s.relations[r].units[i].1.Some? {
        assert IsUnit(s.relations, r, i) && UnitSettled(s.relations, world, r, i);
      }
    }
    forall role | role in world.config.minimalDeployment
      ensures role in ClusterRoles(meta, s.relations)
    {
      var r, roles :| LeaderRoles(s.relations, world, r, roles) && role in ExpandAll(meta, roles);
      var i :| LeadsAt(s.relations, world, r, i) && world.workers[UnitAt(s.relations, r, i)].roles == roles;
      assert UnitSettled(s.relations, world, r, i);
      RolesRoundTrip(meta, roles);
      assert s.relations[r] in s.relations;
    }
  }

  /** A completed turn of the leader publishes the target to every relation. */
  lemma CoordinatorConfigures(s: System, world: World, codec: Codec)
    requires WellShaped(s.relations, world) && Favourable(s.relations, world, codec) && AllSettled(s.relations, world)
    ensures AllConfigured(Perform(s, CoordinatorActs(true, true), world, codec).relations, world)
  {
    hide Gate, Favourable, WellShaped, AllSettled, RemoteDataReady, Target;
    GateOpens(s, world, codec);
    PublishesTarget(s, world);
    ActKeepsShape(s, CoordinatorActs(true, true), world, codec);
    ShapeKeepsTarget(s.relations, Perform(s, CoordinatorActs(true, true), world, codec).relations, world);
  }

  lemma PublishesTarget(s: System, world: World)
    requires WellShaped(s.relations, world) && AllSettled(s.relations, world)
    ensures world.CoordinatorEnvFor(s.relations).payload == Target(s.relations, world)
  {
    SettledGivesTarget(s.relations, world);
  }

  /** Once settled and configured, the relations stay configured: the coordinator only repeats itself. */
  lemma ActKeepsConfigured(s: System, act: Act, world: World, codec: Codec)
    requires WellShaped(s.relations, world) && AllSettled(s.relations, world) && AllConfigured(s.relations, world)
    ensures AllConfigured(Perform(s, act, world, codec).relations, world)
  {
    hide Gate, RemoteDataReady, Reconcile, PublishedRoles, WellShaped, AllSettled, Target, World.CoordinatorEnvFor;
    ActKeepsShape(s, act, world, codec);
    ShapeKeepsTarget(s.relations, Perform(s, act, world, codec).relations, world);
    PublishesTarget(s, world);
  }

  // ----- the second round: configuration

  /** A ready worker whose commands succeed has the published configuration on disk. */
  lemma ReadyWorkerConfigures(w: Workload, i: Input, o: Outcomes, codec: Codec)
    requires codec.Lawful() && Ready(i, codec) && i.data.Some? && PrivateKey(i).Ok?
    requires RunningConfig(w.files, codec).Ok?
    requires o.execOk || RunningConfig(w.files, codec) == WorkerConfig(i, codec)
    ensures RunningConfig(Reconcile(w, i, o, codec).0.files, codec) == WorkerConfig(i, codec)
  {
    hide PrivateKey, EffectiveLayer, Combine, WorkerConfig, SyncedTls;
    ReadyFacts(i, codec);
    var key := PrivateKey(i).value;
    TlsKeepsConfig(w.files, i, key);
    var config := WorkerConfig(i, codec).value;
    ConfigWritten(AfterTls(w, i, key), config, codec);
    RestartKeepsFilesAndPlan(Update(w, i, o, codec).0, i, o);
  }

  lemma WorkerReads(env: WorkerEnv, data: ProviderData, codec: Codec)
    requires codec.load(data.payload.workerConfig).Some? && codec.load(data.payload.workerConfig).value.Truthy()
    requires env.canConnect && |env.roles| > 0
    requires env.secret.NotFound? ==> !NonEmpty(data.payload.privkeySecretId)
    ensures var i := InputOf(env, Some(data));
            && Ready(i, codec) && PrivateKey(i).Ok?
            && WorkerConfig(i, codec) == Ok(codec.load(data.payload.workerConfig).value)
  {
  }

  lemma ActConfiguresDisk(s: System, act: Act, world: World, codec: Codec, r: int, i: int)
    requires WellShaped(s.relations, world) && Favourable(s.relations, world, codec)
    requires DisksReadable(s, codec) && AllConfigured(s.relations, world) && IsUnit(s.relations, r, i)
    requires DiskCurrent(s, Target(s.relations, world), codec, UnitAt(s.relations, r, i))
          || ActsFor(act, UnitAt(s.relations, r, i))
    ensures DiskCurrent(Perform(s, act, world, codec), Target(s.relations, world), codec, UnitAt(s.relations, r, i))
  {
    hide Reconcile, RunningConfig, PublishedRoles, Gate, RemoteDataReady, Codec.Lawful, S3Ready, Locate, Target;
    var unit := UnitAt(s.relations, r, i);
    if act.WorkerActs? && act.unit == unit {
      WorkerActResult(s, world, codec, r, i, act.o);
      var data := s.relations[r].local.value;
      WorkerReads(world.workers[unit], data, codec);
      ReadyWorkerConfigures(s.workloads[unit], InputOf(world.workers[unit], Some(data)), act.o, codec);
    }
  }

  // ----- whole schedules

  /** A turn of the unit in which the commands in its container succeed. */
  predicate ActsFor(act: Act, unit: string) {
    act.WorkerActs? && act.unit == unit && act.o.execOk
  }

  ghost predicate EveryUnitActs(acts: seq<Act>, relations: seq<Relation>) {
    forall r, i :: IsUnit(relations, r, i) ==> exists k :: 0 <= k < |acts| && ActsFor(acts[k], UnitAt(relations, r, i))
  }

  /** At position `k` of the schedule the unit has a turn that completes. */
  predicate CompletesAt(s: System, acts: seq<Act>, k: int, unit: string, world: World, codec: Codec) {
    0 <= k < |acts| && TurnCompletes(PerformAll(s, acts[..k], world, codec), acts[k], unit, world, codec)
  }

  ghost predicate EveryUnitCompletes(s: System, acts: seq<Act>, world: World, codec: Codec) {
    forall r, i :: IsUnit(s.relations, r, i) ==> exists k :: CompletesAt(s, acts, k, UnitAt(s.relations, r, i), world, codec)
  }

  /**
   When a turn completes: if nothing in the container fails, whatever the databag shows can be loaded,
   its secret is there, the file on disk is readable, and a layer names at least one service.
   */
  lemma TurnCompletesWhen(w: Workload, i: Input, o: Outcomes, codec: Codec)
    requires o.execOk && o.restart != ChangeFailed && o.stopOk
    requires WorkerConfig(i, codec).Ok? && (i.data.Some? ==> PrivateKey(i).Ok?)
    requires RunningConfig(w.files, codec).Ok?
    requires i.layer.Some? ==> i.layer.value.services != map[]
    ensures Reconcile(w, i, o, codec).1 == Completed
  {
    hide PrivateKey, EffectiveLayer, Combine, WorkerConfig, SyncedTls;
    if Ready(i, codec) {
      ReadyFacts(i, codec);
      CorruptConfigBlocks(w, i, o, codec);
    }
  }

  /** What holds before and after every act. */
  ghost predicate Steady(s: System, world: World, codec: Codec) {
    WellShaped(s.relations, world) && Favourable(s.relations, world, codec) && DisksReadable(s, codec)
  }

  lemma ActKeepsSteady(s: System, act: Act, world: World, codec: Codec)
    requires Steady(s, world, codec)
    ensures Steady(Perform(s, act, world, codec), world, codec)
  {
    hide Perform, SameShape, WellShaped, DisksReadable;
    ActKeepsShape(s, act, world, codec);
    ShapeKeepsWorld(s.relations, Perform(s, act, world, codec).relations, world, codec);
    ActKeepsReadable(s, act, world, codec);
  }

  lemma {:induction false} ScheduleKeepsSteady(s: System, acts: seq<Act>, world: World, codec: Codec)
    requires Steady(s, world, codec)
    ensures Steady(PerformAll(s, acts, world, codec), world, codec)
    ensures SameShape(s.relations, PerformAll(s, acts, world, codec).relations)
  {
    hide Perform, Steady;
    if |acts| == 0 {
    } else {
      var n := |acts| - 1;
      ScheduleKeepsSteady(s, acts[..n], world, codec);
      ActKeepsSteady(PerformAll(s, acts[..n], world, codec), acts[n], world, codec);
      ActKeepsShape(PerformAll(s, acts[..n], world, codec), acts[n], world, codec);
    }
  }

  lemma ActKeepsSettled(s: System, act: Act, world: World, codec: Codec, r: int, i: int)
    requires Steady(s, world, codec) && IsUnit(s.relations, r, i)
    requires UnitSettled(s.relations, world, r, i) || TurnCompletes(s, act, UnitAt(s.relations, r, i), world, codec)
    ensures UnitSettled(Perform(s, act, world, codec).relations, world, r, i)
  {
    hide Perform, UnitSettled, WellShaped, Codec.Lawful, S3Ready, Reconcile, UsableBy, Target;
    match act
    case WorkerActs(unit, o) => WorkerActSettles(s, world, codec, act, r, i);
    case CoordinatorActs(isLeader, completes) => CoordinatorActSettles(s, world, codec, act, r, i);
  }

  /** After a schedule, every unit that was settled or had a completed turn is settled. */
  lemma {:induction false} ScheduleSettles(s: System, acts: seq<Act>, world: World, codec: Codec, r: int, i: int)
    requires Steady(s, world, codec) && IsUnit(s.relations, r, i)
    requires UnitSettled(s.relations, world, r, i)
          || exists k :: CompletesAt(s, acts, k, UnitAt(s.relations, r, i), world, codec)
    ensures UnitSettled(PerformAll(s, acts, world, codec).relations, world, r, i)
  {
    hide Perform, Steady, UnitSettled, TurnCompletes;
    if |acts| == 0 {
    } else {
      var n := |acts| - 1;
      var unit := UnitAt(s.relations, r, i);
      var before := PerformAll(s, acts[..n], world, codec);
      ScheduleKeepsSteady(s, acts[..n], world, codec);
      assert IsUnit(before.relations, r, i) && UnitAt(before.relations, r, i) == unit;
      if !TurnCompletes(before, acts[n], unit, world, codec) {
        if !UnitSettled(s.relations, world, r, i) {
          var k :| CompletesAt(s, acts, k, unit, world, codec);
          assert k < n;
          assert acts[..n][k] == acts[k] && acts[..n][..k] == acts[..k];
          assert CompletesAt(s, acts[..n], k, unit, world, codec);
        }
        ScheduleSettles(s, acts[..n], world, codec, r, i);
      }
      ActKeepsSettled(before, acts[n], world, codec, r, i);
    }
  }

  lemma ScheduleKeepsSettled(s: System, acts: seq<Act>, world: World, codec: Codec)
    requires Steady(s, world, codec) && AllSettled(s.relations, world)
    ensures AllSettled(PerformAll(s, acts, world, codec).relations, world)
  {
    hide PerformAll, Steady, UnitSettled, CompletesAt;
    var end := PerformAll(s, acts, world, codec);
    ScheduleKeepsSteady(s, acts, world, codec);
    forall r, i | IsUnit(end.relations, r, i) ensures UnitSettled(end.relations, world, r, i) {
      assert IsUnit(s.relations, r, i);
      ScheduleSettles(s, acts, world, codec, r, i);
    }
  }

  /** Once everything is settled, any schedule in which the coordinator leader completes a turn configures all relations. */
  lemma {:induction false} ScheduleConfigures(s: System, acts: seq<Act>, world: World, codec: Codec)
    requires Steady(s, world, codec) && AllSettled(s.relations, world)
    requires AllConfigured(s.relations, world) || CoordinatorActs(true, true) in acts
    ensures AllConfigured(PerformAll(s, acts, world, codec).relations, world)
  {
    hide Perform, Steady, AllConfigured, AllSettled;
    if |acts| == 0 {
    } else {
      var n := |acts| - 1;
      var before := PerformAll(s, acts[..n], world, codec);
      ScheduleKeepsSteady(s, acts[..n], world, codec);
      ScheduleKeepsSettled(s, acts[..n], world, codec);
      SteadyParts(before, world, codec);
      if AllConfigured(s.relations, world) || CoordinatorActs(true, true) in acts[..n] {
        ScheduleConfigures(s, acts[..n], world, codec);
        ActKeepsConfigured(before, acts[n], world, codec);
      } else {
        assert acts[n] == CoordinatorActs(true, true);
        CoordinatorConfigures(before, world, codec);
      }
    }
  }

  lemma SteadyParts(s: System, world: World, codec: Codec)
    requires Steady(s, world, codec)
    ensures WellShaped(s.relations, world) && Favourable(s.relations, world, codec) && DisksReadable(s, codec)
  {
  }

  /** Once all relations are settled and configured, every unit that had a turn has the configuration on disk. */
  lemma {:induction false} ScheduleReachesDisk(s: System, acts: seq<Act>, world: World, codec: Codec, r: int, i: int)
    requires Steady(s, world, codec) && AllSettled(s.relations, world) && AllConfigured(s.relations, world)
    requires IsUnit(s.relations, r, i)
    requires exists k :: 0 <= k < |acts| && ActsFor(acts[k], UnitAt(s.relations, r, i))
    ensures DiskCurrent(PerformAll(s, acts, world, codec), Target(s.relations, world), codec, UnitAt(s.relations, r, i))
  {
    hide Perform, Steady, AllConfigured, DiskCurrent, AllSettled, Target;
    var n := |acts| - 1;
    var unit := UnitAt(s.relations, r, i);
    var before := PerformAll(s, acts[..n], world, codec);
    ScheduleKeepsSteady(s, acts[..n], world, codec);
    ScheduleKeepsSettled(s, acts[..n], world, codec);
    ScheduleConfigures(s, acts[..n], world, codec);
    ShapeKeepsTarget(s.relations, before.relations, world);
    assert IsUnit(before.relations, r, i) && UnitAt(before.relations, r, i) == unit;
    if !ActsFor(acts[n], unit) {
      var k :| 0 <= k < |acts| && ActsFor(acts[k], unit);
      assert acts[..n][k] == acts[k];
      ScheduleReachesDisk(s, acts[..n], world, codec, r, i);
    }
    SteadyParts(before, world, codec);
    ActConfiguresDisk(before, acts[n], world, codec, r, i);
  }

  lemma {:induction false} PerformAppend(s: System, a: seq<Act>, b: seq<Act>, world: World, codec: Codec)
    ensures PerformAll(s, a + b, world, codec) == PerformAll(PerformAll(s, a, world, codec), b, world, codec)
  {
    hide Perform;
    if |b| == 0 {
      assert a + b == a;
    } else {
      var n := |b| - 1;
      assert (a + b)[..|a| + n] == a + b[..n];
      PerformAppend(s, a, b[..n], world, codec);
    }
  }

  /**
   Convergence. Take any databags. After a part of the schedule in which every worker unit completes a
   turn, a part in which the coordinator leader completes one, and a part in which every worker unit has
   one whose commands succeed, in whatever order and with whatever other turns in between, completed or
   not, the configuration on every worker's disk parses to the one that the coordinator computes from
   what the workers publish.
   */
  lemma Convergence(s: System, first: seq<Act>, second: seq<Act>, third: seq<Act>, world: World, codec: Codec)
    requires Steady(s, world, codec)
    requires EveryUnitCompletes(s, first, world, codec)
    requires CoordinatorActs(true, true) in second
    requires EveryUnitActs(third, s.relations)
    ensures var end := PerformAll(s, first + second + third, world, codec);
            && SidesOf(end.relations) == SettledSides(s.relations, world)
            && forall r, i :: IsUnit(s.relations, r, i) ==>
                 DiskCurrent(end, world.configure(SettledSides(s.relations, world)), codec, UnitAt(s.relations, r, i))
  {
    hide Perform, Steady, AllConfigured, DiskCurrent, UnitSettled, CompletesAt, ActsFor, WellShaped;
    var s1 := PerformAll(s, first, world, codec);
    var s2 := PerformAll(s1, second, world, codec);
    var s3 := PerformAll(s2, third, world, codec);
    PerformAppend(s, first, second, world, codec);
    PerformAppend(s, first + second, third, world, codec);
    ScheduleKeepsSteady(s, first, world, codec);
    forall r, i | IsUnit(s1.relations, r, i) ensures UnitSettled(s1.relations, world, r, i) {
      assert IsUnit(s.relations, r, i);
      ScheduleSettles(s, first, world, codec, r, i);
    }
    ScheduleKeepsSteady(s1, second, world, codec);
    ScheduleKeepsSettled(s1, second, world, codec);
    ScheduleConfigures(s1, second, world, codec);
    ScheduleKeepsSteady(s2, third, world, codec);
    ScheduleKeepsSettled(s2, third, world, codec);
    forall r, i | IsUnit(s.relations, r, i)
      ensures DiskCurrent(s3, Target(s2.relations, world), codec, UnitAt(s.relations, r, i))
    {
      assert IsUnit(s2.relations, r, i) && UnitAt(s2.relations, r, i) == UnitAt(s.relations, r, i);
      ScheduleReachesDisk(s2, third, world, codec, r, i);
    }
    SameTargets(s.relations, s1.relations, s2.relations, s3.relations, world);
    SteadyParts(s3, world, codec);
    SettledGivesTarget(s3.relations, world);
  }

  lemma SameTargets(a: seq<Relation>, b: seq<Relation>, c: seq<Relation>, d: seq<Relation>, world: World)
    requires SameShape(a, b) && SameShape(b, c) && SameShape(c, d)
    ensures SettledSides(a, world) == SettledSides(d, world) && Target(c, world) == world.configure(SettledSides(a, world))
  {
    hide DataOf, LeaderData;
    ShapeKeepsSides(a, b, world);
    ShapeKeepsSides(b, c, world);
    ShapeKeepsSides(c, d, world);
  }

  // ----- an instance

  const UNIT := "worker/0"
  const ROLE := "all"

  function SmallWorld(config: string): World {
    World(
      RolesConfig({ROLE}, map[], {ROLE}), None, None,
      [S3Relation(Some("s3"), map["endpoint" := "e", "bucket" := "b", "access-key" := "a", "secret-key" := "s"])],
      sides => Payload(config, None, None, None, None, None, None, None, None, None),
      map[UNIT := WorkerEnv("charm", "address", [ROLE], true, NotFound, None, None, ProxyEnv(None, None, None))],
      {UNIT})
  }

  function SmallSystem(): System {
    System([Relation(0, Some("worker"), None, [(UNIT, None)], None)],
           map[UNIT := Workload(map[], None, Layer(map[], map[]), {}, 0)])
  }

  lemma SmallTargetIsUsable(codec: Codec, y: Yaml)
    requires codec.Lawful() && y.Truthy()
    ensures UsableBy(Target(SmallSystem().relations, SmallWorld(codec.dump(y))), SmallWorld(codec.dump(y)), codec)
  {
    hide Codec.Lawful, Yaml.Truthy, SettledSides;
    DumpLoads(codec, y);
  }

  lemma SmallWorldIsFavourable(codec: Codec, y: Yaml)
    requires codec.Lawful() && y.Truthy()
    ensures Favourable(SmallSystem().relations, SmallWorld(codec.dump(y)), codec)
  {
    hide Codec.Lawful, Yaml.Truthy, UsableBy, Target, ExpandAll;
    var relations, world := SmallSystem().relations, SmallWorld(codec.dump(y));
    SmallTargetIsUsable(codec, y);
    assert "all"[0] == 'a' && "all"[1] == 'l' && "all"[2] == 'l';
    assert LeadsAt(relations, world, 0, 0);
    assert LeaderRoles(relations, world, 0, [ROLE]);
    OwnExpansion(ROLE);
  }

  lemma OwnExpansion(role: string)
    ensures role in ExpandAll(map[], [role])
  {
    assert role in ExpandOne(map[], role) && role in [role];
  }

  lemma DumpLoads(codec: Codec, y: Yaml)
    requires codec.Lawful()
    ensures codec.load(codec.dump(y)) == Some(y)
  {
  }

  /** The hypotheses of convergence can be met, whatever the configuration: one unit with every role suffices. */
  lemma SmallSystemIsSteady(codec: Codec, y: Yaml)
    requires codec.Lawful() && y.Truthy()
    ensures Steady(SmallSystem(), SmallWorld(codec.dump(y)), codec)
  {
    hide Favourable, Codec.Lawful;
    SmallWorldIsFavourable(codec, y);
    assert LeadsAt(SmallSystem().relations, SmallWorld(codec.dump(y)), 0, 0);
  }
}
