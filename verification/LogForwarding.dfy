/**
 Forwarding of workload logs through pebble log targets: the worker's ManualLogForwarder over
 the vendored _PebbleLogClient.
 */
module LogForwarding {
  import opened Prelude

  datatype Topology = Topology(charm: string, model: string, modelUuid: string, application: string, unit: string)

  datatype LogTarget = LogTarget(services: seq<string>, location: string, labels: map<string, string>)
  {
    predicate Enabled() { "-all" !in services }
  }

  type Targets = map<string, LogTarget>
  type Endpoints = map<string, string>

  function TargetLabels(t: Topology): map<string, string> {
    map["product" := "Juju", "charm" := t.charm, "juju_model" := t.model, "juju_model_uuid" := t.modelUuid,
        "juju_application" := t.application, "juju_unit" := t.unit]
  }

  /** The labels of a target, each read off where it comes from. */
  ghost predicate LabelIs(name: string, value: string, t: Topology) {
    || (name == "product" && value == "Juju")
    || (name == "charm" && value == t.charm)
    || (name == "juju_model" && value == t.model)
    || (name == "juju_model_uuid" && value == t.modelUuid)
    || (name == "juju_application" && value == t.application)
    || (name == "juju_unit" && value == t.unit)
  }

  lemma LabelsOfTarget(t: Topology, name: string, value: string)
    ensures (name in TargetLabels(t) && TargetLabels(t)[name] == value) <==> LabelIs(name, value, t)
  {
    assert "product"[0] == 'p' && "charm"[0] == 'c' && "juju_model"[0] == 'j' && "juju_application"[5] == 'a';
    assert |"juju_model"| == 10 && |"juju_model_uuid"| == 15 && |"juju_application"| == 16 && |"juju_unit"| == 9;
  }

  /** `_build_log_target`. */
  function BuildLogTarget(endpoint: string, topology: Topology, enable: bool): LogTarget {
    LogTarget(if enable then ["all"] else ["-all"], endpoint, if enable then TargetLabels(topology) else map[])
  }

  /** The enabled targets with their locations. */
  function EnabledEndpoints(targets: Targets): Endpoints {
    map name | name in targets && targets[name].Enabled() :: targets[name].location
  }

  function LogTargets(endpoints: Endpoints, topology: Topology, enable: bool): Targets {
    map name | name in endpoints :: BuildLogTarget(endpoints[name], topology, enable)
  }

  const REMOVED := "(removed)"

  function DisabledUnlessActive(name: string, target: LogTarget, active: Endpoints, topology: Topology): LogTarget {
    if target.Enabled() && name !in active then BuildLogTarget(REMOVED, topology, false) else target
  }

  function AfterDisabling(targets: Targets, active: Endpoints, topology: Topology): Targets {
    map name | name in targets :: DisabledUnlessActive(name, targets[name], active, topology)
  }

  function AfterUpdate(targets: Targets, active: Endpoints, topology: Topology): Targets {
    AfterDisabling(targets, active, topology) + LogTargets(active, topology, true)
  }

  class Container {
    const canConnect: bool
    var targets: Targets  // the log targets of the plan

    constructor (canConnect: bool, targets: Targets)
      ensures this.canConnect == canConnect && this.targets == targets
    {
      this.canConnect, this.targets := canConnect, targets;
    }

    /** A combined layer whose entries override by replacing. */
    method AddLayer(layer: Targets)
      modifies this`targets
      ensures targets == old(targets) + layer
    {
      targets := targets + layer;
    }
  }

  /** `_build_log_targets`. */
  method BuildLogTargets(endpoints: Endpoints, topology: Topology, enable: bool) returns (targets: Targets)
    ensures targets == LogTargets(endpoints, topology, enable)
    ensures targets.Keys == endpoints.Keys
    ensures forall name :: name in targets ==>
      && targets[name].location == endpoints[name]
      && targets[name].services == (if enable then ["all"] else ["-all"])
      && targets[name].labels == if enable then TargetLabels(topology) else map[]
  {
    targets := map[];
    var todo := endpoints.Keys;
    while todo != {}
      invariant todo <= endpoints.Keys
      invariant targets == LogTargets(endpoints - todo, topology, enable)
      decreases todo
    {
      var name :| name in todo;
      targets := targets[name := BuildLogTarget(endpoints[name], topology, enable)];
      todo := todo - {name};
    }
    assert endpoints - {} == endpoints;
  }

  /** `disable_inactive_endpoints`: one layer per target, over a snapshot of the plan. */
  method DisableInactiveEndpoints(container: Container, active: Endpoints, topology: Topology)
    modifies container`targets
    ensures container.targets == AfterDisabling(old(container.targets), active, topology)
    ensures container.targets.Keys == old(container.targets).Keys
    ensures forall name :: name in container.targets ==>
      container.targets[name]
      == if "-all" in old(container.targets)[name].services || name in active then old(container.targets)[name]
         else LogTarget(["-all"], "(removed)", map[])
  {
    var plan := container.targets;
    var todo := plan.Keys;
    while todo != {}
      invariant todo <= plan.Keys
      invariant container.targets.Keys == plan.Keys
      invariant forall n :: n in todo ==> container.targets[n] == plan[n]
      invariant forall n :: n in plan && n !in todo ==>
        container.targets[n] == DisabledUnlessActive(n, plan[n], active, topology)
      decreases todo
    {
      hide BuildLogTarget, LogTarget.Enabled;
      var name :| name in todo;
      if plan[name].Enabled() && name !in active {
        var layer := BuildLogTargets(map[name := REMOVED], topology, false);
        container.AddLayer(layer);
      }
      todo := todo - {name};
    }
  }

  /** `enable_endpoints`. */
  method EnableEndpoints(container: Container, active: Endpoints, topology: Topology)
    modifies container`targets
    ensures container.targets == old(container.targets) + LogTargets(active, topology, true)
  {
    var layer := BuildLogTargets(active, topology, true);
    container.AddLayer(layer);
  }

  /** `update_logging`, over all containers of the unit. */
  method UpdateLogging(containers: seq<Container>, endpoints: Endpoints, topology: Topology)
    requires forall i, j :: 0 <= i < j < |containers| ==> containers[i] != containers[j]
    modifies containers
    ensures forall c :: c in containers && c.canConnect ==> c.targets == AfterUpdate(old(c.targets), endpoints, topology)
    ensures forall c :: c in containers && !c.canConnect ==> c.targets == old(c.targets)
  {
    for i := 0 to |containers|
      invariant forall j :: 0 <= j < i && containers[j].canConnect ==>
        containers[j].targets == AfterUpdate(old(containers[j].targets), endpoints, topology)
      invariant forall j :: 0 <= j < i && !containers[j].canConnect ==> containers[j].targets == old(containers[j].targets)
      invariant forall j :: i <= j < |containers| ==> containers[j].targets == old(containers[j].targets)
    {
      if containers[i].canConnect {
        DisableInactiveEndpoints(containers[i], endpoints, topology);
        EnableEndpoints(containers[i], endpoints, topology);
      }
    }
  }

  /** `disable_logging`. */
  method DisableLogging(containers: seq<Container>, topology: Topology)
    requires forall i, j :: 0 <= i < j < |containers| ==> containers[i] != containers[j]
    modifies containers
    ensures forall c :: c in containers && c.canConnect ==> c.targets == AfterDisabling(old(c.targets), map[], topology)
    ensures forall c :: c in containers && !c.canConnect ==> c.targets == old(c.targets)
  {
    for i := 0 to |containers|
      invariant forall j :: 0 <= j < i && containers[j].canConnect ==>
        containers[j].targets == AfterDisabling(old(containers[j].targets), map[], topology)
      invariant forall j :: 0 <= j < i && !containers[j].canConnect ==> containers[j].targets == old(containers[j].targets)
      invariant forall j :: i <= j < |containers| ==> containers[j].targets == old(containers[j].targets)
    {
      if containers[i].canConnect {
        DisableInactiveEndpoints(containers[i], map[], topology);
      }
    }
  }

  // ----- sequences of steps on a connected container

  datatype Step = Update(endpoints: Endpoints) | Disable

  function After(targets: Targets, step: Step, topology: Topology): Targets {
    match step
    case Update(endpoints) => AfterUpdate(targets, endpoints, topology)
    case Disable => AfterDisabling(targets, map[], topology)
  }

  function AfterAll(targets: Targets, steps: seq<Step>, topology: Topology): Targets {
    if |steps| == 0 then targets else After(AfterAll(targets, steps[..|steps| - 1], topology), steps[|steps| - 1], topology)
  }

  /** A removed relation triggers the refresh first and the disabling second, with the stale endpoints still visible. */
  function RemovedEvent(stale: Endpoints): seq<Step> {
    [Update(stale), Disable]
  }

  /** What a step wants to be enabled. */
  function Wanted(step: Step): Endpoints {
    match step
    case Update(endpoints) => endpoints
    case Disable => map[]
  }

  lemma EnabledAfterStep(targets: Targets, step: Step, topology: Topology)
    ensures EnabledEndpoints(After(targets, step, topology)) == Wanted(step)
  {
    assert "-all" in ["-all"] && "-all" !in ["all"] by {
      assert ["-all"][0] == "-all" && ["all"][0] != "-all";
    }
    assert EnabledEndpoints(After(targets, step, topology)).Keys == Wanted(step).Keys;
  }

  /**
   Whatever happened before, the enabled targets and their locations are exactly those of the last
   step. So targets can be disabled and enabled again, and a removed relation leaves none.
   */
  lemma TracksLastStep(targets: Targets, steps: seq<Step>, topology: Topology)
    ensures |steps| > 0 ==> EnabledEndpoints(AfterAll(targets, steps, topology)) == Wanted(steps[|steps| - 1])
    ensures forall stale :: EnabledEndpoints(AfterAll(targets, steps + RemovedEvent(stale), topology)) == map[]
  {
    if |steps| > 0 {
      EnabledAfterStep(AfterAll(targets, steps[..|steps| - 1], topology), steps[|steps| - 1], topology);
    }
    forall stale: Endpoints ensures EnabledEndpoints(AfterAll(targets, steps + RemovedEvent(stale), topology)) == map[] {
      var all := steps + RemovedEvent(stale);
      EnabledAfterStep(AfterAll(targets, all[..|all| - 1], topology), Disable, topology);
    }
  }

  /** No target is ever dropped from the plan. */
  lemma {:induction false} TargetsAreKept(targets: Targets, steps: seq<Step>, topology: Topology)
    ensures targets.Keys <= AfterAll(targets, steps, topology).Keys
  {
    if |steps| == 0 {
    } else {
      TargetsAreKept(targets, steps[..|steps| - 1], topology);
    }
  }
}
