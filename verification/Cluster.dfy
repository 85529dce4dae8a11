/**
 The "-cluster" relation between a coordinator and its workers (interfaces/cluster.py).
 Databags are modelled by what decodes from them: None stands for an empty or invalid one.
 */
module Cluster {
  import opened Prelude
  import opened Text

  // ----- databags

  /** What a worker unit publishes. */
  datatype UnitData = UnitData(application: string, unit: string, charmName: string, address: string)

  /** What a worker leader publishes: comma-separated roles. */
  datatype AppData = AppData(role: string)

  /** What the coordinator publishes to every relation alike. */
  datatype Payload = Payload(
    workerConfig: string,
    lokiEndpoints: Option<map<string, string>>,
    charmTracingReceivers: Option<map<string, string>>,
    workloadTracingReceivers: Option<map<string, string>>,
    remoteWriteEndpoints: Option<seq<string>>,
    caCert: Option<string>,
    serverCert: Option<string>,
    privkeySecretId: Option<string>,
    s3TlsCaChain: Option<string>,
    workerLabels: Option<map<string, string>>)

  /** What a worker application receives. */
  datatype ProviderData = ProviderData(payload: Payload, workerPorts: Option<seq<int>>)

  /** One cluster relation. Its units come in the arbitrary order in which they are iterated. */
  datatype Relation = Relation(
    id: nat,
    app: Option<string>,
    appData: Option<AppData>,
    units: seq<(string, Option<UnitData>)>,
    local: Option<ProviderData>)

  /** Relations whose remote application is not known (any more) are ignored. */
  function Usable(all: seq<Relation>): (r: seq<Relation>)
    ensures forall rel :: rel in r <==> rel in all && rel.app.Some?
  {
    if |all| == 0 then [] else (if all[0].app.Some? then [all[0]] else []) + Usable(all[1..])
  }

  // ----- roles

  type MetaRoles = map<string, seq<string>>

  /** One level of meta-role expansion. */
  function ExpandOne(meta: MetaRoles, role: string): set<string> {
    if role in meta then Elems(meta[role]) else {role}
  }

  function ExpandAll(meta: MetaRoles, roles: seq<string>): set<string> {
    set p, r | p in roles && r in ExpandOne(meta, p) :: r
  }

  function ExpandRoles(meta: MetaRoles, roleString: string): set<string> {
    ExpandAll(meta, Split(roleString, ','))
  }

  /** A published piece stands for a role: a meta role for each of its members, any other role for itself. */
  ghost predicate GivesRole(meta: MetaRoles, piece: string, role: string) {
    (piece in meta && role in meta[piece]) || (piece !in meta && role == piece)
  }

  /** The expansion of a published string, role by role. */
  lemma ExpandedIff(meta: MetaRoles, roleString: string, role: string)
    ensures role in ExpandRoles(meta, roleString) <==> exists piece :: piece in Split(roleString, ',') && GivesRole(meta, piece, role)
  {
    hide Split;
    forall piece ensures role in ExpandOne(meta, piece) <==> GivesRole(meta, piece, role) {
    }
  }

  /** The role string that a worker leader publishes. */
  function PublishedRoles(roles: seq<string>): string {
    Join(Sort(roles), ',')
  }

  lemma SortKeepsElements(roles: seq<string>)
    ensures |Sort(roles)| == |roles|
    ensures forall r :: r in Sort(roles) <==> r in roles
  {
    assert |multiset(Sort(roles))| == |multiset(roles)|;
    forall r ensures r in Sort(roles) <==> r in roles {
      assert r in Sort(roles) <==> r in multiset(Sort(roles));
      assert r in roles <==> r in multiset(roles);
    }
  }

  /** What is published is the sorted list of the roles, each as often as it is listed, with commas in between. */
  lemma PublishedRolesAreSorted(roles: seq<string>)
    requires |roles| > 0 && forall r :: r in roles ==> ',' !in r
    ensures var pieces := Split(PublishedRoles(roles), ',');
            Sorted(pieces) && multiset(pieces) == multiset(roles)
  {
    SortKeepsElements(roles);
    SplitJoin(Sort(roles), ',');
  }

  /** Expanding what was published gives the expansion of the roles themselves. */
  lemma RolesRoundTrip(meta: MetaRoles, roles: seq<string>)
    requires |roles| > 0 && forall r :: r in roles ==> ',' !in r
    ensures ExpandRoles(meta, PublishedRoles(roles)) == ExpandAll(meta, roles)
  {
    SortKeepsElements(roles);
    SplitJoin(Sort(roles), ',');
  }

  /** An empty list of roles does not survive publication, hence the guard of the worker. */
  lemma NoRolesDoNotRoundTrip(meta: MetaRoles)
    ensures ExpandRoles(meta, PublishedRoles([])) == ExpandOne(meta, "") && ExpandAll(meta, []) == {}
  {
    assert Split("", ',') == [""];
  }

  /** The published string does not depend on the order in which the roles are listed. */
  lemma PublishedRolesIgnoreOrder(a: seq<string>, b: seq<string>)
    requires multiset(a) == multiset(b)
    ensures PublishedRoles(a) == PublishedRoles(b)
  {
    SortIgnoresOrder(a, b);
  }

  // ----- accounting

  function UnitPairs(roles: set<string>, units: seq<(string, Option<UnitData>)>): set<(string, string)> {
    set r, u | u in units && u.1.Some? && r in roles :: (r, u.1.value.address)
  }

  function RelationPairs(meta: MetaRoles, rel: Relation): set<(string, string)> {
    if rel.appData.None? then {} else UnitPairs(ExpandRoles(meta, rel.appData.value.role), rel.units)
  }

  /** Which address serves which role. */
  function Pairs(meta: MetaRoles, relations: seq<Relation>): set<(string, string)> {
    if |relations| == 0 then {}
    else Pairs(meta, relations[..|relations| - 1]) + RelationPairs(meta, relations[|relations| - 1])
  }

  /** A dict of address sets that says the same as a set of pairs. */
  ghost predicate Represents(data: map<string, set<string>>, pairs: set<(string, string)>) {
    && (forall r, a :: (r, a) in pairs <==> r in data && a in data[r])
    && (forall r :: r in data ==> data[r] != {})
  }

  function RoleShare(meta: MetaRoles, rel: Relation, role: string): nat {
    if rel.appData.Some? && role in ExpandRoles(meta, rel.appData.value.role) then |rel.units| else 0
  }

  /** How many units have a role: the sum over the relations that provide it. */
  function RoleCount(meta: MetaRoles, relations: seq<Relation>, role: string): nat {
    if |relations| == 0 then 0
    else RoleCount(meta, relations[..|relations| - 1], role) + RoleShare(meta, relations[|relations| - 1], role)
  }

  /** The roles that some application provides, even with no units at all. */
  function ClusterRoles(meta: MetaRoles, relations: seq<Relation>): set<string> {
    set rel, r | rel in relations && rel.appData.Some? && r in ExpandRoles(meta, rel.appData.value.role) :: r
  }

  /** The application of a relation publishes a piece that stands for the role. */
  ghost predicate Provides(meta: MetaRoles, rel: Relation, role: string) {
    rel.appData.Some? && exists piece :: piece in Split(rel.appData.value.role, ',') && GivesRole(meta, piece, role)
  }

  lemma ClusterRolesIff(meta: MetaRoles, relations: seq<Relation>, role: string)
    ensures role in ClusterRoles(meta, relations) <==> exists rel :: rel in relations && Provides(meta, rel, role)
  {
    hide ExpandRoles;
    forall rel | rel in relations && rel.appData.Some?
      ensures Provides(meta, rel, role) <==> role in ExpandRoles(meta, rel.appData.value.role)
    {
      ExpandedIff(meta, rel.appData.value.role, role);
    }
  }

  /** A relation counts for a role with all its units, published or not, and not at all otherwise. */
  lemma RoleShareIff(meta: MetaRoles, rel: Relation, role: string)
    ensures RoleShare(meta, rel, role) == if Provides(meta, rel, role) then |rel.units| else 0
  {
    hide ExpandRoles;
    if rel.appData.Some? {
      ExpandedIff(meta, rel.appData.value.role, role);
    }
  }

  lemma NoRelationsNoRoles(meta: MetaRoles, relations: seq<Relation>)
    ensures ClusterRoles(meta, relations[..0]) == {}
    ensures forall r :: RoleCount(meta, relations[..0], r) == 0
  {
  }

  function AddCount(data: map<string, nat>, roles: set<string>, n: nat): (r: map<string, nat>)
    ensures r.Keys == data.Keys + roles
    ensures forall k :: k in r ==> r[k] == (if k in data then data[k] else 0) + (if k in roles then n else 0)
  {
    data + map k | k in roles :: (if k in data then data[k] else 0) + n
  }

  lemma ClusterRolesSnoc(meta: MetaRoles, relations: seq<Relation>, rel: Relation)
    ensures ClusterRoles(meta, relations + [rel])
         == ClusterRoles(meta, relations) + if rel.appData.Some? then ExpandRoles(meta, rel.appData.value.role) else {}
    ensures forall r :: RoleCount(meta, relations + [rel], r)
                     == RoleCount(meta, relations, r)
                        + if rel.appData.Some? && r in ExpandRoles(meta, rel.appData.value.role) then |rel.units| else 0
  {
    hide ExpandRoles;
    assert forall x :: x in relations + [rel] <==> x in relations || x == rel;
    assert (relations + [rel])[..|relations|] == relations;
  }

  function UnitTopology(units: seq<(string, Option<UnitData>)>): seq<UnitData> {
    if |units| == 0 then []
    else
      var n := |units| - 1;
      UnitTopology(units[..n]) + if units[n].1.Some? then [units[n].1.value] else []
  }

  function Topology(relations: seq<Relation>): seq<UnitData> {
    if |relations| == 0 then []
    else
      var n := |relations| - 1;
      Topology(relations[..n]) + UnitTopology(relations[n].units)
  }

  /** Every unit has published its data and, as far as a leader looks, so has the application. */
  predicate RemoteDataReady(rel: Relation, isLeader: bool) {
    && rel.app.Some?
    && |rel.units| > 0
    && (forall i :: 0 <= i < |rel.units| ==> rel.units[i].1.Some?)
    && (isLeader ==> rel.appData.Some?)
  }

  type Ports = Option<string -> seq<int>>

  function WorkerPorts(rel: Relation, ports: Ports): Option<seq<int>> {
    if ports.Some? && rel.appData.Some? then Some(ports.value(rel.appData.value.role)) else None
  }

  function Publish(rel: Relation, isLeader: bool, ports: Ports, payload: Payload): Relation {
    if RemoteDataReady(rel, isLeader) then rel.(local := Some(ProviderData(payload, WorkerPorts(rel, ports)))) else rel
  }

  /** Only the coordinator's side changes: it shows the payload and, if ports depend on roles, those of the relation's role. */
  predicate Shows(before: Relation, after: Relation, payload: Payload, ports: Ports) {
    && after == before.(local := after.local) && after.local.Some? && after.local.value.payload == payload
    && (ports.None? ==> after.local.value.workerPorts == None)
    && (ports.Some? ==> before.appData.Some? && after.local.value.workerPorts == Some(ports.value(before.appData.value.role)))
  }

  /** `publish_data` reads the role of every relation it publishes to, if ports depend on it. */
  predicate RolesLoad(relations: seq<Relation>, isLeader: bool, ports: Ports) {
    forall rel :: rel in relations && RemoteDataReady(rel, isLeader) && ports.Some? ==> rel.appData.Some?
  }

  function PublishAll(relations: seq<Relation>, isLeader: bool, ports: Ports, payload: Payload): (r: seq<Relation>)
    ensures |r| == |relations|
    ensures forall i :: 0 <= i < |relations| ==> r[i] == Publish(relations[i], isLeader, ports, payload)
  {
    seq(|relations|, i requires 0 <= i < |relations| => Publish(relations[i], isLeader, ports, payload))
  }

  /** For a leader the role always loads: it publishes only where it has just validated it. */
  lemma RolesLoadForLeaders(relations: seq<Relation>, ports: Ports)
    ensures RolesLoad(relations, true, ports)
  {
  }

  lemma FollowerOnly(rel: Relation, isLeader: bool)
    requires RemoteDataReady(rel, isLeader) && rel.appData.None?
    ensures !isLeader
  {
  }

  /** The check on roles is the leader's only: for other units the load may fail. */
  lemma RolesMayNotLoadForFollowers(ports: string -> seq<int>, unit: UnitData)
    ensures exists relations: seq<Relation> :: !RolesLoad(relations, false, Some(ports))
  {
    var rel := Relation(0, Some("worker"), None, [("worker/0", Some(unit))], None);
    assert rel in [rel];
    assert !RolesLoad([rel], false, Some(ports));
  }

  /** Publication stopped after `k` relations. */
  ghost predicate PublishedUpTo(before: seq<Relation>, target: seq<Relation>, after: seq<Relation>, k: int) {
    && 0 <= k <= |before| == |target| == |after|
    && forall j :: 0 <= j < |after| ==> after[j] == if j < k then target[j] else before[j]
  }

  class ClusterProvider {
    const metaRoles: MetaRoles
    const workerPorts: Ports
    const isLeader: bool
    var relations: seq<Relation>

    constructor (metaRoles: MetaRoles, workerPorts: Ports, isLeader: bool, all: seq<Relation>)
      ensures relations == Usable(all)
      ensures this.metaRoles == metaRoles && this.workerPorts == workerPorts && this.isLeader == isLeader
    {
      this.metaRoles := metaRoles;
      this.workerPorts := workerPorts;
      this.isLeader := isLeader;
      relations := Usable(all);
    }

    /** `publish_data`. A failing role load stops at the first relation it concerns. */
    method PublishData(payload: Payload) returns (ok: bool)
      modifies this
      ensures ok <==> RolesLoad(old(relations), isLeader, workerPorts)
      ensures ok ==> relations == PublishAll(old(relations), isLeader, workerPorts, payload)
      ensures isLeader ==> ok
      ensures ok ==> forall i :: 0 <= i < |relations| ==>
        if RemoteDataReady(old(relations)[i], isLeader) then Shows(old(relations)[i], relations[i], payload, workerPorts)
        else relations[i] == old(relations)[i]
      ensures !ok ==> exists k ::
        PublishedUpTo(old(relations), PublishAll(old(relations), isLeader, workerPorts, payload), relations, k)
    {
      hide RemoteDataReady;
      ghost var before := relations;
      ghost var target := PublishAll(before, isLeader, workerPorts, payload);
      for i := 0 to |relations|
        invariant |relations| == |before|
        invariant forall j :: 0 <= j < i && RemoteDataReady(before[j], isLeader) && workerPorts.Some? ==> before[j].appData.Some?
        invariant PublishedUpTo(before, target, relations, i)
      {
        var rel := relations[i];
        if RemoteDataReady(rel, isLeader) {
          if workerPorts.Some? && rel.appData.None? {
            assert before[i] in before;
            FollowerOnly(rel, isLeader);
            return false;
          }
          relations := relations[i := rel.(local := Some(ProviderData(payload, WorkerPorts(rel, workerPorts))))];
        }
        assert relations[i] == target[i];
      }
      return true;
    }

    method ExpandRoleString(roleString: string) returns (expanded: set<string>)
      ensures expanded == ExpandRoles(metaRoles, roleString)
      ensures forall r :: r in expanded <==> exists piece :: piece in Split(roleString, ',') && GivesRole(metaRoles, piece, r)
    {
      expanded := {};
      var pieces := Split(roleString, ',');
      for i := 0 to |pieces|
        invariant expanded == ExpandAll(metaRoles, pieces[..i])
      {
        assert pieces[..i + 1] == pieces[..i] + [pieces[i]];
        expanded := expanded + ExpandOne(metaRoles, pieces[i]);
      }
      assert pieces[..|pieces|] == pieces;
      forall r ensures r in expanded <==> exists piece :: piece in pieces && GivesRole(metaRoles, piece, r) {
        ExpandedIff(metaRoles, roleString, r);
      }
    }

    /** The units of one relation, as an inner loop of `gather_addresses_by_role`. */
    method AddRelation(data: map<string, set<string>>, rel: Relation, ghost before: set<(string, string)>)
      returns (r: map<string, set<string>>)
      requires Represents(data, before)
      ensures Represents(r, before + RelationPairs(metaRoles, rel))
    {
      hide Represents, ExpandRoles, AddAddress;
      r := data;
      if rel.appData.Some? {
        var roles := ExpandRoleString(rel.appData.value.role);
        assert before + UnitPairs(roles, rel.units[..0]) == before;
        for j := 0 to |rel.units|
          invariant Represents(r, before + UnitPairs(roles, rel.units[..j]))
        {
          var unit := rel.units[j];
          assert rel.units[..j + 1] == rel.units[..j] + [unit];
          if unit.1.Some? {
            ghost var pairs := before + UnitPairs(roles, rel.units[..j]);
            AddAddressRepresents(r, pairs, roles, unit.1.value.address);
            r := AddAddress(r, roles, unit.1.value.address);
            assert UnitPairs(roles, rel.units[..j + 1])
                == UnitPairs(roles, rel.units[..j]) + set k | k in roles :: (k, unit.1.value.address);
            assert before + UnitPairs(roles, rel.units[..j + 1]) == pairs + set k | k in roles :: (k, unit.1.value.address);
          } else {
            assert UnitPairs(roles, rel.units[..j + 1]) == UnitPairs(roles, rel.units[..j]);
          }
        }
        assert rel.units[..|rel.units|] == rel.units;
      } else {
        assert before + {} == before;
      }
    }

    method GatherAddressesByRole() returns (data: map<string, set<string>>)
      ensures Represents(data, Pairs(metaRoles, relations))
    {
      data := map[];
      for i := 0 to |relations|
        invariant Represents(data, Pairs(metaRoles, relations[..i]))
      {
        assert relations[..i + 1][..i] == relations[..i];
        data := AddRelation(data, relations[i], Pairs(metaRoles, relations[..i]));
      }
      assert relations[..|relations|] == relations;
    }

    method GatherAddresses() returns (addresses: seq<string>)
      ensures Sorted(addresses) && NoDup(addresses)
      ensures forall a :: a in addresses <==> exists r :: (r, a) in Pairs(metaRoles, relations)
    {
      var data := GatherAddressesByRole();
      var union: set<string> := {};
      var roles := data.Keys;
      while roles != {}
        invariant roles <= data.Keys
        invariant forall a :: a in union <==> exists r :: r in data.Keys - roles && a in data[r]
        decreases roles
      {
        var role :| role in roles;
        union := union + data[role];
        roles := roles - {role};
      }
      addresses := SortedSet(union);
      forall a ensures a in addresses <==> exists r :: (r, a) in Pairs(metaRoles, relations) {
        assert a in addresses <==> a in Elems(addresses);
        if a in addresses {
          var r :| r in data && a in data[r];
          assert (r, a) in Pairs(metaRoles, relations);
        }
      }
    }

    method GatherRoles() returns (data: map<string, nat>)
      ensures data.Keys == ClusterRoles(metaRoles, relations)
      ensures forall r :: r in data ==> data[r] == RoleCount(metaRoles, relations, r)
      ensures forall r :: r in data <==> exists rel :: rel in relations && Provides(metaRoles, rel, r)
    {
      hide ExpandRoles, RoleCount, ClusterRoles, RoleShare;
      data := map[];
      NoRelationsNoRoles(metaRoles, relations);
      for i := 0 to |relations|
        invariant data.Keys == ClusterRoles(metaRoles, relations[..i])
        invariant forall r :: r in data ==> data[r] == RoleCount(metaRoles, relations[..i], r)
        invariant forall r :: r !in data ==> RoleCount(metaRoles, relations[..i], r) == 0
      {
        var rel := relations[i];
        assert relations[..i + 1] == relations[..i] + [rel];
        if rel.appData.Some? {
          var roles := ExpandRoleString(rel.appData.value.role);
          data := AddCount(data, roles, |rel.units|);
        }
        ClusterRolesSnoc(metaRoles, relations[..i], rel);
      }
      assert relations[..|relations|] == relations;
      forall r ensures r in data <==> exists rel :: rel in relations && Provides(metaRoles, rel, r) {
        ClusterRolesIff(metaRoles, relations, r);
      }
    }

    method GatherTopology() returns (data: seq<UnitData>)
      ensures data == Topology(relations)
    {
      data := [];
      for i := 0 to |relations|
        invariant data == Topology(relations[..i])
      {
        assert relations[..i + 1][..i] == relations[..i];
        var units := relations[i].units;
        for j := 0 to |units|
          invariant data == Topology(relations[..i]) + UnitTopology(units[..j])
        {
          assert units[..j + 1][..j] == units[..j];
          if units[j].1.Some? {
            data := data + [units[j].1.value];
          }
        }
        assert units[..|units|] == units;
      }
      assert relations[..|relations|] == relations;
    }
  }

  // ----- the worker's side

  function SetUnitData(units: seq<(string, Option<UnitData>)>, unit: string, data: UnitData): (r: seq<(string, Option<UnitData>)>)
    ensures |r| == |units|
    ensures forall i :: 0 <= i < |units| ==> r[i] == if units[i].0 == unit then (unit, Some(data)) else units[i]
  {
    seq(|units|, i requires 0 <= i < |units| => if units[i].0 == unit then (unit, Some(data)) else units[i])
  }

  function PublishUnitAddress(rel: Relation, unit: string, data: UnitData): Relation {
    rel.(units := SetUnitData(rel.units, unit, data))
  }

  function PublishAppRoles(rel: Relation, roles: seq<string>): Relation {
    rel.(appData := Some(AppData(PublishedRoles(roles))))
  }

  /** A unit has done its part: its address and, for the leader, the roles are published. */
  predicate IsPublished(rel: Relation, unit: string, isLeader: bool) {
    && (exists i :: 0 <= i < |rel.units| && rel.units[i].0 == unit)
    && (forall i :: 0 <= i < |rel.units| && rel.units[i].0 == unit ==> rel.units[i].1.Some?)
    && (isLeader ==> rel.appData.Some?)
  }

  /** The coordinator waits for exactly what its workers regard as their duty, on relations whose application is known. */
  lemma ReadyWhenAllPublished(rel: Relation, leader: string)
    requires exists i :: 0 <= i < |rel.units| && rel.units[i].0 == leader
    ensures RemoteDataReady(rel, true) <==>
      rel.app.Some? && forall i :: 0 <= i < |rel.units| ==> IsPublished(rel, rel.units[i].0, rel.units[i].0 == leader)
    ensures RemoteDataReady(rel, false) <==>
      rel.app.Some? && forall i :: 0 <= i < |rel.units| ==> IsPublished(rel, rel.units[i].0, false)
  {
    var l :| 0 <= l < |rel.units| && rel.units[l].0 == leader;
  }

  /** A relation without units is never ready. */
  lemma NotReadyWithoutUnits(rel: Relation, isLeader: bool)
    ensures |rel.units| == 0 ==> !RemoteDataReady(rel, isLeader)
  {
  }

  datatype PermissionError = DatabagAccessPermissionError

  class ClusterRequirer {
    const application: string
    const unit: string
    const charmName: string
    const isLeader: bool
    var relation: Option<Relation>

    constructor (application: string, unit: string, charmName: string, isLeader: bool, relation: Option<Relation>)
      ensures this.application == application && this.unit == unit && this.charmName == charmName
      ensures this.isLeader == isLeader
      ensures this.relation == if relation.Some? && relation.value.app.Some? then relation else None
    {
      this.application, this.unit, this.charmName, this.isLeader := application, unit, charmName, isLeader;
      this.relation := if relation.Some? && relation.value.app.Some? then relation else None;
    }

    method PublishAddress(url: string)
      modifies this`relation
      ensures relation == if old(relation).None? then None
                          else Some(PublishUnitAddress(old(relation).value, unit, UnitData(application, unit, charmName, url)))
      ensures relation.Some? && !isLeader && (exists i :: 0 <= i < |relation.value.units| && relation.value.units[i].0 == unit)
        ==> IsPublished(relation.value, unit, isLeader)
    {
      if relation.Some? {
        relation := Some(PublishUnitAddress(relation.value, unit, UnitData(application, unit, charmName, url)));
      }
    }

    method PublishRoles(roles: seq<string>) returns (r: Result<(), PermissionError>)
      modifies this`relation
      ensures r.Ok? <==> isLeader
      ensures relation == if !isLeader || old(relation).None? then old(relation)
                          else Some(PublishAppRoles(old(relation).value, roles))
    {
      if !isLeader {
        return Err(DatabagAccessPermissionError);
      }
      if relation.Some? {
        relation := Some(PublishAppRoles(relation.value, roles));
      }
      return Ok(());
    }
  }

  function AddAddress(data: map<string, set<string>>, roles: set<string>, address: string): (r: map<string, set<string>>)
    ensures r.Keys == data.Keys + roles
    ensures forall k :: k in r ==>
      r[k] == (if k in data then data[k] else {}) + (if k in roles then {address} else {})
  {
    data + map k | k in roles :: (if k in data then data[k] else {}) + {address}
  }

  lemma AddAddressRepresents(data: map<string, set<string>>, pairs: set<(string, string)>, roles: set<string>, address: string)
    requires Represents(data, pairs)
    ensures Represents(AddAddress(data, roles, address), pairs + set k | k in roles :: (k, address))
  {
  }

  /** `sorted(s)` on a set. */
  method SortedSet(s: set<string>) returns (r: seq<string>)
    ensures Sorted(r) && NoDup(r)
    ensures Elems(r) == s
  {
    r := [];
    var rest := s;
    while rest != {}
      invariant rest <= s && Sorted(r) && NoDup(r) && Elems(r) == s - rest
      decreases rest
    {
      var x :| x in rest;
      hide Insert, Sorted, NoDup;
      InsertKeepsSorted(x, r);
      InsertAdds(x, r);
      InsertNoDup(x, r);
      r := Insert(x, r);
      rest := rest - {x};
    }
  }

  lemma InsertAdds(x: string, xs: seq<string>)
    ensures Elems(Insert(x, xs)) == Elems(xs) + {x}
  {
    hide Insert;
    var r := Insert(x, xs);
    assert forall y :: y in r <==> y in multiset(r);
    assert forall y :: y in xs <==> y in multiset(xs);
  }

  lemma InsertNoDup(x: string, xs: seq<string>)
    requires Sorted(xs) && NoDup(xs) && x !in xs
    ensures NoDup(Insert(x, xs))
  {
    var r := Insert(x, xs);
    assert x !in multiset(xs);
    forall i, j | 0 <= i < j < |r| ensures r[i] != r[j] {
      if r[i] == r[j] {
        CountTwice(r, i, j);
        assert multiset(r)[r[i]] == multiset(xs)[r[i]] + multiset{x}[r[i]];
        NoDupCountsOnce(xs, r[i]);
      }
    }
  }

  lemma CountTwice(s: seq<string>, i: nat, j: nat)
    requires i < j < |s| && s[i] == s[j]
    ensures multiset(s)[s[i]] >= 2
  {
    assert s == s[..i] + [s[i]] + s[i + 1..j] + [s[j]] + s[j + 1..];
  }

  lemma NoDupCountsOnce(s: seq<string>, x: string)
    requires NoDup(s)
    ensures multiset(s)[x] <= 1
  {
    if |s| == 0 {
    } else {
      assert s == [s[0]] + s[1..];
      NoDupCountsOnce(s[1..], x);
      assert forall i :: 0 <= i < |s[1..]| ==> s[1..][i] == s[i + 1];
      if s[0] == x {
        assert x !in s[1..];
      }
    }
  }
}
