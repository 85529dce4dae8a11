/** Role requirements of a deployment (coordinator.py) and how they relate to what the workers publish. */
module Roles {
  import opened Prelude
  import opened Text
  import opened Cluster

  datatype RolesConfig = RolesConfig(roles: set<string>, metaRoles: MetaRoles, minimalDeployment: set<string>) {
    /** What `__post_init__` insists on. */
    predicate Valid() {
      && metaRoles.Keys <= roles
      && (forall m :: m in metaRoles ==> Elems(metaRoles[m]) <= roles)
      && minimalDeployment <= roles
    }

    /** The default coherence check. */
    predicate IsCoherentWith(clusterRoles: set<string>) {
      minimalDeployment <= clusterRoles
    }

    function MissingRoles(relations: seq<Relation>): set<string> {
      minimalDeployment - ClusterRoles(metaRoles, relations)
    }
  }

  predicate Coherent(config: RolesConfig, relations: seq<Relation>) {
    config.IsCoherentWith(ClusterRoles(config.metaRoles, relations))
  }

  /** Each role of the minimal deployment is provided by some application. */
  ghost predicate AllProvided(config: RolesConfig, relations: seq<Relation>) {
    forall r :: r in config.minimalDeployment ==> exists rel :: rel in relations && Provides(config.metaRoles, rel, r)
  }

  /** Default coherence, role by role. */
  lemma CoherentIff(config: RolesConfig, relations: seq<Relation>)
    ensures Coherent(config, relations) <==> AllProvided(config, relations)
    ensures forall r :: r in config.MissingRoles(relations) <==>
      r in config.minimalDeployment && forall rel :: rel in relations ==> !Provides(config.metaRoles, rel, r)
  {
    hide ClusterRoles, Provides;
    forall r ensures r in ClusterRoles(config.metaRoles, relations) <==>
      exists rel :: rel in relations && Provides(config.metaRoles, rel, r)
    {
      ClusterRolesIff(config.metaRoles, relations, r);
    }
  }

  /** One application with a meta role whose members cover the minimal deployment is enough. */
  lemma MetaRoleCovers(config: RolesConfig, relations: seq<Relation>, rel: Relation, metaRole: string)
    requires metaRole in config.metaRoles && ',' !in metaRole
    requires rel in relations && rel.appData == Some(AppData(PublishedRoles([metaRole])))
    requires forall r :: r in config.minimalDeployment ==> r in config.metaRoles[metaRole]
    ensures Coherent(config, relations) && config.MissingRoles(relations) == {}
  {
    hide PublishedRoles, Split;
    CoherentIff(config, relations);
    SortKeepsElements([metaRole]);
    SplitPublished([metaRole]);
    assert Sort([metaRole])[0] in [metaRole];
    assert metaRole in Split(PublishedRoles([metaRole]), ',');
    forall r | r in config.minimalDeployment ensures Provides(config.metaRoles, rel, r) {
      assert GivesRole(config.metaRoles, metaRole, r);
    }
  }

  lemma SplitPublished(roles: seq<string>)
    requires |roles| > 0 && forall r :: r in roles ==> ',' !in r
    ensures Split(PublishedRoles(roles), ',') == Sort(roles)
  {
    SortKeepsElements(roles);
    SplitJoin(Sort(roles), ',');
  }

  datatype RolesConfigError = UnknownMetaRoles | UnknownMetaValues | UnknownMinimalRoles

  /** `__post_init__`: the three checks, each reported exactly in its case. */
  method CheckRolesConfig(config: RolesConfig) returns (errors: seq<RolesConfigError>)
    ensures UnknownMetaRoles in errors <==> exists m :: m in config.metaRoles && m !in config.roles
    ensures UnknownMetaValues in errors <==>
      exists m, r :: m in config.metaRoles && r in config.metaRoles[m] && r !in config.roles
    ensures UnknownMinimalRoles in errors <==> exists r :: r in config.minimalDeployment && r !in config.roles
    ensures errors == [] <==> config.Valid()
  {
    errors := [];
    if !(config.metaRoles.Keys <= config.roles) {
      errors := errors + [UnknownMetaRoles];
    }
    if !(forall m :: m in config.metaRoles ==> Elems(config.metaRoles[m]) <= config.roles) {
      errors := errors + [UnknownMetaValues];
    }
    if !(config.minimalDeployment <= config.roles) {
      errors := errors + [UnknownMinimalRoles];
    }
  }

  /** More relations never break coherence. */
  lemma CoherenceIsMonotone(config: RolesConfig, relations: seq<Relation>, more: seq<Relation>)
    requires Coherent(config, relations)
    requires forall rel :: rel in relations ==> exists rel' :: rel' in more && rel'.appData == rel.appData
    ensures Coherent(config, more)
    ensures config.MissingRoles(more) == {}
  {
    hide ExpandRoles;
    forall r | r in ClusterRoles(config.metaRoles, relations)
      ensures r in ClusterRoles(config.metaRoles, more)
    {
      var rel :| rel in relations && rel.appData.Some? && r in ExpandRoles(config.metaRoles, rel.appData.value.role);
      var rel' :| rel' in more && rel'.appData == rel.appData;
    }
  }

  /** With a valid configuration, workers that publish declared roles only ever contribute declared roles. */
  lemma GatheredRolesAreDeclared(config: RolesConfig, relations: seq<Relation>, published: seq<seq<string>>)
    requires config.Valid()
    requires |published| == |relations|
    requires forall i :: 0 <= i < |relations| && relations[i].appData.Some? ==>
      && relations[i].appData.value.role == PublishedRoles(published[i])
      && |published[i]| > 0
      && (forall r :: r in published[i] ==> ',' !in r && r in config.roles)
    ensures ClusterRoles(config.metaRoles, relations) <= config.roles
  {
    hide ExpandRoles, PublishedRoles;
    forall r | r in ClusterRoles(config.metaRoles, relations)
      ensures r in config.roles
    {
      var rel :| rel in relations && rel.appData.Some? && r in ExpandRoles(config.metaRoles, rel.appData.value.role);
      var i :| 0 <= i < |relations| && relations[i] == rel;
      RolesRoundTrip(config.metaRoles, published[i]);
      var p :| p in published[i] && r in ExpandOne(config.metaRoles, p);
    }
  }

  // ----- addresses against counts

  function AddressesOf(meta: MetaRoles, relations: seq<Relation>, role: string): set<string> {
    set p | p in Pairs(meta, relations) && p.0 == role :: p.1
  }

  lemma UnitAddressesAtMostUnits(units: seq<(string, Option<UnitData>)>)
    ensures |set u | u in units && u.1.Some? :: u.1.value.address| <= |units|
  {
    if |units| == 0 {
    } else {
      var n := |units| - 1;
      UnitAddressesAtMostUnits(units[..n]);
      var init := set u | u in units[..n] && u.1.Some? :: u.1.value.address;
      var all := set u | u in units && u.1.Some? :: u.1.value.address;
      assert units == units[..n] + [units[n]];
      if units[n].1.Some? {
        assert all == init + {units[n].1.value.address};
      } else {
        assert all == init;
      }
    }
  }

  lemma SubsetCardinality<T>(a: set<T>, b: set<T>)
    requires a <= b
    ensures |a| <= |b|
  {
    assert b == a + (b - a);
  }

  lemma RelationAddressesAtMostShare(meta: MetaRoles, rel: Relation, role: string)
    ensures |set p | p in RelationPairs(meta, rel) && p.0 == role :: p.1| <= RoleShare(meta, rel, role)
  {
    hide ExpandRoles;
    var addresses := set p | p in RelationPairs(meta, rel) && p.0 == role :: p.1;
    if rel.appData.Some? && role in ExpandRoles(meta, rel.appData.value.role) {
      UnitAddressesAtMostUnits(rel.units);
      var all := set u | u in rel.units && u.1.Some? :: u.1.value.address;
      assert addresses <= all;
      SubsetCardinality(addresses, all);
    } else {
      assert addresses == {};
    }
  }

  lemma NoPairs(meta: MetaRoles)
    ensures Pairs(meta, []) == {}
  {
  }

  lemma UnionOfAddresses(meta: MetaRoles, relations: seq<Relation>, role: string)
    requires |relations| > 0
    ensures var n := |relations| - 1;
            AddressesOf(meta, relations, role)
            == AddressesOf(meta, relations[..n], role)
               + set p | p in RelationPairs(meta, relations[n]) && p.0 == role :: p.1
  {
    hide RelationPairs;
  }

  lemma UnionCardinality<T>(a: set<T>, b: set<T>)
    ensures |a + b| <= |a| + |b|
  {
    assert a + b == a + (b - a);
    SubsetCardinality(b - a, b);
  }

  /** No role has more distinct addresses than units. */
  lemma {:induction false} AddressesWithinCount(meta: MetaRoles, relations: seq<Relation>, role: string)
    ensures |AddressesOf(meta, relations, role)| <= RoleCount(meta, relations, role)
  {
    hide RelationPairs, RoleShare, Pairs;
    if |relations| == 0 {
      assert Pairs(meta, relations) == {} by { NoPairs(meta); }
      assert AddressesOf(meta, relations, role) == {};
    } else {
      var n := |relations| - 1;
      AddressesWithinCount(meta, relations[..n], role);
      RelationAddressesAtMostShare(meta, relations[n], role);
      var last := set p | p in RelationPairs(meta, relations[n]) && p.0 == role :: p.1;
      UnionOfAddresses(meta, relations, role);
      UnionCardinality(AddressesOf(meta, relations[..n], role), last);
    }
  }

  /** The addresses of the topology: those of every unit with valid data. */
  lemma {:induction false} TopologyMembers(relations: seq<Relation>, data: UnitData)
    ensures data in Topology(relations) <==>
      exists rel, u :: rel in relations && u in rel.units && u.1 == Some(data)
  {
    if |relations| == 0 {
    } else {
      var n := |relations| - 1;
      TopologyMembers(relations[..n], data);
      UnitTopologyMembers(relations[n].units, data);
      assert forall rel :: rel in relations <==> rel in relations[..n] || rel == relations[n];
    }
  }

  lemma {:induction false} UnitTopologyMembers(units: seq<(string, Option<UnitData>)>, data: UnitData)
    ensures data in UnitTopology(units) <==> exists u :: u in units && u.1 == Some(data)
  {
    if |units| == 0 {
    } else {
      var n := |units| - 1;
      UnitTopologyMembers(units[..n], data);
      assert forall u :: u in units <==> u in units[..n] || u == units[n];
    }
  }

  /**
   Roles and topology agree: an address serves a role exactly when a unit with that address
   sits in a relation whose roles expand to it. So every gathered address is in the topology.
   */
  lemma RelationPairsMembers(meta: MetaRoles, rel: Relation, role: string, address: string)
    ensures (role, address) in RelationPairs(meta, rel) <==>
      rel.appData.Some? && role in ExpandRoles(meta, rel.appData.value.role)
      && exists u :: u in rel.units && u.1.Some? && u.1.value.address == address
  {
    hide ExpandRoles;
  }

  lemma {:induction false} PairsMembers(meta: MetaRoles, relations: seq<Relation>, role: string, address: string)
    ensures (role, address) in Pairs(meta, relations) <==>
      exists rel, u :: rel in relations && rel.appData.Some? && role in ExpandRoles(meta, rel.appData.value.role)
        && u in rel.units && u.1.Some? && u.1.value.address == address
  {
    hide ExpandRoles, RelationPairs;
    if |relations| == 0 {
    } else {
      var n := |relations| - 1;
      PairsMembers(meta, relations[..n], role, address);
      RelationPairsMembers(meta, relations[n], role, address);
      assert forall rel :: rel in relations <==> rel in relations[..n] || rel == relations[n];
    }
  }

  lemma GatheredAddressInTopology(meta: MetaRoles, relations: seq<Relation>, role: string, address: string)
    requires (role, address) in Pairs(meta, relations)
    ensures exists data :: data in Topology(relations) && data.address == address
  {
    hide ExpandRoles;
    PairsMembers(meta, relations, role, address);
    var rel, u :| rel in relations && rel.appData.Some? && role in ExpandRoles(meta, rel.appData.value.role)
      && u in rel.units && u.1.Some? && u.1.value.address == address;
    TopologyMembers(relations, u.1.value);
  }
}
