/** The choice of a correlated Grafana datasource (telemetry_correlation.py). */
module Correlation {
  import opened Prelude

  datatype Datasource = Datasource(kind: string, uid: string, grafanaUid: string)

  /** A datasource-exchange relation; no databag stands for an invalid one. */
  datatype ExchangeRelation = ExchangeRelation(id: nat, app: Option<string>, databag: Option<seq<Datasource>>)

  /** A grafana-source relation and whether its list of datasource uids is valid JSON. */
  datatype SourceRelation = SourceRelation(grafanaUid: Option<string>, uidsValid: bool)
  {
    predicate HasUid() { grafanaUid.Some? && grafanaUid.value != "" }
  }

  datatype CorrelationError = MalformedUids

  /** The applications behind an optional narrowing endpoint, by relation. */
  type EndpointApps = Option<seq<Option<string>>>

  /** What is looked for: a kind of datasource on one of the connected Grafanas. */
  datatype Query = Query(kind: string, grafanas: set<string>) {
    predicate Matches(ds: Datasource) { ds.kind == kind && ds.grafanaUid in grafanas }
  }

  predicate Eligible(rel: ExchangeRelation, endpoint: EndpointApps) {
    rel.app.Some? && (endpoint.Some? ==> rel.app in endpoint.value)
  }

  function EligibleRelations(relations: seq<ExchangeRelation>, endpoint: EndpointApps): (r: seq<ExchangeRelation>)
    ensures forall rel :: rel in r <==> rel in relations && Eligible(rel, endpoint)
  {
    if |relations| == 0 then []
    else (if Eligible(relations[0], endpoint) then [relations[0]] else []) + EligibleRelations(relations[1..], endpoint)
  }

  ghost predicate SortedById(relations: seq<ExchangeRelation>) {
    forall i, j :: 0 <= i < j < |relations| ==> relations[i].id <= relations[j].id
  }

  /** Stable insertion: after those with the same id. */
  function InsertById(rel: ExchangeRelation, relations: seq<ExchangeRelation>): (r: seq<ExchangeRelation>)
    ensures multiset(r) == multiset(relations) + multiset{rel}
  {
    if |relations| == 0 || relations[|relations| - 1].id <= rel.id then
      relations + [rel]
    else
      var n := |relations| - 1;
      assert relations == relations[..n] + [relations[n]];
      InsertById(rel, relations[..n]) + [relations[n]]
  }

  lemma {:induction false} InsertKeepsSorted(rel: ExchangeRelation, relations: seq<ExchangeRelation>)
    requires SortedById(relations)
    ensures SortedById(InsertById(rel, relations))
  {
    if |relations| > 0 && rel.id < relations[|relations| - 1].id {
      var n := |relations| - 1;
      InsertKeepsSorted(rel, relations[..n]);
      var inner := InsertById(rel, relations[..n]);
      forall i | 0 <= i < |inner| ensures inner[i].id <= relations[n].id {
        assert inner[i] in multiset(inner);
        assert inner[i] == rel || inner[i] in relations[..n];
      }
    }
  }

  /** `sorted(relations, key=id)`. */
  function SortById(relations: seq<ExchangeRelation>): (r: seq<ExchangeRelation>)
    ensures multiset(r) == multiset(relations)
    ensures SortedById(r)
  {
    if |relations| == 0 then []
    else
      var n := |relations| - 1;
      assert relations == relations[..n] + [relations[n]];
      InsertKeepsSorted(relations[n], SortById(relations[..n]));
      InsertById(relations[n], SortById(relations[..n]))
  }

  lemma SortKeepsMembers(relations: seq<ExchangeRelation>)
    ensures forall x :: x in SortById(relations) <==> x in relations
  {
    assert forall x :: x in SortById(relations) <==> x in multiset(SortById(relations));
    assert forall x :: x in relations <==> x in multiset(relations);
  }

  /** The matching datasources, in order. */
  function Matching(sources: seq<Datasource>, query: Query): (r: seq<Datasource>)
    ensures forall ds :: ds in r <==> ds in sources && query.Matches(ds)
  {
    if |sources| == 0 then []
    else (if query.Matches(sources[0]) then [sources[0]] else []) + Matching(sources[1..], query)
  }

  /** The Grafanas this charm is connected to. */
  function ConnectedGrafanas(relations: seq<SourceRelation>): set<string> {
    set i | 0 <= i < |relations| && relations[i].HasUid() :: relations[i].grafanaUid.value
  }

  /** Every relation that names a Grafana lists its uids as valid JSON. */
  predicate UidsValid(relations: seq<SourceRelation>) {
    forall i :: 0 <= i < |relations| && relations[i].HasUid() ==> relations[i].uidsValid
  }

  /** `_get_grafana_source_uids`. */
  method GrafanaSourceUids(relations: seq<SourceRelation>) returns (r: Result<set<string>, CorrelationError>)
    ensures r.Ok? <==> UidsValid(relations)
    ensures r.Ok? ==> r.value == ConnectedGrafanas(relations)
    ensures r.Err? <==> exists i :: (0 <= i < |relations| && relations[i].grafanaUid.Some? && relations[i].grafanaUid.value != ""
                                     && !relations[i].uidsValid)
    ensures r.Ok? ==> forall uid :: uid in r.value <==>
      uid != "" && exists i :: 0 <= i < |relations| && relations[i].grafanaUid == Some(uid)
  {
    var uids: set<string> := {};
    for i := 0 to |relations|
      invariant UidsValid(relations[..i])
      invariant uids == ConnectedGrafanas(relations[..i])
    {
      assert relations[..i + 1] == relations[..i] + [relations[i]];
      if relations[i].HasUid() {
        if !relations[i].uidsValid {
          return Err(MalformedUids);
        }
        uids := uids + {relations[i].grafanaUid.value};
      }
      assert uids == ConnectedGrafanas(relations[..i + 1]);
    }
    assert relations[..|relations|] == relations;
    return Ok(uids);
  }

  function Databags(relations: seq<ExchangeRelation>): seq<Datasource> {
    if |relations| == 0 then []
    else
      var n := |relations| - 1;
      Databags(relations[..n]) + if relations[n].databag.Some? then relations[n].databag.value else []
  }

  /** The relation offers a suitable datasource. */
  predicate Offers(rel: ExchangeRelation, query: Query) {
    rel.databag.Some? && exists i :: 0 <= i < |rel.databag.value| && query.Matches(rel.databag.value[i])
  }

  ghost predicate FirstOf(ds: Datasource, rel: ExchangeRelation, query: Query) {
    rel.databag.Some? && |Matching(rel.databag.value, query)| > 0 && Matching(rel.databag.value, query)[0] == ds
  }

  ghost predicate Lowest(rel: ExchangeRelation, relations: seq<ExchangeRelation>, query: Query) {
    rel in relations && forall other :: other in relations && Offers(other, query) ==> rel.id <= other.id
  }

  /** `ds` is the first suitable datasource of the relation with the lowest id that offers one. */
  ghost predicate IsChoice(ds: Datasource, relations: seq<ExchangeRelation>, query: Query) {
    exists rel :: Lowest(rel, relations, query) && FirstOf(ds, rel, query)
  }

  /** The datasource has the right kind and sits on a Grafana that one of the relations names. */
  ghost predicate Suitable(ds: Datasource, kind: string, grafanaSources: seq<SourceRelation>) {
    ds.kind == kind && ds.grafanaUid != ""
    && exists i :: 0 <= i < |grafanaSources| && grafanaSources[i].grafanaUid == Some(ds.grafanaUid)
  }

  lemma MatchesSuitable(ds: Datasource, kind: string, grafanaSources: seq<SourceRelation>)
    ensures Query(kind, ConnectedGrafanas(grafanaSources)).Matches(ds) <==> Suitable(ds, kind, grafanaSources)
  {
  }

  /** The relation may be used: its application is known and, if the search is narrowed, among the given ones. */
  ghost predicate Admitted(rel: ExchangeRelation, endpoint: EndpointApps) {
    rel.app.Some? && (endpoint.None? || exists i :: 0 <= i < |endpoint.value| && endpoint.value[i] == rel.app)
  }

  /** At position `i` of its databag the relation has a suitable datasource. */
  ghost predicate HasSuitable(rel: ExchangeRelation, i: int, kind: string, grafanaSources: seq<SourceRelation>) {
    rel.databag.Some? && 0 <= i < |rel.databag.value| && Suitable(rel.databag.value[i], kind, grafanaSources)
  }

  /** No suitable datasource comes earlier in the databag, and no admitted relation with a lower id has one. */
  ghost predicate FirstSuitable(rel: ExchangeRelation, i: int, kind: string, grafanaSources: seq<SourceRelation>,
                                exchange: seq<ExchangeRelation>, endpoint: EndpointApps) {
    && rel in exchange && Admitted(rel, endpoint) && HasSuitable(rel, i, kind, grafanaSources)
    && (forall j :: 0 <= j < i ==> !HasSuitable(rel, j, kind, grafanaSources))
    && forall other, j :: other in exchange && Admitted(other, endpoint) && other.id < rel.id ==>
         !HasSuitable(other, j, kind, grafanaSources)
  }

  lemma {:induction false} FirstMatching(sources: seq<Datasource>, query: Query) returns (i: nat)
    requires |Matching(sources, query)| > 0
    ensures i < |sources| && sources[i] == Matching(sources, query)[0] && query.Matches(sources[i])
    ensures forall j :: 0 <= j < i ==> !query.Matches(sources[j])
  {
    if query.Matches(sources[0]) {
      i := 0;
    } else {
      var k := FirstMatching(sources[1..], query);
      i := k + 1;
    }
  }

  lemma OffersSuitable(rel: ExchangeRelation, kind: string, grafanaSources: seq<SourceRelation>)
    ensures Offers(rel, Query(kind, ConnectedGrafanas(grafanaSources))) <==> exists i :: HasSuitable(rel, i, kind, grafanaSources)
  {
    hide Query.Matches, Suitable;
    var query := Query(kind, ConnectedGrafanas(grafanaSources));
    forall ds ensures query.Matches(ds) <==> Suitable(ds, kind, grafanaSources) {
      MatchesSuitable(ds, kind, grafanaSources);
    }
    if rel.databag.Some? {
      if i :| 0 <= i < |rel.databag.value| && query.Matches(rel.databag.value[i]) {
        assert HasSuitable(rel, i, kind, grafanaSources);
      }
      if i :| HasSuitable(rel, i, kind, grafanaSources) {
        assert query.Matches(rel.databag.value[i]);
      }
    }
  }

  /** The chosen datasource is the first suitable one of the lowest admitted relation that has one. */
  lemma ChoiceIsFirstSuitable(ds: Datasource, kind: string, grafanaSources: seq<SourceRelation>,
                              exchange: seq<ExchangeRelation>, endpoint: EndpointApps)
    requires IsChoice(ds, EligibleRelations(exchange, endpoint), Query(kind, ConnectedGrafanas(grafanaSources)))
    ensures exists rel, i :: FirstSuitable(rel, i, kind, grafanaSources, exchange, endpoint) && rel.databag.value[i] == ds
  {
    hide Query.Matches, Suitable, Matching, Offers, ConnectedGrafanas;
    var query := Query(kind, ConnectedGrafanas(grafanaSources));
    var rel :| Lowest(rel, EligibleRelations(exchange, endpoint), query) && FirstOf(ds, rel, query);
    var i := FirstMatching(rel.databag.value, query);
    forall j | 0 <= j < |rel.databag.value|
      ensures HasSuitable(rel, j, kind, grafanaSources) <==> query.Matches(rel.databag.value[j])
    {
      MatchesSuitable(rel.databag.value[j], kind, grafanaSources);
    }
    forall other, j | other in exchange && Admitted(other, endpoint) && other.id < rel.id
      ensures !HasSuitable(other, j, kind, grafanaSources)
    {
      OffersSuitable(other, kind, grafanaSources);
      assert other in EligibleRelations(exchange, endpoint);
    }
    assert FirstSuitable(rel, i, kind, grafanaSources, exchange, endpoint);
  }

  lemma EligibleAdmitted(rel: ExchangeRelation, endpoint: EndpointApps)
    ensures Eligible(rel, endpoint) <==> Admitted(rel, endpoint)
  {
  }

  /** `find_correlated_datasource`. */
  method FindCorrelatedDatasource(kind: string, grafanaSources: seq<SourceRelation>, exchange: seq<ExchangeRelation>,
                                  endpoint: EndpointApps)
    returns (r: Result<Option<Datasource>, CorrelationError>)
    ensures r.Ok? <==> UidsValid(grafanaSources)
    ensures r.Ok? ==> (r.value.Some? <==> exists rel :: rel in exchange && Eligible(rel, endpoint)
                                            && Offers(rel, Query(kind, ConnectedGrafanas(grafanaSources))))
    ensures r.Ok? && r.value.Some? ==>
      IsChoice(r.value.value, EligibleRelations(exchange, endpoint), Query(kind, ConnectedGrafanas(grafanaSources)))
    ensures r.Ok? ==> (r.value.Some? <==>
      exists rel, i :: rel in exchange && Admitted(rel, endpoint) && HasSuitable(rel, i, kind, grafanaSources))
    ensures r.Ok? && r.value.Some? ==>
      exists rel, i :: FirstSuitable(rel, i, kind, grafanaSources, exchange, endpoint) && rel.databag.value[i] == r.value.value
  {
    hide Offers, IsChoice, Matching, SortById, Eligible, Admitted, HasSuitable, FirstSuitable, ConnectedGrafanas;
    SearchDirectly(kind, grafanaSources, exchange, endpoint);
    var filtered := EligibleRelations(exchange, endpoint);
    var grafanas := GrafanaSourceUids(grafanaSources);
    if grafanas.Err? {
      return Err(grafanas.error);
    }
    var query := Query(kind, grafanas.value);
    var sorted := SortById(filtered);
    var sources: seq<Datasource> := [];
    for i := 0 to |sorted|
      invariant sources == Databags(sorted[..i])
    {
      assert sorted[..i + 1][..i] == sorted[..i];
      if sorted[i].databag.Some? {
        sources := sources + sorted[i].databag.value;
      }
    }
    assert sorted[..|sorted|] == sorted;
    var matching := Matching(sources, query);
    FirstMatchOfSorted(sorted, query);
    SortKeepsMembers(filtered);
    if |matching| == 0 {
      return Ok(None);
    }
    SameChoice(matching[0], sorted, filtered, query);
    ChoiceIsFirstSuitable(matching[0], kind, grafanaSources, exchange, endpoint);
    return Ok(Some(matching[0]));
  }

  lemma SearchDirectly(kind: string, grafanaSources: seq<SourceRelation>, exchange: seq<ExchangeRelation>, endpoint: EndpointApps)
    ensures (exists rel :: rel in exchange && Eligible(rel, endpoint) && Offers(rel, Query(kind, ConnectedGrafanas(grafanaSources))))
       <==> exists rel, i :: rel in exchange && Admitted(rel, endpoint) && HasSuitable(rel, i, kind, grafanaSources)
  {
    hide Offers, Eligible, Admitted, HasSuitable, ConnectedGrafanas;
    forall rel ensures Eligible(rel, endpoint) <==> Admitted(rel, endpoint)
               ensures Offers(rel, Query(kind, ConnectedGrafanas(grafanaSources))) <==>
                 exists i :: HasSuitable(rel, i, kind, grafanaSources)
    {
      EligibleAdmitted(rel, endpoint);
      OffersSuitable(rel, kind, grafanaSources);
    }
  }

  lemma SameChoice(ds: Datasource, a: seq<ExchangeRelation>, b: seq<ExchangeRelation>, query: Query)
    requires forall x :: x in a <==> x in b
    ensures IsChoice(ds, a, query) <==> IsChoice(ds, b, query)
  {
    hide Offers, FirstOf;
    assert forall rel :: Lowest(rel, a, query) <==> Lowest(rel, b, query);
  }

  lemma MatchingAppend(a: seq<Datasource>, b: seq<Datasource>, query: Query)
    ensures Matching(a + b, query) == Matching(a, query) + Matching(b, query)
  {
    if |a| == 0 {
      assert a + b == b;
    } else {
      assert (a + b)[1..] == a[1..] + b;
      MatchingAppend(a[1..], b, query);
    }
  }

  lemma OffersMatching(rel: ExchangeRelation, query: Query)
    ensures Offers(rel, query) <==> rel.databag.Some? && |Matching(rel.databag.value, query)| > 0
  {
    if rel.databag.Some? {
      var matching := Matching(rel.databag.value, query);
      if |matching| > 0 {
        assert matching[0] in matching;
      }
      if i :| 0 <= i < |rel.databag.value| && query.Matches(rel.databag.value[i]) {
        assert rel.databag.value[i] in matching;
      }
    }
  }

  /** In sorted relations the first suitable datasource comes from the lowest relation that has one. */
  lemma {:induction false} FirstMatchOfSorted(sorted: seq<ExchangeRelation>, query: Query)
    requires SortedById(sorted)
    ensures var matching := Matching(Databags(sorted), query);
            && (|matching| > 0 <==> exists rel :: rel in sorted && Offers(rel, query))
            && (|matching| > 0 ==> IsChoice(matching[0], sorted, query))
  {
    hide Matching, Offers;
    if |sorted| == 0 {
      assert Matching(Databags(sorted), query) == [] by { NoSourcesNoMatch(query); }
    } else {
      var n := |sorted| - 1;
      var last, init := sorted[n], sorted[..n];
      var own := if last.databag.Some? then last.databag.value else [];
      FirstMatchOfSorted(init, query);
      MatchingAppend(Databags(init), own, query);
      OffersMatching(last, query);
      NoSourcesNoMatch(query);
      assert forall rel :: rel in sorted <==> rel in init || rel == last;
      var before := Matching(Databags(init), query);
      if |before| > 0 {
        var rel :| Lowest(rel, init, query) && FirstOf(before[0], rel, query);
        assert rel.id <= last.id;
        assert Lowest(rel, sorted, query);
      } else if |Matching(own, query)| > 0 {
        assert Lowest(last, sorted, query) && FirstOf(Matching(own, query)[0], last, query);
      }
    }
  }

  lemma NoSourcesNoMatch(query: Query)
    ensures Matching([], query) == []
  {
  }

  /** With distinct ids the choice is unique, so it does not depend on the order of any relation list. */
  lemma ChoiceIgnoresOrder(a: Datasource, b: Datasource, relations: seq<ExchangeRelation>, permuted: seq<ExchangeRelation>,
                           endpoint: EndpointApps, endpoint': EndpointApps, query: Query)
    requires forall rel :: rel in relations <==> rel in permuted
    requires forall x, y :: x in relations && y in relations && x.id == y.id ==> x == y
    requires endpoint.Some? <==> endpoint'.Some?
    requires endpoint.Some? ==> forall app :: app in endpoint.value <==> app in endpoint'.value
    requires IsChoice(a, EligibleRelations(relations, endpoint), query)
    requires IsChoice(b, EligibleRelations(permuted, endpoint'), query)
    ensures a == b
  {
    hide Offers, Matching;
    var xs, ys := EligibleRelations(relations, endpoint), EligibleRelations(permuted, endpoint');
    var r :| Lowest(r, xs, query) && FirstOf(a, r, query);
    var s :| Lowest(s, ys, query) && FirstOf(b, s, query);
    OffersMatching(r, query);
    OffersMatching(s, query);
    assert s in xs && r in ys;
  }
}
