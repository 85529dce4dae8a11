/** The deployment consistency probe (probes/cluster_consistency.py). */
module Probe {
  import opened Prelude

  /** An exported application; options map names to whether their value is True. */
  datatype App = App(charm: string, scale: Option<nat>, options: seq<(string, bool)>) {
    function Units(): nat { if scale.Some? then scale.value else 1 }

    /** Without options the application has every role. */
    predicate HasAllRoles() { |options| == 0 }
  }

  datatype Params = Params(workerCharm: string, recommended: seq<(string, int)>, metaRoles: map<string, seq<string>>) {
    /** Meta roles expand to recommended roles only. */
    predicate Valid() {
      forall m, r :: m in metaRoles && r in metaRoles[m] ==> exists i :: 0 <= i < |recommended| && recommended[i].0 == r
    }
  }

  datatype ProbeError = MissingRole(role: string) | ShortBy(role: string, units: int)

  datatype Verdict = InvalidParams | CharmNotFound | Rejected(errors: seq<ProbeError>) | Accepted

  // ----- counting

  const ROLE_PREFIX := "role-"

  function OptionRoles(params: Params, option: (string, bool)): seq<string> {
    if ROLE_PREFIX <= option.0 && option.1 then
      var role := option.0[|ROLE_PREFIX|..];
      if role in params.metaRoles then params.metaRoles[role] else [role]
    else []
  }

  /** The roles that the options enable, repeated as often as they are enabled. */
  function EnabledRoles(params: Params, options: seq<(string, bool)>): seq<string> {
    if |options| == 0 then []
    else EnabledRoles(params, options[..|options| - 1]) + OptionRoles(params, options[|options| - 1])
  }

  function Times(s: seq<string>, role: string): nat {
    if |s| == 0 then 0 else Times(s[..|s| - 1], role) + if s[|s| - 1] == role then 1 else 0
  }

  /** The option switches on a meta role, some other role, or nothing; this is how often it thereby gives a role. */
  ghost predicate Enables(option: (string, bool), name: string) {
    option == ("role-" + name, true)
  }

  lemma OptionGives(params: Params, option: (string, bool), name: string, role: string)
    requires Enables(option, name)
    ensures Times(OptionRoles(params, option), role)
         == if name in params.metaRoles then multiset(params.metaRoles[name])[role] else if role == name then 1 else 0
  {
    hide Times;
    assert option.0[|ROLE_PREFIX|..] == name;
    TimesIsMultiplicity(OptionRoles(params, option), role);
  }

  lemma OptionGivesNothing(params: Params, option: (string, bool), role: string)
    requires !option.1 || !("role-" <= option.0)
    ensures Times(OptionRoles(params, option), role) == 0
  {
  }

  lemma {:induction false} TimesIsMultiplicity(s: seq<string>, role: string)
    ensures Times(s, role) == multiset(s)[role]
  {
    if |s| == 0 {
    } else {
      TimesIsMultiplicity(s[..|s| - 1], role);
      assert s == s[..|s| - 1] + [s[|s| - 1]];
    }
  }

  /** How often the options of an application give a role, written without expanding them to a list. */
  ghost function Gives(params: Params, options: seq<(string, bool)>, role: string): nat {
    if |options| == 0 then 0
    else
      var (option, on) := options[|options| - 1];
      Gives(params, options[..|options| - 1], role)
      + if !on || !("role-" <= option) then 0
        else
          var name := option[5..];
          if name in params.metaRoles then multiset(params.metaRoles[name])[role] else if role == name then 1 else 0
  }

  lemma {:induction false} GivesIsTimes(params: Params, options: seq<(string, bool)>, role: string)
    ensures Gives(params, options, role) == Times(EnabledRoles(params, options), role)
  {
    hide OptionRoles, Times;
    if |options| == 0 {
      TimesIsMultiplicity([], role);
    } else {
      var n := |options| - 1;
      GivesIsTimes(params, options[..n], role);
      var earlier, more := EnabledRoles(params, options[..n]), OptionRoles(params, options[n]);
      TimesIsMultiplicity(earlier + more, role);
      TimesIsMultiplicity(earlier, role);
      TimesIsMultiplicity(more, role);
      if options[n].1 && "role-" <= options[n].0 {
        var name := options[n].0[5..];
        assert options[n].0 == "role-" + name;
        OptionGives(params, options[n], name, role);
      } else {
        OptionGivesNothing(params, options[n], role);
      }
    }
  }

  predicate Relevant(params: Params, app: App) { app.charm == params.workerCharm }

  /** Units that count for every role. */
  function AllRoleShare(params: Params, app: App): nat {
    if Relevant(params, app) && app.HasAllRoles() then app.Units() else 0
  }

  /** Units that an application contributes to a role explicitly. */
  function RoleShare(params: Params, app: App, role: string): nat {
    if Relevant(params, app) && !app.HasAllRoles() then app.Units() * Times(EnabledRoles(params, app.options), role) else 0
  }

  predicate Mentions(params: Params, app: App, role: string) {
    Relevant(params, app) && !app.HasAllRoles() && role in EnabledRoles(params, app.options)
  }

  function AllRoleUnits(params: Params, apps: seq<App>): nat {
    if |apps| == 0 then 0
    else AllRoleUnits(params, apps[..|apps| - 1]) + AllRoleShare(params, apps[|apps| - 1])
  }

  function RoleUnits(params: Params, apps: seq<App>, role: string): nat {
    if |apps| == 0 then 0
    else RoleUnits(params, apps[..|apps| - 1], role) + RoleShare(params, apps[|apps| - 1], role)
  }

  predicate Counted(params: Params, apps: seq<App>, role: string) {
    exists app :: app in apps && Mentions(params, app, role)
  }

  /** What the probe has to say about one recommended role. */
  function RoleErrors(params: Params, apps: seq<App>, role: string, target: int): seq<ProbeError> {
    var all, n := AllRoleUnits(params, apps), RoleUnits(params, apps, role);
    if all == 0 && !Counted(params, apps, role) then [MissingRole(role)]
    else if target - all - n > 0 then [ShortBy(role, target - all - n)]
    else []
  }

  function AllErrors(params: Params, apps: seq<App>, recommended: seq<(string, int)>): seq<ProbeError> {
    if |recommended| == 0 then []
    else
      var last := recommended[|recommended| - 1];
      AllErrors(params, apps, recommended[..|recommended| - 1]) + RoleErrors(params, apps, last.0, last.1)
  }

  function Concat(bundles: seq<seq<App>>): seq<App> {
    if |bundles| == 0 then [] else Concat(bundles[..|bundles| - 1]) + bundles[|bundles| - 1]
  }

  /** The charm has to turn up in the first bundle already: the check sits inside the loop. */
  predicate NotFound(params: Params, bundles: seq<seq<App>>) {
    |bundles| > 0 && forall i :: 0 <= i < |bundles[0]| ==> !Relevant(params, bundles[0][i])
  }

  function VerdictOf(params: Params, bundles: seq<seq<App>>): Verdict {
    if !params.Valid() then InvalidParams
    else if NotFound(params, bundles) then CharmNotFound
    else
      var errors := AllErrors(params, Concat(bundles), params.recommended);
      if |errors| > 0 then Rejected(errors) else Accepted
  }

  // ----- the probe

  /** `roles` counts `enabled`, each occurrence `scale` times. */
  ghost predicate Tallies(roles: map<string, nat>, enabled: seq<string>, scale: nat) {
    && roles.Keys == Elems(enabled)
    && forall r :: r in roles ==> roles[r] == scale * Times(enabled, r)
  }

  lemma TalliesStep(roles: map<string, nat>, enabled: seq<string>, scale: nat, role: string)
    requires Tallies(roles, enabled, scale)
    ensures Tallies(roles[role := (if role in roles then roles[role] else 0) + scale], enabled + [role], scale)
  {
    var more := enabled + [role];
    assert more[..|enabled|] == enabled;
    assert Elems(more) == Elems(enabled) + {role} by {
      assert forall r :: r in more <==> r in enabled || r == role;
    }
    if role !in enabled {
      NoTimes(enabled, role);
    }
    forall r ensures scale * (Times(enabled, r) + 1) == scale * Times(enabled, r) + scale {
    }
  }

  lemma NoTimes(s: seq<string>, role: string)
    ensures Times(s, role) == 0 <==> role !in s
  {
    if |s| == 0 {
    } else {
      NoTimes(s[..|s| - 1], role);
      assert s == s[..|s| - 1] + [s[|s| - 1]];
    }
  }

  /** `_get_roles_from_config`. It never reports an error: the flag for a second role is never set. */
  method GetRolesFromConfig(params: Params, app: App) returns (roles: map<string, nat>, errors: seq<ProbeError>)
    ensures Tallies(roles, EnabledRoles(params, app.options), app.Units())
    ensures errors == []
    ensures forall r :: r in roles <==> Gives(params, app.options, r) > 0
    ensures forall r :: r in roles ==>
      roles[r] == (if app.scale.Some? then app.scale.value else 1) * Gives(params, app.options, r)
    ensures forall name :: (|app.options| == 1 && app.options[0] == ("role-" + name, true)) ==>
      forall r :: (if r in roles then roles[r] else 0)
        == (if app.scale.Some? then app.scale.value else 1)
           * (if name in params.metaRoles then multiset(params.metaRoles[name])[r] else if r == name then 1 else 0)
  {
    hide Gives, Tallies, OptionRoles, Times, EnabledRoles;
    NothingTallied(params, app);
    roles, errors := map[], [];
    var options := app.options;
    for i := 0 to |options|
      invariant Tallies(roles, EnabledRoles(params, options[..i]), app.Units())
    {
      EnabledNext(params, options, i);
      var more := OptionRoles(params, options[i]);
      ghost var enabled := EnabledRoles(params, options[..i]);
      assert enabled + more[..0] == enabled;
      for j := 0 to |more|
        invariant Tallies(roles, enabled + more[..j], app.Units())
      {
        assert enabled + more[..j + 1] == enabled + more[..j] + [more[j]];
        TalliesStep(roles, enabled + more[..j], app.Units(), more[j]);
        roles := roles[more[j] := (if more[j] in roles then roles[more[j]] else 0) + app.Units()];
      }
      assert more[..|more|] == more;
    }
    assert options[..|options|] == options;
    RolesDirectly(params, app, roles);
  }

  lemma NothingTallied(params: Params, app: App)
    ensures Tallies(map[], EnabledRoles(params, app.options[..0]), app.Units())
  {
  }

  lemma EnabledNext(params: Params, options: seq<(string, bool)>, i: nat)
    requires i < |options|
    ensures EnabledRoles(params, options[..i + 1]) == EnabledRoles(params, options[..i]) + OptionRoles(params, options[i])
  {
    hide OptionRoles;
    assert options[..i + 1][..i] == options[..i];
  }

  /** The counts of one application, directly. */
  lemma RolesDirectly(params: Params, app: App, roles: map<string, nat>)
    requires Tallies(roles, EnabledRoles(params, app.options), app.Units())
    ensures forall r :: r in roles <==> Gives(params, app.options, r) > 0
    ensures forall r :: r in roles ==>
      roles[r] == (if app.scale.Some? then app.scale.value else 1) * Gives(params, app.options, r)
    ensures forall name :: (|app.options| == 1 && app.options[0] == ("role-" + name, true)) ==>
      forall r :: (if r in roles then roles[r] else 0)
        == (if app.scale.Some? then app.scale.value else 1)
           * (if name in params.metaRoles then multiset(params.metaRoles[name])[r] else if r == name then 1 else 0)
  {
    hide EnabledRoles, Times, Gives;
    forall r ensures r in roles <==> Gives(params, app.options, r) > 0
             ensures r in roles ==> roles[r] == (if app.scale.Some? then app.scale.value else 1) * Gives(params, app.options, r) {
      GivesIsTimes(params, app.options, r);
      NoTimes(EnabledRoles(params, app.options), r);
    }
    forall name, r | |app.options| == 1 && app.options[0] == ("role-" + name, true)
      ensures Gives(params, app.options, r)
           == if name in params.metaRoles then multiset(params.metaRoles[name])[r] else if r == name then 1 else 0
    {
      OneOptionGives(params, app.options, name, r);
    }
  }

  lemma OneOptionGives(params: Params, options: seq<(string, bool)>, name: string, role: string)
    requires |options| == 1 && options[0] == ("role-" + name, true)
    ensures Gives(params, options, role)
         == if name in params.metaRoles then multiset(params.metaRoles[name])[role] else if role == name then 1 else 0
  {
    assert ("role-" + name)[5..] == name;
    assert options[..0] == [];
  }

  /** The counters after the given applications. */
  ghost predicate Accounts(params: Params, apps: seq<App>, all: nat, roles: map<string, nat>) {
    && all == AllRoleUnits(params, apps)
    && (forall r :: r in roles <==> Counted(params, apps, r))
    && (forall r :: RoleUnits(params, apps, r) == if r in roles then roles[r] else 0)
  }

  function AddCounts(a: map<string, nat>, b: map<string, nat>): (r: map<string, nat>)
    ensures r.Keys == a.Keys + b.Keys
    ensures forall k :: k in r ==> r[k] == (if k in a then a[k] else 0) + (if k in b then b[k] else 0)
  {
    map k | k in a.Keys + b.Keys :: (if k in a then a[k] else 0) + (if k in b then b[k] else 0)
  }

  lemma CountedSnoc(params: Params, before: seq<App>, app: App)
    ensures AllRoleUnits(params, before + [app]) == AllRoleUnits(params, before) + AllRoleShare(params, app)
    ensures forall r :: RoleUnits(params, before + [app], r) == RoleUnits(params, before, r) + RoleShare(params, app, r)
    ensures forall r :: Counted(params, before + [app], r) <==> Counted(params, before, r) || Mentions(params, app, r)
    ensures !Relevant(params, app) || app.HasAllRoles() ==> forall r :: !Mentions(params, app, r)
  {
    hide EnabledRoles, Times, Relevant, RoleShare, AllRoleShare;
    var apps := before + [app];
    assert apps[..|before|] == before;
    assert forall a :: a in apps <==> a in before || a == app;
  }

  lemma MentionsOf(params: Params, app: App, roles: map<string, nat>)
    requires Relevant(params, app) && !app.HasAllRoles()
    requires Tallies(roles, EnabledRoles(params, app.options), app.Units())
    ensures forall r :: r in roles <==> Mentions(params, app, r)
  {
    hide EnabledRoles, Times;
  }

  method CountApp(params: Params, app: App, all: nat, roles: map<string, nat>, ghost before: seq<App>)
    returns (all': nat, roles': map<string, nat>)
    requires Accounts(params, before, all, roles)
    ensures Accounts(params, before + [app], all', roles')
  {
    hide EnabledRoles, Times, Counted, Mentions, Relevant;
    all', roles' := all, roles;
    CountedSnoc(params, before, app);
    if Relevant(params, app) {
      if app.HasAllRoles() {
        all' := all + app.Units();
      } else {
        var more, _ := GetRolesFromConfig(params, app);
        roles' := AddCounts(roles, more);
        forall r ensures RoleShare(params, app, r) == if r in more then more[r] else 0 {
          NoTimes(EnabledRoles(params, app.options), r);
        }
        MentionsOf(params, app, more);
      }
    }
  }

  /** The validation of the parameters: the roles that meta roles expand to and that are not recommended. */
  method ParamsAreValid(params: Params) returns (valid: bool)
    ensures valid == params.Valid()
    ensures valid <==> forall m, r :: m in params.metaRoles && r in params.metaRoles[m] ==>
      exists i :: 0 <= i < |params.recommended| && params.recommended[i].0 == r
  {
    valid := forall m :: m in params.metaRoles ==>
      forall r :: r in params.metaRoles[m] ==> exists i :: 0 <= i < |params.recommended| && params.recommended[i].0 == r;
  }

  /** `bundle`. */
  method CheckBundles(params: Params, bundles: seq<seq<App>>) returns (verdict: Verdict)
    ensures verdict == VerdictOf(params, bundles)
    ensures verdict != InvalidParams <==> forall m, r :: m in params.metaRoles && r in params.metaRoles[m] ==>
      exists i :: 0 <= i < |params.recommended| && params.recommended[i].0 == r
  {
    hide RoleShare, AllRoleShare, Mentions, Counted, Times, EnabledRoles, Params.Valid, AllErrors, Accounts, Relevant;
    var valid := ParamsAreValid(params);
    if !valid {
      return InvalidParams;
    }
    var charmFound, all, roles := false, 0, map[];
    NothingCounted(params);
    for b := 0 to |bundles|
      invariant Accounts(params, Concat(bundles[..b]), all, roles)
      invariant b > 0 ==> charmFound && !NotFound(params, bundles)
      invariant b == 0 ==> !charmFound
    {
      assert bundles[..b + 1][..b] == bundles[..b];
      ghost var before := Concat(bundles[..b]);
      assert before + bundles[b][..0] == before;
      for i := 0 to |bundles[b]|
        invariant Accounts(params, before + bundles[b][..i], all, roles)
        invariant charmFound <==> b > 0 || exists j :: 0 <= j < i && Relevant(params, bundles[b][j])
      {
        var app := bundles[b][i];
        assert before + bundles[b][..i + 1] == before + bundles[b][..i] + [app];
        all, roles := CountApp(params, app, all, roles, before + bundles[b][..i]);
        charmFound := charmFound || Relevant(params, app);
      }
      assert bundles[b][..|bundles[b]|] == bundles[b];
      if !charmFound {
        return CharmNotFound;
      }
    }
    assert bundles[..|bundles|] == bundles;
    var errors := ReportRoles(params, all, roles, Concat(bundles));
    return if |errors| > 0 then Rejected(errors) else Accepted;
  }

  /** The last loop of `bundle`: what is missing of each recommended role. */
  method ReportRoles(params: Params, all: nat, roles: map<string, nat>, ghost apps: seq<App>) returns (errors: seq<ProbeError>)
    requires Accounts(params, apps, all, roles)
    ensures errors == AllErrors(params, apps, params.recommended)
  {
    hide AllRoleUnits, RoleUnits, Counted;
    errors := [];
    for i := 0 to |params.recommended|
      invariant errors == AllErrors(params, apps, params.recommended[..i])
    {
      assert params.recommended[..i + 1][..i] == params.recommended[..i];
      var (role, target) := params.recommended[i];
      if all == 0 && role !in roles {
        errors := errors + [MissingRole(role)];
      } else {
        var missing := target - all - if role in roles then roles[role] else 0;
        if missing > 0 {
          errors := errors + [ShortBy(role, missing)];
        }
      }
    }
    assert params.recommended[..|params.recommended|] == params.recommended;
  }

  lemma NothingCounted(params: Params)
    ensures Accounts(params, Concat([]), 0, map[])
    ensures forall bundles: seq<seq<App>> :: Concat(bundles[..0]) == []
  {
  }

  // ----- what the verdict means

  predicate RoleSatisfied(params: Params, apps: seq<App>, role: string, target: int) {
    && (AllRoleUnits(params, apps) > 0 || Counted(params, apps, role))
    && target <= AllRoleUnits(params, apps) + RoleUnits(params, apps, role)
  }

  lemma {:induction false} NoErrorsIff(params: Params, apps: seq<App>, recommended: seq<(string, int)>)
    ensures |AllErrors(params, apps, recommended)| == 0 <==>
      forall i :: 0 <= i < |recommended| ==> RoleSatisfied(params, apps, recommended[i].0, recommended[i].1)
  {
    hide Counted;
    if |recommended| == 0 {
    } else {
      NoErrorsIff(params, apps, recommended[..|recommended| - 1]);
    }
  }

  lemma ConcatOne(apps: seq<App>)
    ensures Concat([apps]) == apps
  {
    assert [apps][..0] == [];
    assert Concat([]) + apps == apps;
  }

  /** A bundle with the worker charm is accepted exactly when every recommended role is satisfied. */
  lemma AcceptedIff(params: Params, apps: seq<App>)
    requires params.Valid() && exists i :: 0 <= i < |apps| && Relevant(params, apps[i])
    ensures VerdictOf(params, [apps]) == Accepted <==> forall i :: 0 <= i < |params.recommended| ==>
      RoleSatisfied(params, apps, params.recommended[i].0, params.recommended[i].1)
  {
    hide Params.Valid, RoleSatisfied, AllErrors;
    ConcatOne(apps);
    NoErrorsIff(params, apps, params.recommended);
  }

  lemma {:induction false} CountsOfAppend(params: Params, a: seq<App>, b: seq<App>, role: string)
    ensures AllRoleUnits(params, a + b) == AllRoleUnits(params, a) + AllRoleUnits(params, b)
    ensures RoleUnits(params, a + b, role) == RoleUnits(params, a, role) + RoleUnits(params, b, role)
    ensures Counted(params, a + b, role) <==> Counted(params, a, role) || Counted(params, b, role)
  {
    hide RoleShare, AllRoleShare, Mentions;
    assert forall x :: x in a + b <==> x in a || x in b;
    if |b| == 0 {
      assert a + b == a;
    } else {
      var n := |b| - 1;
      assert (a + b)[..|a| + n] == a + b[..n];
      CountsOfAppend(params, a, b[..n], role);
    }
  }

  lemma {:induction false} CountsIgnoreOrder(params: Params, a: seq<App>, b: seq<App>, role: string)
    requires multiset(a) == multiset(b)
    ensures AllRoleUnits(params, a) == AllRoleUnits(params, b)
    ensures RoleUnits(params, a, role) == RoleUnits(params, b, role)
    ensures Counted(params, a, role) <==> Counted(params, b, role)
    decreases |a|
  {
    hide RoleShare, AllRoleShare, Mentions, Counted, AllRoleUnits, RoleUnits;
    if |a| == 0 {
      assert |b| == |multiset(b)| == |multiset(a)| == 0;
      assert a == b;
    } else {
      var n := |a| - 1;
      var last := a[n];
      assert last in multiset(b);
      var k :| 0 <= k < |b| && b[k] == last;
      var rest := b[..k] + b[k + 1..];
      assert a[..n] + a[n + 1..] == a[..n];
      WithoutOne(params, a, n, role);
      WithoutOne(params, b, k, role);
      CountsIgnoreOrder(params, a[..n], rest, role);
    }
  }

  lemma WithoutOne(params: Params, s: seq<App>, k: nat, role: string)
    requires k < |s|
    ensures var rest, one := s[..k] + s[k + 1..], [s[k]];
            && multiset(rest) == multiset(s) - multiset{s[k]}
            && AllRoleUnits(params, s) == AllRoleUnits(params, rest) + AllRoleUnits(params, one)
            && RoleUnits(params, s, role) == RoleUnits(params, rest, role) + RoleUnits(params, one, role)
            && (Counted(params, s, role) <==> Counted(params, rest, role) || Counted(params, one, role))
  {
    hide AllRoleUnits, RoleUnits, Counted;
    RemoveOne(s, k);
    CountsOfAppend(params, s[..k], s[k + 1..], role);
    CountsOfAppend(params, s[..k] + [s[k]], s[k + 1..], role);
    CountsOfAppend(params, s[..k], [s[k]], role);
  }

  lemma RemoveOne(s: seq<App>, k: nat)
    requires k < |s|
    ensures s == s[..k] + [s[k]] + s[k + 1..]
    ensures multiset(s[..k] + s[k + 1..]) == multiset(s) - multiset{s[k]}
  {
    assert s == s[..k] + [s[k]] + s[k + 1..];
  }

  lemma {:induction false} ErrorsFollowCounts(params: Params, a: seq<App>, b: seq<App>, recommended: seq<(string, int)>)
    requires multiset(a) == multiset(b)
    ensures AllErrors(params, a, recommended) == AllErrors(params, b, recommended)
  {
    hide AllRoleUnits, RoleUnits, Counted;
    if |recommended| == 0 {
    } else {
      ErrorsFollowCounts(params, a, b, recommended[..|recommended| - 1]);
      CountsIgnoreOrder(params, a, b, recommended[|recommended| - 1].0);
    }
  }

  /** The verdict on a bundle does not depend on the order of its applications. */
  lemma VerdictIgnoresOrder(params: Params, a: seq<App>, b: seq<App>)
    requires multiset(a) == multiset(b)
    ensures VerdictOf(params, [a]) == VerdictOf(params, [b])
  {
    hide Params.Valid, AllErrors, Relevant;
    ConcatOne(a);
    ConcatOne(b);
    assert forall x :: x in a <==> x in multiset(a);
    assert forall x :: x in b <==> x in multiset(b);
    SameMembers(params, a, b);
    SameMembers(params, b, a);
    ErrorsFollowCounts(params, a, b, params.recommended);
  }

  lemma SameMembers(params: Params, a: seq<App>, b: seq<App>)
    requires forall x :: x in a ==> x in b
    ensures NotFound(params, [b]) ==> NotFound(params, [a])
  {
    hide Relevant;
    forall i | 0 <= i < |a| && NotFound(params, [b]) ensures !Relevant(params, a[i]) {
      assert a[i] in b;
      var j :| 0 <= j < |b| && b[j] == a[i];
      assert !Relevant(params, [b][0][j]);
    }
  }

  /** What one application adds to the counters, written without lists of roles. */
  lemma SharesDirectly(params: Params, app: App, role: string)
    ensures var scale := if app.scale.Some? then app.scale.value else 1;
            && AllRoleShare(params, app) == (if app.charm == params.workerCharm && app.options == [] then scale else 0)
            && RoleShare(params, app, role)
               == (if app.charm == params.workerCharm && app.options != [] then scale * Gives(params, app.options, role) else 0)
            && (Mentions(params, app, role) <==> app.charm == params.workerCharm && Gives(params, app.options, role) > 0)
  {
    hide EnabledRoles, Times;
    GivesIsTimes(params, app.options, role);
    NoTimes(EnabledRoles(params, app.options), role);
    if app.options == [] {
      NothingEnabled(params, role);
    }
  }

  lemma NothingEnabled(params: Params, role: string)
    ensures Gives(params, [], role) == 0
  {
  }

  /** A lone application whose enabled meta role covers every recommended role, at sufficient scale, is accepted. */
  lemma MetaRoleAccepted(params: Params, name: string, scale: nat)
    requires params.Valid() && name in params.metaRoles
    requires forall i :: 0 <= i < |params.recommended| ==>
      params.recommended[i].0 in params.metaRoles[name] && params.recommended[i].1 <= scale
    ensures VerdictOf(params, [[App(params.workerCharm, Some(scale), [("role-" + name, true)])]]) == Accepted
  {
    hide Params.Valid, AllRoleUnits, RoleUnits, Counted, RoleSatisfied, VerdictOf, AllRoleShare, RoleShare, Mentions;
    var app := App(params.workerCharm, Some(scale), [("role-" + name, true)]);
    assert Relevant(params, [app][0]);
    AcceptedIff(params, [app]);
    forall i | 0 <= i < |params.recommended|
      ensures RoleSatisfied(params, [app], params.recommended[i].0, params.recommended[i].1)
    {
      MetaRoleSatisfies(params, name, app, params.recommended[i].0, params.recommended[i].1);
    }
  }

  lemma MetaRoleSatisfies(params: Params, name: string, app: App, role: string, target: int)
    requires name in params.metaRoles && role in params.metaRoles[name]
    requires app.charm == params.workerCharm && app.scale.Some? && app.options == [("role-" + name, true)] && target <= app.scale.value
    ensures RoleSatisfied(params, [app], role, target)
  {
    hide AllRoleUnits, RoleUnits, Counted, AllRoleShare, RoleShare, Mentions, Gives;
    LoneApp(params, app, role);
    SharesDirectly(params, app, role);
    OneOptionGives(params, app.options, name, role);
    var n := multiset(params.metaRoles[name])[role];
    assert n >= 1;
    assert app.scale.value * n >= app.scale.value;
  }

  /** A lone application without any configuration is accepted exactly when its scale reaches every recommendation. */
  lemma UnconfiguredAccepted(params: Params, scale: Option<nat>)
    requires params.Valid() && scale != Some(0)
    ensures VerdictOf(params, [[App(params.workerCharm, scale, [])]]) == Accepted <==>
      forall i :: 0 <= i < |params.recommended| ==> params.recommended[i].1 <= if scale.Some? then scale.value else 1
  {
    hide Params.Valid, AllRoleUnits, RoleUnits, Counted, VerdictOf, AllRoleShare, RoleShare, Mentions, Gives;
    var app := App(params.workerCharm, scale, []);
    assert Relevant(params, [app][0]);
    AcceptedIff(params, [app]);
    forall i | 0 <= i < |params.recommended|
      ensures RoleSatisfied(params, [app], params.recommended[i].0, params.recommended[i].1)
         <==> params.recommended[i].1 <= if scale.Some? then scale.value else 1
    {
      LoneApp(params, app, params.recommended[i].0);
      SharesDirectly(params, app, params.recommended[i].0);
    }
  }

  predicate HasWorkerCharm(params: Params, bundle: seq<App>) {
    exists i :: 0 <= i < |bundle| && Relevant(params, bundle[i])
  }

  /** No bundle has the worker charm. */
  predicate CharmMissing(params: Params, bundles: seq<seq<App>>) {
    forall b :: 0 <= b < |bundles| ==> !HasWorkerCharm(params, bundles[b])
  }

  /**
   The charm is reported as not found in exactly the right cases if there is a bundle, and the first
   one has the charm or none has. Otherwise the report is wrong.
   */
  lemma NotFoundIff(params: Params, bundles: seq<seq<App>>)
    requires params.Valid()
    ensures (VerdictOf(params, bundles) == CharmNotFound <==> CharmMissing(params, bundles))
       <==> |bundles| > 0 && (HasWorkerCharm(params, bundles[0]) || CharmMissing(params, bundles))
  {
    hide Params.Valid, AllErrors, Relevant;
  }

  /** For example, with the charm in the second bundle only it is reported as not found. */
  lemma SecondBundleExample(params: Params, worker: App, other: App)
    requires params.Valid() && Relevant(params, worker) && !Relevant(params, other)
    ensures VerdictOf(params, [[other], [worker]]) == CharmNotFound && !CharmMissing(params, [[other], [worker]])
    ensures VerdictOf(params, [[worker], [other]]) != CharmNotFound
  {
    hide Params.Valid, AllErrors, Relevant;
    assert Relevant(params, [worker][0]) && !Relevant(params, [other][0]);
    assert HasWorkerCharm(params, [worker]) && [[other], [worker]][1] == [worker];
    assert [[worker], [other]][0] == [worker];
  }

  /** An application that enables a single role. */
  function SingleRoleApp(params: Params, role: string, units: nat): App {
    App(params.workerCharm, Some(units), [(ROLE_PREFIX + role, true)])
  }

  /**
   A reported shortfall is exactly the number of units that clears it; a missing role is cleared by
   as many units as are recommended.
   */
  lemma ShortfallIsExact(params: Params, apps: seq<App>, role: string, target: int, n: nat)
    requires role !in params.metaRoles && RoleErrors(params, apps, role, target) != []
    ensures var reported := RoleErrors(params, apps, role, target)[0];
            RoleErrors(params, apps + [SingleRoleApp(params, role, n)], role, target) == []
            <==> n >= if reported.ShortBy? then reported.units else target
  {
    hide Counted;
    var app := SingleRoleApp(params, role, n);
    CountsOfAppend(params, apps, [app], role);
    SingleRoleCounts(params, role, n);
    UncountedHasNoUnits(params, apps, role);
  }

  lemma {:induction false} UncountedHasNoUnits(params: Params, apps: seq<App>, role: string)
    ensures !Counted(params, apps, role) ==> RoleUnits(params, apps, role) == 0
  {
    if |apps| == 0 {
    } else {
      var n := |apps| - 1;
      assert apps[n] in apps;
      assert forall app :: app in apps[..n] ==> app in apps;
      UncountedHasNoUnits(params, apps[..n], role);
      NoTimes(EnabledRoles(params, apps[n].options), role);
    }
  }

  lemma SingleRoleCounts(params: Params, role: string, n: nat)
    requires role !in params.metaRoles
    ensures var app := SingleRoleApp(params, role, n);
            && AllRoleUnits(params, [app]) == 0 && RoleUnits(params, [app], role) == n && Counted(params, [app], role)
  {
    hide OptionRoles;
    var app := SingleRoleApp(params, role, n);
    SingleOption(params, role);
    assert app.options[..0] == [];
    assert EnabledRoles(params, app.options) == [role];
    assert [app][..0] == [];
    assert [role][..0] == [];
    assert Times([role], role) == 1;
    assert RoleShare(params, app, role) == n;
    assert RoleUnits(params, [app][..0], role) == 0 && AllRoleUnits(params, [app][..0]) == 0;
    assert [app][0] == app;
    assert app in [app] && Mentions(params, app, role);
  }

  lemma LoneApp(params: Params, app: App, role: string)
    ensures AllRoleUnits(params, [app]) == AllRoleShare(params, app)
    ensures RoleUnits(params, [app], role) == RoleShare(params, app, role)
    ensures Counted(params, [app], role) <==> Mentions(params, app, role)
  {
    hide AllRoleShare, RoleShare, Mentions;
    assert [app][..0] == [];
    assert forall x :: x in [app] <==> x == app;
  }

  lemma TwoOptions(params: Params, r: string, q: string, options: seq<(string, bool)>)
    requires r !in params.metaRoles && q !in params.metaRoles
    requires options == [(ROLE_PREFIX + r, true), (ROLE_PREFIX + q, true)]
    ensures EnabledRoles(params, options) == [r, q]
  {
    hide OptionRoles;
    SingleOption(params, r);
    SingleOption(params, q);
    assert options[..1] == [options[0]] && options[..1][..0] == [];
    assert EnabledRoles(params, options[..1]) == [r];
  }

  /** For example, an application with two roles: the probe counts it for both and has nothing to report. */
  lemma TwoRolesExample(params: Params, r: string, q: string, app: App)
    requires r != q && r !in params.metaRoles && q !in params.metaRoles
    requires app == App(params.workerCharm, Some(1), [(ROLE_PREFIX + r, true), (ROLE_PREFIX + q, true)])
    ensures RoleErrors(params, [app], r, 1) == [] && RoleErrors(params, [app], q, 1) == []
  {
    hide Counted, AllRoleUnits, RoleUnits, Times, EnabledRoles;
    TwoOptions(params, r, q, app.options);
    TimesInPair(r, q);
    LoneApp(params, app, r);
    LoneApp(params, app, q);
  }

  lemma TimesInPair(r: string, q: string)
    requires r != q
    ensures Times([r, q], r) == Times([r, q], q) == 1
  {
    assert [r, q][..1] == [r] && [r][..0] == [];
    assert Times([r], r) == 1 && Times([r], q) == 0;
  }

  lemma SingleOption(params: Params, role: string)
    requires role !in params.metaRoles
    ensures OptionRoles(params, (ROLE_PREFIX + role, true)) == [role]
  {
    assert (ROLE_PREFIX + role)[|ROLE_PREFIX|..] == role;
  }

  /** Scaling an application up never turns acceptance into rejection. */
  lemma ScalingUpKeepsAcceptance(params: Params, apps: seq<App>, k: nat, units: nat)
    requires k < |apps| && apps[k].Units() <= units
    requires VerdictOf(params, [apps]) == Accepted
    ensures VerdictOf(params, [apps[k := apps[k].(scale := Some(units))]]) == Accepted
  {
    hide Params.Valid, AllErrors, RoleSatisfied, Counted;
    var bigger := apps[k].(scale := Some(units));
    var scaled := apps[k := bigger];
    ConcatOne(apps);
    ConcatOne(scaled);
    var i :| 0 <= i < |apps| && Relevant(params, apps[i]);
    assert Relevant(params, scaled[i]);
    NoErrorsIff(params, apps, params.recommended);
    NoErrorsIff(params, scaled, params.recommended);
    forall j | 0 <= j < |params.recommended|
      ensures RoleSatisfied(params, scaled, params.recommended[j].0, params.recommended[j].1)
    {
      ScalingUpRole(params, apps, k, units, params.recommended[j].0, params.recommended[j].1);
    }
  }

  lemma ScalingUpRole(params: Params, apps: seq<App>, k: nat, units: nat, role: string, target: int)
    requires k < |apps| && apps[k].Units() <= units
    requires RoleSatisfied(params, apps, role, target)
    ensures RoleSatisfied(params, apps[k := apps[k].(scale := Some(units))], role, target)
  {
    hide AllRoleUnits, RoleUnits, Counted;
    var old', new' := apps[k], apps[k].(scale := Some(units));
    assert apps == apps[..k] + [old'] + apps[k + 1..];
    assert apps[k := new'] == apps[..k] + [new'] + apps[k + 1..];
    CountsOfAppend(params, apps[..k] + [old'], apps[k + 1..], role);
    CountsOfAppend(params, apps[..k] + [new'], apps[k + 1..], role);
    CountsOfAppend(params, apps[..k], [old'], role);
    CountsOfAppend(params, apps[..k], [new'], role);
    ScalingUpOne(params, old', units, role);
  }

  lemma ScalingUpOne(params: Params, app: App, units: nat, role: string)
    requires app.Units() <= units
    ensures var bigger := app.(scale := Some(units));
            && AllRoleUnits(params, [app]) <= AllRoleUnits(params, [bigger])
            && RoleUnits(params, [app], role) <= RoleUnits(params, [bigger], role)
            && (Counted(params, [app], role) <==> Counted(params, [bigger], role))
  {
    var bigger := app.(scale := Some(units));
    var times := Times(EnabledRoles(params, app.options), role);
    assert app.Units() * times <= units * times;
    assert [app][..0] == [];
    assert [bigger][..0] == [];
    assert app in [app] && bigger in [bigger];
    assert forall x :: x in [app] ==> x == app;
    assert forall x :: x in [bigger] ==> x == bigger;
  }
}
