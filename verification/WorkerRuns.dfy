/** What the worker reconciler achieves over one reconcile and over whole runs. */
module WorkerRuns {
  import opened Prelude
  import opened Cluster
  import opened Worker

  // ----- change detection

  /** The new layer defines everything that the plan contains. */
  predicate Covers(layer: Layer, plan: Layer) {
    plan.services.Keys <= layer.services.Keys && plan.checks.Keys <= layer.checks.Keys
  }

  lemma CombineGivesLayer(plan: Layer, layer: Layer)
    ensures Combine(plan, layer) == layer <==> Covers(layer, plan)
  {
    if Covers(layer, plan) {
      assert Combine(plan, layer).services == layer.services;
      assert Combine(plan, layer).checks == layer.checks;
    } else {
      assert Combine(plan, layer).services.Keys == plan.services.Keys + layer.services.Keys;
      assert Combine(plan, layer).checks.Keys == plan.checks.Keys + layer.checks.Keys;
    }
  }

  /** Writing the configuration changes the file, and the file then parses to the configuration. */
  lemma ConfigWritten(w: Workload, config: Yaml, codec: Codec)
    requires codec.Lawful() && RunningConfig(w.files, codec).Ok?
    ensures RunningConfig(AfterConfig(w, config, codec).files, codec) == Ok(config)
    ensures AfterConfig(w, config, codec).files == w.files <==> RunningConfig(w.files, codec) == Ok(config)
    ensures forall p :: p != ConfigFile ==> !Differs(w.files, AfterConfig(w, config, codec).files, p)
    ensures AfterConfig(w, config, codec) == w.(files := AfterConfig(w, config, codec).files)
  {
  }

  lemma SyncIsStable(files: Files, i: Input, key: Option<string>, config: Option<string>)
    requires i.data.Some?
    ensures SyncedTls(SyncedTls(files, i, key), i, key) == SyncedTls(files, i, key)
    ensures config.Some? ==>
      SyncedTls(SyncedTls(files, i, key)[ConfigFile := config.value], i, key)
      == SyncedTls(files, i, key)[ConfigFile := config.value]
  {
  }

  lemma ReadyFacts(i: Input, codec: Codec)
    requires Ready(i, codec)
    ensures i.canConnect && |i.roles| > 0 && i.data.Some? && WorkerConfig(i, codec).Ok?
    ensures WorkerConfig(i, codec).value.Truthy()
  {
  }

  /**
   When a worker is ready: its container is reachable, it has a role, and the coordinator has published a
   configuration that loads to something other than an empty value.
   */
  lemma ReadyIff(i: Input, codec: Codec)
    ensures Ready(i, codec) <==>
      && i.canConnect && i.roles != [] && i.data.Some?
      && codec.load(i.data.value.payload.workerConfig).Some?
      && codec.load(i.data.value.payload.workerConfig).value
         !in {Null, Boolean(false), Number(0), Str(""), Sequence([]), Mapping(map[])}
  {
    if i.data.Some? && codec.load(i.data.value.payload.workerConfig).Some? {
      FalsyValues(codec.load(i.data.value.payload.workerConfig).value);
    }
    FalsyValues(Mapping(map[]));
  }

  /** Without a published configuration a reachable worker is wiped and stopped, and nothing can prevent it but pebble. */
  lemma WithoutDatabagWiped(w: Workload, i: Input, o: Outcomes, codec: Codec)
    requires i.canConnect && i.data.None?
    ensures var (w', status) := Reconcile(w, i, o, codec);
            && (forall p :: p in w'.files <==> p in w.files && p.Other?)
            && (status == Completed <==> w.plan.services == map[] || o.stopOk)
            && w'.restarts == w.restarts && w'.plan == w.plan
  {
    hide Update, EffectiveLayer, PrivateKey, NeedsUpdate, Restart;
  }

  /** What a completed update leaves behind. */
  lemma UpdateResult(w: Workload, i: Input, o: Outcomes, codec: Codec)
    requires codec.Lawful() && i.data.Some? && WorkerConfig(i, codec).Ok? && Update(w, i, o, codec).1.Ok?
    ensures var w' := Update(w, i, o, codec).0;
            && PrivateKey(i).Ok?
            && SyncedTls(w'.files, i, PrivateKey(i).value) == w'.files
            && RunningConfig(w'.files, codec) == WorkerConfig(i, codec)
            && w'.plan == (if i.layer.Some? && EffectiveLayer(i) != w.plan then Combine(w.plan, EffectiveLayer(i)) else w.plan)
            && w'.running == w.running && w'.restarts == w.restarts
            && (forall p: Path :: p.Other? ==> !Differs(w.files, w'.files, p))
            && (w'.files == w.files <==> SyncedTls(w.files, i, PrivateKey(i).value) == w.files
                                         && RunningConfig(w.files, codec) == WorkerConfig(i, codec))
  {
    hide WorkerConfig, PrivateKey, EffectiveLayer, Combine;
    var key := PrivateKey(i).value;
    var config := WorkerConfig(i, codec).value;
    var w1 := AfterTls(w, i, key);
    var w2 := AfterConfig(w1, config, codec);
    ConfigWritten(w1, config, codec);
    SyncIsStable(w.files, i, key, Some(codec.dump(config)));
    TlsKeepsConfig(w.files, i, key);
    assert w2.files == w1.files || w2.files == w1.files[ConfigFile := codec.dump(config)];
    SyncOnlyTls(w.files, i, key, w2.files);
  }

  lemma SyncOnlyTls(files: Files, i: Input, key: Option<string>, after: Files)
    requires i.data.Some?
    requires forall p :: p != ConfigFile ==> !Differs(SyncedTls(files, i, key), after, p)
    ensures forall p: Path :: p.Other? ==> !Differs(files, after, p)
    ensures after == files ==> SyncedTls(files, i, key) == files
  {
    TlsKeepsConfig(files, i, key);
    forall p: Path | p.Other? ensures !Differs(files, after, p) {
      assert !Differs(SyncedTls(files, i, key), after, p);
    }
    if after == files {
      forall p ensures !Differs(SyncedTls(files, i, key), files, p) {
      }
      SameFiles(SyncedTls(files, i, key), files);
    }
  }

  /**
   The flag that triggers a restart is raised exactly when a file or the plan changed, or when
   the plan holds the whole layer and more, in which case nothing can change.
   */
  lemma FlagMeansChange(w: Workload, i: Input, o: Outcomes, codec: Codec)
    requires codec.Lawful() && i.data.Some? && WorkerConfig(i, codec).Ok? && Update(w, i, o, codec).1.Ok?
    ensures var (w', r) := Update(w, i, o, codec);
            r.value <==> w'.files != w.files || w'.plan != w.plan
                         || (i.layer.Some? && EffectiveLayer(i) != w.plan && Combine(w.plan, EffectiveLayer(i)) == w.plan)
  {
    hide Update, WorkerConfig, PrivateKey, EffectiveLayer, Combine, SyncedTls, RunningConfig;
    UpdateResult(w, i, o, codec);
    UpdateFlag(w, i, o, codec);
  }

  lemma UpdateFlag(w: Workload, i: Input, o: Outcomes, codec: Codec)
    requires i.data.Some? && WorkerConfig(i, codec).Ok? && Update(w, i, o, codec).1.Ok?
    ensures PrivateKey(i).Ok? && Update(w, i, o, codec).1.value == NeedsUpdate(w, i, codec)
  {
  }

  /**
   A dispatch asks for a restart, and for one only, exactly when a ready worker completes an update
   that was needed and the charm has services. If the restart works, all of them run.
   */
  lemma RestartsExactlyOnChange(w: Workload, i: Input, o: Outcomes, codec: Codec)
    requires codec.Lawful()
    ensures var (w', status) := Reconcile(w, i, o, codec);
            var due := Ready(i, codec) && i.data.Some? && Update(w, i, o, codec).1 == Ok(true)
                       && i.layer.Some? && i.layer.value.services != map[];
            && w'.restarts == w.restarts + (if due then 1 else 0)
            && (due && o.restart == Restarted ==> status == Completed && i.layer.value.services.Keys <= w'.running)
  {
    hide WorkerConfig, PrivateKey, EffectiveLayer, Combine, SyncedTls, Codec.Lawful, NeedsUpdate, Update;
    if !Ready(i, codec) {
      UnreadyNeverRestarts(w, i, o, codec);
    } else {
      ReadyFacts(i, codec);
      UpdateNeverRestarts(w, i, o, codec);
      if Update(w, i, o, codec).1.Ok? {
        UpdateResult(w, i, o, codec);
      }
    }
  }

  // ----- the effective layer

  /** The environment has the variable with the given value, or as it was before. */
  predicate Carries(after: map<string, string>, before: map<string, string>, value: Option<string>, variable: string) {
    if NonEmpty(value) then variable in after && after[variable] == value.value
    else (variable in after <==> variable in before) && (variable in before ==> after[variable] == before[variable])
  }

  /** The proxy setting behind an environment variable; None for any other variable. */
  function SettingOf(variable: string, proxy: ProxyEnv): Option<string> {
    if variable == "https_proxy" || variable == "HTTPS_PROXY" then proxy.https
    else if variable == "http_proxy" || variable == "HTTP_PROXY" then proxy.http
    else if variable == "no_proxy" || variable == "NO_PROXY" then proxy.no
    else None
  }

  lemma VariablesOf(proxy: ProxyEnv, variable: string)
    ensures variable in ProxyVariables(proxy) <==> NonEmpty(SettingOf(variable, proxy))
    ensures variable in ProxyVariables(proxy) ==> ProxyVariables(proxy)[variable] == SettingOf(variable, proxy).value
  {
    assert "https_proxy"[4] == 's' && "http_proxy"[4] == '_' && "no_proxy"[4] == 'r';
    assert "HTTPS_PROXY"[4] == 'S' && "HTTP_PROXY"[4] == '_' && "NO_PROXY"[4] == 'R';
    assert "http_proxy"[0] == 'h' && "HTTP_PROXY"[0] == 'H';
  }

  /** Every service gets exactly the proxy settings that are given, in both spellings, and keeps all else. */
  lemma LayerCarriesProxySettings(i: Input, name: string, variable: string)
    requires i.layer.Some? && name in i.layer.value.services
    ensures EffectiveLayer(i).services.Keys == i.layer.value.services.Keys
    ensures var after, before := EffectiveLayer(i).services[name], i.layer.value.services[name];
            after.spec == before.spec
            && Carries(after.environment, before.environment, SettingOf(variable, i.proxy), variable)
  {
    hide ProxyVariables, SettingOf;
    VariablesOf(i.proxy, variable);
  }

  /** The readiness check, if the charm has one, is in the layer under its name; all other checks are the charm's. */
  lemma LayerCarriesReadinessCheck(i: Input, name: string)
    requires i.layer.Some?
    ensures var after, before := EffectiveLayer(i).checks, i.layer.value.checks;
            if name == "ready" && i.readinessCheck.Some? then name in after && after[name] == i.readinessCheck.value
            else (name in after <==> name in before) && (name in after ==> after[name] == before[name])
  {
  }

  /** A charm that hands out the same layer object again does not accumulate additions. */
  lemma LayerIsStable(i: Input)
    requires i.layer.Some?
    ensures EffectiveLayer(i.(layer := Some(EffectiveLayer(i)))) == EffectiveLayer(i)
  {
    var once := EffectiveLayer(i);
    var twice := EffectiveLayer(i.(layer := Some(once)));
    forall name | name in once.services ensures twice.services[name] == once.services[name] {
      assert once.services[name].environment + ProxyVariables(i.proxy) == once.services[name].environment;
    }
    assert twice.services == once.services;
  }

  // ----- fixpoint

  /** After a completed update there is more to do if and only if the plan has outgrown the layer. */
  lemma SettledAfterUpdate(w: Workload, i: Input, o: Outcomes, codec: Codec)
    requires codec.Lawful() && i.data.Some? && WorkerConfig(i, codec).Ok? && Update(w, i, o, codec).1.Ok?
    ensures PrivateKey(i).Ok?
    ensures NeedsUpdate(Update(w, i, o, codec).0, i, codec) <==> i.layer.Some? && !Covers(EffectiveLayer(i), w.plan)
  {
    hide Update, WorkerConfig, PrivateKey, EffectiveLayer, Combine, SyncedTls, RunningConfig, Covers;
    UpdateResult(w, i, o, codec);
    if i.layer.Some? {
      CombineGivesLayer(w.plan, EffectiveLayer(i));
      if EffectiveLayer(i) == w.plan {
        CoversItself(w.plan);
      }
    }
  }

  lemma CoversItself(plan: Layer)
    ensures Covers(plan, plan)
  {
  }

  /** With nothing to update, a reconcile completes and touches neither files, plan nor services. */
  lemma QuietReconcile(w: Workload, i: Input, o: Outcomes, codec: Codec)
    requires Ready(i, codec) && i.data.Some? && PrivateKey(i).Ok? && !NeedsUpdate(w, i, codec)
    ensures Reconcile(w, i, o, codec).1 == Completed
    ensures var w' := Reconcile(w, i, o, codec).0; w' == w.(charmCa := w'.charmCa)
    ensures !NeedsUpdate(Reconcile(w, i, o, codec).0, i, codec)
  {
    hide PrivateKey, EffectiveLayer, SyncedTls;
    ReadyFacts(i, codec);
  }

  /**
   A second reconcile with the same input restarts the services again if and only if the plan
   contains a service or check that the layer does not define.
   */
  lemma ReconcileTwice(w: Workload, i: Input, o: Outcomes, o': Outcomes, codec: Codec)
    requires codec.Lawful() && Ready(i, codec) && i.data.Some? && i.layer.Some? && i.layer.value.services != map[]
    requires Update(w, i, o, codec).1.Ok?
    ensures var w1 := Reconcile(w, i, o, codec).0;
            var w2 := Reconcile(w1, i, o', codec).0;
            w2.restarts == w1.restarts + (if Covers(EffectiveLayer(i), w.plan) then 0 else 1)
  {
    hide WorkerConfig, PrivateKey, EffectiveLayer, Combine, SyncedTls, Covers, Update, NeedsUpdate, Codec.Lawful;
    ReadyFacts(i, codec);
    UpdateResult(w, i, o, codec);
    SettledAfterUpdate(w, i, o, codec);
    UpdateFlag(w, i, o, codec);
    var w1 := Reconcile(w, i, o, codec).0;
    RestartKeepsFilesAndPlan(Update(w, i, o, codec).0, i, o);
    SameNeeds(Update(w, i, o, codec).0, w1, i, codec);
    if NeedsUpdate(w1, i, codec) {
      UpdateSucceeds(w1, i, o', codec);
      UpdateFlag(w1, i, o', codec);
      UpdateResult(w1, i, o', codec);
    } else {
      QuietReconcile(w1, i, o', codec);
    }
  }

  lemma RestartKeepsFilesAndPlan(w: Workload, i: Input, o: Outcomes)
    ensures Restart(w, i, o).0.files == w.files && Restart(w, i, o).0.plan == w.plan
  {
  }

  lemma SameNeeds(a: Workload, b: Workload, i: Input, codec: Codec)
    requires a.files == b.files && a.plan == b.plan && i.data.Some? && PrivateKey(i).Ok?
    ensures NeedsUpdate(a, i, codec) == NeedsUpdate(b, i, codec)
  {
  }

  /** When only the plan is out of date no step of the update can fail. */
  lemma UpdateSucceeds(w: Workload, i: Input, o: Outcomes, codec: Codec)
    requires i.data.Some? && WorkerConfig(i, codec).Ok? && PrivateKey(i).Ok?
    requires SyncedTls(w.files, i, PrivateKey(i).value) == w.files
    requires RunningConfig(w.files, codec) == WorkerConfig(i, codec)
    ensures Update(w, i, o, codec).1.Ok?
  {
  }

  // ----- a failed restart, a corrupt file

  /**
   A restart that fails is not repeated when the hook is retried: the files and the plan are
   already up to date, so the retry completes without restarting anything.
   */
  lemma FailedRestartIsNotRetried(w: Workload, i: Input, o: Outcomes, o': Outcomes, codec: Codec)
    requires codec.Lawful() && Reconcile(w, i, o, codec).1 == Aborted(RestartFailed)
    requires Covers(EffectiveLayer(i), w.plan)
    ensures var w1 := Reconcile(w, i, o, codec).0;
            var (w2, status) := Reconcile(w1, i, o', codec);
            status == Completed && w2.restarts == w1.restarts && w2.running == w1.running == w.running
  {
    hide WorkerConfig, PrivateKey, EffectiveLayer, Combine, SyncedTls, Covers, Codec.Lawful;
    OnlyReadyRestarts(w, i, o, codec);
    ReadyFacts(i, codec);
    UpdateResult(w, i, o, codec);
    SettledAfterUpdate(w, i, o, codec);
    var w1 := Reconcile(w, i, o, codec).0;
    SameNeeds(Update(w, i, o, codec).0, w1, i, codec);
    QuietReconcile(w1, i, o', codec);
  }

  lemma OnlyReadyRestarts(w: Workload, i: Input, o: Outcomes, codec: Codec)
    requires Reconcile(w, i, o, codec).1 == Aborted(RestartFailed)
    ensures Ready(i, codec) && i.layer.Some? && Update(w, i, o, codec).1.Ok?
    ensures Reconcile(w, i, o, codec) == Restart(Update(w, i, o, codec).0, i, o)
  {
    hide EffectiveLayer, Combine, SyncedTls, RunningConfig;
  }

  /**
   A ready worker gets past a configuration file on disk exactly when it is absent or valid
   YAML; otherwise every reconcile aborts and leaves the file as it is.
   */
  lemma CorruptConfigBlocks(w: Workload, i: Input, o: Outcomes, codec: Codec)
    requires Ready(i, codec) && PrivateKey(i).Ok? && o.execOk
    ensures Update(w, i, o, codec).1.Ok? <==> RunningConfig(w.files, codec).Ok?
    ensures RunningConfig(w.files, codec).Err? ==>
      && Reconcile(w, i, o, codec).1 == Aborted(InvalidYaml)
      && !Differs(w.files, Reconcile(w, i, o, codec).0.files, ConfigFile)
  {
    hide PrivateKey, EffectiveLayer, Combine;
    ReadyFacts(i, codec);
    TlsKeepsConfig(w.files, i, PrivateKey(i).value);
  }

  /** When the plan contains what the layer does not define, every ready reconcile restarts. */
  lemma {:induction false} OutgrownPlanRestartsEveryTime(w: Workload, i: Input, o: Outcomes, codec: Codec, n: nat)
    requires codec.Lawful() && Ready(i, codec) && i.data.Some? && PrivateKey(i).Ok? && o.execOk
    requires i.layer.Some? && i.layer.value.services != map[] && !Covers(EffectiveLayer(i), w.plan)
    requires RunningConfig(w.files, codec).Ok?
    ensures var end := Reconciled(w, i, o, codec, n);
            && end.restarts == w.restarts + n
            && !Covers(EffectiveLayer(i), end.plan) && RunningConfig(end.files, codec).Ok?
  {
    hide WorkerConfig, PrivateKey, EffectiveLayer, Covers, Codec.Lawful, Update, NeedsUpdate, Ready, RunningConfig, Reconcile, Combine;
    if n == 0 {
    } else {
      OutgrownPlanRestartsEveryTime(w, i, o, codec, n - 1);
      OutgrownPlanRestarts(Reconciled(w, i, o, codec, n - 1), i, o, codec);
    }
  }

  function Reconciled(w: Workload, i: Input, o: Outcomes, codec: Codec, n: nat): Workload {
    if n == 0 then w else Reconcile(Reconciled(w, i, o, codec, n - 1), i, o, codec).0
  }

  lemma OutgrownPlanRestarts(w: Workload, i: Input, o: Outcomes, codec: Codec)
    requires codec.Lawful() && Ready(i, codec) && i.data.Some? && PrivateKey(i).Ok? && o.execOk
    requires i.layer.Some? && i.layer.value.services != map[] && !Covers(EffectiveLayer(i), w.plan)
    requires RunningConfig(w.files, codec).Ok?
    ensures var w' := Reconcile(w, i, o, codec).0;
            && w'.restarts == w.restarts + 1
            && !Covers(EffectiveLayer(i), w'.plan) && RunningConfig(w'.files, codec).Ok?
  {
    hide WorkerConfig, PrivateKey, EffectiveLayer, Covers, Codec.Lawful, Update, NeedsUpdate, RunningConfig, Combine, SyncedTls;
    ReadyFacts(i, codec);
    CorruptConfigBlocks(w, i, o, codec);
    UpdateResult(w, i, o, codec);
    UpdateFlag(w, i, o, codec);
    RestartsExactlyOnChange(w, i, o, codec);
    RestartKeepsFilesAndPlan(Update(w, i, o, codec).0, i, o);
    CoveredOrNot(EffectiveLayer(i), w.plan);
    NeedsUpdateForPlan(w, i, codec);
  }

  lemma NeedsUpdateForPlan(w: Workload, i: Input, codec: Codec)
    requires i.data.Some? && PrivateKey(i).Ok? && i.layer.Some? && EffectiveLayer(i) != w.plan
    ensures NeedsUpdate(w, i, codec)
  {
  }

  lemma CoveredOrNot(layer: Layer, plan: Layer)
    ensures Covers(layer, Combine(plan, layer)) ==> Covers(layer, plan)
    ensures layer == plan ==> Covers(layer, plan)
  {
    assert Combine(plan, layer).services.Keys == plan.services.Keys + layer.services.Keys;
    assert Combine(plan, layer).checks.Keys == plan.checks.Keys + layer.checks.Keys;
  }

  // ----- instances of the above

  const SERVICE := Service("run", map[])
  const SMALL_LAYER := Layer(map["svc" := SERVICE], map[])

  /** A ready worker with one role, one service, no TLS and the configuration `text`. */
  function SmallInput(text: string): Input {
    Input(true, ["all"], Some(ProviderData(Payload(text, None, None, None, None, None, None, None, None, None), None)),
          NotFound, Some(SMALL_LAYER), None, ProxyEnv(None, None, None))
  }

  lemma SmallInputIsReady(codec: Codec, y: Yaml)
    requires codec.Lawful() && y.Truthy()
    ensures var i := SmallInput(codec.dump(y));
            Ready(i, codec) && WorkerConfig(i, codec) == Ok(y) && PrivateKey(i) == Ok(None) && EffectiveLayer(i) == SMALL_LAYER
  {
    assert codec.load(codec.dump(y)) == Some(y);
    assert SERVICE.environment + ProxyVariables(ProxyEnv(None, None, None)) == SERVICE.environment;
    assert EffectiveLayer(SmallInput(codec.dump(y))).services == SMALL_LAYER.services;
  }

  /** For example, a fresh container whose first restart fails: the retry completes and nothing runs. */
  lemma FailedRestartExample(codec: Codec, y: Yaml)
    requires codec.Lawful() && y.Truthy()
    ensures var i := SmallInput(codec.dump(y));
            var w := Workload(map[], None, Layer(map[], map[]), {}, 0);
            var (w1, first) := Reconcile(w, i, Outcomes(true, ChangeFailed, true), codec);
            var (w2, second) := Reconcile(w1, i, Outcomes(true, Restarted, true), codec);
            && first == Aborted(RestartFailed) && second == Completed
            && w1.plan.services != map[] && w2.running == {} && w2.restarts == 1
  {
    hide EffectiveLayer, Update, PrivateKey, WorkerConfig, Reconcile, RunningConfig, Combine, SyncedTls, NeedsUpdate, Codec.Lawful;
    var i := SmallInput(codec.dump(y));
    var w := Workload(map[], None, Layer(map[], map[]), {}, 0);
    SmallInputIsReady(codec, y);
    FirstRestartFails(w, i, codec);
    FailedRestartIsNotRetried(w, i, Outcomes(true, ChangeFailed, true), Outcomes(true, Restarted, true), codec);
  }

  lemma FirstRestartFails(w: Workload, i: Input, codec: Codec)
    requires codec.Lawful() && Ready(i, codec) && i.data.Some? && PrivateKey(i).Ok? && w == Workload(map[], None, Layer(map[], map[]), {}, 0)
    requires i.layer == Some(SMALL_LAYER) && EffectiveLayer(i) == SMALL_LAYER
    ensures var (w1, status) := Reconcile(w, i, Outcomes(true, ChangeFailed, true), codec);
            status == Aborted(RestartFailed) && w1.restarts == 1 && w1.plan.services != map[] && w1.running == {}
    ensures Covers(EffectiveLayer(i), w.plan)
  {
    hide EffectiveLayer, PrivateKey, WorkerConfig, SyncedTls, NeedsUpdate, Codec.Lawful, Update;
    var o := Outcomes(true, ChangeFailed, true);
    ReadyFacts(i, codec);
    CorruptConfigBlocks(w, i, o, codec);
    UpdateResult(w, i, o, codec);
    UpdateFlag(w, i, o, codec);
    assert "svc" in SMALL_LAYER.services;
    NeedsUpdateForPlan(w, i, codec);
  }

  /** For example, a plan with a service "old" that the charm has dropped from its layer. */
  lemma OutgrownPlanExample(codec: Codec, y: Yaml, n: nat)
    requires codec.Lawful() && y.Truthy()
    ensures var w := Workload(map[], None, Layer(map["old" := SERVICE], map[]), {}, 0);
            Reconciled(w, SmallInput(codec.dump(y)), Outcomes(true, Restarted, true), codec, n).restarts == n
  {
    hide EffectiveLayer, PrivateKey, WorkerConfig, Reconcile, Reconciled, Codec.Lawful;
    var w := Workload(map[], None, Layer(map["old" := SERVICE], map[]), {}, 0);
    SmallInputIsReady(codec, y);
    assert "old" in w.plan.services && "old" !in SMALL_LAYER.services by { assert "old"[0] != "svc"[0]; }
    assert "svc" in SMALL_LAYER.services;
    OutgrownPlanRestartsEveryTime(w, SmallInput(codec.dump(y)), Outcomes(true, Restarted, true), codec, n);
  }

  /** For example, any text on disk that is not YAML: the worker is ready, but every reconcile aborts and keeps the text. */
  lemma CorruptConfigExample(codec: Codec, y: Yaml, text: string, o: Outcomes)
    requires codec.Lawful() && y.Truthy() && codec.load(text).None? && o.execOk
    ensures var i := SmallInput(codec.dump(y));
            var (w, status) := Reconcile(Workload(map[ConfigFile := text], None, SMALL_LAYER, {}, 0), i, o, codec);
            Ready(i, codec) && status == Aborted(InvalidYaml) && ConfigFile in w.files && w.files[ConfigFile] == text
  {
    hide EffectiveLayer, PrivateKey, WorkerConfig, Reconcile, Codec.Lawful;
    SmallInputIsReady(codec, y);
    CorruptConfigBlocks(Workload(map[ConfigFile := text], None, SMALL_LAYER, {}, 0), SmallInput(codec.dump(y)), o, codec);
  }

  /** For example, services that died without any change: the reconcile completes and leaves them down. */
  lemma DownServicesExample(codec: Codec, y: Yaml, o: Outcomes)
    requires codec.Lawful() && y.Truthy()
    ensures var w := Workload(map[ConfigFile := codec.dump(y)], None, SMALL_LAYER, {}, 1);
            var (w', status) := Reconcile(w, SmallInput(codec.dump(y)), o, codec);
            status == Completed && w'.running == {} && w'.restarts == 1
  {
    hide EffectiveLayer, PrivateKey, WorkerConfig, Reconcile, Codec.Lawful;
    var i := SmallInput(codec.dump(y));
    var w := Workload(map[ConfigFile := codec.dump(y)], None, SMALL_LAYER, {}, 1);
    SmallInputIsReady(codec, y);
    LoadsBack(codec, y);
    NoTlsNoChange(w.files, i, codec.dump(y));
    QuietReconcile(w, i, o, codec);
  }

  lemma LoadsBack(codec: Codec, y: Yaml)
    requires codec.Lawful()
    ensures codec.load(codec.dump(y)) == Some(y)
  {
  }

  lemma NoTlsNoChange(files: Files, i: Input, text: string)
    requires files == map[ConfigFile := text] && i == SmallInput(text)
    ensures SyncedTls(files, i, None) == files
  {
  }

  // ----- history independence

  /** The files of a workload that is in order, given only what the worker reads. */
  ghost predicate InOrder(w: Workload, i: Input, codec: Codec) {
    if Ready(i, codec) then
      && i.data.Some? && PrivateKey(i).Ok?
      && (forall p :: p in TLS_FILES ==> Written(w.files, TlsContent(i, PrivateKey(i).value, p), p))
      && RunningConfig(w.files, codec) == WorkerConfig(i, codec)
    else
      && (forall p :: p in w.files ==> p.Other?)
      && w.running !! w.plan.services.Keys
  }

  /** A reconcile that completes with a reachable container puts it in order, whatever was there before. */
  lemma CompletedReconcile(w: Workload, i: Input, o: Outcomes, codec: Codec)
    requires codec.Lawful() && i.canConnect && Reconcile(w, i, o, codec).1 == Completed
    ensures InOrder(Reconcile(w, i, o, codec).0, i, codec)
  {
    hide WorkerConfig, PrivateKey, EffectiveLayer, Combine, Codec.Lawful, SyncedTls;
    if Ready(i, codec) {
      ReadyFacts(i, codec);
      var w' := Update(w, i, o, codec).0;
      UpdateResult(w, i, o, codec);
      RestartKeepsFilesAndPlan(w', i, o);
      InSync(w'.files, i, PrivateKey(i).value);
    } else {
      WipedAndStopped(w, o);
    }
  }

  lemma InSync(files: Files, i: Input, key: Option<string>)
    requires i.data.Some? && SyncedTls(files, i, key) == files
    ensures forall p :: p in TLS_FILES ==> Written(files, TlsContent(i, key, p), p)
  {
    forall p | p in TLS_FILES ensures Written(files, TlsContent(i, key, p), p) {
      assert Written(SyncedTls(files, i, key), TlsContent(i, key, p), p);
    }
  }

  lemma WipedAndStopped(w: Workload, o: Outcomes)
    requires Stop(w.(files := Wipe(w.files)), o).1 == Completed
    ensures var w' := Stop(w.(files := Wipe(w.files)), o).0;
            (forall p :: p in w'.files ==> p.Other?) && w'.running !! w'.plan.services.Keys
  {
  }

  lemma UpdateKeepsOthers(w: Workload, i: Input, o: Outcomes, codec: Codec, path: string)
    requires i.data.Some? && WorkerConfig(i, codec).Ok?
    ensures !Differs(w.files, Update(w, i, o, codec).0.files, Other(path))
  {
    hide EffectiveLayer, Combine, PrivateKey, WorkerConfig, RunningConfig, NeedsUpdate;
  }

  /** Files that the worker does not manage survive every reconcile, completed or not. */
  lemma UnmanagedUntouched(w: Workload, i: Input, o: Outcomes, codec: Codec, path: string)
    ensures !Differs(w.files, Reconcile(w, i, o, codec).0.files, Other(path))
  {
    hide Update, WorkerConfig;
    if Ready(i, codec) {
      ReadyFacts(i, codec);
      UpdateKeepsOthers(w, i, o, codec, path);
      RestartKeepsFilesAndPlan(Update(w, i, o, codec).0, i, o);
    }
  }

  // ----- runs

  /** The kinds of event that Juju dispatches. */
  datatype EventKind = PebbleCheckFailedEvent | StopEvent | OtherEvent(name: string)

  /** `NON_RECONCILABLE_EVENTS`. */
  const NON_RECONCILABLE_EVENTS := {PebbleCheckFailedEvent, StopEvent}

  /** The reconciler observes every event but these. */
  predicate Reconciles(kind: EventKind) {
    kind !in NON_RECONCILABLE_EVENTS
  }

  datatype Event =
    | Dispatch(kind: EventKind, o: Outcomes)
    | NewInput(i: Input)
    | DiskEdit(path: Path, content: Option<string>)
    | PlanEdit(plan: Layer)

  datatype State = State(w: Workload, i: Input)

  function Next(s: State, e: Event, codec: Codec): State {
    match e
    case Dispatch(kind, o) => if Reconciles(kind) then s.(w := Reconcile(s.w, s.i, o, codec).0) else s
    case NewInput(i) => s.(i := i)
    case DiskEdit(p, content) =>
      s.(w := s.w.(files := if content.Some? then s.w.files[p := content.value] else s.w.files - {p}))
    case PlanEdit(plan) => s.(w := s.w.(plan := plan))
  }

  function Run(s: State, events: seq<Event>, codec: Codec): State {
    if |events| == 0 then s else Next(Run(s, events[..|events| - 1], codec), events[|events| - 1], codec)
  }

  /** How often the input, the disk or the plan changes. */
  function Changes(events: seq<Event>): nat {
    if |events| == 0 then 0
    else
      var last := events[|events| - 1];
      Changes(events[..|events| - 1]) + (if last.Dispatch? then 0 else 1)
  }

  /** The event makes the worker reconcile. */
  predicate Triggers(e: Event) { e.Dispatch? && Reconciles(e.kind) }

  /** Whenever a ready worker reconciles, its layer defines everything that the plan contains. */
  predicate NeverShrinks(s: State, events: seq<Event>, codec: Codec) {
    |events| == 0 ||
    (var before := Run(s, events[..|events| - 1], codec);
     && NeverShrinks(s, events[..|events| - 1], codec)
     && (Triggers(events[|events| - 1]) && Ready(before.i, codec) && before.i.layer.Some? ==>
          Covers(EffectiveLayer(before.i), before.w.plan)))
  }

  /** The worker is ready and something is out of date. */
  predicate Dirty(s: State, codec: Codec) {
    Ready(s.i, codec) && s.i.data.Some? && (PrivateKey(s.i).Err? || NeedsUpdate(s.w, s.i, codec))
  }

  function Weight(s: State, codec: Codec): nat {
    if Dirty(s, codec) then 1 else 0
  }

  lemma DispatchUsesUpDirt(s: State, kind: EventKind, o: Outcomes, codec: Codec)
    requires codec.Lawful() && Reconciles(kind)
    requires Ready(s.i, codec) && s.i.layer.Some? ==> Covers(EffectiveLayer(s.i), s.w.plan)
    ensures var s' := Next(s, Dispatch(kind, o), codec);
            s'.w.restarts + Weight(s', codec) <= s.w.restarts + Weight(s, codec)
  {
    hide WorkerConfig, PrivateKey, EffectiveLayer, Combine, SyncedTls, Covers, Codec.Lawful, NeedsUpdate, Update;
    var i := s.i;
    if !Ready(i, codec) {
      UnreadyNeverRestarts(s.w, i, o, codec);
    } else {
      ReadyFacts(i, codec);
      if PrivateKey(i).Ok? && !NeedsUpdate(s.w, i, codec) {
        QuietReconcile(s.w, i, o, codec);
      } else {
        UpdateNeverRestarts(s.w, i, o, codec);
        if Update(s.w, i, o, codec).1.Ok? {
          UpdateFlag(s.w, i, o, codec);
          SettledAfterUpdate(s.w, i, o, codec);
          var w' := Update(s.w, i, o, codec).0;
          RestartKeepsFilesAndPlan(w', i, o);
          SameNeeds(w', Restart(w', i, o).0, i, codec);
        }
      }
    }
  }

  lemma UpdateNeverRestarts(w: Workload, i: Input, o: Outcomes, codec: Codec)
    requires i.data.Some? && WorkerConfig(i, codec).Ok?
    ensures Update(w, i, o, codec).0.restarts == w.restarts
  {
  }

  lemma UnreadyNeverRestarts(w: Workload, i: Input, o: Outcomes, codec: Codec)
    requires !Ready(i, codec)
    ensures Reconcile(w, i, o, codec).0.restarts == w.restarts
  {
  }

  /**
   In any run the services are restarted at most once more than the input, the disk or the plan
   change.
   */
  lemma RestartBound(s: State, events: seq<Event>, codec: Codec)
    requires codec.Lawful() && NeverShrinks(s, events, codec)
    ensures Run(s, events, codec).w.restarts <= s.w.restarts + 1 + Changes(events)
  {
    RestartPotential(s, events, codec);
  }

  /** The events without those that the reconciler does not observe. */
  function Observed(events: seq<Event>): seq<Event> {
    if |events| == 0 then []
    else
      var last := events[|events| - 1];
      Observed(events[..|events| - 1]) + if last.Dispatch? && !Reconciles(last.kind) then [] else [last]
  }

  /** Stop and check-failed events leave no trace: the run without them ends in the same state, with as many restarts. */
  lemma {:induction false} UnobservedEventsLeaveNoTrace(s: State, events: seq<Event>, codec: Codec)
    ensures Run(s, Observed(events), codec) == Run(s, events, codec)
    ensures Changes(Observed(events)) == Changes(events)
    ensures forall e :: e in Observed(events) && e.Dispatch? ==> e.kind != PebbleCheckFailedEvent && e.kind != StopEvent
  {
    hide Reconcile;
    if |events| == 0 {
    } else {
      var n := |events| - 1;
      var earlier := Observed(events[..n]);
      UnobservedEventsLeaveNoTrace(s, events[..n], codec);
      if events[n].Dispatch? && !Reconciles(events[n].kind) {
        assert Observed(events) == earlier + [] == earlier;
      } else {
        assert Observed(events) == earlier + [events[n]];
        assert (earlier + [events[n]])[..|earlier|] == earlier;
      }
    }
  }

  lemma {:induction false} RestartPotential(s: State, events: seq<Event>, codec: Codec)
    requires codec.Lawful() && NeverShrinks(s, events, codec)
    ensures var end := Run(s, events, codec);
            end.w.restarts + Weight(end, codec) <= s.w.restarts + Weight(s, codec) + Changes(events)
  {
    hide Reconcile, Dirty, EffectiveLayer, Covers, Codec.Lawful, Ready;
    if |events| == 0 {
    } else {
      var before := Run(s, events[..|events| - 1], codec);
      RestartPotential(s, events[..|events| - 1], codec);
      var last := events[|events| - 1];
      if Triggers(last) {
        DispatchUsesUpDirt(before, last.kind, last.o, codec);
      }
    }
  }

  /**
   History independence. After any run that ends in a completed reconcile of a reachable container,
   the managed files are what the current databag and secret say; a file that the worker does not
   manage changes only if something else edits it.
   */
  lemma HistoryIndependence(s: State, events: seq<Event>, kind: EventKind, o: Outcomes, codec: Codec)
    requires codec.Lawful() && Reconciles(kind)
    requires var end := Run(s, events, codec); end.i.canConnect && Reconcile(end.w, end.i, o, codec).1 == Completed
    ensures var end := Run(s, events + [Dispatch(kind, o)], codec); InOrder(end.w, end.i, codec)
    ensures forall path :: (forall e :: e in events && e.DiskEdit? ==> e.path != Other(path)) ==>
      !Differs(s.w.files, Run(s, events + [Dispatch(kind, o)], codec).w.files, Other(path))
  {
    hide Reconcile, InOrder, Codec.Lawful;
    var all := events + [Dispatch(kind, o)];
    assert all[..|all| - 1] == events;
    var end := Run(s, events, codec);
    CompletedReconcile(end.w, end.i, o, codec);
    forall path | forall e :: e in events && e.DiskEdit? ==> e.path != Other(path)
      ensures !Differs(s.w.files, Run(s, all, codec).w.files, Other(path))
    {
      UnmanagedOverRun(s, all, codec, path);
    }
  }

  lemma {:induction false} UnmanagedOverRun(s: State, events: seq<Event>, codec: Codec, path: string)
    requires forall e :: e in events && e.DiskEdit? ==> e.path != Other(path)
    ensures !Differs(s.w.files, Run(s, events, codec).w.files, Other(path))
  {
    hide Reconcile;
    if |events| == 0 {
    } else {
      var n := |events| - 1;
      assert forall e :: e in events[..n] ==> e in events;
      UnmanagedOverRun(s, events[..n], codec, path);
      var before := Run(s, events[..n], codec);
      assert events[n] in events;
      if Triggers(events[n]) {
        UnmanagedUntouched(before.w, before.i, events[n].o, codec, path);
      }
    }
  }

  /** Two workloads in order for the same input have the same TLS files and the same parsed configuration. */
  lemma OrderIsUnique(a: Workload, b: Workload, i: Input, codec: Codec)
    requires InOrder(a, i, codec) && InOrder(b, i, codec)
    ensures forall p :: p in TLS_FILES ==> !Differs(a.files, b.files, p)
    ensures RunningConfig(a.files, codec) == RunningConfig(b.files, codec)
    ensures ConfigFile in a.files <==> ConfigFile in b.files
  {
    hide PrivateKey;
    if Ready(i, codec) {
      ReadyFacts(i, codec);
      forall p | p in TLS_FILES ensures !Differs(a.files, b.files, p) {
        assert Written(a.files, TlsContent(i, PrivateKey(i).value, p), p);
        assert Written(b.files, TlsContent(i, PrivateKey(i).value, p), p);
      }
    }
  }
}
