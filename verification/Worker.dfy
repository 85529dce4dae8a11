/**
 The worker reconciler (worker.py): it brings the files, the pebble plan and the services
 of the workload container in line with what the coordinator published.
 */
module Worker {
  import opened Prelude
  import opened Cluster

  // ----- YAML

  datatype Yaml =
    | Null
    | Boolean(b: bool)
    | Number(n: int)
    | Str(s: string)
    | Sequence(items: seq<Yaml>)
    | Mapping(entries: map<string, Yaml>)
  {
    /** Python truth value. */
    predicate Truthy() {
      match this
      case Null => false
      case Boolean(b) => b
      case Number(n) => n != 0
      case Str(s) => s != ""
      case Sequence(items) => |items| > 0
      case Mapping(entries) => entries.Keys != {}
    }
  }

  /** Python takes exactly these values for false. */
  lemma FalsyValues(y: Yaml)
    ensures !y.Truthy() <==> y in {Null, Boolean(false), Number(0), Str(""), Sequence([]), Mapping(map[])}
  {
    if y.Mapping? && y.entries.Keys == {} {
      assert y.entries == map[];
    }
  }

  /** The YAML library: `load` fails on malformed text. */
  datatype Codec = Codec(load: string -> Option<Yaml>, dump: Yaml -> string) {
    ghost predicate Lawful() {
      forall y: Yaml :: load(dump(y)) == Some(y)
    }
  }

  // ----- the container

  datatype Path = ConfigFile | CertFile | S3CaFile | KeyFile | ClientCaFile | RootCaFile | Other(path: string) {
    function Name(): string {
      match this
      case ConfigFile => "/etc/worker/config.yaml"
      case CertFile => "/etc/worker/server.cert"
      case S3CaFile => "/etc/worker/s3_ca.crt"
      case KeyFile => "/etc/worker/private.key"
      case ClientCaFile => "/etc/worker/ca.cert"
      case RootCaFile => "/usr/local/share/ca-certificates/ca.crt"
      case Other(path) => path
    }
  }

  /** The six managed files do not coincide. */
  lemma ManagedPathsDistinct(p: Path, q: Path)
    requires !p.Other? && !q.Other? && p.Name() == q.Name()
    ensures p == q
  {
    assert p.Name()[|p.Name()| - 6] == q.Name()[|q.Name()| - 6];
  }

  type Files = map<Path, string>

  const TLS_FILES: set<Path> := {ClientCaFile, CertFile, KeyFile, S3CaFile, RootCaFile}

  datatype Service = Service(spec: string, environment: map<string, string>)

  /** The services and checks of a pebble layer, or of the combined plan. */
  datatype Layer = Layer(services: map<string, Service>, checks: map<string, string>)

  /** `add_layer(..., combine=True)` where every entry overrides by replacing. */
  function Combine(plan: Layer, layer: Layer): Layer {
    Layer(plan.services + layer.services, plan.checks + layer.checks)
  }

  /** What the reconciler acts upon. `restarts` counts the restart requests sent to pebble. */
  datatype Workload = Workload(
    files: Files,
    charmCa: Option<string>,  // the CA certificate kept in the charm container
    plan: Layer,
    running: set<string>,
    restarts: nat)

  // ----- what a reconcile reads

  datatype Secret = NotFound | Content(privateKey: Option<string>)

  datatype ProxyEnv = ProxyEnv(https: Option<string>, http: Option<string>, no: Option<string>)

  datatype Input = Input(
    canConnect: bool,
    roles: seq<string>,
    data: Option<ProviderData>,
    secret: Secret,
    layer: Option<Layer>,          // None: the charm failed to provide one
    readinessCheck: Option<string>,
    proxy: ProxyEnv)

  datatype RestartOutcome = Restarted | ConnectionLost | ChangeFailed

  /** How the calls into the container turn out. */
  datatype Outcomes = Outcomes(execOk: bool, restart: RestartOutcome, stopOk: bool)

  datatype Failure = InvalidYaml | SecretNotFound | CommandFailed | NoServices | RestartFailed | StopFailed

  datatype Status = Completed | Aborted(why: Failure)

  predicate NonEmpty(content: Option<string>) {
    content.Some? && content.value != ""
  }

  /** `_worker_config`: an absent databag counts as an empty configuration. */
  function WorkerConfig(i: Input, codec: Codec): Result<Yaml, Failure> {
    if i.data.None? then Ok(Mapping(map[]))
    else
      match codec.load(i.data.value.payload.workerConfig)
      case None => Err(InvalidYaml)
      case Some(y) => Ok(y)
  }

  function IsReady(i: Input, codec: Codec): Result<bool, Failure> {
    if !i.canConnect || |i.roles| == 0 then Ok(false)
    else
      var config :- WorkerConfig(i, codec);
      Ok(config.Truthy())
  }

  predicate Ready(i: Input, codec: Codec) {
    IsReady(i, codec) == Ok(true)
  }

  function PrivateKey(i: Input): Result<Option<string>, Failure>
    requires i.data.Some?
  {
    if !NonEmpty(i.data.value.payload.privkeySecretId) then Ok(None)
    else if i.secret.NotFound? then Err(SecretNotFound)
    else Ok(i.secret.privateKey)
  }

  /** Contents and destination of the five TLS files, in the order they are written. */
  function TlsEntries(i: Input, key: Option<string>): seq<(Option<string>, Path)>
    requires i.data.Some?
  {
    var p := i.data.value.payload;
    [(p.caCert, ClientCaFile), (p.serverCert, CertFile), (key, KeyFile), (p.s3TlsCaChain, S3CaFile), (p.caCert, RootCaFile)]
  }

  /** What belongs into a TLS file. */
  function TlsContent(i: Input, key: Option<string>, p: Path): Option<string>
    requires i.data.Some?
  {
    match p
    case ClientCaFile => i.data.value.payload.caCert
    case RootCaFile => i.data.value.payload.caCert
    case CertFile => i.data.value.payload.serverCert
    case KeyFile => key
    case S3CaFile => i.data.value.payload.s3TlsCaChain
    case _ => None
  }

  /** The TLS files that should exist: those with content. */
  function TlsTarget(i: Input, key: Option<string>): Files
    requires i.data.Some?
  {
    map p | p in TLS_FILES && NonEmpty(TlsContent(i, key, p)) :: TlsContent(i, key, p).value
  }

  function SyncedTls(files: Files, i: Input, key: Option<string>): Files
    requires i.data.Some?
  {
    (files - TLS_FILES) + TlsTarget(i, key)
  }

  /** The parsed configuration on disk; an absent file reads as Null. */
  function RunningConfig(files: Files, codec: Codec): Result<Yaml, Failure> {
    if ConfigFile !in files then Ok(Null)
    else
      match codec.load(files[ConfigFile])
      case None => Err(InvalidYaml)
      case Some(y) => Ok(y)
  }

  // ----- the pebble layer

  function ProxyVariable(value: Option<string>, lower: string, upper: string): map<string, string> {
    if NonEmpty(value) then map[upper := value.value, lower := value.value] else map[]
  }

  function ProxyVariables(p: ProxyEnv): map<string, string> {
    ProxyVariable(p.https, "https_proxy", "HTTPS_PROXY")
    + ProxyVariable(p.http, "http_proxy", "HTTP_PROXY")
    + ProxyVariable(p.no, "no_proxy", "NO_PROXY")
  }

  const READINESS_CHECK := "ready"

  /** The charm's layer with the readiness check and the proxy variables added. */
  function EffectiveLayer(i: Input): Layer
    requires i.layer.Some?
  {
    var layer := i.layer.value;
    Layer(
      map name | name in layer.services ::
        layer.services[name].(environment := layer.services[name].environment + ProxyVariables(i.proxy)),
      if i.readinessCheck.Some? then layer.checks[READINESS_CHECK := i.readinessCheck.value] else layer.checks)
  }

  // ----- specification

  /** Something has to be updated: a TLS file, the parsed configuration, or the plan. */
  predicate NeedsUpdate(w: Workload, i: Input, codec: Codec)
    requires i.data.Some? && PrivateKey(i).Ok?
  {
    || SyncedTls(w.files, i, PrivateKey(i).value) != w.files
    || RunningConfig(w.files, codec) != WorkerConfig(i, codec)
    || (i.layer.Some? && EffectiveLayer(i) != w.plan)
  }

  function AfterTls(w: Workload, i: Input, key: Option<string>): Workload
    requires i.data.Some?
  {
    var ca := i.data.value.payload.caCert;
    w.(files := SyncedTls(w.files, i, key), charmCa := if NonEmpty(ca) then ca else None)
  }

  function AfterConfig(w: Workload, config: Yaml, codec: Codec): Workload {
    if RunningConfig(w.files, codec) == Ok(config) then w
    else w.(files := w.files[ConfigFile := codec.dump(config)])
  }

  function AfterLayer(w: Workload, i: Input): Workload {
    if i.layer.Some? && EffectiveLayer(i) != w.plan then w.(plan := Combine(w.plan, EffectiveLayer(i))) else w
  }

  /** The three updates; each happens whatever the others find. */
  function Update(w: Workload, i: Input, o: Outcomes, codec: Codec): (Workload, Result<bool, Failure>)
    requires i.data.Some? && WorkerConfig(i, codec).Ok?
  {
    var key := PrivateKey(i);
    if key.Err? then (w, Err(key.error))
    else
      var w1 := AfterTls(w, i, key.value);
      if w1.files != w.files && !o.execOk then (w1, Err(CommandFailed))
      else if RunningConfig(w1.files, codec).Err? then (w1, Err(InvalidYaml))
      else
        (AfterLayer(AfterConfig(w1, WorkerConfig(i, codec).value, codec), i), Ok(NeedsUpdate(w, i, codec)))
  }

  function Restart(w: Workload, i: Input, o: Outcomes): (Workload, Status) {
    if ConfigFile !in w.files || |i.roles| == 0 || i.layer.None? then (w, Completed)
    else if i.layer.value.services == map[] then (w, Aborted(NoServices))
    else
      var asked := w.(restarts := w.restarts + 1);
      match o.restart
      case Restarted => (asked.(running := asked.running + i.layer.value.services.Keys), Completed)
      case ConnectionLost => (asked, Completed)
      case ChangeFailed => (asked, Aborted(RestartFailed))
  }

  function Wipe(files: Files): Files {
    files - TLS_FILES - {ConfigFile}
  }

  function Stop(w: Workload, o: Outcomes): (Workload, Status) {
    if w.plan.services == map[] then (w, Completed)
    else if !o.stopOk then (w, Aborted(StopFailed))
    else (w.(running := w.running - w.plan.services.Keys), Completed)
  }

  function Reconcile(w: Workload, i: Input, o: Outcomes, codec: Codec): (Workload, Status) {
    var ready := IsReady(i, codec);
    if ready.Err? then (w, Aborted(ready.error))
    else if ready.value then
      var (w', changed) := Update(w, i, o, codec);
      if changed.Err? then (w', Aborted(changed.error))
      else if changed.value then Restart(w', i, o)
      else (w', Completed)
    else if i.canConnect then Stop(w.(files := Wipe(w.files)), o)
    else (w, Completed)
  }

  // ----- the object

  class Worker {
    const codec: Codec
    var files: Files
    var charmCa: Option<string>
    var plan: Layer
    var running: set<string>
    var restarts: nat

    function View(): Workload
      reads this
    {
      Workload(files, charmCa, plan, running, restarts)
    }

    constructor (codec: Codec, w: Workload)
      ensures this.codec == codec && View() == w
    {
      this.codec := codec;
      files, charmCa, plan, running, restarts := w.files, w.charmCa, w.plan, w.running, w.restarts;
    }

    /** `_sync_tls_files`: the flag is set exactly when one of the five files differs before and after. */
    method SyncTlsFiles(i: Input) returns (r: Result<bool, Failure>)
      requires i.data.Some?
      modifies this`files, this`charmCa
      ensures r.Err? <==> PrivateKey(i).Err?
      ensures r.Err? ==> r.error == PrivateKey(i).error && View() == old(View())
      ensures r.Ok? ==> View() == AfterTls(old(View()), i, PrivateKey(i).value)
      ensures r.Ok? ==> (r.value <==> files != old(files))
      ensures r.Err? <==> HasText(i.data.value.payload.privkeySecretId) && i.secret == NotFound
      ensures r.Ok? ==>
        && Holds(files, ClientCaFile, i.data.value.payload.caCert)
        && Holds(files, RootCaFile, i.data.value.payload.caCert)
        && Holds(files, CertFile, i.data.value.payload.serverCert)
        && Holds(files, S3CaFile, i.data.value.payload.s3TlsCaChain)
      ensures r.Ok? && HasText(i.data.value.payload.privkeySecretId) ==>
        i.secret.Content? && Holds(files, KeyFile, i.secret.privateKey)
      ensures r.Ok? && !HasText(i.data.value.payload.privkeySecretId) ==> KeyFile !in files
      ensures r.Ok? ==> charmCa == if HasText(i.data.value.payload.caCert) then i.data.value.payload.caCert else None
      ensures r.Ok? ==> forall p :: p !in {ClientCaFile, RootCaFile, CertFile, S3CaFile, KeyFile} ==>
        (p in files <==> p in old(files)) && (p in files ==> files[p] == old(files)[p])
    {
      TlsDirectly(files, i);
      hide PrivateKey, TlsEntries, SyncAll, SyncedTls, WriteOne, Holds, HasText;
      var key := PrivateKey(i);
      if key.Err? {
        return Err(key.error);
      }
      var entries := TlsEntries(i, key.value);
      var anyChanges := false;
      ghost var before := files;
      SyncAllTls(before, i, key.value);
      for n := 0 to |entries|
        invariant files == SyncAll(before, entries[..n])
        invariant anyChanges <==> files != before
      {
        var (contents, file) := entries[n];
        SyncAllStep(before, entries, n);
        if !NonEmpty(contents) {
          if file in files {
            anyChanges := true;
            files := files - {file};
          }
        } else if !(file in files && files[file] == contents.value) {
          anyChanges := true;
          files := files[file := contents.value];
        }
      }
      assert entries[..|entries|] == entries;
      var ca := i.data.value.payload.caCert;
      charmCa := if NonEmpty(ca) then ca else None;
      HasTextIsNonEmpty(ca);
      return Ok(anyChanges);
    }

    /** `_update_worker_config`. */
    method UpdateWorkerConfig(config: Yaml) returns (r: Result<bool, Failure>)
      modifies this`files
      ensures r.Err? <==> RunningConfig(old(files), codec).Err?
      ensures r.Err? ==> r.error == InvalidYaml && files == old(files)
      ensures r.Ok? ==> View() == AfterConfig(old(View()), config, codec)
      ensures r.Ok? ==> (r.value <==> RunningConfig(old(files), codec) != Ok(config))
    {
      var current := RunningConfig(files, codec);
      if current.Err? {
        return Err(InvalidYaml);
      }
      if current.value != config {
        files := files[ConfigFile := codec.dump(config)];
        return Ok(true);
      }
      return Ok(false);
    }

    /** `_set_pebble_layer`. */
    method SetPebbleLayer(i: Input) returns (changed: bool)
      modifies this`plan
      ensures View() == AfterLayer(old(View()), i)
      ensures changed <==> i.layer.Some? && EffectiveLayer(i) != old(plan)
      ensures !changed ==> plan == old(plan)
      ensures changed ==>
        && plan.services.Keys == old(plan.services.Keys) + i.layer.value.services.Keys
        && plan.checks.Keys == old(plan.checks.Keys) + EffectiveLayer(i).checks.Keys
        && (forall name :: name in plan.services ==>
              plan.services[name] == if name in i.layer.value.services then EffectiveLayer(i).services[name]
                                     else old(plan.services)[name])
        && (forall name :: name in plan.checks ==>
              plan.checks[name] == if name in EffectiveLayer(i).checks then EffectiveLayer(i).checks[name]
                                   else old(plan.checks)[name])
    {
      if i.layer.None? {
        return false;
      }
      var layer := EffectiveLayer(i);
      if layer.services != plan.services || layer.checks != plan.checks {
        plan := Combine(plan, layer);
        return true;
      }
      return false;
    }

    /** `_update_config`: all three updates are carried out before their flags are combined. */
    method UpdateConfig(i: Input, o: Outcomes) returns (r: Result<bool, Failure>)
      requires i.data.Some? && WorkerConfig(i, codec).Ok?
      modifies this`files, this`charmCa, this`plan
      ensures (View(), r) == Update(old(View()), i, o, codec)
    {
      ghost var w0 := View();
      var tls := SyncTlsFiles(i);
      if tls.Err? {
        return Err(tls.error);
      }
      if tls.value && !o.execOk {
        return Err(CommandFailed);
      }
      TlsKeepsConfig(w0.files, i, PrivateKey(i).value);
      var config := UpdateWorkerConfig(WorkerConfig(i, codec).value);
      if config.Err? {
        return Err(config.error);
      }
      var layer := SetPebbleLayer(i);
      return Ok(tls.value || config.value || layer);
    }

    /** `restart`: does nothing unless there is a configuration, a role and a layer. */
    method RestartServices(i: Input, o: Outcomes) returns (status: Status)
      modifies this`running, this`restarts
      ensures (View(), status) == Restart(old(View()), i, o)
      ensures restarts == old(restarts) + (if ConfigFile in files && |i.roles| > 0 && i.layer.Some?
                                             && i.layer.value.services.Keys != {} then 1 else 0)
      ensures restarts > old(restarts) ==> (status == Completed <==> o.restart != ChangeFailed)
      ensures running == if restarts > old(restarts) && o.restart == Restarted
                         then old(running) + i.layer.value.services.Keys else old(running)
    {
      if ConfigFile !in files || |i.roles| == 0 || i.layer.None? {
        return Completed;
      }
      if i.layer.value.services == map[] {
        return Aborted(NoServices);
      }
      restarts := restarts + 1;
      match o.restart
      case Restarted =>
        running := running + i.layer.value.services.Keys;
        return Completed;
      case ConnectionLost =>
        return Completed;
      case ChangeFailed =>
        return Aborted(RestartFailed);
    }

    /** `_wipe_configs`. */
    method WipeConfigs()
      modifies this`files
      ensures files == Wipe(old(files))
    {
      var configFiles := [KeyFile, ClientCaFile, CertFile, S3CaFile, RootCaFile, ConfigFile];
      ghost var before := files;
      for n := 0 to |configFiles|
        invariant files == before - Elems(configFiles[..n])
      {
        assert configFiles[..n + 1] == configFiles[..n] + [configFiles[n]];
        assert Elems(configFiles[..n + 1]) == Elems(configFiles[..n]) + {configFiles[n]};
        files := files - {configFiles[n]};
      }
      assert configFiles[..|configFiles|] == configFiles;
      assert Elems(configFiles) == TLS_FILES + {ConfigFile};
    }

    /** `stop`. */
    method StopServices(o: Outcomes) returns (status: Status)
      modifies this`running
      ensures (View(), status) == Stop(old(View()), o)
      ensures status == Completed <==> plan.services.Keys == {} || o.stopOk
      ensures forall name :: name in running <==> name in old(running) && !(status == Completed && name in plan.services)
    {
      if plan.services == map[] {
        return Completed;
      }
      if !o.stopOk {
        return Aborted(StopFailed);
      }
      running := running - plan.services.Keys;
      return Completed;
    }

    /** `_reconcile`, the part that concerns the container. */
    method ReconcileContainer(i: Input, o: Outcomes) returns (status: Status)
      modifies this
      ensures (View(), status) == Reconcile(old(View()), i, o, codec)
    {
      var ready := IsReady(i, codec);
      if ready.Err? {
        return Aborted(ready.error);
      }
      if ready.value {
        var changed := UpdateConfig(i, o);
        if changed.Err? {
          return Aborted(changed.error);
        }
        if changed.value {
          status := RestartServices(i, o);
          return;
        }
      } else if i.canConnect {
        WipeConfigs();
        status := StopServices(o);
        return;
      }
      return Completed;
    }
  }

  // ----- TLS files, directly

  /** There is a value, and it is not the empty string. */
  predicate HasText(content: Option<string>) {
    content.Some? && |content.value| > 0
  }

  /** The file has the given content, and is absent if there is none. */
  predicate Holds(files: Files, p: Path, content: Option<string>) {
    (p in files <==> HasText(content)) && (p in files ==> files[p] == content.value)
  }

  lemma HasTextIsNonEmpty(content: Option<string>)
    ensures HasText(content) == NonEmpty(content)
  {
  }

  /** What the target state of the five files is, one by one. */
  lemma TlsDirectly(files: Files, i: Input)
    requires i.data.Some?
    ensures PrivateKey(i).Err? <==> HasText(i.data.value.payload.privkeySecretId) && i.secret == NotFound
    ensures PrivateKey(i).Ok? ==>
      var after := SyncedTls(files, i, PrivateKey(i).value);
      && Holds(after, ClientCaFile, i.data.value.payload.caCert)
      && Holds(after, RootCaFile, i.data.value.payload.caCert)
      && Holds(after, CertFile, i.data.value.payload.serverCert)
      && Holds(after, S3CaFile, i.data.value.payload.s3TlsCaChain)
      && (HasText(i.data.value.payload.privkeySecretId) ==> i.secret.Content? && Holds(after, KeyFile, i.secret.privateKey))
      && (!HasText(i.data.value.payload.privkeySecretId) ==> KeyFile !in after)
      && forall p :: p !in {ClientCaFile, RootCaFile, CertFile, S3CaFile, KeyFile} ==>
           (p in after <==> p in files) && (p in after ==> after[p] == files[p])
  {
  }

  // ----- files before and after

  predicate Differs(before: Files, after: Files, p: Path) {
    (p in before) != (p in after) || (p in before && before[p] != after[p])
  }

  predicate Written(files: Files, contents: Option<string>, p: Path) {
    if NonEmpty(contents) then p in files && files[p] == contents.value else p !in files
  }

  /** One file brought in line with its contents. */
  function WriteOne(files: Files, contents: Option<string>, p: Path): Files {
    if NonEmpty(contents) then files[p := contents.value] else files - {p}
  }

  ghost function SyncAll(files: Files, entries: seq<(Option<string>, Path)>): Files {
    if |entries| == 0 then files
    else
      var n := |entries| - 1;
      WriteOne(SyncAll(files, entries[..n]), entries[n].0, entries[n].1)
  }

  ghost predicate DistinctPaths(entries: seq<(Option<string>, Path)>) {
    forall j, k :: 0 <= j < k < |entries| ==> entries[j].1 != entries[k].1
  }

  lemma Untouched(files: Files, entries: seq<(Option<string>, Path)>, p: Path)
    requires forall k :: 0 <= k < |entries| ==> entries[k].1 != p
    ensures !Differs(files, SyncAll(files, entries), p)
  {
    if |entries| == 0 {
    } else {
      Untouched(files, entries[..|entries| - 1], p);
    }
  }

  /** A file is written once, so a change is never undone by a later one. */
  lemma SyncAllStep(before: Files, entries: seq<(Option<string>, Path)>, n: nat)
    requires n < |entries| && DistinctPaths(entries)
    ensures var prior := SyncAll(before, entries[..n]);
            var after := SyncAll(before, entries[..n + 1]);
            && SyncAll(before, []) == before
            && after == WriteOne(prior, entries[n].0, entries[n].1)
            && (after != before <==> prior != before || after != prior)
            && (after == prior <==> Written(prior, entries[n].0, entries[n].1))
            && (NonEmpty(entries[n].0) ==> after == prior[entries[n].1 := entries[n].0.value])
            && (!NonEmpty(entries[n].0) ==> after == prior - {entries[n].1})
  {
    var prior := SyncAll(before, entries[..n]);
    var p := entries[n].1;
    assert entries[..n + 1][..n] == entries[..n];
    var after := SyncAll(before, entries[..n + 1]);
    assert after == WriteOne(prior, entries[n].0, p);
    Untouched(before, entries[..n], p);
    SameFiles(prior, after);
    if after != prior {
      assert Differs(prior, after, p);
      assert Differs(before, after, p);
    }
  }

  lemma LastWriteStands(files: Files, entries: seq<(Option<string>, Path)>, k: nat)
    requires k < |entries| && DistinctPaths(entries)
    ensures Written(SyncAll(files, entries), entries[k].0, entries[k].1)
  {
    var n := |entries| - 1;
    if k < n {
      LastWriteStands(files, entries[..n], k);
    }
  }

  /** The five writes together. */
  lemma SyncAllTls(files: Files, i: Input, key: Option<string>)
    requires i.data.Some?
    ensures SyncAll(files, []) == files
    ensures DistinctPaths(TlsEntries(i, key))
    ensures SyncAll(files, TlsEntries(i, key)) == SyncedTls(files, i, key)
  {
    var entries := TlsEntries(i, key);
    var synced, all := SyncedTls(files, i, key), SyncAll(files, entries);
    forall p ensures !Differs(all, synced, p) {
      hide SyncAll;
      if p in TLS_FILES {
        var k := match p
          case ClientCaFile => 0
          case CertFile => 1
          case KeyFile => 2
          case S3CaFile => 3
          case _ => 4;
        assert entries[k] == (TlsContent(i, key, p), p);
        LastWriteStands(files, entries, k);
      } else {
        Untouched(files, entries, p);
      }
    }
    SameFiles(all, synced);
  }

  lemma SameFiles(a: Files, b: Files)
    ensures (forall p :: !Differs(a, b, p)) <==> a == b
  {
    if forall p :: !Differs(a, b, p) {
      forall p ensures p in a <==> p in b {
        assert !Differs(a, b, p);
      }
      forall p | p in a ensures a[p] == b[p] {
        assert !Differs(a, b, p);
      }
    }
  }

  lemma TlsKeepsConfig(files: Files, i: Input, key: Option<string>)
    requires i.data.Some?
    ensures !Differs(files, SyncedTls(files, i, key), ConfigFile)
  {
  }
}
