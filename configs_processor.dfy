/**
 * The deployment configuration script (Kubernetes/configs_processor.py):
 * it sets the worker count as the workers' `replicas` and rewrites the
 * `N_WORKERS`, `RUNNING_MODE` and `DATA_PATH` entries of the container env
 * list of both the workers' and the coordinator's manifest.
 */
module ConfigsProcessor {
  import opened Base
  import opened Documents

  /** `workers['spec']['replicas']`. */
  const ReplicasPath: seq<Key> := [Name("spec"), Name("replicas")]

  /** `...['spec']['template']['spec']['containers'][0]['env']`. */
  const EnvPath: seq<Key> :=
    [Name("spec"), Name("template"), Name("spec"), Name("containers"), Pos(0), Name("env")]

  /** Line 31: the mode string derived from the `--asynchronous` flag. */
  function RunningMode(asynchronous: bool): (mode: string)
    ensures mode == "asynchronous" <==> asynchronous
    ensures mode == "synchronous" <==> !asynchronous
  {
    if asynchronous then "asynchronous" else "synchronous"
  }

  /** `for x in env`: the elements visited; a non-empty dict or string fails at `x['name']`. */
  function Elements(v: Value): (r: Result<seq<Value>, PyError>)
    ensures r.Ok? <==> v.List? || v == Dict(map[]) || v == Str("")
    ensures r.Err? ==> r.error == TypeError
    ensures r.Ok? && v.List? ==> r.value == v.items
    ensures r.Ok? && !v.List? ==> r.value == []
  {
    match v
    case List(xs) => Ok(xs)
    case Dict(m) => if m == map[] then Ok([]) else Err(TypeError)
    case Str(s) => if s == "" then Ok([]) else Err(TypeError)
    case _ => Err(TypeError)
  }

  /** `x['name']` succeeds. */
  predicate Named(x: Value) {
    Subscript(x, Name("name")).Ok?
  }

  function NameOf(x: Value): Value
    requires Named(x)
  {
    Subscript(x, Name("name")).value
  }

  /** `{'name': name, 'value': value}`. */
  function Entry(name: Value, value: Value): (e: Value)
    ensures Named(e) && NameOf(e) == name
  {
    Dict(map[Name("name") := name, Name("value") := value])
  }

  /**
   * One comprehension of lines 35-37:
   * `[{'name': x['name'], 'value': v} if x['name'] == name else x for x in env]`.
   * The first entry without a readable `'name'` raises.
   */
  function ReplaceNamed(env: seq<Value>, name: string, v: Value): (r: Result<seq<Value>, PyError>)
    ensures r.Ok? <==> forall i :: 0 <= i < |env| ==> Named(env[i])
    ensures r.Ok? ==> |r.value| == |env|
    ensures r.Ok? ==> forall i :: 0 <= i < |env| ==>
              r.value[i] == if NameOf(env[i]) == Str(name) then Entry(Str(name), v) else env[i]
  {
    if env == [] then Ok([])
    else
      match Subscript(env[0], Name("name"))
      case Err(e) => Err(e)
      case Ok(n) =>
        var head := if n == Str(name) then Entry(n, v) else env[0];
        match ReplaceNamed(env[1..], name, v)
        case Err(e) =>
          assert forall j :: 1 <= j < |env| ==> env[1..][j - 1] == env[j];
          Err(e)
        case Ok(rest) =>
          assert forall j :: 1 <= j < |env| ==> env[1..][j - 1] == env[j];
          Ok([head] + rest)
  }

  /** A failing comprehension raises the error of the first entry without a readable name. */
  lemma {:induction false} ReplaceNamedFirstError(env: seq<Value>, name: string, v: Value, k: nat)
    requires k < |env| && !Named(env[k]) && forall j :: 0 <= j < k ==> Named(env[j])
    ensures ReplaceNamed(env, name, v) == Err(Subscript(env[k], Name("name")).error)
  {
    if k > 0 {
      ReplaceNamedFirstError(env[1..], name, v, k - 1);
    }
  }

  /** The names whose entries the script rewrites. */
  predicate Managed(n: Value) {
    n == Str("N_WORKERS") || n == Str("RUNNING_MODE") || n == Str("DATA_PATH")
  }

  /** Reference definition: what a single env entry becomes. */
  function Rewritten(x: Value, nWorkers: int, mode: string, dataPath: string): Value
    requires Named(x)
  {
    var n := NameOf(x);
    if n == Str("N_WORKERS") then Entry(n, Int(nWorkers))
    else if n == Str("RUNNING_MODE") then Entry(n, Str(mode))
    else if n == Str("DATA_PATH") then Entry(n, Str(dataPath))
    else x
  }

  /**
   * Lines 35-37 (and 41-43): the three comprehensions in order. The rewrite
   * fails exactly when some entry has no readable name; otherwise it keeps
   * length and order, turns each managed entry into exactly `{name, value}`
   * and leaves every other entry as it was.
   */
  function RewriteEnv(env: seq<Value>, nWorkers: int, mode: string, dataPath: string): (r: Result<seq<Value>, PyError>)
    ensures r.Ok? <==> forall i :: 0 <= i < |env| ==> Named(env[i])
    ensures r.Ok? ==> |r.value| == |env|
    ensures r.Ok? ==> forall i :: 0 <= i < |env| ==> r.value[i] == Rewritten(env[i], nWorkers, mode, dataPath)
    ensures r.Ok? ==> forall i :: 0 <= i < |env| && !Managed(NameOf(env[i])) ==> r.value[i] == env[i]
    ensures r.Ok? ==> forall i :: 0 <= i < |env| && Managed(NameOf(env[i])) ==>
                        r.value[i].Dict? && r.value[i].entries.Keys == {Name("name"), Name("value")}
  {
    match ReplaceNamed(env, "N_WORKERS", Int(nWorkers))
    case Err(e) => Err(e)
    case Ok(env1) =>
      match ReplaceNamed(env1, "RUNNING_MODE", Str(mode))
      case Err(e) => Err(e)
      case Ok(env2) => ReplaceNamed(env2, "DATA_PATH", Str(dataPath))
  }

  /** Rewriting an already rewritten env list changes nothing. */
  lemma RewriteIdempotent(env: seq<Value>, nWorkers: int, mode: string, dataPath: string)
    requires RewriteEnv(env, nWorkers, mode, dataPath).Ok?
    ensures var once := RewriteEnv(env, nWorkers, mode, dataPath).value;
            RewriteEnv(once, nWorkers, mode, dataPath) == Ok(once)
  {
    var once := RewriteEnv(env, nWorkers, mode, dataPath).value;
    assert forall i :: 0 <= i < |once| ==> Named(once[i]);
    var twice := RewriteEnv(once, nWorkers, mode, dataPath).value;
    forall i | 0 <= i < |once| ensures twice[i] == once[i] {
      assert once[i] == Rewritten(env[i], nWorkers, mode, dataPath);
      assert NameOf(once[i]) == NameOf(env[i]);
    }
    assert twice == once;
  }

  /**
   * Two env lists rewritten with the same arguments (the workers' and the
   * coordinator's) end with identical entries for each managed name.
   */
  lemma RewriteAgreesAcrossManifests(env1: seq<Value>, env2: seq<Value>, nWorkers: int, mode: string, dataPath: string)
    requires RewriteEnv(env1, nWorkers, mode, dataPath).Ok? && RewriteEnv(env2, nWorkers, mode, dataPath).Ok?
    ensures var r1 := RewriteEnv(env1, nWorkers, mode, dataPath).value;
            var r2 := RewriteEnv(env2, nWorkers, mode, dataPath).value;
            forall i, j :: (0 <= i < |r1| && 0 <= j < |r2| && Named(r1[i]) && Named(r2[j])
                            && Managed(NameOf(r1[i])) && NameOf(r1[i]) == NameOf(r2[j]))
                           ==> r1[i] == r2[j]
  {
  }

  /** The env list of a manifest after the rewrite (lines 34-37, 40-43). */
  function RewrittenEnvOf(doc: Value, nWorkers: int, mode: string, dataPath: string): (r: Result<seq<Value>, PyError>)
    ensures r.Ok? ==> Lookup(doc, EnvPath).Ok? && Elements(Lookup(doc, EnvPath).value).Ok?
    ensures r.Ok? ==> var env := Elements(Lookup(doc, EnvPath).value).value;
                      |r.value| == |env|
                      && forall i :: 0 <= i < |env| ==> Named(env[i]) && r.value[i] == Rewritten(env[i], nWorkers, mode, dataPath)
    ensures Lookup(doc, EnvPath).Ok? && Lookup(doc, EnvPath).value.List? ==>
              var env := Lookup(doc, EnvPath).value.items;
              r.Ok? <==> forall i :: 0 <= i < |env| ==> Named(env[i])
  {
    match Lookup(doc, EnvPath)
    case Err(e) => Err(e)
    case Ok(env) =>
      match Elements(env)
      case Err(e) => Err(e)
      case Ok(xs) => RewriteEnv(xs, nWorkers, mode, dataPath)
  }

  lemma ManagedPathsDiverge()
    ensures Diverges(ReplicasPath, EnvPath)
  {
  }

  /**
   * Lines 38 and 44: storing a list back at the env path of a manifest whose
   * env list could be read succeeds, the list reads back, and every path that
   * parts from the env path is unchanged.
   */
  lemma EnvWriteBack(doc: Value, env: seq<Value>)
    requires Lookup(doc, EnvPath).Ok?
    ensures Assign(doc, EnvPath, List(env)).Ok?
    ensures Lookup(Assign(doc, EnvPath, List(env)).value, EnvPath) == Ok(List(env))
    ensures forall q :: Diverges(EnvPath, q) ==> Lookup(Assign(doc, EnvPath, List(env)).value, q) == Lookup(doc, q)
  {
    AssignWhereFound(doc, EnvPath, List(env));
    forall q | Diverges(EnvPath, q)
      ensures Lookup(Assign(doc, EnvPath, List(env)).value, q) == Lookup(doc, q)
    {
      AssignElsewhere(doc, EnvPath, q, List(env));
    }
  }

  /**
   * Lines 29-44 on the two loaded manifests. On success the workers' manifest
   * has `replicas == n_workers`, both env lists are rewritten, and every path
   * that parts from the written ones reads as before; the run fails exactly
   * when one of the subscripts or `x['name']` raises.
   */
  method ProcessConfigs(workers: Value, coordinator: Value, nWorkers: int, dataPath: string, asynchronous: bool)
    returns (r: Result<(Value, Value), PyError>)
    ensures var mode := RunningMode(asynchronous);
            r.Ok? <==> Assign(workers, ReplicasPath, Int(nWorkers)).Ok?
                       && RewrittenEnvOf(workers, nWorkers, mode, dataPath).Ok?
                       && RewrittenEnvOf(coordinator, nWorkers, mode, dataPath).Ok?
    ensures var mode := RunningMode(asynchronous);
            r.Ok? ==> && Lookup(r.value.0, ReplicasPath) == Ok(Int(nWorkers))
                      && Lookup(r.value.0, EnvPath) == Ok(List(RewrittenEnvOf(workers, nWorkers, mode, dataPath).value))
                      && Lookup(r.value.1, EnvPath) == Ok(List(RewrittenEnvOf(coordinator, nWorkers, mode, dataPath).value))
    ensures r.Ok? ==> forall q :: Diverges(ReplicasPath, q) && Diverges(EnvPath, q) ==>
                        Lookup(r.value.0, q) == Lookup(workers, q)
    ensures r.Ok? ==> forall q :: Diverges(EnvPath, q) ==> Lookup(r.value.1, q) == Lookup(coordinator, q)
  {
    var mode := RunningMode(asynchronous);

    // line 33
    var w := Assign(workers, ReplicasPath, Int(nWorkers));
    if w.Err? {
      return Err(w.error);
    }
    var workersDoc := w.value;
    ManagedPathsDiverge();
    AssignElsewhere(workers, ReplicasPath, EnvPath, Int(nWorkers));
    assert RewrittenEnvOf(workersDoc, nWorkers, mode, dataPath) == RewrittenEnvOf(workers, nWorkers, mode, dataPath);

    // lines 34-38
    var workersEnv := RewrittenEnvOf(workersDoc, nWorkers, mode, dataPath);
    if workersEnv.Err? {
      return Err(workersEnv.error);
    }
    EnvWriteBack(workersDoc, workersEnv.value);
    var w2 := Assign(workersDoc, EnvPath, List(workersEnv.value));
    assert Diverges(EnvPath, ReplicasPath);

    // lines 40-44
    var coordinatorEnv := RewrittenEnvOf(coordinator, nWorkers, mode, dataPath);
    if coordinatorEnv.Err? {
      return Err(coordinatorEnv.error);
    }
    EnvWriteBack(coordinator, coordinatorEnv.value);
    var c2 := Assign(coordinator, EnvPath, List(coordinatorEnv.value));

    forall q | Diverges(ReplicasPath, q) && Diverges(EnvPath, q)
      ensures Lookup(w2.value, q) == Lookup(workers, q)
    {
      AssignElsewhere(workers, ReplicasPath, q, Int(nWorkers));
    }
    r := Ok((w2.value, c2.value));
  }
}
