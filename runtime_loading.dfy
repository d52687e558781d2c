/**
  The lazy, once-only choice of the runtime-context backend. The global slot
  starts empty; every decorated API call first checks it and, while it is
  still empty, reads the configured backend name from the environment, looks
  it up among the installed entry points and constructs it. A failed lookup
  or construction leaves the slot empty; a filled slot is never reloaded.
  The process environment and the entry-point registry are inputs here.
 */
module RuntimeLoading {
  import opened Wrappers

  /** The environment variable naming the backend. */
  const ContextEnvVar: string := "OTEL_PYTHON_CONTEXT"

  /** The backend used when the variable is unset. */
  const DefaultContext: string := "contextvars_context"

  /** The entry-point group searched for backends. */
  const EntryPointGroup: string := "opentelemetry_context"

  /** A constructed runtime-context backend, known by the entry-point name it came from. */
  datatype Backend = Backend(name: string)

  /** An installed entry point: loading and calling it yields a backend or raises. */
  datatype EntryPoint = Constructs(backend: Backend) | Raises

  /**
    What a load reads from the outside world: the process environment and the
    entry points registered in `EntryPointGroup`, by name.
   */
  datatype Environment = Environment(vars: map<string, string>, entryPoints: map<string, EntryPoint>)

  /** `environ.get(OTEL_PYTHON_CONTEXT, "contextvars_context")`. */
  function ConfiguredName(env: Environment): string
  {
    if ContextEnvVar in env.vars then env.vars[ContextEnvVar] else DefaultContext
  }

  /**
    One load attempt: the backend constructed from the entry point registered
    under the configured name, or `None` when there is no such entry point
    (`next` raises) or constructing it raises.
   */
  function Load(env: Environment): (r: Option<Backend>)
    ensures r.Some? ==>
      ConfiguredName(env) in env.entryPoints && env.entryPoints[ConfiguredName(env)] == Constructs(r.value)
    ensures ConfiguredName(env) in env.entryPoints && env.entryPoints[ConfiguredName(env)].Constructs? ==>
      r == Some(env.entryPoints[ConfiguredName(env)].backend)
    ensures ConfiguredName(env) !in env.entryPoints ==> r.None?
    ensures ConfiguredName(env) in env.entryPoints && env.entryPoints[ConfiguredName(env)].Raises? ==> r.None?
  {
    var name := ConfiguredName(env);
    if name in env.entryPoints && env.entryPoints[name].Constructs? then
      Some(env.entryPoints[name].backend)
    else
      None
  }

  /** The slot after the check at the top of one decorated call. */
  function LoadStep(slot: Option<Backend>, env: Environment): (r: Option<Backend>)
    ensures slot.Some? ==> r == slot
    ensures r.None? <==> slot.None? && Load(env).None?
  {
    if slot.None? then Load(env) else slot
  }

  /** The slot after a sequence of decorated calls, each seeing its own environment. */
  function Settle(slot: Option<Backend>, envs: seq<Environment>): Option<Backend>
    decreases |envs|
  {
    if envs == [] then slot else Settle(LoadStep(slot, envs[0]), envs[1..])
  }

  /** The backend of the first load in `envs` that succeeds, if any succeeds. */
  function FirstLoad(envs: seq<Environment>): Option<Backend>
    decreases |envs|
  {
    if envs == [] then None
    else if Load(envs[0]).Some? then Load(envs[0])
    else FirstLoad(envs[1..])
  }

  /**
    Loaded at most once: over any sequence of calls a filled slot keeps its
    backend, and an empty slot ends up holding the backend of the first
    successful load, so later loads never replace it.
   */
  lemma {:induction false} SettleLoadsAtMostOnce(slot: Option<Backend>, envs: seq<Environment>)
    ensures Settle(slot, envs) == if slot.Some? then slot else FirstLoad(envs)
    decreases |envs|
  {
    if envs != [] {
      SettleLoadsAtMostOnce(LoadStep(slot, envs[0]), envs[1..]);
    }
  }

  /** Once filled, the slot is never emptied again, whatever later calls see. */
  lemma {:induction false} SettleNeverEmpties(slot: Option<Backend>, envs: seq<Environment>)
    requires slot.Some?
    ensures Settle(slot, envs) == slot
  {
    SettleLoadsAtMostOnce(slot, envs);
  }

  /** The slot stays empty exactly when every load attempt failed. */
  lemma {:induction false} SettleEmptyIffAllLoadsFail(envs: seq<Environment>)
    ensures Settle(None, envs).None? <==> forall i :: 0 <= i < |envs| ==> Load(envs[i]).None?
  {
    SettleLoadsAtMostOnce(None, envs);
    FirstLoadNoneIffAllFail(envs);
  }

  /** `FirstLoad` finds nothing exactly when every attempt fails. */
  lemma {:induction false} FirstLoadNoneIffAllFail(envs: seq<Environment>)
    ensures FirstLoad(envs).None? <==> forall i :: 0 <= i < |envs| ==> Load(envs[i]).None?
    decreases |envs|
  {
    if envs != [] {
      FirstLoadNoneIffAllFail(envs[1..]);
      assert forall i :: 1 <= i < |envs| ==> envs[i] == envs[1..][i - 1];
    }
  }

  /**
    An empty slot is filled from the entry point the environment selects: the
    one named by `OTEL_PYTHON_CONTEXT` when the variable is set, the
    `contextvars_context` one when it is not.
   */
  lemma ConfiguredBackendLoaded(env: Environment)
    ensures ContextEnvVar in env.vars && env.vars[ContextEnvVar] in env.entryPoints
              && env.entryPoints[env.vars[ContextEnvVar]].Constructs? ==>
      LoadStep(None, env) == Some(env.entryPoints[env.vars[ContextEnvVar]].backend)
    ensures ContextEnvVar !in env.vars && DefaultContext in env.entryPoints
              && env.entryPoints[DefaultContext].Constructs? ==>
      LoadStep(None, env) == Some(env.entryPoints[DefaultContext].backend)
  {
  }
}
