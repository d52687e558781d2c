# OpenTelemetry context API, modelled in Dafny

This project models the core of `opentelemetry.context`: the functions that
read and extend an immutable `Context` (`get_value`, `set_value`), the key
factory `create_key`, and the lazily filled, once-only global slot
`_RUNTIME_CONTEXT` behind `get_current`, `attach` and `detach`.

- `wrappers.dfy` — `Option`, standing for Python's `None`-or-value.
- `context_values.dfy` (module `ContextValues`) — `Context` as a value over
  `map<string, V>`, `context.get` as `Get`, and `set_value` on an explicit
  context as a functional map update (copy, write one entry, wrap). `Get`
  stands for the `Context` class's `dict.get` (`__init__.py:96`): the value
  under a key, or `None` when the key is absent.
- `keys.dfy` (module `Keys`) — `create_key` with the UUID text passed in as
  `suffix`; labels and suffixes can be read back from a key, so keys are
  injective in (label, suffix).
- `runtime_loading.dfy` (module `RuntimeLoading`) — the decorator's check as
  pure functions: the configured backend name, one load attempt against the
  registered entry points, the slot after one call (`LoadStep`) and after any
  sequence of calls (`Settle`), with the "loaded at most once" lemmas.
- `context_api.dfy` (module `ContextApi`) — class `ContextRuntime` holding the
  slot as `runtime: Option<Backend>`; `EnsureLoaded` is the decorator's check,
  and `GetCurrent`, `Attach`, `Detach`, `GetValue`, `SetValue` are the public
  functions. The backend is an outside collaborator: what it answers is a
  `reply` parameter, and a ghost log `forwarded` records each call it receives.

Facts about the code that shape the model:

- The lock is taken on every decorated call, before the slot is checked (`__init__.py:48`).
- When no backend could be loaded, `get_current` and `attach` raise, because
  the slot is still `None`. The model returns `Err(NoRuntime)` from them, and
  `get_value`/`set_value` without a context pass that error on. `detach`
  catches that error like any other, so it returns normally.
- `get_value` and `set_value` are not decorated. Given an explicit context,
  they never load a backend and never consult one.

## Model

| member | source | states |
|---|---|---|
| ContextValues.SetValue | opentelemetry-api/src/opentelemetry/context/__init__.py:117-119 | reading `key` from the result gives `value`; every other key reads exactly as in the base; the key set is the base's plus `key` |
| ContextValues.SetValueOverwrites | opentelemetry-api/src/opentelemetry/context/__init__.py:117-119 | setting the same key twice is the same as setting only the second value |
| ContextValues.SetValueOfPresentValue | opentelemetry-api/src/opentelemetry/context/__init__.py:117-119 | re-setting a key to its present value gives an equal context |
| ContextValues.SetValueCommutes | opentelemetry-api/src/opentelemetry/context/__init__.py:117-119 | writes to two different keys commute |
| Keys.CreateKey | opentelemetry-api/src/opentelemetry/context/__init__.py:81 | the key starts with the label, then `-`, then the suffix, and is strictly longer than the label |
| Keys.KeyRoundTrip | opentelemetry-api/src/opentelemetry/context/__init__.py:81 | with a 36-character UUID suffix, label and suffix can both be read back from the key |
| Keys.CreateKeyInjective | opentelemetry-api/src/opentelemetry/context/__init__.py:81 | with UUID suffixes, equal keys have equal labels and equal suffixes; distinct UUIDs never give the same key |
| Keys.SameLabelDistinctKeys | opentelemetry-api/src/opentelemetry/context/__init__.py:81 | two keys from one label with different suffixes differ |
| RuntimeLoading.Load | opentelemetry-api/src/opentelemetry/context/__init__.py:57-66 | the load yields exactly the backend built by the entry point registered under the configured name when that entry point constructs one; a missing or raising entry point means failure |
| RuntimeLoading.LoadStep | opentelemetry-api/src/opentelemetry/context/__init__.py:48-66 | a filled slot is kept as it is; the slot stays empty exactly when it was empty and the load failed |
| RuntimeLoading.SettleLoadsAtMostOnce | opentelemetry-api/src/opentelemetry/context/__init__.py:48-66 | over any sequence of calls a filled slot is never replaced, and an empty slot ends holding the first successful load's backend |
| RuntimeLoading.SettleNeverEmpties | opentelemetry-api/src/opentelemetry/context/__init__.py:49 | once filled, the slot is the same after any later calls |
| RuntimeLoading.SettleEmptyIffAllLoadsFail | opentelemetry-api/src/opentelemetry/context/__init__.py:57-66 | after a sequence of calls the slot is empty exactly when every load attempt failed |
| RuntimeLoading.ConfiguredBackendLoaded | opentelemetry-api/src/opentelemetry/context/__init__.py:52-62 | an empty slot is filled from the entry point named by `OTEL_PYTHON_CONTEXT` when the variable is set, and from `contextvars_context` when it is unset |
| ContextApi.ContextRuntime.constructor | opentelemetry-api/src/opentelemetry/context/__init__.py:28 | the process starts with an empty slot and no backend calls |
| ContextApi.ContextRuntime.EnsureLoaded | opentelemetry-api/src/opentelemetry/context/__init__.py:46-66 | loads only while the slot is empty and keeps a filled slot; a failure is reported and leaves the slot empty; at most one backend is ever constructed |
| ContextApi.ContextRuntime.GetCurrent | opentelemetry-api/src/opentelemetry/context/__init__.py:122-131 | runs the load check, then returns the backend's answer; with an empty slot it fails with `NoRuntime` and reaches no backend |
| ContextApi.ContextRuntime.Attach | opentelemetry-api/src/opentelemetry/context/__init__.py:134-145 | runs the load check, then forwards exactly the given context to the backend and returns its token; with an empty slot it fails with `NoRuntime` |
| ContextApi.ContextRuntime.Detach | opentelemetry-api/src/opentelemetry/context/__init__.py:148-159 | runs the load check, then forwards the token; it always returns normally, and any failure, from the backend or from an empty slot, is only reported |
| ContextApi.ContextRuntime.GetValue | opentelemetry-api/src/opentelemetry/context/__init__.py:84-96 | an explicit context is read directly with no loading and no backend call; otherwise the key is read from the current context, and its failure is passed on |
| ContextApi.ContextRuntime.SetValue | opentelemetry-api/src/opentelemetry/context/__init__.py:99-119 | returns the base with one entry written, the base being the explicit context or else the current one; it never attaches, so the current context is unchanged |

## Left out

- The random `uuid.uuid4()` suffix of `create_key` is a parameter. Key uniqueness is proved only under the assumption that suffixes are distinct 36-character strings.
- Environment variables and entry-point discovery are inputs (`Environment`). `iter_entry_points` may find several distributions under one name and takes the first; the model keeps one entry point per name.
- The lock around the load check, and all concurrency, are left out. The model covers the sequential once-only logic.
- Logging is not modelled as output. `EnsureLoaded` returns `loadFailed` and `Detach` returns `swallowed` in place of the two `logger.error` calls.
- The backend (`_RuntimeContext` and its contextvars variant) is not part of this model. Its answers are parameters, so token-stack discipline, per-thread or per-task isolation, and the empty default context are not modelled.
- The `Context` class is not part of this model. Its immutability is represented by making `Context` a value.
- `ContextValues.Get` returns `None` for a missing key. Python's `dict.get` also returns `None` for a key stored with the value `None`, and the model does not merge those two cases.
- The `_SUPPRESS_INSTRUMENTATION_KEY` and `_SUPPRESS_HTTP_INSTRUMENTATION_KEY` constants are left out. Each is one `create_key` call, made when the module is imported.
- The decorator mechanics (`functools.wraps`, forwarding `*args`/`**kwargs`) are left out. Each public method calls `EnsureLoaded` first instead.
