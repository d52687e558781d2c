/**
  The public context API: `get_current`, `attach` and `detach` are wrapped so
  that each call first fills the global runtime-context slot if it is still
  empty and then delegates to the backend in the slot, while `get_value` and
  `set_value` read or copy an explicit context and fall back to `get_current`
  only when no context is given.

  The backend itself is an outside collaborator: what its `get_current`,
  `attach` and `detach` answer is passed in as `reply`, and the ghost log
  `forwarded` records every call that reached it.
 */
module ContextApi {
  import opened Wrappers
  import opened ContextValues
  import opened RuntimeLoading

  /** An exception that leaves an API call. */
  datatype Error =
    | NoRuntime                   // the slot is still empty: the attribute lookup on `None` fails
    | BackendError(message: string)  // raised by the backend itself

  datatype Result<T> = Ok(value: T) | Err(error: Error)

  /** The opaque token that `attach` hands back and `detach` takes. */
  datatype Token = Token(id: nat)

  /** A call forwarded to the backend in the slot. */
  datatype BackendCall<V> = GetCurrentCall | AttachCall(context: Context<V>) | DetachCall(token: Token)

  /** The module-level state: the runtime-context slot, filled at most once. */
  class ContextRuntime<V> {
    var runtime: Option<Backend>
    /** How many backends were ever constructed into the slot. */
    ghost var constructions: nat
    /** The calls that reached the backend, oldest first. */
    ghost var forwarded: seq<BackendCall<V>>

    ghost predicate Valid()
      reads this
    {
      constructions == if runtime.Some? then 1 else 0
    }

    /** Process start: no backend yet. */
    constructor ()
      ensures Valid()
      ensures runtime == None && forwarded == []
    {
      runtime := None;
      constructions := 0;
      forwarded := [];
    }

    /**
      The check at the top of every decorated call: only while the slot is
      empty, try one load; a failure is reported (logged) and leaves it empty.
     */
    method EnsureLoaded(env: Environment) returns (loadFailed: bool)
      requires Valid()
      modifies this
      ensures Valid()
      ensures runtime == LoadStep(old(runtime), env)
      ensures old(runtime).Some? ==> runtime == old(runtime) && !loadFailed
      ensures loadFailed <==> old(runtime).None? && runtime.None?
      ensures forwarded == old(forwarded)
    {
      loadFailed := false;
      if runtime.None? {
        var loaded := Load(env);
        if loaded.Some? {
          runtime := loaded;
          constructions := constructions + 1;
        } else {
          loadFailed := true;
        }
      }
    }

    /** `get_current()`: the backend's current context; fails when no backend could be loaded. */
    method GetCurrent(env: Environment, reply: Result<Context<V>>) returns (r: Result<Context<V>>)
      requires Valid()
      modifies this
      ensures Valid()
      ensures runtime == LoadStep(old(runtime), env)
      ensures runtime.None? ==> r == Err(NoRuntime) && forwarded == old(forwarded)
      ensures runtime.Some? ==> r == reply && forwarded == old(forwarded) + [GetCurrentCall]
    {
      var _ := EnsureLoaded(env);
      if runtime.None? {
        r := Err(NoRuntime);
      } else {
        forwarded := forwarded + [GetCurrentCall];
        r := reply;
      }
    }

    /** `attach(context)`: hands `context` to the backend and returns its token. */
    method Attach(env: Environment, context: Context<V>, reply: Result<Token>) returns (r: Result<Token>)
      requires Valid()
      modifies this
      ensures Valid()
      ensures runtime == LoadStep(old(runtime), env)
      ensures runtime.None? ==> r == Err(NoRuntime) && forwarded == old(forwarded)
      ensures runtime.Some? ==> r == reply && forwarded == old(forwarded) + [AttachCall(context)]
    {
      var _ := EnsureLoaded(env);
      if runtime.None? {
        r := Err(NoRuntime);
      } else {
        forwarded := forwarded + [AttachCall(context)];
        r := reply;
      }
    }

    /**
      `detach(token)`: hands `token` to the backend. It always returns
      normally; `swallowed` is the failure that was caught and logged, if any,
      whether raised by the backend or by an empty slot.
     */
    method Detach(env: Environment, token: Token, reply: Option<Error>) returns (swallowed: Option<Error>)
      requires Valid()
      modifies this
      ensures Valid()
      ensures runtime == LoadStep(old(runtime), env)
      ensures runtime.None? ==> swallowed == Some(NoRuntime) && forwarded == old(forwarded)
      ensures runtime.Some? ==> swallowed == reply && forwarded == old(forwarded) + [DetachCall(token)]
    {
      var _ := EnsureLoaded(env);
      if runtime.None? {
        swallowed := Some(NoRuntime);
      } else {
        forwarded := forwarded + [DetachCall(token)];
        swallowed := reply;
      }
    }

    /**
      `get_value(key, context)`: an explicit context is read directly, without
      loading or consulting the backend; otherwise the current context is read.
     */
    method GetValue(env: Environment, key: string, context: Option<Context<V>>, reply: Result<Context<V>>)
      returns (r: Result<Option<V>>)
      requires Valid()
      modifies this
      ensures Valid()
      ensures context.Some? ==>
        r == Ok(Get(context.value, key)) && runtime == old(runtime) && forwarded == old(forwarded)
      ensures context.None? ==> runtime == LoadStep(old(runtime), env)
      ensures context.None? && runtime.None? ==> r == Err(NoRuntime) && forwarded == old(forwarded)
      ensures context.None? && runtime.Some? ==>
        forwarded == old(forwarded) + [GetCurrentCall] &&
        r == if reply.Ok? then Ok(Get(reply.value, key)) else Err(reply.error)
    {
      if context.Some? {
        r := Ok(Get(context.value, key));
      } else {
        var current := GetCurrent(env, reply);
        r := if current.Ok? then Ok(Get(current.value, key)) else Err(current.error);
      }
    }

    /**
      `set_value(key, value, context)`: a new context equal to the base except
      that `key` maps to `value`; the base is the explicit context when one is
      given and the current context otherwise. Nothing is attached: the
      backend only ever sees a `get_current` call.
     */
    method SetValue(env: Environment, key: string, value: V, context: Option<Context<V>>, reply: Result<Context<V>>)
      returns (r: Result<Context<V>>)
      requires Valid()
      modifies this
      ensures Valid()
      ensures context.Some? ==>
        r == Ok(ContextValues.SetValue(key, value, context.value)) &&
        runtime == old(runtime) && forwarded == old(forwarded)
      ensures context.None? ==> runtime == LoadStep(old(runtime), env)
      ensures context.None? && runtime.None? ==> r == Err(NoRuntime) && forwarded == old(forwarded)
      ensures context.None? && runtime.Some? ==>
        forwarded == old(forwarded) + [GetCurrentCall] &&
        r == if reply.Ok? then Ok(ContextValues.SetValue(key, value, reply.value)) else Err(reply.error)
    {
      var base := context;
      if base.None? {
        var current := GetCurrent(env, reply);
        if current.Err? {
          return Err(current.error);
        }
        base := Some(current.value);
      }
      r := Ok(ContextValues.SetValue(key, value, base.value));
    }
  }
}
