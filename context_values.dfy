/**
  The `Context` value: an immutable mapping from string keys to opaque values,
  and the two map operations the context API performs on it. `set_value` writes
  into a copy of its base context and wraps the copy in a new `Context`, so in
  this model it is a functional map update and the base is untouched by
  construction.
 */
module ContextValues {
  import opened Wrappers

  /** A context: an immutable map from keys to values of the opaque type V. */
  datatype Context<V> = Context(entries: map<string, V>)

  /** `context.get(key)`: the value stored under `key`, or `None` when absent. */
  function Get<V>(c: Context<V>, key: string): Option<V>
  {
    if key in c.entries then Some(c.entries[key]) else None
  }

  /**
    `set_value(key, value, context)` with an explicit context: copy the base,
    write one entry into the copy, return the copy as a new context.
   */
  function SetValue<V>(key: string, value: V, base: Context<V>): (r: Context<V>)
    ensures Get(r, key) == Some(value)
    ensures forall other :: other != key ==> Get(r, other) == Get(base, other)
    ensures r.entries.Keys == base.entries.Keys + {key}
  {
    var newValues := base.entries[key := value];
    Context(newValues)
  }

  /** Writing the same key twice leaves only the second value. */
  lemma SetValueOverwrites<V>(key: string, v1: V, v2: V, c: Context<V>)
    ensures SetValue(key, v2, SetValue(key, v1, c)) == SetValue(key, v2, c)
  {
  }

  /** Writing a key with the value it already has gives back an equal context. */
  lemma SetValueOfPresentValue<V>(key: string, c: Context<V>)
    requires key in c.entries
    ensures SetValue(key, c.entries[key], c) == c
  {
  }

  /** Writes to two different keys commute. */
  lemma SetValueCommutes<V>(k1: string, v1: V, k2: string, v2: V, c: Context<V>)
    requires k1 != k2
    ensures SetValue(k1, v1, SetValue(k2, v2, c)) == SetValue(k2, v2, SetValue(k1, v1, c))
  {
  }
}
