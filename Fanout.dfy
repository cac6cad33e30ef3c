/**
 * Callbacks handed to the components by their callers. A closure is never run by the
 * model: it is named by a token, and every invocation the component makes is returned
 * to the caller as a `Call` record (which closure, registered under which key, with
 * which argument).
 */
module Fanout {

  /** Identifies one caller-supplied closure. */
  type Callback = nat

  datatype Call<K, V> = Call(key: K, callback: Callback, argument: V)

  /** The registry keys whose closures appear in `calls`. */
  function CalledKeys<K, V>(calls: seq<Call<K, V>>): set<K>
  {
    set i | 0 <= i < |calls| :: calls[i].key
  }

  /**
   * `calls` invokes, exactly once each and in some order, the closure registered under
   * every key of `keys`, passing `argument`; it invokes nothing else.
   */
  ghost predicate CallsEachOnce<K, V>(calls: seq<Call<K, V>>, registry: map<K, Callback>, keys: set<K>, argument: V)
  {
    && CalledKeys(calls) == keys
    && (forall i | 0 <= i < |calls| ::
          calls[i].key in registry && calls[i].callback == registry[calls[i].key] && calls[i].argument == argument)
    && (forall i, j | 0 <= i < j < |calls| :: calls[i].key != calls[j].key)
  }

  /** One more call, of a key not called yet, extends what has been called by that key. */
  lemma AppendCall<K, V>(calls: seq<Call<K, V>>, registry: map<K, Callback>, keys: set<K>, k: K, argument: V)
    requires CallsEachOnce(calls, registry, keys, argument)
    requires k in registry && k !in keys
    ensures CallsEachOnce(calls + [Call(k, registry[k], argument)], registry, keys + {k}, argument)
  {
    var after := calls + [Call(k, registry[k], argument)];
    assert forall i | 0 <= i < |calls| :: after[i] == calls[i];
    assert after[|calls|].key == k;
    assert CalledKeys(after) == CalledKeys(calls) + {k};
  }

  /**
   * Invokes the closure of each key in `keys` with `argument`, visiting the keys in an
   * unspecified order (the order in which a Swift dictionary or map table enumerates).
   */
  method CallEach<K(==), V>(registry: map<K, Callback>, keys: set<K>, argument: V) returns (calls: seq<Call<K, V>>)
    requires keys <= registry.Keys
    ensures CallsEachOnce(calls, registry, keys, argument)
    ensures |calls| == |keys|
  {
    calls := [];
    var todo := keys;
    ghost var done: set<K> := {};
    assert CalledKeys(calls) == {};
    while todo != {}
      invariant todo <= keys && done == keys - todo
      invariant CallsEachOnce(calls, registry, done, argument)
      invariant |calls| + |todo| == |keys|
      decreases |todo|
    {
      var k :| k in todo;
      AppendCall(calls, registry, done, k, argument);
      calls := calls + [Call(k, registry[k], argument)];
      done := done + {k};
      todo := todo - {k};
    }
    assert done == keys;
  }
}
