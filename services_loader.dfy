/** The global loading tracker (`useLoader` in src/services/loader.ts): a map from
    operation id to the pending operation, kept in insertion order, from which
    the "is anything loading", "how many" and "what is the latest" views are
    derived. The clock and the generated ids are parameters; the awaited call is
    an outcome that happens between the start and the stop. */
module Loader {

  import opened Common
  import opened OrderedMap

  datatype LoadingOperation = LoadingOperation(id: string, labelText: string, startTime: int)

  const DefaultLabel: string := "Loading..."

  /** The outcome of the wrapped call: a value or what it threw, passed on unchanged. */
  datatype Outcome<T> = Returned(value: T) | Threw(reason: string)

  /** `id || generated`: an empty or missing id is replaced by the generated one. */
  function OperationId(id: Option<string>, generated: string): (r: string)
    ensures id.Some? && id.value != "" ==> r == id.value
    ensures id.None? || id.value == "" ==> r == generated
  {
    OrElse(id, generated)
  }

  class LoaderState {
    var ops: OMap<string, LoadingOperation>

    ghost predicate Valid()
      reads this
    {
      ops.Valid() && forall id :: id in ops.values ==> ops.values[id].id == id
    }

    constructor ()
      ensures Valid() && ops == Empty()
    {
      ops := Empty();
    }

    /** `isLoading` */
    function IsLoading(): (b: bool)
      reads this
      requires Valid()
      ensures b <==> |ops.values| > 0
    {
      SizeIsCardinality(ops);
      ops.Size() > 0
    }

    /** `operationCount` */
    function OperationCount(): (n: nat)
      reads this
      requires Valid()
      ensures n == |ops.values|
    {
      SizeIsCardinality(ops);
      ops.Size()
    }

    /** `currentOperation`: the most recently started operation still pending. */
    function CurrentOperation(): (r: Option<LoadingOperation>)
      reads this
      requires Valid()
      ensures r.None? <==> |ops.values| == 0
      ensures r.Some? ==> r.value == ops.values[ops.keys[|ops.keys| - 1]]
    {
      SizeIsCardinality(ops);
      ops.Last()
    }

    /** `activeOperations`: the pending operations in the order they were started. */
    function ActiveOperations(): (r: seq<LoadingOperation>)
      reads this
      requires Valid()
      ensures |r| == |ops.values| == |ops.keys|
      ensures forall i :: 0 <= i < |r| ==> r[i] == ops.values[ops.keys[i]]
      ensures forall i :: 0 <= i < |r| ==> r[i] in ops.values.Values
      ensures forall op :: op in ops.values.Values ==> op in r
    {
      SizeIsCardinality(ops);
      var r := ops.ValuesInOrder();
      assert forall op :: op in ops.values.Values ==> op in r by {
        forall op | op in ops.values.Values
          ensures op in r
        {
          var k :| k in ops.values && ops.values[k] == op;
          var i :| 0 <= i < |ops.keys| && ops.keys[i] == k;
          assert r[i] == op;
        }
      }
      r
    }

    /** `startLoading(id, label)`: registers or replaces the operation under `id`. */
    method StartLoading(id: string, now: int, labelText: string := DefaultLabel)
      requires Valid()
      modifies this
      ensures Valid()
      ensures ops == old(ops).Put(id, LoadingOperation(id, labelText, now))
    {
      ops := ops.Put(id, LoadingOperation(id, labelText, now));
    }

    /** `stopLoading(id)`: an unknown id is ignored. */
    method StopLoading(id: string)
      requires Valid()
      modifies this
      ensures Valid()
      ensures ops == old(ops).Remove(id)
    {
      if id in ops.values {
        ops := ops.Remove(id);
      }
    }

    /** `stopAllLoading()` */
    method StopAllLoading()
      requires Valid()
      modifies this
      ensures Valid() && ops == Empty()
    {
      ops := Empty();
    }

    /** `wrapAPICall(apiCall, label, id)`: the operation is pending while the call
        runs (`during`), and is removed afterwards whether the call returned or
        threw; the outcome is passed on unchanged. */
    method WrapApiCall<T>(outcome: Outcome<T>, labelText: string, id: Option<string>, generated: string, now: int)
      returns (r: Outcome<T>, ghost during: OMap<string, LoadingOperation>)
      requires Valid()
      modifies this
      ensures Valid()
      ensures r == outcome
      ensures during == old(ops).Put(OperationId(id, generated), LoadingOperation(OperationId(id, generated), labelText, now))
      ensures ops == during.Remove(OperationId(id, generated))
      ensures OperationId(id, generated) !in old(ops).values ==> ops == old(ops)
      ensures OperationId(id, generated) in old(ops).values ==> ops == old(ops).Remove(OperationId(id, generated))
    {
      var operationId := OperationId(id, generated);
      StartLoading(operationId, now, labelText);
      during := ops;
      r := outcome;
      StopLoading(operationId);
      if operationId !in old(ops).values {
        PutThenRemoveFresh(old(ops), operationId, LoadingOperation(operationId, labelText, now));
      } else {
        PutThenRemoveExisting(old(ops), operationId, LoadingOperation(operationId, labelText, now));
      }
    }
  }

  /** Restarting an active id replaces its record but keeps the count and the
      position of the id among the pending operations. */
  lemma RestartKeepsPosition(m: OMap<string, LoadingOperation>, id: string, labelText: string, now: int)
    requires m.Valid() && id in m.values
    ensures var m' := m.Put(id, LoadingOperation(id, labelText, now));
            m'.keys == m.keys && |m'.values| == |m.values| &&
            m'.values[id] == LoadingOperation(id, labelText, now)
  {
    SizeIsCardinality(m);
    SizeIsCardinality(m.Put(id, LoadingOperation(id, labelText, now)));
  }

  /** Replacing a present key and deleting it is the same as deleting it. */
  lemma PutThenRemoveExisting<K, V>(m: OMap<K, V>, k: K, v: V)
    requires m.Valid() && k in m.values
    ensures m.Put(k, v).Remove(k) == m.Remove(k)
  {
    assert m.values[k := v] - {k} == m.values - {k};
  }

  /** While a fresh operation runs it is the current one and the count is one higher;
      afterwards the tracker is exactly as before. */
  lemma WrapFreshOperation(m: OMap<string, LoadingOperation>, id: string, labelText: string, now: int)
    requires m.Valid() && id !in m.values
    ensures var during := m.Put(id, LoadingOperation(id, labelText, now));
            during.Last() == Some(LoadingOperation(id, labelText, now)) &&
            |during.values| == |m.values| + 1 &&
            during.Remove(id) == m
  {
    var during := m.Put(id, LoadingOperation(id, labelText, now));
    SizeIsCardinality(m);
    SizeIsCardinality(during);
    PutThenRemoveFresh(m, id, LoadingOperation(id, labelText, now));
  }
}
