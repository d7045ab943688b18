/** Running one fallible step per item, in order, stopping at the first failure: what
    a Python `for` loop does whose body may raise. */
module Runs {
  import opened Wrappers

  /** The results of `step` on every item, or the error of the first item it fails on. */
  function RunAll<A, T, E>(items: seq<A>, step: A -> Result<T, E>): Result<seq<T>, E>
    decreases |items|
  {
    if items == [] then Ok([])
    else match RunAll(items[..|items| - 1], step)
      case Err(e) => Err(e)
      case Ok(done) =>
        match step(items[|items| - 1])
        case Err(e) => Err(e)
        case Ok(x) => Ok(done + [x])
  }

  /** Extending the run by the next item applies the step to it only after all
      earlier items succeeded. */
  lemma RunAllStep<A, T, E>(items: seq<A>, n: nat, step: A -> Result<T, E>)
    requires n < |items|
    ensures RunAll(items[..n + 1], step)
         == match RunAll(items[..n], step)
            case Err(e) => Err(e)
            case Ok(done) => (match step(items[n]) case Err(e) => Err(e) case Ok(x) => Ok(done + [x]))
  {
    assert items[..n + 1][..n] == items[..n];
  }

  /** The run succeeds exactly when the step succeeds on every item, and then it holds
      the step's results in item order. */
  lemma {:induction false} RunAllOk<A, T, E>(items: seq<A>, step: A -> Result<T, E>)
    ensures RunAll(items, step).Ok? <==> forall i :: 0 <= i < |items| ==> step(items[i]).Ok?
    ensures RunAll(items, step).Ok? ==>
              && |RunAll(items, step).value| == |items|
              && forall i :: 0 <= i < |items| ==> step(items[i]) == Ok(RunAll(items, step).value[i])
    decreases |items|
  {
    if items != [] {
      var front := items[..|items| - 1];
      RunAllOk(front, step);
      assert forall i :: 0 <= i < |front| ==> front[i] == items[i];
    }
  }

  /** A failed run reports the error of the first item the step fails on. */
  lemma {:induction false} RunAllErr<A, T, E>(items: seq<A>, step: A -> Result<T, E>)
    ensures RunAll(items, step).Err? ==>
              exists k :: && 0 <= k < |items|
                          && (forall j :: 0 <= j < k ==> step(items[j]).Ok?)
                          && step(items[k]) == Err(RunAll(items, step).error)
    decreases |items|
  {
    if items != [] && RunAll(items, step).Err? {
      var front := items[..|items| - 1];
      RunAllErr(front, step);
      if RunAll(front, step).Err? {
        var k :| 0 <= k < |front| && (forall j :: 0 <= j < k ==> step(front[j]).Ok?)
                 && step(front[k]) == Err(RunAll(front, step).error);
        assert front[k] == items[k];
        assert forall j :: 0 <= j < k ==> front[j] == items[j];
      } else {
        RunAllOk(front, step);
        var k := |items| - 1;
        assert forall j :: 0 <= j < k ==> front[j] == items[j];
      }
    }
  }

  /** Once a prefix of the items fails, the whole run fails with the same error. */
  lemma {:induction false} RunAllPrefixErr<A, T, E>(items: seq<A>, n: nat, step: A -> Result<T, E>)
    requires n <= |items|
    requires RunAll(items[..n], step).Err?
    ensures RunAll(items, step) == RunAll(items[..n], step)
    decreases |items|
  {
    if n < |items| {
      var front := items[..|items| - 1];
      assert front[..n] == items[..n];
      RunAllPrefixErr(front, n, step);
    } else {
      assert items[..n] == items;
    }
  }

  /** The loop itself: `for item in items: results.append(step(item))`, where a
      failing step raises out of the loop. */
  method RunInOrder<A, T, E>(items: seq<A>, step: A -> Result<T, E>) returns (r: Result<seq<T>, E>)
    ensures r == RunAll(items, step)
  {
    var results: seq<T> := [];
    var i := 0;
    while i < |items|
      invariant 0 <= i <= |items|
      invariant RunAll(items[..i], step) == Ok(results)
    {
      RunAllStep(items, i, step);
      var result := step(items[i]);
      if result.Err? {
        RunAllPrefixErr(items, i + 1, step);
        return Err(result.error);
      }
      results := results + [result.value];
      i := i + 1;
    }
    assert items[..i] == items;
    r := Ok(results);
  }

  /** The keys of a sequence, as a set. */
  function KeySet<K>(keys: seq<K>): set<K> {
    set i | 0 <= i < |keys| :: keys[i]
  }

  /** The dict `for key in keys: d[key] = step(key)` builds, or the error of the first
      key the step fails on. */
  function FillAll<K, V, E>(keys: seq<K>, step: K -> Result<V, E>): Result<map<K, V>, E>
    decreases |keys|
  {
    if keys == [] then Ok(map[])
    else match FillAll(keys[..|keys| - 1], step)
      case Err(e) => Err(e)
      case Ok(d) =>
        match step(keys[|keys| - 1])
        case Err(e) => Err(e)
        case Ok(v) => Ok(d[keys[|keys| - 1] := v])
  }

  /** Once a prefix of the keys fails, the whole fill fails with the same error. */
  lemma {:induction false} FillAllPrefixErr<K, V, E>(keys: seq<K>, n: nat, step: K -> Result<V, E>)
    requires n <= |keys|
    requires FillAll(keys[..n], step).Err?
    ensures FillAll(keys, step) == FillAll(keys[..n], step)
    decreases |keys|
  {
    if n < |keys| {
      var front := keys[..|keys| - 1];
      assert front[..n] == keys[..n];
      FillAllPrefixErr(front, n, step);
    } else {
      assert keys[..n] == keys;
    }
  }

  /** The fill succeeds exactly when the step succeeds on every key. */
  lemma {:induction false} FillAllOk<K, V, E>(keys: seq<K>, step: K -> Result<V, E>)
    ensures FillAll(keys, step).Ok? <==> forall i :: 0 <= i < |keys| ==> step(keys[i]).Ok?
    decreases |keys|
  {
    if keys != [] {
      var front := keys[..|keys| - 1];
      FillAllOk(front, step);
      assert forall j :: 0 <= j < |front| ==> front[j] == keys[j];
    }
  }

  /** A successful fill has exactly the given keys, each holding its step's result. */
  lemma {:induction false} FillAllContents<K, V, E>(keys: seq<K>, step: K -> Result<V, E>)
    requires FillAll(keys, step).Ok?
    ensures FillAll(keys, step).value.Keys == KeySet(keys)
    ensures forall k :: k in FillAll(keys, step).value ==> step(k) == Ok(FillAll(keys, step).value[k])
    decreases |keys|
  {
    if keys != [] {
      var front := keys[..|keys| - 1];
      var last := keys[|keys| - 1];
      FillAllContents(front, step);
      assert KeySet(keys) == KeySet(front) + {last} by {
        assert keys == front + [last];
      }
    }
  }

  /** A failed fill reports the error of the first key the step fails on. */
  lemma {:induction false} FillAllFirstError<K, V, E>(keys: seq<K>, step: K -> Result<V, E>)
    requires FillAll(keys, step).Err?
    ensures exists n :: && 0 <= n < |keys|
                        && (forall j :: 0 <= j < n ==> step(keys[j]).Ok?)
                        && step(keys[n]) == Err(FillAll(keys, step).error)
    decreases |keys|
  {
    var front := keys[..|keys| - 1];
    assert forall j :: 0 <= j < |front| ==> front[j] == keys[j];
    if FillAll(front, step).Err? {
      FillAllFirstError(front, step);
      var n :| 0 <= n < |front| && (forall j :: 0 <= j < n ==> step(front[j]).Ok?)
               && step(front[n]) == Err(FillAll(front, step).error);
      assert front[n] == keys[n];
    } else {
      FillAllOk(front, step);
      assert forall j :: 0 <= j < |front| ==> step(keys[j]).Ok?;
    }
  }

  /** The loop itself: `for key in keys: d[key] = step(key)`, where a failing step
      raises out of the loop. */
  method FillInOrder<K, V, E>(keys: seq<K>, step: K -> Result<V, E>) returns (r: Result<map<K, V>, E>)
    ensures r == FillAll(keys, step)
  {
    var d: map<K, V> := map[];
    var i := 0;
    while i < |keys|
      invariant 0 <= i <= |keys|
      invariant FillAll(keys[..i], step) == Ok(d)
    {
      assert keys[..i + 1][..i] == keys[..i];
      var result := step(keys[i]);
      if result.Err? {
        FillAllPrefixErr(keys, i + 1, step);
        return Err(result.error);
      }
      d := d[keys[i] := result.value];
      i := i + 1;
    }
    assert keys[..i] == keys;
    return Ok(d);
  }
}
