/**
  The per-project fan-out: one task per workflow, each task's failure replaced
  by an empty list (`runCatching { … }.getOrElse { emptyList() }`), the
  results joined with `awaitAll` and flattened. The concurrency is modelled
  by `AwaitAll`, which files each result under its task's position whatever
  order the tasks finish in.
 */
module FanOut {
  import opened Wrappers
  import opened Http
  import opened Seqs

  /** `runCatching { task }.getOrElse { emptyList() }`. */
  function Absorb<T>(o: Outcome<seq<T>>): seq<T>
  {
    match o
    case Returned(v) => v
    case Threw => []
  }

  /** Each task's contribution, in task order. */
  function Contributions<W, T>(ws: seq<W>, task: W -> Outcome<seq<T>>): seq<seq<T>>
  {
    seq(|ws|, i requires 0 <= i < |ws| => Absorb(task(ws[i])))
  }

  /** `deferred.awaitAll().flatten()` over `ws.map { async { absorbed task } }`. */
  function Gather<W, T>(ws: seq<W>, task: W -> Outcome<seq<T>>): seq<T>
  {
    Flatten(Contributions(ws, task))
  }

  /** Gathering two runs of tasks is gathering each and concatenating, in that order. */
  lemma GatherAppend<W, T>(a: seq<W>, b: seq<W>, task: W -> Outcome<seq<T>>)
    ensures Gather(a + b, task) == Gather(a, task) + Gather(b, task)
  {
    assert Contributions(a + b, task) == Contributions(a, task) + Contributions(b, task);
    FlattenAppend(Contributions(a, task), Contributions(b, task));
  }

  lemma GatherOne<W, T>(w: W, task: W -> Outcome<seq<T>>)
    ensures Gather([w], task) == Absorb(task(w))
  {
    assert Contributions([w], task) == [Absorb(task(w))];
    assert Flatten([Absorb(task(w))]) == Flatten([]) + Absorb(task(w));
  }

  /**
    The result is the tasks before `i`, then task `i`'s own result (nothing
    if it failed), then the tasks after `i`: order follows the task list, and
    one failing task removes only its own contribution.
   */
  lemma GatherSplit<W, T>(ws: seq<W>, task: W -> Outcome<seq<T>>, i: nat)
    requires i < |ws|
    ensures Gather(ws, task) == Gather(ws[..i], task) + Absorb(task(ws[i])) + Gather(ws[i + 1..], task)
    ensures task(ws[i]).Returned? ==>
      Gather(ws, task) == Gather(ws[..i], task) + task(ws[i]).value + Gather(ws[i + 1..], task)
    ensures task(ws[i]).Threw? ==> Gather(ws, task) == Gather(ws[..i], task) + Gather(ws[i + 1..], task)
  {
    assert ws == ws[..i] + [ws[i]] + ws[i + 1..];
    GatherAppend(ws[..i] + [ws[i]], ws[i + 1..], task);
    GatherAppend(ws[..i], [ws[i]], task);
    GatherOne(ws[i], task);
  }

  /** Every value produced by a task that did not fail is in the result. */
  lemma GatherKeepsSucceeding<W, T>(ws: seq<W>, task: W -> Outcome<seq<T>>)
    ensures forall i, x :: 0 <= i < |ws| && task(ws[i]).Returned? && x in task(ws[i]).value ==> x in Gather(ws, task)
  {
    forall i, x | 0 <= i < |ws| && task(ws[i]).Returned? && x in task(ws[i]).value
      ensures x in Gather(ws, task)
    {
      GatherSplit(ws, task, i);
    }
  }

  /** Every value in the result was produced by some task that did not fail. */
  lemma {:induction false} GatherOnlyFromSucceeding<W, T>(ws: seq<W>, task: W -> Outcome<seq<T>>, x: T)
    requires x in Gather(ws, task)
    ensures exists i :: 0 <= i < |ws| && task(ws[i]).Returned? && x in task(ws[i]).value
    decreases |ws|
  {
    var n := |ws| - 1;
    GatherSplit(ws, task, n);
    assert ws[n + 1..] == [];
    assert Contributions([], task) == [];
    if x in Absorb(task(ws[n])) {
      assert task(ws[n]).Returned?;
    } else {
      assert x in Gather(ws[..n], task);
      GatherOnlyFromSucceeding(ws[..n], task, x);
      var i :| 0 <= i < n && task(ws[..n][i]).Returned? && x in task(ws[..n][i]).value;
      assert ws[..n][i] == ws[i];
    }
  }

  /** When every task fails the result is empty, and it is never an error. */
  lemma {:induction false} GatherAllFailed<W, T>(ws: seq<W>, task: W -> Outcome<seq<T>>)
    requires forall i :: 0 <= i < |ws| ==> task(ws[i]).Threw?
    ensures Gather(ws, task) == []
    decreases |ws|
  {
    if |ws| > 0 {
      var n := |ws| - 1;
      GatherAllFailed(ws[..n], task);
      GatherSplit(ws, task, n);
      assert ws[n + 1..] == [];
      assert Contributions([], task) == [];
    }
  }

  /**
    Completion events in `order`: finishing task `k` writes its result into
    slot `k`. Afterwards a slot holds its own task's result iff that task
    finished, and keeps its previous content otherwise.
   */
  function Complete<T>(slots: seq<Option<T>>, results: seq<T>, order: seq<nat>): (r: seq<Option<T>>)
    requires |slots| == |results|
    requires forall k :: 0 <= k < |order| ==> order[k] < |results|
    ensures |r| == |slots|
    ensures forall i :: 0 <= i < |r| ==> r[i] == if i in order then Some(results[i]) else slots[i]
    decreases |order|
  {
    if |order| == 0 then slots
    else
      var k := order[0];
      assert forall j :: j in order <==> j == k || j in order[1..];
      Complete(slots[k := Some(results[k])], results, order[1..])
  }

  /**
    `awaitAll`: once every task has finished, in any completion order, the
    joined list holds each task's result at that task's position.
   */
  function AwaitAll<T>(results: seq<T>, order: seq<nat>): (r: seq<T>)
    requires forall k :: 0 <= k < |order| ==> order[k] < |results|
    requires forall i :: 0 <= i < |results| ==> i in order
    ensures r == results
  {
    var slots := Complete(seq(|results|, _ => None), results, order);
    seq(|results|, i requires 0 <= i < |results| => slots[i].value)
  }

  /** The gathered result is the same for every completion order of the tasks. */
  lemma GatherIgnoresCompletionOrder<W, T>(ws: seq<W>, task: W -> Outcome<seq<T>>, order: seq<nat>)
    requires forall k :: 0 <= k < |order| ==> order[k] < |ws|
    requires forall i :: 0 <= i < |ws| ==> i in order
    ensures Flatten(AwaitAll(Contributions(ws, task), order)) == Gather(ws, task)
  {
  }
}
