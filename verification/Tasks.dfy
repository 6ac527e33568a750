/** Concurrent tasks, started by index and finishing in any order. */
module Tasks {

  /** The indices of the tasks that parallel.ForEach starts. */
  function Indices(n: nat): (all: set<nat>)
    ensures forall i: nat :: i in all <==> i < n
  {
    if n == 0 then {} else Indices(n - 1) + {n - 1}
  }

  /** The results of the tasks that have finished, by index. */
  function Finished<T>(results: seq<T>, done: set<nat>): seq<T> {
    if results == [] then []
    else
      var n := |results| - 1;
      Finished(results[..n], done) + if n in done then [results[n]] else []
  }

  lemma {:induction false} NoneFinished<T>(results: seq<T>)
    ensures Finished(results, {}) == []
  {
    if results != [] {
      NoneFinished(results[..|results| - 1]);
    }
  }

  lemma {:induction false} OthersFinished<T>(results: seq<T>, done: set<nat>, i: nat)
    requires |results| <= i
    ensures Finished(results, done + {i}) == Finished(results, done)
  {
    if results != [] {
      OthersFinished(results[..|results| - 1], done, i);
    }
  }

  lemma {:induction false} OneMoreFinished<T>(results: seq<T>, done: set<nat>, i: nat)
    requires i < |results| && i !in done
    ensures multiset(Finished(results, done + {i})) == multiset(Finished(results, done)) + multiset{results[i]}
  {
    var n := |results| - 1;
    if i == n {
      OthersFinished(results[..n], done, i);
    } else {
      OneMoreFinished(results[..n], done, i);
    }
  }

  lemma {:induction false} AllFinished<T>(results: seq<T>, done: set<nat>)
    requires forall i: nat :: i < |results| ==> i in done
    ensures Finished(results, done) == results
  {
    if results != [] {
      AllFinished(results[..|results| - 1], done);
      assert results == results[..|results| - 1] + [results[|results| - 1]];
    }
  }
}
