/** Deterministic walks that may stop, in a finite set of places. */
module Orbit {
  import opened Workflow

  ghost predicate StaysStopped<T(!new)>(s: nat -> Option<T>, n: nat) {
    s(n).None? ==> s(n + 1).None?
  }

  ghost predicate InStep<T(!new)>(s: nat -> Option<T>, j: nat, k: nat) {
    s(j).Some? && s(j) == s(k) ==> s(j + 1) == s(k + 1)
  }

  /** Where a walk stands after `n` moves, `None` once it has stopped; the next place depends on the present one only. */
  ghost predicate IsWalk<T(!new)>(s: nat -> Option<T>) {
    && (forall n: nat :: StaysStopped(s, n))
    && (forall j: nat, k: nat :: InStep(s, j, k))
  }

  ghost predicate Forever<T(!new)>(s: nat -> Option<T>) {
    forall n: nat :: s(n).Some?
  }

  ghost predicate Repeats<T(!new)>(s: nat -> Option<T>) {
    exists j: nat, k: nat :: j < k && s(j).Some? && s(j) == s(k)
  }

  lemma {:induction false} StoppedStays<T(!new)>(s: nat -> Option<T>, m: nat, n: nat)
    requires IsWalk(s) && s(m).None? && m <= n
    ensures s(n).None?
    decreases n - m
  {
    if m < n {
      assert StaysStopped(s, m);
      StoppedStays(s, m + 1, n);
    }
  }

  lemma {:induction false} Parallel<T(!new)>(s: nat -> Option<T>, j: nat, k: nat, d: nat)
    requires IsWalk(s) && s(j) == s(k)
    ensures s(j + d) == s(k + d)
    decreases d
  {
    if d > 0 {
      Parallel(s, j, k, d - 1);
      assert InStep(s, j + d - 1, k + d - 1) && StaysStopped(s, j + d - 1) && StaysStopped(s, k + d - 1);
    }
  }

  /** A walk that comes back to a place never stops. */
  lemma {:induction false} RepeatIsForever<T(!new)>(s: nat -> Option<T>, j: nat, k: nat, n: nat)
    requires IsWalk(s) && j < k && s(j).Some? && s(j) == s(k)
    ensures s(n).Some?
    decreases n
  {
    if n <= k {
      if s(n).None? {
        StoppedStays(s, n, k);
      }
    } else {
      RepeatIsForever(s, j, k, n - (k - j));
      Parallel(s, j, k, n - k);
    }
  }

  function Places<T>(s: nat -> Option<T>, n: nat): set<T> {
    set k: nat | k < n && s(k).Some? :: s(k).value
  }

  lemma {:induction false} DistinctPlaces<T>(s: nat -> Option<T>, n: nat)
    requires forall k: nat :: k < n ==> s(k).Some?
    requires forall j: nat, k: nat :: j < k < n ==> s(j) != s(k)
    ensures |Places(s, n)| == n
  {
    if n > 0 {
      DistinctPlaces(s, n - 1);
      assert Places(s, n) == Places(s, n - 1) + {s(n - 1).value};
      assert s(n - 1).value !in Places(s, n - 1);
    }
  }

  lemma SubsetSize<T>(a: set<T>, b: set<T>)
    requires a <= b
    ensures |a| <= |b|
  {
    assert b == a + (b - a);
  }

  /** Without a repeat, a walk inside `room` is no longer than `room` is large. */
  lemma DistinctFit<T(!new)>(s: nat -> Option<T>, n: nat, room: set<T>)
    requires forall k: nat :: k < n ==> s(k).Some? && s(k).value in room
    requires forall j: nat, k: nat :: j < k < n ==> s(j) != s(k)
    ensures n <= |room|
  {
    DistinctPlaces(s, n);
    SubsetSize(Places(s, n), room);
  }

  /** Pigeonhole: a walk that makes more moves inside `room` than `room` has places repeats one, hence never stops. */
  lemma LongIsForever<T(!new)>(s: nat -> Option<T>, n: nat, room: set<T>)
    requires IsWalk(s) && n > |room| && forall k: nat :: k < n ==> s(k).Some? && s(k).value in room
    ensures Repeats(s) && Forever(s)
  {
    if forall j: nat, k: nat :: j < k < n ==> s(j) != s(k) {
      DistinctFit(s, n, room);
    } else {
      var j: nat, k: nat :| j < k < n && s(j) == s(k);
      forall m: nat ensures s(m).Some? {
        RepeatIsForever(s, j, k, m);
      }
    }
  }

  /** In a finite room, running forever and repeating a place are the same. */
  lemma ForeverIffRepeats<T(!new)>(s: nat -> Option<T>, room: set<T>)
    requires IsWalk(s) && forall k: nat :: s(k).Some? ==> s(k).value in room
    ensures Forever(s) <==> Repeats(s)
  {
    if Forever(s) {
      LongIsForever(s, |room| + 1, room);
    }
    if Repeats(s) {
      var j: nat, k: nat :| j < k && s(j).Some? && s(j) == s(k);
      forall m: nat ensures s(m).Some? {
        RepeatIsForever(s, j, k, m);
      }
    }
  }
}
