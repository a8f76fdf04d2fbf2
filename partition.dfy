/**
 * How `run_importer` shares the subject groups among its workers: at most four
 * workers, the groups cut by `more_itertools.divide` into contiguous, near-equal
 * parts, and each part flattened into the list of DICOM directories one worker
 * converts.
 */
module Partition {
  import opened Common

  /** The most import workers `run_importer` launches. */
  const MaxWorkers: nat := 4

  function Min(a: nat, b: nat): nat
  {
    if a <= b then a else b
  }

  /** The concatenation of a sequence of sequences (`more_itertools.flatten`). */
  function Flatten<T>(ss: seq<seq<T>>): seq<T>
  {
    if ss == [] then [] else Flatten(ss[..|ss| - 1]) + ss[|ss| - 1]
  }

  /** The lengths of the parts. */
  function Sizes<T>(ss: seq<seq<T>>): (r: seq<nat>)
    ensures |r| == |ss|
    ensures forall i :: 0 <= i < |ss| ==> r[i] == |ss[i]|
  {
    seq(|ss|, i requires 0 <= i < |ss| => |ss[i]|)
  }

  /**
   * Where part `i` starts when `len` items are cut into `n` parts: every part
   * takes `len / n` items and the first `len % n` parts take one more.
   */
  function Bound(len: nat, n: nat, i: nat): nat
    requires n > 0
  {
    if i == 0 then 0 else Bound(len, n, i - 1) + Share(len, n, i - 1)
  }

  /** The size of part `i`. */
  function Share(len: nat, n: nat, i: nat): nat
    requires n > 0
  {
    len / n + (if i < len % n then 1 else 0)
  }

  /** `len` is `n` whole shares plus the remainder. */
  lemma DivMod(len: nat, n: nat)
    requires n > 0
    ensures len == n * (len / n) + len % n && len % n < n
  {
  }

  /** The closed form of a bound: `i` whole shares and one extra item per part before `len % n`. */
  lemma {:induction false} BoundClosed(len: nat, n: nat, i: nat)
    requires n > 0
    ensures Bound(len, n, i) == i * (len / n) + Min(i, len % n)
  {
    if i > 0 {
      BoundClosed(len, n, i - 1);
      assert i * (len / n) == (i - 1) * (len / n) + len / n;
    }
  }

  /** The bound after the last part is the length. */
  lemma BoundLast(len: nat, n: nat)
    requires n > 0
    ensures Bound(len, n, n) == len
  {
    BoundClosed(len, n, n);
    DivMod(len, n);
  }

  /** Bounds never decrease. */
  lemma {:induction false} BoundMonotone(len: nat, n: nat, i: nat, j: nat)
    requires n > 0 && i <= j
    ensures Bound(len, n, i) <= Bound(len, n, j)
    decreases j - i
  {
    if i < j {
      BoundMonotone(len, n, i, j - 1);
    }
  }

  /** Bounds up to the last part do not pass the length. */
  lemma BoundRange(len: nat, n: nat, i: nat)
    requires n > 0 && i <= n
    ensures Bound(len, n, i) <= len
  {
    BoundMonotone(len, n, i, n);
    BoundLast(len, n);
  }

  /** Part `i` of `more_itertools.divide(n, xs)`. */
  function Part<T>(n: nat, xs: seq<T>, i: nat): (p: seq<T>)
    requires n > 0 && i < n
    ensures |p| == Share(|xs|, n, i)
  {
    BoundRange(|xs|, n, i + 1);
    xs[Bound(|xs|, n, i)..Bound(|xs|, n, i + 1)]
  }

  /** `more_itertools.divide(n, xs)` for `n >= 1`: `n` contiguous parts of `xs`. */
  function Divide<T>(n: nat, xs: seq<T>): (parts: seq<seq<T>>)
    requires n > 0
    ensures |parts| == n
  {
    seq(n, i requires 0 <= i < n => Part(n, xs, i))
  }

  /** Part `i` holds `|xs| / n` items, plus one for the first `|xs| % n` parts. */
  lemma DivideSizes<T>(n: nat, xs: seq<T>, i: nat)
    requires n > 0 && i < n
    ensures |Divide(n, xs)[i]| == |xs| / n + (if i < |xs| % n then 1 else 0)
  {
  }

  /** The parts are balanced: no two sizes differ by more than one. */
  lemma DivideBalanced<T>(n: nat, xs: seq<T>, i: nat, j: nat)
    requires n > 0 && i < n && j < n
    ensures |Divide(n, xs)[i]| <= |Divide(n, xs)[j]| + 1
  {
    DivideSizes(n, xs, i);
    DivideSizes(n, xs, j);
  }

  /** With no more parts than items, every part receives at least one item. */
  lemma DivideNoEmptyPart<T>(n: nat, xs: seq<T>, i: nat)
    requires 0 < n <= |xs| && i < n
    ensures |Divide(n, xs)[i]| >= 1
  {
    DivideSizes(n, xs, i);
  }

  /** The first `k` parts, put back together, are the items of `xs` before part `k`. */
  lemma {:induction false} DividePrefix<T>(n: nat, xs: seq<T>, k: nat)
    requires n > 0 && k <= n
    ensures Bound(|xs|, n, k) <= |xs|
    ensures Flatten(Divide(n, xs)[..k]) == xs[..Bound(|xs|, n, k)]
  {
    BoundRange(|xs|, n, k);
    var parts := Divide(n, xs);
    if k > 0 {
      DividePrefix(n, xs, k - 1);
      var lo, hi := Bound(|xs|, n, k - 1), Bound(|xs|, n, k);
      assert parts[..k][..k - 1] == parts[..k - 1];
      assert parts[k - 1] == xs[lo..hi];
      assert xs[..hi] == xs[..lo] + xs[lo..hi];
    }
  }

  /** Concatenating the parts gives back `xs`, in its original order. */
  lemma DivideFlattens<T>(n: nat, xs: seq<T>)
    requires n > 0
    ensures Flatten(Divide(n, xs)) == xs
  {
    DividePrefix(n, xs, n);
    BoundLast(|xs|, n);
    assert Divide(n, xs)[..n] == Divide(n, xs);
  }

  lemma {:induction false} FlattenAppend<T>(a: seq<seq<T>>, b: seq<seq<T>>)
    ensures Flatten(a + b) == Flatten(a) + Flatten(b)
    decreases |b|
  {
    if b != [] {
      var b' := b[..|b| - 1];
      assert (a + b)[..|a + b| - 1] == a + b';
      FlattenAppend(a, b');
    } else {
      assert a + b == a;
    }
  }

  /** The length of a concatenation is the sum of the lengths. */
  lemma {:induction false} FlattenLength<T>(ss: seq<seq<T>>)
    ensures |Flatten(ss)| == Sum(Sizes(ss))
  {
    if ss != [] {
      calc {
        Sum(Sizes(ss));
        { SumFirst(Sizes(ss)); }
        |ss[0]| + Sum(Sizes(ss)[1..]);
        { assert Sizes(ss)[1..] == Sizes(ss[1..]); FlattenLength(ss[1..]); }
        |ss[0]| + |Flatten(ss[1..])|;
        { FlattenAppend([ss[0]], ss[1..]); assert [ss[0]] + ss[1..] == ss;
          assert Flatten([ss[0]]) == Flatten([ss[0]][..0]) + ss[0]; }
        |Flatten(ss)|;
      }
    }
  }

  lemma SumFirst(s: seq<nat>)
    requires s != []
    ensures Sum(s) == s[0] + Sum(s[1..])
  {
  }

  /** The number of workers for a list of subject groups (`min([len(subject_dirs), 4])`). */
  function WorkerCount<T>(groups: seq<T>): (n: nat)
    ensures n <= MaxWorkers && n <= |groups|
    ensures n == |groups| || n == MaxWorkers
  {
    Min(|groups|, MaxWorkers)
  }

  /** Why `run_importer` cannot start: `divide(0, …)` raises `ValueError`. */
  datatype PlanError = NoSubjectGroups

  /**
   * The subject groups each worker receives: `divide(NTHREADS, subject_dirs)`,
   * which fails when there are no groups because the worker count is then 0.
   */
  function WorkerGroups<T>(groups: seq<seq<T>>): (r: Result<seq<seq<seq<T>>>, PlanError>)
    ensures r.Failure? <==> groups == []
    ensures r.Success? ==> |r.value| == WorkerCount(groups)
  {
    if groups == [] then Failure(NoSubjectGroups) else Success(Divide(WorkerCount(groups), groups))
  }

  /** The flattened directory list of each worker (`flatten(subjects_subset)`). */
  function Batches<T>(parts: seq<seq<seq<T>>>): (r: seq<seq<T>>)
    ensures |r| == |parts|
    ensures forall i :: 0 <= i < |parts| ==> r[i] == Flatten(parts[i])
  {
    seq(|parts|, i requires 0 <= i < |parts| => Flatten(parts[i]))
  }

  lemma {:induction false} FlattenBatches<T>(parts: seq<seq<seq<T>>>)
    ensures Flatten(Batches(parts)) == Flatten(Flatten(parts))
    decreases |parts|
  {
    if parts != [] {
      var p := parts[..|parts| - 1];
      assert Batches(parts)[..|parts| - 1] == Batches(p);
      FlattenBatches(p);
      FlattenAppend(Flatten(p), parts[|parts| - 1]);
    }
  }

  /**
   * The plan of `run_importer`: between one and four workers, each with at least
   * one subject group, group counts differing by at most one, and the workers'
   * directory lists together holding every directory once, in the original order.
   */
  lemma WorkerPlan<T>(groups: seq<seq<T>>)
    requires groups != []
    ensures var parts := WorkerGroups(groups).value;
            && 1 <= |parts| <= MaxWorkers
            && Flatten(parts) == groups
            && (forall i :: 0 <= i < |parts| ==> |parts[i]| >= 1)
            && (forall i, j :: 0 <= i < |parts| && 0 <= j < |parts| ==> |parts[i]| <= |parts[j]| + 1)
            && Flatten(Batches(parts)) == Flatten(groups)
  {
    var n := WorkerCount(groups);
    var parts := WorkerGroups(groups).value;
    DivideFlattens(n, groups);
    FlattenBatches(parts);
    forall i | 0 <= i < n
      ensures |parts[i]| >= 1
    {
      DivideNoEmptyPart(n, groups, i);
    }
    forall i, j | 0 <= i < n && 0 <= j < n
      ensures |parts[i]| <= |parts[j]| + 1
    {
      DivideBalanced(n, groups, i, j);
    }
  }
}
