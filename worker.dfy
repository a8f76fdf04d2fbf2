/**
 * One import worker (`Importer_Worker`): it converts its DICOM directories one
 * after the other until it sees the stop flag, ticks the progress bar once per
 * directory it attempted, and then reports either its summaries and failures or
 * a terminate acknowledgement.
 */
module Worker {

  /** A DICOM directory, by path. */
  type Dir = string

  /** The summary data the converter records for one converted directory. */
  type Summary = map<string, string>

  /** What `process_dcm_dir` returns for one directory: its summary, or the description of the failed job. */
  datatype Conversion = Converted(summary: Summary) | Failed(jobDescription: string)

  /** The signals of `Importer_WorkerSignals`, in the order a worker emits them. */
  datatype Signal =
    | UpdateProgressbar
    | SendSummaries(summaries: seq<Summary>)
    | SendErrors(failedRuns: seq<string>)
    | ConfirmTerminate

  /** The summaries of the converted directories, in order. */
  function Successes(c: seq<Conversion>): seq<Summary>
  {
    if c == [] then []
    else Successes(c[..|c| - 1]) + (if c[|c| - 1].Converted? then [c[|c| - 1].summary] else [])
  }

  /** The job descriptions of the failed directories, in order. */
  function Failures(c: seq<Conversion>): seq<string>
  {
    if c == [] then []
    else Failures(c[..|c| - 1]) + (if c[|c| - 1].Failed? then [c[|c| - 1].jobDescription] else [])
  }

  /**
   * Every attempted directory lands in exactly one of the two lists: successes
   * only among the summaries, failures only among the failed runs.
   */
  lemma {:induction false} OutcomesSorted(c: seq<Conversion>)
    ensures |Successes(c)| + |Failures(c)| == |c|
    ensures forall s :: s in Successes(c) <==> exists i :: 0 <= i < |c| && c[i] == Converted(s)
    ensures forall d :: d in Failures(c) <==> exists i :: 0 <= i < |c| && c[i] == Failed(d)
  {
    if c != [] {
      var p := c[..|c| - 1];
      OutcomesSorted(p);
      forall s | s in Successes(c)
        ensures exists i :: 0 <= i < |c| && c[i] == Converted(s)
      {
        if s in Successes(p) {
          var i :| 0 <= i < |p| && p[i] == Converted(s);
          assert c[i] == Converted(s);
        } else {
          assert c[|c| - 1] == Converted(s);
        }
      }
      forall s | exists i :: 0 <= i < |c| && c[i] == Converted(s)
        ensures s in Successes(c)
      {
        var i :| 0 <= i < |c| && c[i] == Converted(s);
        if i < |p| {
          assert p[i] == Converted(s);
        }
      }
      forall d | d in Failures(c)
        ensures exists i :: 0 <= i < |c| && c[i] == Failed(d)
      {
        if d in Failures(p) {
          var i :| 0 <= i < |p| && p[i] == Failed(d);
          assert c[i] == Failed(d);
        } else {
          assert c[|c| - 1] == Failed(d);
        }
      }
      forall d | exists i :: 0 <= i < |c| && c[i] == Failed(d)
        ensures d in Failures(c)
      {
        var i :| 0 <= i < |c| && c[i] == Failed(d);
        if i < |p| {
          assert p[i] == Failed(d);
        }
      }
    }
  }

  /** `k` progress ticks. */
  function Ticks(k: nat): (r: seq<Signal>)
    ensures |r| == k && forall i :: 0 <= i < k ==> r[i] == UpdateProgressbar
  {
    seq(k, _ => UpdateProgressbar)
  }

  /**
   * What a worker emits after attempting `ticks` directories: the ticks, then
   * either the terminate acknowledgement, or its summaries followed by its
   * failures when there are any.
   */
  function Emitted(ticks: nat, stopped: bool, summaries: seq<Summary>, failedRuns: seq<string>): seq<Signal>
  {
    Ticks(ticks)
    + if stopped then [ConfirmTerminate]
      else [SendSummaries(summaries)] + (if |failedRuns| > 0 then [SendErrors(failedRuns)] else [])
  }

  /**
   * How many directories a worker attempts when the stop signal reaches it just
   * before check number `stopAt` (one check per directory, then the final one):
   * none when it was stopped before it started.
   */
  function Attempted(stoppedBefore: bool, stopAt: nat, dirs: nat): (k: nat)
    ensures k <= dirs
  {
    if stoppedBefore then 0 else if stopAt <= dirs then stopAt else dirs
  }

  /** The signals of a fresh worker over `outcomes`, stopped before check `stopAt`. */
  function WorkerSignals(outcomes: seq<Conversion>, stopAt: nat): seq<Signal>
  {
    var k := Attempted(false, stopAt, |outcomes|);
    Emitted(k, stopAt <= |outcomes|, Successes(outcomes[..k]), Failures(outcomes[..k]))
  }

  /** The number of progress ticks in a signal list. */
  function CountTicks(signals: seq<Signal>): nat
  {
    if signals == [] then 0
    else CountTicks(signals[..|signals| - 1]) + (if signals[|signals| - 1].UpdateProgressbar? then 1 else 0)
  }

  /** The signals that end a worker's run: its summaries or its terminate acknowledgement. */
  predicate Finishes(s: Signal)
  {
    s.SendSummaries? || s.ConfirmTerminate?
  }

  /** The number of finishing signals in a signal list. */
  function CountFinishes(signals: seq<Signal>): nat
  {
    if signals == [] then 0
    else CountFinishes(signals[..|signals| - 1]) + (if Finishes(signals[|signals| - 1]) then 1 else 0)
  }

  lemma {:induction false} CountsAppend(a: seq<Signal>, b: seq<Signal>)
    ensures CountTicks(a + b) == CountTicks(a) + CountTicks(b)
    ensures CountFinishes(a + b) == CountFinishes(a) + CountFinishes(b)
    decreases |b|
  {
    if b == [] {
      assert a + b == a;
    } else {
      assert (a + b)[..|a + b| - 1] == a + b[..|b| - 1];
      CountsAppend(a, b[..|b| - 1]);
    }
  }

  lemma {:induction false} TicksCounts(k: nat)
    ensures CountTicks(Ticks(k)) == k && CountFinishes(Ticks(k)) == 0
  {
    if k > 0 {
      assert Ticks(k)[..k - 1] == Ticks(k - 1);
      TicksCounts(k - 1);
    }
  }

  /**
   * A worker ticks the progress bar once per directory it attempted before it
   * saw the stop flag, and finishes exactly once.
   */
  lemma WorkerTicks(outcomes: seq<Conversion>, stopAt: nat)
    ensures CountTicks(WorkerSignals(outcomes, stopAt)) == Attempted(false, stopAt, |outcomes|)
    ensures CountFinishes(WorkerSignals(outcomes, stopAt)) == 1
  {
    var k := Attempted(false, stopAt, |outcomes|);
    var tail := WorkerSignals(outcomes, stopAt)[k..];
    assert WorkerSignals(outcomes, stopAt) == Ticks(k) + tail;
    CountsAppend(Ticks(k), tail);
    TicksCounts(k);
    if |tail| == 2 {
      assert tail == [tail[0]] + [tail[1]];
      CountsAppend([tail[0]], [tail[1]]);
      assert [tail[0]][..0] == [];
      assert [tail[1]][..0] == [];
    } else {
      assert [tail[0]][..0] == [];
    }
  }

  /** A stopped worker acknowledges the stop and never reports summaries or errors. */
  lemma StoppedWorkerOnlyAcknowledges(outcomes: seq<Conversion>, stopAt: nat)
    requires stopAt <= |outcomes|
    ensures WorkerSignals(outcomes, stopAt) == Ticks(stopAt) + [ConfirmTerminate]
    ensures forall i :: 0 <= i < |WorkerSignals(outcomes, stopAt)| ==>
              !WorkerSignals(outcomes, stopAt)[i].SendSummaries? && !WorkerSignals(outcomes, stopAt)[i].SendErrors?
  {
  }

  /** Some directory failed exactly when the failure list is not empty. */
  lemma {:induction false} FailuresNonEmpty(c: seq<Conversion>)
    ensures |Failures(c)| > 0 <==> exists i :: 0 <= i < |c| && c[i].Failed?
  {
    if c != [] {
      var p := c[..|c| - 1];
      FailuresNonEmpty(p);
      if exists i :: 0 <= i < |p| && p[i].Failed? {
        var i :| 0 <= i < |p| && p[i].Failed?;
        assert c[i].Failed?;
      }
      if exists i :: 0 <= i < |c| && c[i].Failed? {
        var i :| 0 <= i < |c| && c[i].Failed?;
        if i < |p| {
          assert p[i].Failed?;
        }
      }
    }
  }

  /**
   * A worker that is never stopped in time attempts every directory, reports all
   * its summaries, and then, only when some directory failed, all its failures.
   */
  lemma FinishedWorkerReports(outcomes: seq<Conversion>, stopAt: nat)
    requires stopAt > |outcomes|
    ensures var signals := WorkerSignals(outcomes, stopAt);
            var n := |outcomes|;
            && signals[..n] == Ticks(n)
            && signals[n] == SendSummaries(Successes(outcomes))
            && (|signals| == n + 2 <==> exists i :: 0 <= i < n && outcomes[i].Failed?)
            && (|signals| == n + 2 ==> signals[n + 1] == SendErrors(Failures(outcomes)))
            && ConfirmTerminate !in signals
  {
    var n := |outcomes|;
    assert outcomes[..n] == outcomes;
    var tail := [SendSummaries(Successes(outcomes))]
                + (if |Failures(outcomes)| > 0 then [SendErrors(Failures(outcomes))] else []);
    assert WorkerSignals(outcomes, stopAt) == Ticks(n) + tail;
    FailuresNonEmpty(outcomes);
  }

  /** `Importer_Worker`: its directories, its result lists and its stop flag. */
  class ImporterWorker {
    var dcmDirs: seq<Dir>
    var importSummaries: seq<Summary>
    var failedRuns: seq<string>
    var terminated: bool

    constructor (dirs: seq<Dir>)
      ensures dcmDirs == dirs && importSummaries == [] && failedRuns == [] && !terminated
    {
      dcmDirs := dirs;
      importSummaries := [];
      failedRuns := [];
      terminated := false;
    }

    /** `slot_stop_import`: raise the stop flag; the current directory is still finished. */
    method SlotStopImport()
      modifies this
      ensures terminated
      ensures dcmDirs == old(dcmDirs) && importSummaries == old(importSummaries) && failedRuns == old(failedRuns)
    {
      terminated := true;
    }

    /**
     * `run`: `outcomes[i]` is what the converter returns for `dcmDirs[i]`, and the
     * stop signal reaches the worker just before check number `stopAt` (checks
     * `0 .. |dcmDirs| - 1` precede the directories, check `|dcmDirs|` is the final one).
     */
    method Run(outcomes: seq<Conversion>, stopAt: nat) returns (signals: seq<Signal>)
      requires |outcomes| == |dcmDirs|
      modifies this
      ensures dcmDirs == old(dcmDirs)
      ensures terminated == (old(terminated) || stopAt <= |dcmDirs|)
      ensures var k := Attempted(old(terminated), stopAt, |dcmDirs|);
              && importSummaries == old(importSummaries) + Successes(outcomes[..k])
              && failedRuns == old(failedRuns) + Failures(outcomes[..k])
              && signals == Emitted(k, terminated, importSummaries, failedRuns)
    {
      ghost var k := Attempted(old(terminated), stopAt, |dcmDirs|);
      var i := 0;
      signals := [];
      while i < |dcmDirs|
        invariant 0 <= i <= |dcmDirs| && dcmDirs == old(dcmDirs)
        invariant terminated == (old(terminated) || stopAt < i)
        invariant var a := Attempted(old(terminated), stopAt, i);
                  && importSummaries == old(importSummaries) + Successes(outcomes[..a])
                  && failedRuns == old(failedRuns) + Failures(outcomes[..a])
                  && signals == Ticks(a)
      {
        if i == stopAt {
          SlotStopImport();
        }
        if !terminated {
          assert outcomes[..i + 1][..i] == outcomes[..i];
          match outcomes[i] {
            case Converted(summary) =>
              importSummaries := importSummaries + [summary];
            case Failed(jobDescription) =>
              failedRuns := failedRuns + [jobDescription];
          }
          signals := signals + [UpdateProgressbar];
        }
        i := i + 1;
      }
      if i == stopAt {
        SlotStopImport();
      }
      if !terminated {
        signals := signals + [SendSummaries(importSummaries)];
        if |failedRuns| > 0 {
          signals := signals + [SendErrors(failedRuns)];
        }
      } else {
        signals := signals + [ConfirmTerminate];
      }
    }
  }

  /** A fresh worker's run emits exactly `WorkerSignals`. */
  method RunFresh(dirs: seq<Dir>, outcomes: seq<Conversion>, stopAt: nat) returns (signals: seq<Signal>)
    requires |outcomes| == |dirs|
    ensures signals == WorkerSignals(outcomes, stopAt)
  {
    var w := new ImporterWorker(dirs);
    signals := w.Run(outcomes, stopAt);
    assert outcomes[..|outcomes|] == outcomes;
    assert w.importSummaries == Successes(outcomes[..Attempted(false, stopAt, |outcomes|)]);
    assert w.failedRuns == Failures(outcomes[..Attempted(false, stopAt, |outcomes|)]);
  }
}
