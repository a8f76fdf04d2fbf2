/**
 * The importer window's side of an import run: `run_importer` launches the
 * workers, the slots connected to the workers' signals count finished workers
 * down and collect their results, and `import_postprocessing` consolidates the
 * run once a worker's summaries bring the count to zero. Worker signals are
 * delivered to the window one at a time, so the run is modelled as a sequential
 * event machine over a list of delivered signals.
 */
module Coordinator {
  import opened Common
  import opened Text
  import opened Partition
  import opened Worker
  import ImportSetup

  // --------------------------------------------------------------------------
  // The strings written by `import_postprocessing`
  // --------------------------------------------------------------------------

  /** `c * n` for a one-character string. */
  function Repeat(c: char, n: nat): string
  {
    seq(n, _ => c)
  }

  /** The separator between converter logs in the import log: a line of 50 `#`. */
  const PrimarySeparator: string := "\n" + Repeat('#', 50) + "\n"

  /** The separator between converter logs in the backup import log. */
  const BackupSeparator: string := "\n\n"

  /** The facts about the file system that `import_postprocessing` depends on. */
  datatype FileSystem = FileSystem(
    analysisDirExists: bool,    // the study directory next to the raw directory
    converterLogs: seq<string>, // the converter log files, in sorted file-name order
    primaryLogWritable: bool)   // false when opening the import log raises PermissionError

  /** The import log that is written: the primary one, or the backup after a PermissionError. */
  datatype ImportLog = PrimaryLog(text: string) | BackupLog(text: string)

  /** What one consolidation produces. */
  datatype Report =
    | StudyDirNeverMade
    | Imported(log: ImportLog, summaries: seq<Summary>, failedLedger: Option<string>)

  /** The ledger of failed runs: every failure on its own line, each line ended by a newline. */
  function Ledger(failedRuns: seq<string>): string
  {
    if failedRuns == [] then "" else failedRuns[0] + "\n" + Ledger(failedRuns[1..])
  }

  /** The ledger is the failures joined by newlines, with a final newline. */
  lemma {:induction false} LedgerIsJoin(failedRuns: seq<string>)
    requires failedRuns != []
    ensures Ledger(failedRuns) == Join("\n", failedRuns) + "\n"
  {
    if |failedRuns| > 1 {
      LedgerIsJoin(failedRuns[1..]);
    }
  }

  /**
   * Reading the ledger back line by line gives the failures back, provided no
   * failure description spans lines.
   */
  lemma LedgerRoundTrip(failedRuns: seq<string>)
    requires failedRuns != []
    requires forall k, i :: 0 <= k < |failedRuns| && 0 <= i < |failedRuns[k]| ==> failedRuns[k][i] != '\n'
    ensures var ledger := Ledger(failedRuns);
            |ledger| > 0 && ledger[|ledger| - 1] == '\n'
            && Split(ledger[..|ledger| - 1], "\n") == failedRuns
  {
    LedgerIsJoin(failedRuns);
    var joined := Join("\n", failedRuns);
    assert (joined + "\n")[..|joined|] == joined;
    SplitJoin(failedRuns, "\n");
  }

  /** A join is as long as its parts plus one separator between each neighbouring pair. */
  lemma {:induction false} JoinLength(sep: string, parts: seq<string>)
    requires parts != []
    ensures |Join(sep, parts)| == Sum(Sizes(parts)) + (|parts| - 1) * |sep|
  {
    SumFirst(Sizes(parts));
    assert Sizes(parts)[1..] == Sizes(parts[1..]);
    if |parts| > 1 {
      JoinLength(sep, parts[1..]);
      assert (|parts| - 1) * |sep| == (|parts| - 2) * |sep| + |sep|;
    }
  }

  /** The import log written from the converter logs (`import_postprocessing`'s try and except). */
  function ImportLogOf(fs: FileSystem): ImportLog
  {
    if fs.primaryLogWritable then PrimaryLog(Join(PrimarySeparator, fs.converterLogs))
    else BackupLog(Join(BackupSeparator, fs.converterLogs))
  }

  /**
   * Both import logs hold every converter log in order; the primary log puts 52
   * characters between neighbours, the backup log 2.
   */
  lemma ImportLogLength(fs: FileSystem)
    requires fs.converterLogs != []
    ensures |ImportLogOf(fs).text| == Sum(Sizes(fs.converterLogs))
                                      + (|fs.converterLogs| - 1) * (if fs.primaryLogWritable then 52 else 2)
  {
    JoinLength(PrimarySeparator, fs.converterLogs);
    JoinLength(BackupSeparator, fs.converterLogs);
  }

  /** With no converter logs, the import log is empty. */
  lemma NoConverterLogs(fs: FileSystem)
    requires fs.converterLogs == []
    ensures ImportLogOf(fs).text == ""
  {
  }

  /**
   * `import_postprocessing` after the widgets are reset: nothing unless the study
   * directory exists; otherwise the import log, the summaries handed to the
   * import summary, and the ledger of failed runs when there are any.
   */
  function PostProcess(summaries: seq<Summary>, failedRuns: seq<string>, fs: FileSystem): Report
  {
    if !fs.analysisDirExists then StudyDirNeverMade
    else Imported(ImportLogOf(fs), summaries, if |failedRuns| > 0 then Some(Ledger(failedRuns)) else None)
  }

  /** The run ends with the "import errors" message rather than the success message. */
  predicate PartialSuccess(r: Report)
  {
    r.Imported? && r.failedLedger.Some?
  }

  /**
   * A consolidation reports errors exactly when failures have been collected by
   * then, and then lists every one of them in the ledger.
   */
  lemma PostProcessOutcome(summaries: seq<Summary>, failedRuns: seq<string>, fs: FileSystem)
    requires fs.analysisDirExists
    ensures var r := PostProcess(summaries, failedRuns, fs);
            && r.Imported? && r.summaries == summaries && r.log == ImportLogOf(fs)
            && (PartialSuccess(r) <==> failedRuns != [])
            && (PartialSuccess(r) ==> r.failedLedger.value == Join("\n", failedRuns) + "\n")
  {
    if failedRuns != [] {
      LedgerIsJoin(failedRuns);
    }
  }

  // --------------------------------------------------------------------------
  // The coordinator's state and its slots as functions
  // --------------------------------------------------------------------------

  /** The window fields an import run reads and updates. */
  datatype State = State(
    pending: int,                              // n_import_workers
    parms: Option<ImportSetup.ImportParms>,    // import_parms
    summaries: seq<Summary>,                   // import_summaries
    failedRuns: seq<string>,                   // failed_runs
    progress: nat,                             // the progress bar's value
    progressMax: nat,                          // the progress bar's maximum
    widgetsOn: bool,                           // the state last passed to set_widgets_on_or_off
    stopEnabled: bool,                         // the terminate button
    reports: seq<Report>)                      // every consolidation so far

  /**
   * The window before its first run: the progress bar starts at 0 of 1, and
   * `widgetsOn` is true because `set_widgets_on_or_off` has not switched the
   * widgets off yet (the run button itself starts disabled until
   * `is_ready_import` enables it, which this state does not record).
   */
  const Initial := State(0, None, [], [], 0, 1, true, false, [])

  /**
   * `QProgressBar.setValue` for a bar whose minimum is 0: a value above the
   * maximum is ignored unless the range is 0..0.
   */
  function SetProgress(current: nat, value: nat, maximum: nat): (r: nat)
    ensures r == value || r == current
    ensures value <= maximum ==> r == value
    ensures maximum != 0 && current <= maximum ==> r <= maximum
  {
    if value > maximum && maximum != 0 then current else value
  }

  /** `slot_update_progressbar`. */
  function OnProgress(st: State): (r: State)
    ensures r == st.(progress := r.progress)
    ensures st.progress < st.progressMax ==> r.progress == st.progress + 1
    ensures st.progressMax != 0 && st.progress <= st.progressMax ==> r.progress <= st.progressMax
  {
    st.(progress := SetProgress(st.progress, st.progress + 1, st.progressMax))
  }

  /**
   * `slot_cleanup_postterminate`: one worker fewer, the collected results are
   * discarded, and the widgets come back once no worker is left.
   */
  function OnTerminate(st: State): State
  {
    var s := st.(pending := st.pending - 1, summaries := [], failedRuns := []);
    if s.pending > 0 || s.parms.None? then s else s.(widgetsOn := true, stopEnabled := false)
  }

  /** `import_postprocessing`: widgets back on, the terminate button off, and a report. */
  function Consolidate(st: State, fs: FileSystem): State
  {
    st.(widgetsOn := true, stopEnabled := false,
        reports := st.reports + [PostProcess(st.summaries, st.failedRuns, fs)])
  }

  /**
   * `slot_is_ready_postprocessing`: the summaries are kept, one worker fewer, and
   * the run is consolidated once no worker is left.
   */
  function OnSummaries(st: State, summaries: seq<Summary>, fs: FileSystem): State
  {
    var s := st.(summaries := st.summaries + summaries, pending := st.pending - 1);
    if s.pending > 0 || s.parms.None? then s else Consolidate(s, fs)
  }

  /** `slot_update_failed_runs_log`. */
  function OnErrors(st: State, failedRuns: seq<string>): State
  {
    st.(failedRuns := st.failedRuns + failedRuns)
  }

  /** The slot each worker signal is connected to in `run_importer`. */
  function Step(st: State, signal: Signal, fs: FileSystem): State
  {
    match signal
    case UpdateProgressbar => OnProgress(st)
    case SendSummaries(summaries) => OnSummaries(st, summaries, fs)
    case SendErrors(failedRuns) => OnErrors(st, failedRuns)
    case ConfirmTerminate => OnTerminate(st)
  }

  /** The state after the signals of `trace` were delivered in order. */
  function Deliver(st: State, trace: seq<Signal>, fs: FileSystem): State
  {
    if trace == [] then st else Step(Deliver(st, trace[..|trace| - 1], fs), trace[|trace| - 1], fs)
  }

  // --------------------------------------------------------------------------
  // Properties of single steps
  // --------------------------------------------------------------------------

  /**
   * Each summaries or terminate signal takes exactly one worker off the count;
   * progress and error signals leave the count alone. No slot changes the
   * import parameters or the progress maximum, and reports are only appended.
   */
  lemma StepCounter(st: State, signal: Signal, fs: FileSystem)
    ensures var s := Step(st, signal, fs);
            && s.pending == st.pending - (if Finishes(signal) then 1 else 0)
            && s.parms == st.parms && s.progressMax == st.progressMax
            && |s.reports| >= |st.reports| && s.reports[..|st.reports|] == st.reports
  {
  }

  /** A terminate signal throws away the collected results and never consolidates. */
  lemma TerminateDiscards(st: State, fs: FileSystem)
    ensures var s := Step(st, ConfirmTerminate, fs);
            s.summaries == [] && s.failedRuns == [] && s.reports == st.reports
            && (s.widgetsOn <==> (st.widgetsOn || (st.pending <= 1 && st.parms.Some?)))
  {
  }

  /**
   * A signal consolidates the run exactly when it is a worker's summaries and it
   * brings the count to zero while import parameters are set.
   */
  lemma ConsolidatesOnlyAtZero(st: State, signal: Signal, fs: FileSystem)
    ensures var s := Step(st, signal, fs);
            (|s.reports| == |st.reports| + 1 <==> (signal.SendSummaries? && st.pending <= 1 && st.parms.Some?))
            && (|s.reports| != |st.reports| + 1 ==> s.reports == st.reports)
  {
  }

  /** The report of a consolidation sees the summaries and failures collected so far. */
  lemma ConsolidationReport(st: State, summaries: seq<Summary>, fs: FileSystem)
    requires st.pending == 1 && st.parms.Some?
    ensures Step(st, SendSummaries(summaries), fs).reports
            == st.reports + [PostProcess(st.summaries + summaries, st.failedRuns, fs)]
  {
  }

  // --------------------------------------------------------------------------
  // Properties of delivered traces
  // --------------------------------------------------------------------------

  lemma {:induction false} DeliverCounter(st: State, trace: seq<Signal>, fs: FileSystem)
    ensures var s := Deliver(st, trace, fs);
            && s.pending == st.pending - CountFinishes(trace)
            && s.parms == st.parms && s.progressMax == st.progressMax
            && |s.reports| >= |st.reports| && s.reports[..|st.reports|] == st.reports
  {
    if trace != [] {
      var p := trace[..|trace| - 1];
      DeliverCounter(st, p, fs);
      StepCounter(Deliver(st, p, fs), trace[|trace| - 1], fs);
    }
  }

  /** At most ticks-many progress: the bar counts every tick while it stays in range. */
  lemma {:induction false} DeliverProgress(st: State, trace: seq<Signal>, fs: FileSystem)
    requires st.progress + CountTicks(trace) <= st.progressMax
    ensures Deliver(st, trace, fs).progress == st.progress + CountTicks(trace)
  {
    if trace != [] {
      var p := trace[..|trace| - 1];
      assert CountTicks(p) <= CountTicks(trace);
      DeliverProgress(st, p, fs);
      DeliverCounter(st, p, fs);
    }
  }

  /** Whether the last finishing signal of `trace` is a worker's summaries. */
  predicate EndsWithSummaries(trace: seq<Signal>)
  {
    if trace == [] then false
    else if Finishes(trace[|trace| - 1]) then trace[|trace| - 1].SendSummaries?
    else EndsWithSummaries(trace[..|trace| - 1])
  }

  /**
   * With `extra` more workers counted than finish in `trace`, the run is
   * consolidated at most once: exactly when no worker is left over and the last
   * worker to finish sent its summaries rather than a terminate acknowledgement.
   */
  lemma {:induction false} SingleConsolidation(st: State, trace: seq<Signal>, fs: FileSystem, extra: nat)
    requires st.parms.Some? && st.pending == CountFinishes(trace) + extra
    ensures |Deliver(st, trace, fs).reports|
            == |st.reports| + (if extra == 0 && EndsWithSummaries(trace) then 1 else 0)
  {
    if trace != [] {
      var p := trace[..|trace| - 1];
      var last := trace[|trace| - 1];
      var extraBefore: nat := extra + (if Finishes(last) then 1 else 0);
      SingleConsolidation(st, p, fs, extraBefore);
      DeliverCounter(st, p, fs);
      ConsolidatesOnlyAtZero(Deliver(st, p, fs), last, fs);
    }
  }

  /**
   * The last worker reports its summaries before its errors, so when its
   * summaries trigger the consolidation, its own failures are merged only
   * afterwards: they are missing from the ledger and do not make the run a
   * partial success.
   */
  lemma LastWorkerErrorsMissLedger(st: State, summaries: seq<Summary>, failedRuns: seq<string>, fs: FileSystem)
    requires st.pending == 1 && st.parms.Some? && fs.analysisDirExists
    ensures var s := Deliver(st, [SendSummaries(summaries), SendErrors(failedRuns)], fs);
            && s.reports == st.reports + [PostProcess(st.summaries + summaries, st.failedRuns, fs)]
            && s.failedRuns == st.failedRuns + failedRuns
            && (st.failedRuns == [] ==> !PartialSuccess(s.reports[|s.reports| - 1]))
  {
    var trace := [SendSummaries(summaries), SendErrors(failedRuns)];
    var first := Step(st, SendSummaries(summaries), fs);
    assert trace[..1][..0] == [];
    assert Deliver(st, trace[..1], fs) == first;
    assert Deliver(st, trace, fs) == Step(first, SendErrors(failedRuns), fs);
  }

  // --------------------------------------------------------------------------
  // A whole run without a stop, the workers reporting one after another
  // --------------------------------------------------------------------------

  /** The signals of a worker that is never stopped. */
  function Unstopped(outcomes: seq<Conversion>): seq<Signal>
  {
    WorkerSignals(outcomes, |outcomes| + 1)
  }

  /** The workers' signals, each worker's delivered after the previous worker's. */
  function InTurn(runs: seq<seq<Conversion>>): seq<Signal>
  {
    if runs == [] then [] else InTurn(runs[..|runs| - 1]) + Unstopped(runs[|runs| - 1])
  }

  /** Every worker's summaries, in worker order. */
  function AllSuccesses(runs: seq<seq<Conversion>>): seq<Summary>
  {
    if runs == [] then [] else AllSuccesses(runs[..|runs| - 1]) + Successes(runs[|runs| - 1])
  }

  /** Every worker's failures, in worker order. */
  function AllFailures(runs: seq<seq<Conversion>>): seq<string>
  {
    if runs == [] then [] else AllFailures(runs[..|runs| - 1]) + Failures(runs[|runs| - 1])
  }

  lemma {:induction false} DeliverAppend(st: State, a: seq<Signal>, b: seq<Signal>, fs: FileSystem)
    ensures Deliver(st, a + b, fs) == Deliver(Deliver(st, a, fs), b, fs)
    decreases |b|
  {
    if b == [] {
      assert a + b == a;
    } else {
      assert (a + b)[..|a + b| - 1] == a + b[..|b| - 1];
      DeliverAppend(st, a, b[..|b| - 1], fs);
    }
  }

  /** Progress ticks within the bar's range only move the bar. */
  lemma {:induction false} DeliverTicks(st: State, k: nat, fs: FileSystem)
    requires st.progress + k <= st.progressMax
    ensures Deliver(st, Ticks(k), fs) == st.(progress := st.progress + k)
  {
    if k > 0 {
      assert Ticks(k)[..k - 1] == Ticks(k - 1);
      DeliverTicks(st, k - 1, fs);
    }
  }

  lemma DeliverShort(st: State, x: Signal, y: Signal, fs: FileSystem)
    ensures Deliver(st, [x], fs) == Step(st, x, fs)
    ensures Deliver(st, [x, y], fs) == Step(Step(st, x, fs), y, fs)
  {
    assert [x][..0] == [];
    assert [x, y][..1] == [x];
  }

  /**
   * One worker's complete report: its ticks move the bar, its summaries and
   * failures are collected, and if it was the last worker counted its summaries
   * consolidate the run before its failures arrive.
   */
  lemma DeliverUnstopped(st: State, outcomes: seq<Conversion>, fs: FileSystem)
    requires st.parms.Some? && st.pending >= 1 && st.progress + |outcomes| <= st.progressMax
    ensures var s := Deliver(st, Unstopped(outcomes), fs);
            && s.pending == st.pending - 1 && s.parms == st.parms && s.progressMax == st.progressMax
            && s.progress == st.progress + |outcomes|
            && s.summaries == st.summaries + Successes(outcomes)
            && s.failedRuns == st.failedRuns + Failures(outcomes)
            && s.reports == st.reports + (if st.pending == 1
                                          then [PostProcess(st.summaries + Successes(outcomes), st.failedRuns, fs)]
                                          else [])
  {
    var n := |outcomes|;
    assert outcomes[..n] == outcomes;
    var summaries := SendSummaries(Successes(outcomes));
    var errors := SendErrors(Failures(outcomes));
    var tail := [summaries] + (if |Failures(outcomes)| > 0 then [errors] else []);
    assert Unstopped(outcomes) == Ticks(n) + tail;
    DeliverAppend(st, Ticks(n), tail, fs);
    DeliverTicks(st, n, fs);
    DeliverShort(st.(progress := st.progress + n), summaries, errors, fs);
  }

  /**
   * Workers reporting one after another: within the bar's range the progress
   * counts every directory, all results are collected in worker order, and the
   * run is consolidated once, by the summaries of the last of the counted
   * workers, before that worker's failures are merged.
   */
  lemma {:induction false} DeliverInTurn(st: State, runs: seq<seq<Conversion>>, fs: FileSystem)
    requires st.parms.Some? && st.pending >= |runs|
    requires st.progress + |Flatten(runs)| <= st.progressMax
    ensures var s := Deliver(st, InTurn(runs), fs);
            && s.pending == st.pending - |runs| && s.parms == st.parms && s.progressMax == st.progressMax
            && s.progress == st.progress + |Flatten(runs)|
            && s.summaries == st.summaries + AllSuccesses(runs)
            && s.failedRuns == st.failedRuns + AllFailures(runs)
            && s.reports == st.reports
                            + (if runs != [] && st.pending == |runs|
                               then [PostProcess(st.summaries + AllSuccesses(runs),
                                                 st.failedRuns + AllFailures(runs[..|runs| - 1]), fs)]
                               else [])
  {
    if runs != [] {
      var p := runs[..|runs| - 1];
      var last := runs[|runs| - 1];
      assert |Flatten(runs)| == |Flatten(p)| + |last|;
      DeliverInTurn(st, p, fs);
      var mid := Deliver(st, InTurn(p), fs);
      assert InTurn(runs) == InTurn(p) + Unstopped(last);
      DeliverAppend(st, InTurn(p), Unstopped(last), fs);
      DeliverUnstopped(mid, last, fs);
      var s := Deliver(st, InTurn(runs), fs);
      assert s == Deliver(mid, Unstopped(last), fs);
      assert AllSuccesses(runs) == AllSuccesses(p) + Successes(last);
      assert AllFailures(runs) == AllFailures(p) + Failures(last);
      assert mid.summaries + Successes(last) == st.summaries + AllSuccesses(runs);
      assert mid.failedRuns + Failures(last) == st.failedRuns + AllFailures(runs);
      if st.pending == |runs| {
        assert mid.pending == 1;
        assert mid.reports == st.reports;
      } else {
        assert mid.pending > 1;
      }
    }
  }

  /** The lengths of the outcome lists match the directory lists they were produced for. */
  predicate OutcomesFit(runs: seq<seq<Conversion>>, batches: seq<seq<Dir>>)
  {
    |runs| == |batches| && forall i :: 0 <= i < |runs| ==> |runs[i]| == |batches[i]|
  }

  /**
   * The run that `run_importer` launches, with no stop and the workers reporting
   * one after another: the progress bar ends full, exactly one consolidation
   * happens and sees every summary, but the ledger misses the last worker's
   * failures, which only reach `failed_runs` afterwards.
   */
  lemma RunWithoutStop(parms: ImportSetup.ImportParms, groups: seq<seq<Dir>>, runs: seq<seq<Conversion>>,
                       fs: FileSystem, earlier: seq<Report>, stopEnabled: bool)
    requires groups != []
    requires OutcomesFit(runs, Batches(WorkerGroups(groups).value))
    ensures var st := State(WorkerCount(groups), Some(parms), [], [], 0, |Flatten(groups)|, false, stopEnabled, earlier);
            var s := Deliver(st, InTurn(runs), fs);
            && s.pending == 0
            && s.progress == s.progressMax == |Flatten(groups)|
            && s.reports == earlier + [PostProcess(AllSuccesses(runs), AllFailures(runs[..|runs| - 1]), fs)]
            && s.failedRuns == AllFailures(runs)
  {
    var st := State(WorkerCount(groups), Some(parms), [], [], 0, |Flatten(groups)|, false, stopEnabled, earlier);
    var batches := Batches(WorkerGroups(groups).value);
    WorkerPlan(groups);
    assert |runs| == WorkerCount(groups) >= 1;
    FlattenLength(runs);
    FlattenLength(batches);
    assert Sizes(runs) == Sizes(batches);
    assert |Flatten(runs)| == |Flatten(groups)|;
    DeliverInTurn(st, runs, fs);
    assert st.summaries + AllSuccesses(runs) == AllSuccesses(runs);
    assert st.failedRuns + AllFailures(runs[..|runs| - 1]) == AllFailures(runs[..|runs| - 1]);
  }

  // --------------------------------------------------------------------------
  // The window as an object
  // --------------------------------------------------------------------------

  /** How `run_importer` ends. */
  datatype Launch =
    | ParmsRejected        // get_import_parms returned None
    | NoDicomDirectories   // divide(0, ...) raised ValueError
    | Launched(workers: nat)

  /** The import-run fields of `xASL_GUI_Importer` and the slots that update them. */
  class ImportRun {
    var st: State
    var workers: seq<ImporterWorker>

    constructor ()
      ensures st == Initial && workers == []
    {
      st := Initial;
      workers := [];
    }

    method SlotUpdateProgressbar()
      modifies this
      ensures st == OnProgress(old(st)) && workers == old(workers)
    {
      var value := st.progress + 1;
      if value <= st.progressMax || st.progressMax == 0 {
        st := st.(progress := value);
      }
    }

    method SlotCleanupPostterminate()
      modifies this
      ensures st == OnTerminate(old(st)) && workers == old(workers)
    {
      st := st.(pending := st.pending - 1);
      if |st.summaries| > 0 {
        st := st.(summaries := []);
      }
      if |st.failedRuns| > 0 {
        st := st.(failedRuns := []);
      }
      if st.pending > 0 || st.parms.None? {
        return;
      }
      st := st.(widgetsOn := true, stopEnabled := false);
    }

    method SlotIsReadyPostprocessing(summaries: seq<Summary>, fs: FileSystem)
      modifies this
      ensures st == OnSummaries(old(st), summaries, fs)
      ensures workers == (if st.reports == old(st.reports) then old(workers) else [])
    {
      st := st.(summaries := st.summaries + summaries);
      st := st.(pending := st.pending - 1);
      if st.pending > 0 || st.parms.None? {
        return;
      }
      ImportPostprocessing(fs);
    }

    method SlotUpdateFailedRunsLog(failedRuns: seq<string>)
      modifies this
      ensures st == OnErrors(old(st), failedRuns) && workers == old(workers)
    {
      st := st.(failedRuns := st.failedRuns + failedRuns);
    }

    method ImportPostprocessing(fs: FileSystem)
      modifies this
      ensures st == Consolidate(old(st), fs) && workers == []
    {
      workers := [];
      st := st.(widgetsOn := true, stopEnabled := false);
      var report: Report;
      if !fs.analysisDirExists {
        report := StudyDirNeverMade;
      } else {
        var log;
        if fs.primaryLogWritable {
          log := PrimaryLog(Join(PrimarySeparator, fs.converterLogs));
        } else {
          log := BackupLog(Join(BackupSeparator, fs.converterLogs));
        }
        var ledger := None;
        if |st.failedRuns| > 0 {
          ledger := Some(Ledger(st.failedRuns));
        }
        report := Imported(log, st.summaries, ledger);
      }
      st := st.(reports := st.reports + [report]);
    }

    /** Route one worker signal to the slot `run_importer` connected it to. */
    method Receive(signal: Signal, fs: FileSystem)
      modifies this
      ensures st == Step(old(st), signal, fs)
      ensures workers == (if st.reports == old(st.reports) then old(workers) else [])
    {
      match signal {
        case UpdateProgressbar => SlotUpdateProgressbar();
        case SendSummaries(summaries) => SlotIsReadyPostprocessing(summaries, fs);
        case SendErrors(failedRuns) => SlotUpdateFailedRunsLog(failedRuns);
        case ConfirmTerminate => SlotCleanupPostterminate();
      }
    }

    /**
     * `run_importer`: `parms` is what `get_import_parms` returned and `groups` the
     * subject groups of DICOM directories found under the raw directory.
     */
    method RunImporter(parms: Option<ImportSetup.ImportParms>, groups: seq<seq<Dir>>) returns (launch: Launch)
      modifies this
      ensures launch == (if parms.None? then ParmsRejected
                         else if groups == [] then NoDicomDirectories
                         else Launched(WorkerCount(groups)))
      ensures st.parms == parms && st.summaries == [] && st.failedRuns == [] && st.reports == old(st.reports)
      ensures st.widgetsOn == parms.None?
      ensures st.stopEnabled == (if launch.Launched? then true else old(st.stopEnabled))
      ensures parms.None? ==> st.pending == 0 && workers == [] && st.progress == old(st.progress)
                              && st.progressMax == old(st.progressMax)
      ensures parms.Some? ==> st.progress == 0 && st.progressMax == |Flatten(groups)|
      ensures launch.Launched? ==>
                && st.pending == |workers| == WorkerCount(groups)
                && forall i :: 0 <= i < |workers| ==>
                     && fresh(workers[i])
                     && workers[i].dcmDirs == Batches(WorkerGroups(groups).value)[i]
                     && workers[i].importSummaries == [] && workers[i].failedRuns == []
                     && !workers[i].terminated
      ensures launch == NoDicomDirectories ==> st.pending == 0 && workers == []
    {
      st := st.(pending := 0, parms := None, summaries := [], failedRuns := []);
      workers := [];
      st := st.(widgetsOn := false);
      st := st.(parms := parms);
      if parms.None? {
        st := st.(widgetsOn := true);
        return ParmsRejected;
      }
      st := st.(progress := 0);
      st := st.(progressMax := |Flatten(groups)|);
      var n := WorkerCount(groups);
      if n == 0 {
        return NoDicomDirectories;
      }
      var parts := Divide(n, groups);
      assert Batches(WorkerGroups(groups).value) == Batches(parts);
      var idx := 0;
      while idx < n
        invariant 0 <= idx <= n
        invariant st.pending == |workers| == idx
        invariant st.parms == parms && st.summaries == [] && st.failedRuns == [] && st.reports == old(st.reports)
        invariant !st.widgetsOn && st.stopEnabled == old(st.stopEnabled)
        invariant st.progress == 0 && st.progressMax == |Flatten(groups)|
        invariant forall i :: 0 <= i < idx ==>
                    && fresh(workers[i])
                    && workers[i].dcmDirs == Batches(parts)[i]
                    && workers[i].importSummaries == [] && workers[i].failedRuns == []
                    && !workers[i].terminated
      {
        var worker := new ImporterWorker(Flatten(parts[idx]));
        workers := workers + [worker];
        st := st.(pending := st.pending + 1);
        idx := idx + 1;
      }
      st := st.(stopEnabled := true);
      return Launched(n);
    }

    /** The terminate button: `signal_stop_import` reaches every launched worker. */
    method StopImport()
      modifies workers
      ensures forall i :: 0 <= i < |workers| ==> workers[i].terminated
      ensures forall i :: 0 <= i < |workers| ==>
                && workers[i].dcmDirs == old(workers[i].dcmDirs)
                && workers[i].importSummaries == old(workers[i].importSummaries)
                && workers[i].failedRuns == old(workers[i].failedRuns)
    {
      var i := 0;
      while i < |workers|
        invariant 0 <= i <= |workers|
        invariant forall j :: 0 <= j < i ==> workers[j].terminated
        invariant forall j :: 0 <= j < |workers| ==>
                    && workers[j].dcmDirs == old(workers[j].dcmDirs)
                    && workers[j].importSummaries == old(workers[j].importSummaries)
                    && workers[j].failedRuns == old(workers[j].failedRuns)
      {
        workers[i].SlotStopImport();
        i := i + 1;
      }
    }
  }
}
