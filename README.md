# ExploreASL GUI importer: a verified model of its core

This project models the self-contained logic of the ExploreASL DICOM-to-NIFTI
importer window and one helper module, and proves properties of it in Dafny.

- **Import-plan validation** (`xASL_GUI_Importer.py`, module `ImportSetup`).
  Seven directory-level slots hold the labels Subject, Visit, Run, Scan or Dummy,
  or are blank. The window keeps the scan-alias and run-alias tables in step with
  those slots: through the drop test, `get_nth_level_dirs`, `check_if_reset_needed`,
  `update_scan_aliases` and `reset_run_aliases`. It gates the run button with
  `is_ready_import`. It turns the whole plan into import parameters with
  `get_directory_structure`, `get_scan_aliases`, `get_run_aliases` and `get_import_parms`.
  The window is a class (`ImporterWindow`) whose methods update its fields. Its
  fields are grouped into small records: patterns, scan section, run section.
- **Partition of the work** (`run_importer`, module `Partition`). The importer
  launches `min(#subject groups, 4)` workers. It cuts the groups with
  `more_itertools.divide` and flattens each part into one worker's directory list.
- **Workers** (`Importer_Worker`, module `Worker`). A class whose `Run` loop
  converts directories until the stop flag is seen, and emits progress ticks and
  then either its summaries and errors or a terminate acknowledgement.
- **Coordinator** (the slots of the importer window, module `Coordinator`). The
  workers' signals reach the window one at a time. This is modelled as a
  sequential event machine: `Step` applies one delivered signal to a `State`
  record, and `Deliver` applies a whole trace. The class `ImportRun` holds that
  record and its slot methods are proved to perform exactly `Step`.
  `import_postprocessing` is modelled down to its strings:
  - the primary log joins the converter logs with a newline, 50 `#` and a newline;
  - the backup log joins them with a blank line;
  - the failed-runs ledger writes one line per failure.
- **Sidecar helpers** (`xASL_GUI_HelperFuncs_DirOps.py`, module `Sidecar`).
  `interpret_value` is a recursive string-to-value reader. The in-memory edit
  of `alter_json_sidecar` removes a key or sets it.

Shared helpers live in `Common` (Option, Result, distinctness, reverse) and
`Text` (the Python string built-ins the code relies on, on ASCII).

Behaviour of the code that the model reproduces on purpose:

- `get_nth_level_dirs`: when nothing exists at the requested depth, unpacking
  `zip(*[])` raises, so the error branch clears the slot. The empty-result check
  after it is never reached.
- The initial scan-alias record has the key `T2M0` (the `"T2" "M0"` literal lacks
  a comma). It holds no alias, so `get_scan_aliases` never reports it.
- The run gate compares only typed aliases, not the `ASL_<n>` defaults. A
  typed `ASL_1` next to an unaliased run at position 1 passes the gate, and the
  alias table then gives both runs the alias `ASL_1`.
- The gate checks only that Subject and Scan are among the slots. A leading
  blank slot therefore passes the gate, and `get_directory_structure` then
  rejects the slots.
- Each worker emits its summaries before its errors. When the last worker's
  summaries bring the count to zero, consolidation runs at once. That worker's
  failures reach `failed_runs` only afterwards, so they are missing from the
  ledger and from the decision between success and partial success.
- `get_directory_structure` builds the message for a blank before a filled
  slot by subscripting the progress bar (:612), which raises a `TypeError`.
- `run_importer` with no subject groups calls `divide(0, …)`, which raises
  `ValueError`. The run stops with the widgets still disabled and no workers.

## Model

| member | source | states |
|---|---|---|
| ImportSetup.FromText | src/xASL_GUI_Importer.py:1015-1022 | the label read from a dropped text renders back to that same text |
| ImportSetup.LabelRoundTrip | src/xASL_GUI_Importer.py:1015-1022 | reading a label's own text gives back the label, and every read label is in normal form |
| ImportSetup.TrimTrailingBlanks | src/xASL_GUI_Importer.py:600-628 | the result is a prefix of the slots, everything cut off is blank, and the last kept slot is filled |
| ImportSetup.BlankBeforeFilledTail | src/xASL_GUI_Importer.py:610-613 | a blank before a filled slot found in a tail of the slots is one in all the slots |
| ImportSetup.TrimmedHasNoBlank | src/xASL_GUI_Importer.py:600-628 | without a blank before a filled slot, trimming leaves no blank and keeps every label |
| ImportSetup.GetDirectoryStructure | src/xASL_GUI_Importer.py:600-628 | success exactly when no blank precedes a filled slot and Subject and Scan are present; the value is the slots without trailing blanks, with no blank and with both roles; the blanks failure exactly when a blank precedes a filled slot (where the source raises instead, see "Left out"), the missing-role error otherwise |
| ImportSetup.GetScanAliases | src/xASL_GUI_Importer.py:630-639 | a role is kept exactly when it has an alias, and it keeps that alias |
| ImportSetup.WithChoices | src/xASL_GUI_Importer.py:457-465 | after the first n scan comboboxes, each of those roles holds its combobox text, or None for the placeholder, and every other role is unchanged |
| ImportSetup.UpdatedScanAliases | src/xASL_GUI_Importer.py:457-465 | all five canonical roles take their combobox choice; other keys keep their values |
| ImportSetup.ScanGateMeansAliasChosen | src/xASL_GUI_Importer.py:560-564 | when the comboboxes show at least two different texts, some scan role has an alias after the update |
| ImportSetup.RowWithOrder | src/xASL_GUI_Importer.py:671-678 | with distinct orders drawn from 1..n, every position k has a row whose order is k |
| ImportSetup.RunAliasTable | src/xASL_GUI_Importer.py:671-678 | the run alias table has exactly one entry per row |
| ImportSetup.RunAliasTablePlacesRows | src/xASL_GUI_Importer.py:671-678 | the row with order k sits at entry k with its alias, or `ASL_k` when its alias is blank, and every entry's basename is a row's basename |
| ImportSetup.GetRunAliases | src/xASL_GUI_Importer.py:641-681 | success exactly when the orders are distinct, with the table above; otherwise the run-alias error; no rows gives success with an empty table |
| ImportSetup.Dedup | src/xASL_GUI_Importer.py:493-494 | the keys of `dict.fromkeys` are distinct, are exactly the elements of the input, and keep the order in which each first occurs |
| ImportSetup.DedupDistinct | src/xASL_GUI_Importer.py:493-494 | removing duplicates from a list without any leaves it as it is |
| ImportSetup.DefaultRows | src/xASL_GUI_Importer.py:477-518 | one default row per key |
| ImportSetup.DefaultRowsTable | src/xASL_GUI_Importer.py:497-505 | the default rows are well formed with distinct orders, and row i appears at entry i with alias `ASL_<i+1>` |
| ImportSetup.NonEmptyAliases | src/xASL_GUI_Importer.py:568 | the aliases the gate compares are never empty |
| ImportSetup.OneScanChosen | src/xASL_GUI_Importer.py:561-562 | one chosen alias among placeholders makes two distinct combobox texts |
| ImportSetup.ClashingRowsPassGate | src/xASL_GUI_Importer.py:544-577 | the two-run example with a typed `ASL_1` passes the run gate |
| ImportSetup.ClashingRowsValid | src/xASL_GUI_Importer.py:641-681 | the example rows are well formed with distinct orders, so `get_run_aliases` accepts them |
| ImportSetup.TypedAliasShadowsDefault | src/xASL_GUI_Importer.py:671-678 | an unaliased row and another row typed with that row's default alias get the same alias at two different entries |
| ImportSetup.ReadyGateAdmitsDuplicateRunAlias | src/xASL_GUI_Importer.py:566-575 | the gate passes while the alias table gives two runs the same alias |
| ImportSetup.ReadyGateAdmitsLeadingBlank | src/xASL_GUI_Importer.py:548-558 | slots starting with a blank pass the gate but are rejected as a structure |
| ImportSetup.DropKeepsRolesUnique | src/xASL_GUI_Importer.py:998-1022 | a drop the slot accepts keeps every role except Dummy and blank in at most one slot |
| ImportSetup.AcceptsDrop | src/xASL_GUI_Importer.py:998-1022 | no contract of its own: the drop test, a label in no slot with a root text set, or Dummy always; DropKeepsRolesUnique states what it guarantees |
| ImportSetup.IsReadyImport | src/xASL_GUI_Importer.py:544-577 | no contract of its own: the run button's four tests in order; ScanGateMeansAliasChosen, ReadyGateAdmitsDuplicateRunAlias and ReadyGateAdmitsLeadingBlank state what it does and does not guarantee |
| ImportSetup.ResetPatterns | src/xASL_GUI_Importer.py:404-428 | after the reset no role without a slot has a pattern, every role with a slot keeps its pattern, and patterns that already follow the slots are unchanged |
| ImportSetup.ResetRun | src/xASL_GUI_Importer.py:420-423 | no contract of its own: the run section is emptied when Run has no slot and its pattern was set, and kept otherwise |
| ImportSetup.ResetScan | src/xASL_GUI_Importer.py:425-428 | no contract of its own: the scan section is reset when Scan has no slot and its pattern was set, and kept otherwise |
| ImportSetup.ResetPlan | src/xASL_GUI_Importer.py:404-428 | no contract of its own: the three resets applied to a plan |
| ImportSetup.WithInferred | src/xASL_GUI_Importer.py:351-380 | a Subject or Visit slot gets the pattern inferred from the found names, a Run or Scan slot the one inferred from their set; every other role keeps its pattern |
| ImportSetup.Lookup | src/xASL_GUI_Importer.py:310-380 | no contract of its own: the whole plan `get_nth_level_dirs` leaves with a usable raw directory; LookupOutcome states its properties |
| ImportSetup.LookupOutcome | src/xASL_GUI_Importer.py:310-380 | after the lookup no role without a slot keeps a pattern, only the looked-up slot can change, it ends blank exactly when it was blank or nothing was found, and otherwise its role has the inferred pattern while every other role that has a slot keeps its pattern |
| ImportSetup.ClearKeepsRolesUnique | src/xASL_GUI_Importer.py:336-341 | blanking a slot keeps the roles unique |
| ImportSetup.ImporterWindow.constructor | src/xASL_GUI_Importer.py:85-112 | blank slots, no patterns, the scan alias record keyed ASL4D, T1, T2M0 and FLAIR, no run rows |
| ImportSetup.ImporterWindow.SetRootText | src/xASL_GUI_Importer.py:302-308 | together with `clear_widgets` (:386-402), run on `textChanged` (:189-190): setting the text already shown changes nothing; a new text becomes the raw directory exactly when it is empty or names a directory, and all slots, patterns and alias sections are reset |
| ImportSetup.ImporterWindow.ClearReceivers | src/xASL_GUI_Importer.py:430-435 | every slot is blanked; with a usable raw directory and some slot filled, every pattern is unset and the run and scan sections whose pattern was set are reset, the others kept; otherwise nothing else changes |
| ImportSetup.ImporterWindow.UpdateScanAliases | src/xASL_GUI_Importer.py:457-465 | the alias record becomes the update of the old record by the combobox texts; nothing else changes |
| ImportSetup.ImporterWindow.SelectScanAlias | src/xASL_GUI_Importer.py:264-265 | picking the text combobox i already shows changes nothing, since `currentTextChanged` is not emitted; picking another text changes that choice and re-derives the alias record |
| ImportSetup.ImporterWindow.ResetScanAliasCombos | src/xASL_GUI_Importer.py:437-455 | the comboboxes offer the given basenames and all show the placeholder |
| ImportSetup.ImporterWindow.ClearRunRows | src/xASL_GUI_Importer.py:467-475 | every run row is removed |
| ImportSetup.ImporterWindow.ResetRunAliases | src/xASL_GUI_Importer.py:477-518 | the rows become the default rows of the distinct basenames |
| ImportSetup.ImporterWindow.SetRunOrder | src/xASL_GUI_Importer.py:499-504 | picking position k changes only that row's order |
| ImportSetup.ImporterWindow.SetRunAlias | src/xASL_GUI_Importer.py:505-511 | typing an alias changes only that row's alias |
| ImportSetup.ImporterWindow.CheckIfResetNeeded | src/xASL_GUI_Importer.py:404-428 | the new plan is `ResetPlan` of the old one: a role missing from the slots loses its pattern, and losing Run or Scan resets that section only when its pattern was set |
| ImportSetup.ImporterWindow.GetNthLevelDirs | src/xASL_GUI_Importer.py:310-380 | with an unusable raw directory nothing changes; otherwise the new plan is `Lookup` of the old one: nothing found below a filled slot clears that slot (the impossible-depth message) and re-runs the resets; otherwise the slot's pattern is inferred from the found names, Run rebuilds the run rows in set order, Scan offers the found names |
| ImportSetup.ImporterWindow.DropLabel | src/xASL_GUI_Importer.py:1015-1025 | accepted exactly by the drop test; a refused drop or the text already shown changes nothing; otherwise the slot ends blank exactly when the text is blank or the lookup found nothing, the new plan is `Lookup` of the plan with the dropped label (or just that plan with an unusable raw directory), roles stay unique and every slot knows the slot texts |
| ImportSetup.ImporterWindow.GetImportParms | src/xASL_GUI_Importer.py:683-712 | parameters exist exactly when the subject and scan patterns are not empty strings, the structure is accepted and the run orders are distinct; they hold the trimmed slots, the chosen scan aliases and the run alias table |
| Sidecar.StraightenQuotes | src/xASL_GUI_HelperFuncs_DirOps.py:64 | replacing typographic quotes keeps the length |
| Sidecar.InterpretValue | src/xASL_GUI_HelperFuncs_DirOps.py:43-48 | a value that is not a string comes back unchanged |
| Sidecar.InterpretString | src/xASL_GUI_HelperFuncs_DirOps.py:49-75 | no contract of its own: the string cases in the order the source tries them; the Interpret… lemmas below state each case |
| Sidecar.InterpretList | src/xASL_GUI_HelperFuncs_DirOps.py:56-62 | no contract of its own: brackets stripped, split on the separator, every piece read again, one piece unwrapped; ListOfDecimals and the list lemmas state its results |
| Sidecar.InterpretNoneWord | src/xASL_GUI_HelperFuncs_DirOps.py:44-48 | the string "NONE" comes back as the same string, because the None test is unreachable |
| Sidecar.InterpretEmpty | src/xASL_GUI_HelperFuncs_DirOps.py:49-50 | the empty string comes back empty |
| Sidecar.InterpretDecimal | src/xASL_GUI_HelperFuncs_DirOps.py:51-53 | the decimal rendering of n reads as the integer n |
| Sidecar.BracketCase | src/xASL_GUI_HelperFuncs_DirOps.py:56-62 | a bracketed string is read by the list case |
| Sidecar.StripBrackets | src/xASL_GUI_HelperFuncs_DirOps.py:58 | stripping brackets around a body that starts and ends with a digit gives the body |
| Sidecar.ReadItems | src/xASL_GUI_HelperFuncs_DirOps.py:58 | every piece that is a decimal rendering reads as its integer |
| Sidecar.ListOfDecimals | src/xASL_GUI_HelperFuncs_DirOps.py:56-62 | a list whose pieces are decimal renderings reads as the list of those integers, unwrapped when there is one |
| Sidecar.InterpretIntList | src/xASL_GUI_HelperFuncs_DirOps.py:56-62 | `[a, b, …]` with two or more integers reads as the integer list |
| Sidecar.NoSpaceSeparator | src/xASL_GUI_HelperFuncs_DirOps.py:57 | text without a space splits on "," |
| Sidecar.InterpretCompactIntList | src/xASL_GUI_HelperFuncs_DirOps.py:56-62 | `[a,b,…]` with two or more integers reads as the integer list |
| Sidecar.InterpretSingletonList | src/xASL_GUI_HelperFuncs_DirOps.py:59-60 | `[n]` reads as the integer n, unwrapped |
| Sidecar.InterpretEmptyList | src/xASL_GUI_HelperFuncs_DirOps.py:56-62 | `[]` reads as the empty string |
| Sidecar.LetterFirst | src/xASL_GUI_HelperFuncs_DirOps.py:49-63 | a string starting with a letter takes none of the empty, digit, list or object branches |
| Sidecar.InterpretTrueWord | src/xASL_GUI_HelperFuncs_DirOps.py:70-71 | true, t, yes and y in any case read as True |
| Sidecar.InterpretFalseWord | src/xASL_GUI_HelperFuncs_DirOps.py:72-73 | false, f, no and n in any case read as False |
| Sidecar.InterpretNegativeNumber | src/xASL_GUI_HelperFuncs_DirOps.py:74-75 | "-3" is not all digits and comes back as the same string |
| Sidecar.InterpretFraction | src/xASL_GUI_HelperFuncs_DirOps.py:74-75 | "1.5" comes back as the same string |
| Sidecar.AlterJsonSidecar | src/xASL_GUI_HelperFuncs_DirOps.py:78-107 | a missing file or key fails without a write; a decode error fails with its message; removing an absent key fails with the key-error message; removal deletes only that key, any other action sets it and keeps every other key, and success returns "Success" with the edited object to write |
| Partition.BoundClosed | src/xASL_GUI_Importer.py:902 | part i starts after i whole shares and one extra item per earlier part below the remainder |
| Partition.BoundLast | src/xASL_GUI_Importer.py:902 | the parts end exactly at the end of the list |
| Partition.BoundMonotone | src/xASL_GUI_Importer.py:902 | part boundaries never decrease |
| Partition.BoundRange | src/xASL_GUI_Importer.py:902 | no part boundary passes the end of the list |
| Partition.Part | src/xASL_GUI_Importer.py:902 | part i has the share size: the quotient, plus one for the first remainder-many parts |
| Partition.Divide | src/xASL_GUI_Importer.py:902 | `divide(n, xs)` gives n parts |
| Partition.DivideSizes | src/xASL_GUI_Importer.py:902 | part i holds len/n items, plus one when i is below len mod n |
| Partition.DivideBalanced | src/xASL_GUI_Importer.py:902 | no two parts differ in size by more than one |
| Partition.DivideNoEmptyPart | src/xASL_GUI_Importer.py:900-902 | with no more parts than items, no part is empty |
| Partition.DividePrefix | src/xASL_GUI_Importer.py:902 | the first k parts put together are the list up to part k |
| Partition.DivideFlattens | src/xASL_GUI_Importer.py:902 | the parts put together are the list, in order |
| Partition.FlattenAppend | src/xASL_GUI_Importer.py:903 | flattening distributes over concatenation |
| Partition.FlattenLength | src/xASL_GUI_Importer.py:893 | the number of flattened directories is the sum of the group sizes |
| Partition.WorkerCount | src/xASL_GUI_Importer.py:900 | the worker count is at most 4 and at most the number of groups, and equals one of them |
| Partition.WorkerGroups | src/xASL_GUI_Importer.py:900-902 | no groups is the `divide(0, …)` failure; otherwise one part per worker |
| Partition.Batches | src/xASL_GUI_Importer.py:903 | each worker's directory list is its part, flattened |
| Partition.FlattenBatches | src/xASL_GUI_Importer.py:902-903 | the workers' directory lists put together are all directories of all groups |
| Partition.WorkerPlan | src/xASL_GUI_Importer.py:900-915 | between one and four workers, each with at least one group; group counts differ by at most one; the groups and all directories come back in their original order |
| Worker.OutcomesSorted | src/xASL_GUI_Importer.py:55-62 | every attempted directory lands in exactly one list: a conversion's summary only among the summaries, a failure's description only among the failed runs |
| Worker.Successes | src/xASL_GUI_Importer.py:57-58 | no contract of its own: the summaries of the converted directories, in order; OutcomesSorted states what it holds |
| Worker.Failures | src/xASL_GUI_Importer.py:60-61 | no contract of its own: the job descriptions of the failed directories, in order; OutcomesSorted and FailuresNonEmpty state what it holds |
| Worker.Emitted | src/xASL_GUI_Importer.py:59-73 | no contract of its own: the ticks, then the acknowledgement or the summaries and any failures; WorkerTicks, StoppedWorkerOnlyAcknowledges and FinishedWorkerReports state its shape |
| Worker.WorkerSignals | src/xASL_GUI_Importer.py:53-73 | no contract of its own: the signals of a fresh worker over its outcomes; RunFresh ties the `run` loop to it |
| Worker.FailuresNonEmpty | src/xASL_GUI_Importer.py:69-70 | the failures list is non-empty exactly when some directory failed |
| Worker.Attempted | src/xASL_GUI_Importer.py:54-55 | a worker never attempts more directories than it holds |
| Worker.WorkerTicks | src/xASL_GUI_Importer.py:53-73 | progress ticks equal the directories attempted before the stop flag was seen, and the worker finishes exactly once |
| Worker.StoppedWorkerOnlyAcknowledges | src/xASL_GUI_Importer.py:64-73 | a stopped worker emits its ticks and then only the terminate acknowledgement, never summaries or errors |
| Worker.FinishedWorkerReports | src/xASL_GUI_Importer.py:64-70 | an unstopped worker ticks once per directory, then sends all its summaries, then its failures exactly when some directory failed, and never the acknowledgement |
| Worker.ImporterWorker.constructor | src/xASL_GUI_Importer.py:37-46 | a fresh worker holds its directories, empty result lists and a lowered stop flag |
| Worker.ImporterWorker.SlotStopImport | src/xASL_GUI_Importer.py:75-78 | the stop flag is raised and nothing else changes |
| Worker.ImporterWorker.Run | src/xASL_GUI_Importer.py:53-73 | the directories before the stop are attempted in order, their outcomes are appended to the result lists, and the signals are the ticks followed by the final report or the acknowledgement |
| Worker.RunFresh | src/xASL_GUI_Importer.py:53-73 | a freshly built worker's run emits exactly the signals described by `WorkerSignals` |
| Coordinator.LedgerIsJoin | src/xASL_GUI_Importer.py:827 | the ledger is the failures joined by newlines plus a final newline |
| Coordinator.Ledger | src/xASL_GUI_Importer.py:824-827 | no contract of its own: one line per failure, each ended by a newline; LedgerIsJoin and LedgerRoundTrip state its properties |
| Coordinator.LedgerRoundTrip | src/xASL_GUI_Importer.py:824-827 | the ledger ends in a newline, and splitting the rest on newlines gives the failures back when none spans lines |
| Coordinator.JoinLength | src/xASL_GUI_Importer.py:799-804 | a join is as long as its parts plus one separator between neighbours |
| Coordinator.ImportLogOf | src/xASL_GUI_Importer.py:795-804 | no contract of its own: the primary log, or the backup after a PermissionError; ImportLogLength and NoConverterLogs state its properties |
| Coordinator.PostProcess | src/xASL_GUI_Importer.py:778-837 | no contract of its own: no report content without the study directory, otherwise the log, the summaries and the ledger when there are failures; PostProcessOutcome states its properties |
| Coordinator.ImportLogLength | src/xASL_GUI_Importer.py:796-804 | both import logs hold all converter logs; the primary log adds 52 characters between neighbours, the backup log 2 |
| Coordinator.NoConverterLogs | src/xASL_GUI_Importer.py:787-804 | with no converter logs the import log is empty |
| Coordinator.PostProcessOutcome | src/xASL_GUI_Importer.py:768-837 | with the study directory present, the report carries the import log and the summaries, and it is a partial success exactly when failures were collected, with all of them in the ledger |
| Coordinator.SetProgress | src/xASL_GUI_Importer.py:715 | `QProgressBar.setValue`: the bar takes any value within its maximum, and otherwise either takes the value or keeps the current one; a bar within a non-zero maximum never leaves it |
| Coordinator.OnProgress | src/xASL_GUI_Importer.py:714-715 | only the progress value changes; below the maximum it rises by one, and it never passes a non-zero maximum |
| Coordinator.OnTerminate | src/xASL_GUI_Importer.py:718-731 | no contract of its own; StepCounter and TerminateDiscards state its properties |
| Coordinator.OnSummaries | src/xASL_GUI_Importer.py:740-756 | no contract of its own; StepCounter, ConsolidatesOnlyAtZero and ConsolidationReport state its properties |
| Coordinator.OnErrors | src/xASL_GUI_Importer.py:759-766 | no contract of its own: the failures are appended; StepCounter states that nothing else it reads changes |
| Coordinator.Consolidate | src/xASL_GUI_Importer.py:768-837 | no contract of its own: widgets on, terminate off, one report appended; ConsolidationReport states which report |
| Coordinator.Step | src/xASL_GUI_Importer.py:909-913 | no contract of its own: each signal goes to the slot it is connected to; StepCounter states what every step keeps |
| Coordinator.Deliver | src/xASL_GUI_Importer.py:909-913 | no contract of its own: the signals delivered one after another; DeliverCounter, DeliverAppend and SingleConsolidation state its properties |
| Coordinator.StepCounter | src/xASL_GUI_Importer.py:714-766 | a summaries or terminate signal lowers the counter by one; progress and error signals never change it; parameters and progress maximum stay; reports are only appended |
| Coordinator.TerminateDiscards | src/xASL_GUI_Importer.py:718-731 | a terminate signal empties the summaries and failures, never consolidates, and turns the widgets on once no worker is left |
| Coordinator.ConsolidatesOnlyAtZero | src/xASL_GUI_Importer.py:748-756 | a signal consolidates exactly when it is a worker's summaries that bring the counter to zero with parameters set |
| Coordinator.ConsolidationReport | src/xASL_GUI_Importer.py:740-756 | the consolidation sees all summaries including the last ones and the failures collected so far |
| Coordinator.DeliverCounter | src/xASL_GUI_Importer.py:714-766 | after a trace the counter has dropped by the number of finishing signals in it |
| Coordinator.DeliverProgress | src/xASL_GUI_Importer.py:714-715 | within the bar's range the progress value counts every tick |
| Coordinator.SingleConsolidation | src/xASL_GUI_Importer.py:740-756 | when the counter matches the finishing signals of a trace, the run is consolidated once if the last worker to finish sent summaries and never otherwise; with workers left over, never |
| Coordinator.LastWorkerErrorsMissLedger | src/xASL_GUI_Importer.py:740-766 | when the last worker's summaries consolidate, its errors arrive afterwards: the ledger misses them, and with no earlier failures the run reports full success |
| Coordinator.DeliverAppend | src/xASL_GUI_Importer.py:714-766 | delivering two traces one after the other is delivering their concatenation |
| Coordinator.DeliverTicks | src/xASL_GUI_Importer.py:714-715 | ticks within range move only the progress value |
| Coordinator.DeliverShort | src/xASL_GUI_Importer.py:714-766 | one or two delivered signals are one or two steps |
| Coordinator.DeliverUnstopped | src/xASL_GUI_Importer.py:740-766 | one unstopped worker's report moves the bar by its directory count, adds its results, lowers the counter, and consolidates before its failures when it was the last one counted |
| Coordinator.DeliverInTurn | src/xASL_GUI_Importer.py:740-766 | workers reporting one after another: every result collected in worker order, and one consolidation, from the last counted worker's summaries, without that worker's failures |
| Coordinator.RunWithoutStop | src/xASL_GUI_Importer.py:863-923 | the run that `run_importer` launches, unstopped: the bar ends full, exactly one report holds every summary and every failure except the last worker's, and `failed_runs` ends with all of them |
| Coordinator.ImportRun.constructor | src/xASL_GUI_Importer.py:108-112 | the window starts with no run: empty lists, the bar at 0 of 1 (:154), the terminate button off (:160); `widgetsOn` is the last state given to `set_widgets_on_or_off`, true before any run, while the run button itself starts disabled (:157-158) until `is_ready_import` enables it |
| Coordinator.ImportRun.SlotUpdateProgressbar | src/xASL_GUI_Importer.py:714-715 | the bar moves one step, unless that step leaves its range |
| Coordinator.ImportRun.SlotCleanupPostterminate | src/xASL_GUI_Importer.py:718-738 | performs the terminate step: counter down, collected results dropped, widgets back once no worker is left |
| Coordinator.ImportRun.SlotIsReadyPostprocessing | src/xASL_GUI_Importer.py:740-756 | performs the summaries step, consolidating when the counter reaches zero with parameters set |
| Coordinator.ImportRun.SlotUpdateFailedRunsLog | src/xASL_GUI_Importer.py:759-766 | appends the signalled failures |
| Coordinator.ImportRun.ImportPostprocessing | src/xASL_GUI_Importer.py:768-837 | clears the workers, turns the widgets on and the terminate button off, and appends the report of `PostProcess` |
| Coordinator.ImportRun.Receive | src/xASL_GUI_Importer.py:909-913 | each signal goes to the slot it is connected to, so one delivery is one `Step`; the workers are dropped exactly when that delivery consolidates the run |
| Coordinator.ImportRun.RunImporter | src/xASL_GUI_Importer.py:863-923 | rejected parameters turn the widgets back on; no groups stops at `divide` with no workers; otherwise one fresh worker per part, with the flattened part, the counter equal to the worker count, the bar at 0 of the directory total, and the terminate button on |
| Coordinator.ImportRun.StopImport | src/xASL_GUI_Importer.py:160-161 | every launched worker's stop flag is raised, and its directories, summaries and failed runs stay as they were |

## Left out

- File system: the glob in `get_nth_level_dirs`, path checks, reading and unlinking the converter logs, and every file write are left out. Their results are parameters: `found`, `rawdirValid`, `pathIsDir`, and the `FileSystem` record.
- The ImportConfig.json write of `get_import_parms`, the `.bidsignore` and `dataset_description.json` writes, `chdir`, the timestamp in the log name, and the BIDS follow-up after consolidation are left out as I/O.
- `infer_regex` uses the `tdda.rexpy` library, which is not part of this model; pattern inference is a function parameter `infer`.
- Python's set iteration order (`list(set(...))`) is a parameter `setOrder`, constrained to list the same names once each.
- `process_dcm_dir`, `get_dicom_directories`, `create_import_summary` and `bids_m0_followup` are not part of this model. A conversion is an input outcome, the subject groups are an input, and the summaries are handed to the report as they are.
- Threads, the thread pool and Qt's signal queue are not modelled. Workers' signals are delivered one at a time in a trace, and each worker's `Run` takes the point at which the stop reaches it (`stopAt`) as a parameter.
- Qt widgets, layouts, message boxes, cursors and drag mechanics are left out. The window's state keeps only what the logic reads: slot texts, combobox texts, run rows, the enabled flags and the progress bar's value and maximum. `SetProgress` models how `QProgressBar.setValue` ignores a value outside its range.
- GetDirectoryStructure: returns the blanks failure where the source raises a `TypeError` at :612, because the message is built by subscripting the progress bar. The model keeps only the failure result.
- RunImporter: on that `TypeError` the source leaves `run_importer` after switching the widgets off, so they stay off and `import_parms` stays None. The model treats the case as rejected parameters, so the widgets come back on.
- AlterJsonSidecar: the key-error message quotes the key with single quotes. The source prints `repr(key)`, which differs for a key holding a quote, a backslash or a control character.
- AlterJsonSidecar: the loaded sidecar is always a JSON object. A file whose top-level value is not an object makes the source's `del` or assignment raise an uncaught `TypeError`, and that case is not modelled.
- The failed-ledger write raising `FileNotFoundError` after the study directory was found is left out.
- The message box shown after a terminated run when the study directory exists is left out.
- The worker's logger, its name `Converter_<idx>` and the handler removal are left out.
- Connections to `signal_stop_import` made by earlier runs are left out. `StopImport` reaches the workers of the current run only.
- `n_import_workers` and `import_parms` do not exist before the first `run_importer`. The model starts them at 0 and None.
- A summary is a map from strings to strings, not a dict of arbitrary values.
- `InterpretValue`: the JSON branch calls `json.loads`, which is a parameter `loads`. The `float` fallback after `int` is not modelled because it cannot be reached here: on ASCII digits `int` always succeeds, and on the other characters `str.isdigit` accepts (such as "²") `float` raises as well.
- `isdigit` and `lower` are modelled on ASCII only.
- Slot texts other than the five role labels are represented as `Other(text)`.
- Worker.ImporterWorker.Run: the stop flag can only be raised between directories, at the point `stopAt` names; a stop that arrives while a directory converts is the same as one that arrives just after it.
- `robust_read_csv`, `alter_sidecars` and `merge_directories` depend on pandas, NaN tests, directory walks and links, and are left out.
- `xASL_GUI_Startup.py` is configuration and process I/O with no self-contained logic, and is not part of this model.
