/**
 * The planning half of the DICOM importer window: the seven directory-level
 * slots the user fills with role labels, the scan and run alias tables that are
 * kept in step with those slots, the run-readiness gate, and the validation that
 * turns all of it into import parameters or a failure.
 */
module ImportSetup {
  import opened Common
  import opened Text

  /**
   * The text of a directory-level slot. The five role labels and the blank slot
   * have constructors of their own; `Other` is any further text a drop can carry,
   * which the importer treats as a filled slot without a role.
   */
  datatype Label = Blank | Subject | Visit | Run | Scan | Dummy | Other(text: string)

  /** The text a slot shows for a label. */
  function LabelText(l: Label): string
  {
    match l
    case Blank => ""
    case Subject => "Subject"
    case Visit => "Visit"
    case Run => "Run"
    case Scan => "Scan"
    case Dummy => "Dummy"
    case Other(t) => t
  }

  /** The label a dropped text stands for. */
  function FromText(t: string): (l: Label)
    ensures LabelText(l) == t
  {
    if t == "" then Blank
    else if t == "Subject" then Subject
    else if t == "Visit" then Visit
    else if t == "Run" then Run
    else if t == "Scan" then Scan
    else if t == "Dummy" then Dummy
    else Other(t)
  }

  /** A label in its one canonical form: `Other` never carries a role name or the empty text. */
  predicate LabelOk(l: Label)
  {
    !l.Other? || FromText(l.text) == l
  }

  /** Each slot text has exactly one canonical label: text and label convert to each other without loss. */
  lemma LabelRoundTrip(l: Label, t: string)
    ensures LabelOk(FromText(t))
    ensures LabelOk(l) ==> FromText(LabelText(l)) == l
  {
  }

  /** Number of directory-level slots below the root. */
  const LevelCount: nat := 7

  /**
   * The keys of the scan alias record. The five canonical scan roles have one
   * alias combobox each; `T2M0` is a key that only the window's initial record
   * holds, because its key list misses a comma between "T2" and "M0".
   */
  datatype ScanKey = ASL4D | T1 | T2 | M0 | FLAIR | T2M0

  /** The canonical scan roles, in the order of their comboboxes. */
  const ScanRoles: seq<ScanKey> := [ASL4D, T1, T2, M0, FLAIR]

  /** The scan alias record after a reset: every canonical role, none with an alias. */
  const DefaultScanAliases: map<ScanKey, Option<string>> :=
    map[ASL4D := None, T1 := None, T2 := None, M0 := None, FLAIR := None]

  /** The text of a scan combobox on which no alias has been chosen. */
  const Placeholder: string := "Select an alias"

  /** The failures of plan validation, each shown to the user as a message. */
  datatype PlanError = InvalidStructureBlanks | InvalidStructureMinSubScan | InvalidRunAliases

  // ---------------------------------------------------------------------------
  // Directory structure
  // ---------------------------------------------------------------------------

  /** Every slot is blank. */
  predicate AllBlank(names: seq<Label>)
  {
    forall k :: 0 <= k < |names| ==> names[k] == Blank
  }

  /** Some blank slot comes before a filled one (a leading or an interior blank). */
  predicate BlankBeforeFilled(names: seq<Label>)
  {
    names != [] && ((names[0] == Blank && !AllBlank(names[1..])) || BlankBeforeFilled(names[1..]))
  }

  /** The slots with every trailing blank removed. */
  function TrimTrailingBlanks(names: seq<Label>): (r: seq<Label>)
    ensures |r| <= |names| && r == names[..|r|]
    ensures forall i :: |r| <= i < |names| ==> names[i] == Blank
    ensures r != [] ==> r[|r| - 1] != Blank
  {
    if names == [] then []
    else if names[0] == Blank && AllBlank(names[1..]) then []
    else [names[0]] + TrimTrailingBlanks(names[1..])
  }

  /** The slots describe a usable structure: no blank before a filled slot, Subject and Scan present. */
  predicate StructureAccepted(names: seq<Label>)
  {
    !BlankBeforeFilled(names) && Subject in names && Scan in names
  }

  /** A blank before a filled slot in a tail of the slots is one in all of them. */
  lemma {:induction false} BlankBeforeFilledTail(names: seq<Label>, i: nat)
    requires i <= |names| && BlankBeforeFilled(names[i..])
    ensures BlankBeforeFilled(names)
    decreases i
  {
    if i > 0 {
      assert names[1..][i - 1..] == names[i..];
      BlankBeforeFilledTail(names[1..], i - 1);
    }
  }

  /** Without a blank before a filled slot, trimming leaves no blank at all and loses no label. */
  lemma {:induction false} TrimmedHasNoBlank(names: seq<Label>)
    requires !BlankBeforeFilled(names)
    ensures forall k :: 0 <= k < |TrimTrailingBlanks(names)| ==> TrimTrailingBlanks(names)[k] != Blank
    ensures forall x :: x != Blank ==> (x in names <==> x in TrimTrailingBlanks(names))
  {
    if names != [] && !(names[0] == Blank && AllBlank(names[1..])) {
      TrimmedHasNoBlank(names[1..]);
      assert names == [names[0]] + names[1..];
    }
  }

  /**
   * `get_directory_structure`: walks the slots from the last to the first,
   * skipping trailing blanks, failing on a blank once a filled slot has been
   * seen, then requires Subject and Scan. A failure stands for the source's
   * `(False, [])`, a success for `(True, dirs)`.
   */
  method GetDirectoryStructure(dirnames: seq<Label>) returns (r: Result<seq<Label>, PlanError>)
    ensures r.Success? <==> StructureAccepted(dirnames)
    ensures r.Success? ==> r.value == TrimTrailingBlanks(dirnames)
    ensures r.Success? ==> (forall k :: 0 <= k < |r.value| ==> r.value[k] != Blank)
                           && Subject in r.value && Scan in r.value
    ensures r.Failure? ==> r.error != InvalidRunAliases
                           && (r.error == InvalidStructureBlanks <==> BlankBeforeFilled(dirnames))
  {
    var validDirs: seq<Label> := [];
    var encounteredNonblank := false;
    var i := |dirnames|;
    while i > 0
      invariant 0 <= i <= |dirnames|
      invariant encounteredNonblank <==> !AllBlank(dirnames[i..])
      invariant !BlankBeforeFilled(dirnames[i..])
      invariant validDirs == Reverse(TrimTrailingBlanks(dirnames[i..]))
    {
      var name := dirnames[i - 1];
      var suffix := dirnames[i..];
      assert dirnames[i - 1..] == [name] + suffix;
      assert ([name] + suffix)[1..] == suffix;
      if name == Blank && encounteredNonblank {
        assert BlankBeforeFilled(dirnames[i - 1..]);
        BlankBeforeFilledTail(dirnames, i - 1);
        return Failure(InvalidStructureBlanks);
      } else if name == Blank {
        assert AllBlank([name] + suffix);
      } else {
        encounteredNonblank := true;
        validDirs := validDirs + [name];
        assert ([name] + TrimTrailingBlanks(suffix))[1..] == TrimTrailingBlanks(suffix);
      }
      i := i - 1;
    }
    assert dirnames[0..] == dirnames;
    ReverseReverse(TrimTrailingBlanks(dirnames));
    TrimmedHasNoBlank(dirnames);
    validDirs := Reverse(validDirs);
    if Subject !in validDirs || Scan !in validDirs {
      return Failure(InvalidStructureMinSubScan);
    }
    return Success(validDirs);
  }

  // ---------------------------------------------------------------------------
  // Scan aliases
  // ---------------------------------------------------------------------------

  /** `get_scan_aliases`: the roles that have an alias, with that alias; roles without one are dropped. */
  function GetScanAliases(scanAliases: map<ScanKey, Option<string>>): (r: map<ScanKey, string>)
    ensures forall role :: role in r <==> role in scanAliases && scanAliases[role].Some?
    ensures forall role :: role in r ==> scanAliases[role] == Some(r[role])
  {
    map role | role in scanAliases && scanAliases[role].Some? :: scanAliases[role].value
  }

  /** What one scan combobox contributes: its text, unless it still shows the placeholder. */
  function ChoiceAlias(text: string): Option<string>
  {
    if text != Placeholder then Some(text) else None
  }

  /**
   * The alias record after the first `n` scan comboboxes have been read: each
   * of their roles takes the alias its combobox shows, every other key keeps
   * its alias.
   */
  function WithChoices(previous: map<ScanKey, Option<string>>, choices: seq<string>, n: nat)
    : (m: map<ScanKey, Option<string>>)
    requires n <= |choices| == |ScanRoles|
    ensures forall role :: role in m <==> role in previous || role in ScanRoles[..n]
    ensures forall i :: 0 <= i < n ==> m[ScanRoles[i]] == ChoiceAlias(choices[i])
    ensures forall role :: role in previous && role !in ScanRoles[..n] ==> m[role] == previous[role]
  {
    if n == 0 then previous
    else
      assert ScanRoles[..n] == ScanRoles[..n - 1] + [ScanRoles[n - 1]];
      WithChoices(previous, choices, n - 1)[ScanRoles[n - 1] := ChoiceAlias(choices[n - 1])]
  }

  /** The alias record once all five scan comboboxes have been read. */
  function UpdatedScanAliases(previous: map<ScanKey, Option<string>>, choices: seq<string>)
    : (m: map<ScanKey, Option<string>>)
    requires |choices| == |ScanRoles|
    ensures forall role :: role in m <==> role in previous || role in ScanRoles
    ensures forall i :: 0 <= i < |ScanRoles| ==> m[ScanRoles[i]] == ChoiceAlias(choices[i])
    ensures forall role :: role in previous && role !in ScanRoles ==> m[role] == previous[role]
  {
    assert ScanRoles[..|ScanRoles|] == ScanRoles;
    WithChoices(previous, choices, |ScanRoles|)
  }

  /**
   * When the five combobox texts are not all the same (the readiness gate's
   * scan test), at least one scan role ends up with an alias.
   */
  lemma ScanGateMeansAliasChosen(previous: map<ScanKey, Option<string>>, choices: seq<string>)
    requires |choices| == |ScanRoles|
    requires |Elements(choices)| > 1
    ensures GetScanAliases(UpdatedScanAliases(previous, choices)) != map[]
  {
    if forall i :: 0 <= i < |choices| ==> choices[i] == Placeholder {
      assert Elements(choices) <= {Placeholder};
      SubsetSize(Elements(choices), {Placeholder});
    }
    var i :| 0 <= i < |choices| && choices[i] != Placeholder;
    assert ScanRoles[i] in GetScanAliases(UpdatedScanAliases(previous, choices));
  }

  // ---------------------------------------------------------------------------
  // Run aliases
  // ---------------------------------------------------------------------------

  /**
   * One row of the run table: the run directory's basename, the alias typed in its
   * line edit ("" when left empty) and the position chosen in its order combobox.
   */
  datatype RunRow = RunRow(basename: string, alias: string, order: nat)

  function Orders(rows: seq<RunRow>): (s: seq<nat>)
    ensures |s| == |rows| && forall i :: 0 <= i < |rows| ==> s[i] == rows[i].order
  {
    seq(|rows|, i requires 0 <= i < |rows| => rows[i].order)
  }

  function Basenames(rows: seq<RunRow>): (s: seq<string>)
    ensures |s| == |rows| && forall i :: 0 <= i < |rows| ==> s[i] == rows[i].basename
  {
    seq(|rows|, i requires 0 <= i < |rows| => rows[i].basename)
  }

  /**
   * What the widgets guarantee of the run table: the rows are keyed by distinct
   * basenames and every order combobox offers only the numbers 1..n.
   */
  predicate RowsWellFormed(rows: seq<RunRow>)
  {
    Distinct(Basenames(rows)) && forall i :: 0 <= i < |rows| ==> 1 <= rows[i].order <= |rows|
  }

  /** The alias a run receives when its line edit is left empty. */
  function DefaultAlias(k: nat): string
  {
    "ASL_" + DecimalString(k)
  }

  /** The alias a row contributes: the typed one, or the default for its position. */
  function RunAlias(row: RunRow): string
  {
    if row.alias == "" then DefaultAlias(row.order) else row.alias
  }

  /** The row whose order combobox shows `k`, found the way `list.index` finds it. */
  function RowWithOrder(rows: seq<RunRow>, k: nat): (i: nat)
    requires forall j :: 0 <= j < |rows| ==> 1 <= rows[j].order <= |rows|
    requires Distinct(Orders(rows)) && 1 <= k <= |rows|
    ensures i < |rows| && rows[i].order == k
  {
    DistinctRangeCovers(Orders(rows), k);
    IndexOf(Orders(rows), k)
  }

  /** The table entry of a row: its basename and the alias it contributes. */
  function Entry(row: RunRow): (string, string)
  {
    (row.basename, RunAlias(row))
  }

  /** The ordered run-alias table: entry k-1 belongs to the row whose order is k. */
  function RunAliasTable(rows: seq<RunRow>): (t: seq<(string, string)>)
    requires RowsWellFormed(rows) && Distinct(Orders(rows))
    ensures |t| == |rows|
  {
    seq(|rows|, k requires 0 <= k < |rows| => Entry(rows[RowWithOrder(rows, k + 1)]))
  }

  /**
   * The alias table holds exactly one entry per row: row i sits at position
   * order-1 with its basename and its alias (or "ASL_<order>"), so every
   * basename of the table belongs to a row.
   */
  lemma RunAliasTablePlacesRows(rows: seq<RunRow>)
    requires RowsWellFormed(rows) && Distinct(Orders(rows))
    ensures forall i :: 0 <= i < |rows| ==> RunAliasTable(rows)[rows[i].order - 1] == Entry(rows[i])
    ensures forall k :: 0 <= k < |rows| ==> RunAliasTable(rows)[k].0 in Basenames(rows)
  {
    var t := RunAliasTable(rows);
    forall i | 0 <= i < |rows|
      ensures t[rows[i].order - 1] == Entry(rows[i])
    {
      var idx := RowWithOrder(rows, rows[i].order);
      assert Orders(rows)[idx] == Orders(rows)[i];
    }
    forall k | 0 <= k < |rows| ensures t[k].0 in Basenames(rows) {
      assert t[k].0 == Basenames(rows)[RowWithOrder(rows, k + 1)];
    }
  }

  /**
   * `get_run_aliases`: no rows gives an empty table; two rows with the same order
   * fail; otherwise the table is built for k = 1..n by finding the row whose
   * order is k. A failure stands for the source's `(False, OrderedDict())`.
   */
  method GetRunAliases(rows: seq<RunRow>) returns (r: Result<seq<(string, string)>, PlanError>)
    requires RowsWellFormed(rows)
    ensures r.Success? <==> Distinct(Orders(rows))
    ensures r.Failure? ==> r.error == InvalidRunAliases
    ensures r.Success? ==> r.value == RunAliasTable(rows)
    ensures rows == [] ==> r == Success([])
  {
    if |rows| == 0 {
      return Success([]);
    }
    var orders := Orders(rows);
    if !Distinct(orders) {
      return Failure(InvalidRunAliases);
    }
    var aliases: seq<(string, string)> := [];
    var num := 1;
    while num <= |orders|
      invariant 1 <= num <= |orders| + 1
      invariant |aliases| == num - 1
      invariant forall k :: 0 <= k < num - 1 ==> aliases[k] == Entry(rows[RowWithOrder(rows, k + 1)])
    {
      DistinctRangeCovers(orders, num);
      var idx := IndexOf(orders, num);
      assert idx == RowWithOrder(rows, num);
      var currentAlias := rows[idx].alias;
      var currentBasename := rows[idx].basename;
      if currentAlias == "" {
        aliases := aliases + [(currentBasename, "ASL_" + DecimalString(num))];
      } else {
        aliases := aliases + [(currentBasename, currentAlias)];
      }
      num := num + 1;
    }
    return Success(aliases);
  }

  /** `dict.fromkeys(basenames)`: the distinct basenames in order of first occurrence. */
  function Dedup(s: seq<string>): (r: seq<string>)
    ensures Distinct(r)
    ensures forall x :: x in r <==> x in s
    ensures forall i, j :: 0 <= i < j < |r| ==> IndexOf(s, r[i]) < IndexOf(s, r[j])
  {
    if s == [] then []
    else
      var init := s[..|s| - 1];
      var d := Dedup(init);
      assert forall x :: x in s <==> x in init || x == s[|s| - 1];
      forall x | x in init
        ensures IndexOf(s, x) == IndexOf(init, x)
      {
        IndexOfPrefix(s, init, x);
      }
      if s[|s| - 1] in d then d else d + [s[|s| - 1]]
  }

  /** A value found in a prefix is first found at the same position in the whole list. */
  lemma IndexOfPrefix(s: seq<string>, p: seq<string>, x: string)
    requires p <= s && x in p
    ensures IndexOf(s, x) == IndexOf(p, x)
  {
    var a, b := IndexOf(s, x), IndexOf(p, x);
    assert s[b] == x;
  }

  /** The run table `reset_run_aliases` builds: row i is unaliased with order i+1. */
  function DefaultRows(keys: seq<string>): (rows: seq<RunRow>)
    ensures |rows| == |keys|
  {
    seq(|keys|, i requires 0 <= i < |keys| => RunRow(keys[i], "", i + 1))
  }

  /**
   * A freshly reset run table is valid and its alias table lists the basenames
   * in order, the i-th (from 1) aliased "ASL_i".
   */
  lemma DefaultRowsTable(keys: seq<string>)
    requires Distinct(keys)
    ensures RowsWellFormed(DefaultRows(keys)) && Distinct(Orders(DefaultRows(keys)))
    ensures forall i :: 0 <= i < |keys| ==> RunAliasTable(DefaultRows(keys))[i] == (keys[i], DefaultAlias(i + 1))
  {
    var rows := DefaultRows(keys);
    assert Basenames(rows) == keys;
    assert forall i :: 0 <= i < |rows| ==> rows[i].order == i + 1;
    RunAliasTablePlacesRows(rows);
  }

  // ---------------------------------------------------------------------------
  // Readiness gate and drop acceptance
  // ---------------------------------------------------------------------------

  /** The aliases typed into the run table, empty ones left out. */
  function NonEmptyAliases(rows: seq<RunRow>): (r: seq<string>)
    ensures forall x :: x in r ==> x != ""
  {
    if rows == [] then []
    else (if rows[0].alias != "" then [rows[0].alias] else []) + NonEmptyAliases(rows[1..])
  }

  /**
   * `is_ready_import`: the run button is enabled only when the root exists, is a
   * directory and has no space in it; Subject and Scan are among the slots; the
   * scan comboboxes do not all show the same text; and, when Run is a slot and
   * the run table has rows, the typed aliases and the orders are each distinct.
   */
  predicate IsReadyImport(rootExists: bool, rootIsDir: bool, rootText: string,
                          levels: seq<Label>, scanChoices: seq<string>, rows: seq<RunRow>)
  {
    && rootExists && rootIsDir && !Contains(rootText, " ")
    && Subject in levels && Scan in levels
    && |Elements(scanChoices)| > 1
    && (Run in levels && |rows| > 0 ==> Distinct(NonEmptyAliases(rows)) && Distinct(Orders(rows)))
  }

  /** Two runs: the first left unaliased at position 1, the second typed "ASL_1" at position 2. */
  const ClashingRows: seq<RunRow> := [RunRow("run1", "", 1), RunRow("run2", "ASL_1", 2)]

  lemma OneScanChosen()
    ensures |Elements(["ASL4D", Placeholder, Placeholder, Placeholder, Placeholder])| > 1
  {
    var choices := ["ASL4D", Placeholder, Placeholder, Placeholder, Placeholder];
    assert {choices[0], choices[1]} <= Elements(choices);
    SubsetSize({choices[0], choices[1]}, Elements(choices));
  }

  lemma ClashingRowsPassGate()
    ensures IsReadyImport(true, true, "/data/raw", [Subject, Run, Scan, Blank, Blank, Blank, Blank],
                          ["ASL4D", Placeholder, Placeholder, Placeholder, Placeholder], ClashingRows)
  {
    OneScanChosen();
    NotContains("/data/raw", " ", 0);
    assert NonEmptyAliases(ClashingRows) == ["ASL_1"];
    assert Orders(ClashingRows) == [1, 2];
  }

  lemma ClashingRowsValid()
    ensures RowsWellFormed(ClashingRows) && Distinct(Orders(ClashingRows))
  {
    assert Basenames(ClashingRows) == ["run1", "run2"];
    assert Orders(ClashingRows) == [1, 2];
  }

  /**
   * A typed alias equal to the default of an unaliased row gives two runs the
   * same alias in the table, at two different positions.
   */
  lemma TypedAliasShadowsDefault(rows: seq<RunRow>, i: nat, j: nat)
    requires RowsWellFormed(rows) && Distinct(Orders(rows))
    requires i < |rows| && j < |rows| && i != j
    requires rows[i].alias == "" && rows[j].alias == DefaultAlias(rows[i].order)
    ensures rows[i].order != rows[j].order
    ensures RunAliasTable(rows)[rows[i].order - 1].1 == RunAliasTable(rows)[rows[j].order - 1].1
  {
    RunAliasTablePlacesRows(rows);
    assert Orders(rows)[i] != Orders(rows)[j];
  }

  /**
   * The gate compares only typed aliases, so a typed alias equal to another
   * row's default passes it, and the alias table then gives two runs the same
   * alias.
   */
  lemma ReadyGateAdmitsDuplicateRunAlias()
    ensures IsReadyImport(true, true, "/data/raw", [Subject, Run, Scan, Blank, Blank, Blank, Blank],
                          ["ASL4D", Placeholder, Placeholder, Placeholder, Placeholder], ClashingRows)
    ensures RowsWellFormed(ClashingRows) && Distinct(Orders(ClashingRows))
    ensures RunAliasTable(ClashingRows)[0].1 == RunAliasTable(ClashingRows)[1].1
  {
    ClashingRowsPassGate();
    ClashingRowsValid();
    assert DecimalString(1) == [DigitChar(1)];
    TypedAliasShadowsDefault(ClashingRows, 0, 1);
  }

  /**
   * The gate only asks that Subject and Scan be among the slots, so a leading
   * blank slot passes it, while `get_directory_structure` then rejects the slots.
   */
  lemma ReadyGateAdmitsLeadingBlank()
    ensures IsReadyImport(true, true, "/data/raw", [Blank, Subject, Scan, Blank, Blank, Blank, Blank],
                          ["ASL4D", Placeholder, Placeholder, Placeholder, Placeholder], [])
    ensures BlankBeforeFilled([Blank, Subject, Scan, Blank, Blank, Blank, Blank])
    ensures !StructureAccepted([Blank, Subject, Scan, Blank, Blank, Blank, Blank])
  {
    OneScanChosen();
    NotContains("/data/raw", " ", 0);
    var levels := [Blank, Subject, Scan, Blank, Blank, Blank, Blank];
    assert levels[1..][0] == Subject;
  }

  /**
   * The drop test of a level slot: a label is accepted when no slot holds it yet
   * and a root directory is set, and the Dummy label is accepted always.
   */
  predicate AcceptsDrop(incoming: Label, siblingAwareness: seq<Label>, rootText: string)
  {
    (incoming !in siblingAwareness && rootText != "") || incoming == Dummy
  }

  /** No role label is in two slots, except blanks and Dummy. */
  predicate RolesUnique(levels: seq<Label>)
  {
    forall i, j :: 0 <= i < j < |levels| && levels[i] == levels[j] ==> levels[i] == Blank || levels[i] == Dummy
  }

  /** A drop the slots accept, judged against the current slot texts, keeps the roles unique. */
  lemma DropKeepsRolesUnique(levels: seq<Label>, level: nat, incoming: Label, rootText: string)
    requires RolesUnique(levels) && level < |levels|
    requires AcceptsDrop(incoming, levels, rootText)
    ensures RolesUnique(levels[level := incoming])
  {
    var after := levels[level := incoming];
    forall i, j | 0 <= i < j < |after| && after[i] == after[j]
      ensures after[i] == Blank || after[i] == Dummy
    {
      if i != level && j != level {
        assert after[i] == levels[i] && after[j] == levels[j];
      }
    }
  }

  // ---------------------------------------------------------------------------
  // The import parameters
  // ---------------------------------------------------------------------------

  /** The validated import parameters; `regex` holds the subject, run and scan patterns. */
  datatype ImportParms = ImportParms(
    rawDir: string,
    regex: seq<Option<string>>,
    dirStructure: seq<Label>,
    scanAliases: map<ScanKey, string>,
    runAliases: seq<(string, string)>)

  // ---------------------------------------------------------------------------
  // The window's planning state
  // ---------------------------------------------------------------------------

  /** The name patterns inferred for the subject, visit, run and scan levels; None until set. */
  datatype Patterns = Patterns(subject: Option<string>, visit: Option<string>, run: Option<string>,
                               scan: Option<string>)

  const NoPatterns: Patterns := Patterns(None, None, None, None)

  /**
   * The scan alias group: the alias record keyed by scan role, the basenames the
   * five comboboxes offer, and the text each combobox shows.
   */
  datatype ScanSection = ScanSection(aliases: map<ScanKey, Option<string>>, options: set<string>,
                                     choices: seq<string>)

  /** The run alias group: one row per run directory, and the window's own run-alias record. */
  datatype RunSection = RunSection(rows: seq<RunRow>, aliases: seq<(string, string)>)

  /** The seven slot texts when no slot holds a label. */
  const BlankLevels: seq<Label> := [Blank, Blank, Blank, Blank, Blank, Blank, Blank]

  /** The five scan combobox texts when no alias is chosen. */
  const UnchosenScans: seq<string> := [Placeholder, Placeholder, Placeholder, Placeholder, Placeholder]

  /** The scan alias group after a reset of the scan section. */
  const ClearedScanSection: ScanSection := ScanSection(DefaultScanAliases, {}, UnchosenScans)

  /** No role without a slot keeps a pattern. */
  predicate PatternsFollow(levels: seq<Label>, patterns: Patterns)
  {
    && (Subject !in levels ==> patterns.subject.None?)
    && (Visit !in levels ==> patterns.visit.None?)
    && (Run !in levels ==> patterns.run.None?)
    && (Scan !in levels ==> patterns.scan.None?)
  }

  /**
   * The patterns `check_if_reset_needed` leaves: a role without a slot loses its
   * pattern. Patterns that already follow the slots are left as they are.
   */
  function ResetPatterns(patterns: Patterns, levels: seq<Label>): (r: Patterns)
    ensures PatternsFollow(levels, r)
    ensures PatternsFollow(levels, patterns) ==> r == patterns
    ensures forall role :: role in {Subject, Visit, Run, Scan} && role in levels ==>
              PatternOf(r, role) == PatternOf(patterns, role)
  {
    Patterns(if Subject !in levels then None else patterns.subject,
             if Visit !in levels then None else patterns.visit,
             if Run !in levels then None else patterns.run,
             if Scan !in levels then None else patterns.scan)
  }

  /** The pattern recorded for a role label; None for a label without a pattern. */
  function PatternOf(patterns: Patterns, role: Label): Option<string>
  {
    match role
    case Subject => patterns.subject
    case Visit => patterns.visit
    case Run => patterns.run
    case Scan => patterns.scan
    case _ => None
  }

  /** The run section after `check_if_reset_needed`: emptied when Run lost its slot while its pattern was set. */
  function ResetRun(run: RunSection, patterns: Patterns, levels: seq<Label>): RunSection
  {
    if Run !in levels && patterns.run.Some? then RunSection([], []) else run
  }

  /** The scan section after `check_if_reset_needed`: reset when Scan lost its slot while its pattern was set. */
  function ResetScan(scan: ScanSection, patterns: Patterns, levels: seq<Label>): ScanSection
  {
    if Scan !in levels && patterns.scan.Some? then ClearedScanSection else scan
  }

  /**
   * The pattern `get_nth_level_dirs` infers for a slot of role `dirType`: from
   * the basenames as found for Subject and Visit, from the iteration of their set
   * for Run and Scan; Dummy and other texts infer nothing.
   */
  function WithInferred(patterns: Patterns, dirType: Label, found: seq<string>, setOrder: seq<string>,
                        infer: seq<string> -> string): (r: Patterns)
    ensures dirType in {Subject, Visit} ==> PatternOf(r, dirType) == Some(infer(found))
    ensures dirType in {Run, Scan} ==> PatternOf(r, dirType) == Some(infer(setOrder))
    ensures forall role :: role != dirType ==> PatternOf(r, role) == PatternOf(patterns, role)
  {
    match dirType
    case Subject => patterns.(subject := Some(infer(found)))
    case Visit => patterns.(visit := Some(infer(found)))
    case Run => patterns.(run := Some(infer(setOrder)))
    case Scan => patterns.(scan := Some(infer(setOrder)))
    case _ => patterns
  }

  /** The slot texts, the patterns and the two alias sections of the window. */
  datatype Plan = Plan(levels: seq<Label>, patterns: Patterns, scan: ScanSection, run: RunSection)

  /** The resets of `check_if_reset_needed`, applied to a plan. */
  function ResetPlan(p: Plan): Plan
  {
    Plan(p.levels, ResetPatterns(p.patterns, p.levels), ResetScan(p.scan, p.patterns, p.levels),
         ResetRun(p.run, p.patterns, p.levels))
  }

  /**
   * What `get_nth_level_dirs` does to the plan when the raw directory is usable:
   * the resets, then for a filled slot either the clearing of the slot (nothing
   * found, which re-runs the resets) or the inferred pattern, with the run rows
   * rebuilt for Run and the scan comboboxes refilled for Scan.
   */
  function Lookup(p: Plan, level: nat, found: seq<string>, setOrder: seq<string>,
                  infer: seq<string> -> string): Plan
    requires level < |p.levels|
  {
    var q := ResetPlan(p);
    var dirType := p.levels[level];
    if dirType == Blank then q
    else if found == [] then ResetPlan(q.(levels := p.levels[level := Blank]))
    else q.(patterns := WithInferred(q.patterns, dirType, found, setOrder, infer),
            scan := if dirType == Scan then q.scan.(options := Elements(found), choices := UnchosenScans) else q.scan,
            run := if dirType == Run then q.run.(rows := DefaultRows(setOrder)) else q.run)
  }

  /**
   * After a lookup no role without a slot keeps a pattern, a filled slot is
   * cleared exactly when nothing was found below it, and otherwise the slot's
   * role has the inferred pattern while every other role keeps what the resets
   * left it.
   */
  lemma LookupOutcome(p: Plan, level: nat, found: seq<string>, setOrder: seq<string>,
                      infer: seq<string> -> string)
    requires level < |p.levels|
    ensures var r := Lookup(p, level, found, setOrder, infer);
            && PatternsFollow(r.levels, r.patterns)
            && |r.levels| == |p.levels|
            && (r.levels[level] == Blank <==> p.levels[level] == Blank || found == [])
            && (forall i :: 0 <= i < |p.levels| && i != level ==> r.levels[i] == p.levels[i])
            && (p.levels[level] != Blank && found != [] ==>
                  && (p.levels[level] in {Subject, Visit} ==>
                        PatternOf(r.patterns, p.levels[level]) == Some(infer(found)))
                  && (p.levels[level] in {Run, Scan} ==>
                        PatternOf(r.patterns, p.levels[level]) == Some(infer(setOrder)))
                  && (forall role :: role != p.levels[level] && role in p.levels ==>
                        PatternOf(r.patterns, role) == PatternOf(p.patterns, role)))
  {
    var dirType := p.levels[level];
    var q := ResetPlan(p);
    if dirType != Blank && found != [] {
      var r := Lookup(p, level, found, setOrder, infer);
      assert r.patterns == WithInferred(q.patterns, dirType, found, setOrder, infer);
      assert r.levels == p.levels;
      forall role | role in {Subject, Visit, Run, Scan} && role !in r.levels
        ensures PatternOf(r.patterns, role) == None
      {
        assert role != dirType;
        assert PatternOf(q.patterns, role) == None;
      }
    }
  }

  /** The fields of the importer window that the planning slots read and update. */
  class ImporterWindow {
    /** The text of the root-directory line edit, and the raw directory recorded from it. */
    var rootText: string
    var rawdir: string
    /** The seven slot texts, and what every slot believes the slot texts to be. */
    var levels: seq<Label>
    var siblingAwareness: seq<Label>
    var patterns: Patterns
    var scan: ScanSection
    var run: RunSection

    /** The shape the widgets give these fields. */
    ghost predicate Valid()
      reads this
    {
      |levels| == LevelCount && |scan.choices| == |ScanRoles| && RowsWellFormed(run.rows)
    }

    /** Every slot knows the current slot texts, and no role sits in two slots. */
    ghost predicate SiblingsAware()
      reads this
    {
      siblingAwareness == levels && RolesUnique(levels)
    }

    /** No role without a slot keeps a pattern. */
    ghost predicate PatternsFollowSlots()
      reads this
    {
      PatternsFollow(levels, patterns)
    }

    /** The slot texts, patterns and alias sections as one value. */
    ghost function PlanOf(): Plan
      reads this
    {
      Plan(levels, patterns, scan, run)
    }

    /**
     * The window as it opens. Its initial scan alias record is keyed ASL4D, T1,
     * T2M0 and FLAIR, from the key list with the missing comma.
     */
    constructor ()
      ensures Valid() && SiblingsAware() && PatternsFollowSlots()
      ensures rootText == "" && rawdir == "" && levels == BlankLevels && patterns == NoPatterns
      ensures scan == ScanSection(map[ASL4D := None, T1 := None, T2M0 := None, FLAIR := None], {}, UnchosenScans)
      ensures run == RunSection([], [])
    {
      rootText := "";
      rawdir := "";
      levels := BlankLevels;
      siblingAwareness := BlankLevels;
      patterns := NoPatterns;
      scan := ScanSection(map[ASL4D := None, T1 := None, T2M0 := None, FLAIR := None], {}, UnchosenScans);
      run := RunSection([], []);
    }

    /**
     * The root-directory line edit is set to `path`. Only a change of its text
     * emits `textChanged`: then `set_rootdir_variable` records the text as the
     * raw directory when it is empty or names an existing directory (otherwise
     * the previous raw directory stays), and `clear_widgets` blanks every slot,
     * unsets every pattern, removes the run rows and resets the scan widgets and
     * both alias records. Setting the text already shown changes nothing.
     */
    method SetRootText(path: string, pathIsDir: bool)
      requires Valid()
      modifies this
      ensures Valid() && rootText == path
      ensures path == old(rootText) ==>
        && rawdir == old(rawdir) && PlanOf() == old(PlanOf()) && siblingAwareness == old(siblingAwareness)
      ensures path != old(rootText) ==>
        && SiblingsAware() && PatternsFollowSlots()
        && rawdir == (if path == "" then "" else if pathIsDir then path else old(rawdir))
        && levels == BlankLevels && patterns == NoPatterns
        && run == RunSection([], []) && scan == ClearedScanSection
    {
      if path == rootText {
        return;
      }
      rootText := path;
      if path == "" {
        rawdir := "";
      } else if pathIsDir {
        rawdir := path;
      }
      patterns := NoPatterns;
      levels := BlankLevels;
      siblingAwareness := levels;
      ClearRunRows();
      ResetScanAliasCombos({});
      run := run.(aliases := []);
      scan := scan.(aliases := DefaultScanAliases);
    }

    /**
     * The "Clear the fields" button: every slot is blanked and learns the blank
     * slot texts; when the raw directory is usable and some slot held a label,
     * the blanking re-checks which patterns must be reset, so none is left, and
     * the run and scan sections whose pattern was set are reset with them.
     */
    method ClearReceivers(rawdirValid: bool)
      requires Valid()
      modifies this`patterns, this`scan, this`run, this`levels, this`siblingAwareness
      ensures Valid() && SiblingsAware()
      ensures levels == BlankLevels
      ensures rawdir != "" && rawdirValid && old(levels) != BlankLevels ==>
        && patterns == NoPatterns
        && run == (if old(patterns.run).Some? then RunSection([], []) else old(run))
        && scan == (if old(patterns.scan).Some? then ClearedScanSection else old(scan))
      ensures rawdir == "" || !rawdirValid || old(levels) == BlankLevels ==>
        patterns == old(patterns) && scan == old(scan) && run == old(run)
    {
      var changed := levels != BlankLevels;
      levels := BlankLevels;
      siblingAwareness := levels;
      if rawdir != "" && rawdirValid && changed {
        CheckIfResetNeeded();
      }
    }

    /** `update_scan_aliases`: every canonical role takes the alias its combobox shows, or None. */
    method UpdateScanAliases()
      requires Valid()
      modifies this`scan
      ensures Valid()
      ensures scan == old(scan).(aliases := UpdatedScanAliases(old(scan.aliases), scan.choices))
    {
      var aliases := scan.aliases;
      var choices := scan.choices;
      for i := 0 to |ScanRoles|
        invariant scan == old(scan)
        invariant aliases == WithChoices(old(scan.aliases), choices, i)
      {
        if choices[i] != Placeholder {
          aliases := aliases[ScanRoles[i] := Some(choices[i])];
        } else {
          aliases := aliases[ScanRoles[i] := None];
        }
      }
      scan := ScanSection(aliases, scan.options, choices);
    }

    /**
     * The user picks `text` in the scan combobox of role `i`. Only a changed text
     * emits `currentTextChanged`, so picking the text already shown leaves the
     * alias record alone, even when it is stale after `reset_scan_alias_cmbs`.
     */
    method SelectScanAlias(i: nat, text: string)
      requires Valid() && i < |ScanRoles|
      requires text == Placeholder || text in scan.options
      modifies this`scan
      ensures Valid()
      ensures text == old(scan.choices[i]) ==> scan == old(scan)
      ensures scan.options == old(scan.options) && scan.choices == old(scan.choices)[i := text]
      ensures text != old(scan.choices[i]) ==>
                scan.aliases == UpdatedScanAliases(old(scan.aliases), scan.choices)
    {
      if text == scan.choices[i] {
        return;
      }
      scan := scan.(choices := scan.choices[i := text]);
      UpdateScanAliases();
    }

    /** `reset_scan_alias_cmbs`: every scan combobox offers `basenames` and shows the placeholder again. */
    method ResetScanAliasCombos(basenames: set<string>)
      requires Valid()
      modifies this`scan
      ensures Valid()
      ensures scan == old(scan).(options := basenames, choices := UnchosenScans)
    {
      scan := scan.(options := basenames, choices := UnchosenScans);
    }

    /** `clear_run_alias_cmbs_and_les`: removes every run row. */
    method ClearRunRows()
      requires Valid()
      modifies this`run
      ensures Valid() && run == old(run).(rows := [])
    {
      run := run.(rows := []);
    }

    /**
     * `reset_run_aliases`: one row per distinct basename, in order of first
     * occurrence, each with an empty alias and order i+1 for row i.
     */
    method ResetRunAliases(basenames: seq<string>)
      requires Valid()
      modifies this`run
      ensures Valid()
      ensures run == old(run).(rows := DefaultRows(Dedup(basenames)))
    {
      if |run.rows| > 0 {
        ClearRunRows();
      }
      var keys := Dedup(basenames);
      var rows: seq<RunRow> := [];
      for ii := 0 to |keys|
        invariant rows == DefaultRows(keys)[..ii]
      {
        rows := rows + [RunRow(keys[ii], "", ii + 1)];
      }
      DefaultRowsTable(keys);
      run := run.(rows := rows);
    }

    /** The user picks position `k` in the order combobox of run row `i`. */
    method SetRunOrder(i: nat, k: nat)
      requires Valid() && i < |run.rows| && 1 <= k <= |run.rows|
      modifies this`run
      ensures Valid()
      ensures run == old(run).(rows := old(run.rows)[i := old(run.rows)[i].(order := k)])
    {
      var rows := run.rows[i := run.rows[i].(order := k)];
      assert Basenames(rows) == Basenames(run.rows);
      run := run.(rows := rows);
    }

    /** The user types `alias` into the line edit of run row `i`. */
    method SetRunAlias(i: nat, alias: string)
      requires Valid() && i < |run.rows|
      modifies this`run
      ensures Valid()
      ensures run == old(run).(rows := old(run.rows)[i := old(run.rows)[i].(alias := alias)])
    {
      var rows := run.rows[i := run.rows[i].(alias := alias)];
      assert Basenames(rows) == Basenames(run.rows);
      run := run.(rows := rows);
    }

    /**
     * `check_if_reset_needed`: a role that is no longer in any slot loses its
     * pattern; losing Run also empties the run alias record and the run table,
     * losing Scan resets the scan section. A section whose pattern was never set
     * is left alone.
     */
    method CheckIfResetNeeded()
      requires Valid()
      modifies this`patterns, this`scan, this`run
      ensures Valid() && PatternsFollowSlots()
      ensures PlanOf() == ResetPlan(old(PlanOf()))
    {
      var usedDirectories := levels;
      var resetRun := Run !in usedDirectories && patterns.run.Some?;
      var resetScan := Scan !in usedDirectories && patterns.scan.Some?;
      patterns := Patterns(
        if Subject !in usedDirectories then None else patterns.subject,
        if Visit !in usedDirectories then None else patterns.visit,
        if resetRun then None else patterns.run,
        if resetScan then None else patterns.scan);
      if resetRun {
        run := run.(aliases := []);
        ClearRunRows();
      }
      if resetScan {
        scan := scan.(aliases := DefaultScanAliases);
        ResetScanAliasCombos({});
      }
    }

    /**
     * `get_nth_level_dirs`, run when the text of slot `level` changes. `rawdirValid`
     * says whether the raw directory exists and is a directory, `found` lists the
     * basenames of what sits `level + 1` levels below it, `setOrder` is the order
     * in which the set of those basenames iterates, and `infer` is the pattern
     * inference. An empty `found` makes the tuple unpacking raise, so the error
     * branch clears the slot (the empty-result test after it is never reached);
     * the clearing re-enters with a blank slot, which only re-checks the resets.
     * Returns whether the "impossible depth" message was shown.
     */
    method GetNthLevelDirs(level: nat, rawdirValid: bool, found: seq<string>, setOrder: seq<string>,
                           infer: seq<string> -> string) returns (impossibleDepth: bool)
      requires Valid() && level < LevelCount
      requires Distinct(setOrder) && Elements(setOrder) == Elements(found)
      modifies this`patterns, this`scan, this`run, this`levels, this`siblingAwareness
      ensures Valid()
      ensures rawdir != "" && rawdirValid ==> PatternsFollowSlots()
      ensures rawdir != "" && rawdirValid ==> PlanOf() == Lookup(old(PlanOf()), level, found, setOrder, infer)
      ensures rawdir == "" || !rawdirValid ==> PlanOf() == old(PlanOf())
      ensures impossibleDepth <==> rawdir != "" && rawdirValid && old(levels)[level] != Blank && found == []
      ensures levels == if impossibleDepth then old(levels)[level := Blank] else old(levels)
      ensures siblingAwareness == if impossibleDepth then levels else old(siblingAwareness)
      ensures rawdir != "" && rawdirValid && found != [] ==>
        && (levels[level] == Subject ==> patterns.subject == Some(infer(found)))
        && (levels[level] == Visit ==> patterns.visit == Some(infer(found)))
        && (levels[level] == Run ==> patterns.run == Some(infer(setOrder)) && run.rows == DefaultRows(setOrder))
        && (levels[level] == Scan ==> patterns.scan == Some(infer(setOrder))
                                      && scan.options == Elements(found) && scan.choices == UnchosenScans)
    {
      impossibleDepth := false;
      if rawdir == "" || !rawdirValid {
        return;
      }
      CheckIfResetNeeded();
      var dirType := levels[level];
      if dirType == Blank {
        return;
      }
      if found == [] {
        impossibleDepth := true;
        levels := levels[level := Blank];
        siblingAwareness := levels;
        CheckIfResetNeeded();
        return;
      }
      if dirType == Subject {
        patterns := patterns.(subject := Some(infer(found)));
      } else if dirType == Visit {
        patterns := patterns.(visit := Some(infer(found)));
      } else if dirType == Run {
        patterns := patterns.(run := Some(infer(setOrder)));
        ResetRunAliases(setOrder);
        DedupDistinct(setOrder);
      } else if dirType == Scan {
        patterns := patterns.(scan := Some(infer(setOrder)));
        ResetScanAliasCombos(Elements(found));
      }
    }

    /**
     * A text dropped on slot `level`: accepted by the drop test, it replaces the
     * slot text, the slot's follow-up lookup runs, and every slot learns the new
     * slot texts. Roles stay unique across the slots, and a role without a slot
     * keeps no pattern.
     */
    method DropLabel(level: nat, text: string, rawdirValid: bool, found: seq<string>, setOrder: seq<string>,
                     infer: seq<string> -> string) returns (accepted: bool)
      requires Valid() && SiblingsAware() && level < LevelCount
      requires Distinct(setOrder) && Elements(setOrder) == Elements(found)
      modifies this`patterns, this`scan, this`run, this`levels, this`siblingAwareness
      ensures Valid() && SiblingsAware()
      ensures accepted <==> AcceptsDrop(FromText(text), old(levels), rootText)
      ensures !accepted || FromText(text) == old(levels)[level] ==> PlanOf() == old(PlanOf())
      ensures accepted ==> levels == old(levels)[level := FromText(text)] || levels == old(levels)[level := Blank]
      ensures accepted && FromText(text) != old(levels)[level] ==>
        (levels[level] == Blank <==> FromText(text) == Blank || (rawdir != "" && rawdirValid && found == []))
      ensures accepted && FromText(text) != old(levels)[level] && rawdir != "" && rawdirValid ==>
        && PatternsFollowSlots()
        && PlanOf() == Lookup(old(PlanOf()).(levels := old(levels)[level := FromText(text)]),
                              level, found, setOrder, infer)
      ensures accepted && FromText(text) != old(levels)[level] && (rawdir == "" || !rawdirValid) ==>
        PlanOf() == old(PlanOf()).(levels := old(levels)[level := FromText(text)])
    {
      var incoming := FromText(text);
      accepted := AcceptsDrop(incoming, siblingAwareness, rootText);
      if !accepted || incoming == levels[level] {
        return;
      }
      DropKeepsRolesUnique(levels, level, incoming, rootText);
      var dropped := levels[level := incoming];
      levels := dropped;
      var _ := GetNthLevelDirs(level, rawdirValid, found, setOrder, infer);
      assert dropped[level := Blank] == old(levels)[level := Blank];
      if levels != dropped {
        ClearKeepsRolesUnique(dropped, level);
      }
      siblingAwareness := levels;
    }

    /**
     * `get_import_parms` without writing the parameters file: the structure, the
     * scan aliases and the run aliases are all computed, and the parameters exist
     * only when none failed and neither the subject nor the scan pattern is the
     * empty string (an unset pattern passes this test).
     */
    method GetImportParms() returns (parms: Option<ImportParms>)
      requires Valid()
      ensures parms.Some? <==> (patterns.subject != Some("") && patterns.scan != Some("")
                                && StructureAccepted(levels) && Distinct(Orders(run.rows)))
      ensures parms.Some? ==> parms.value == ImportParms(rootText, [patterns.subject, patterns.run, patterns.scan],
                                                         TrimTrailingBlanks(levels),
                                                         GetScanAliases(scan.aliases),
                                                         RunAliasTable(run.rows))
    {
      var directoryResult := GetDirectoryStructure(levels);
      var scanAliasesNow := GetScanAliases(scan.aliases);
      var runAliasResult := GetRunAliases(run.rows);
      if patterns.subject == Some("") || patterns.scan == Some("") || directoryResult.Failure?
         || runAliasResult.Failure? {
        return None;
      }
      return Some(ImportParms(rootText, [patterns.subject, patterns.run, patterns.scan], directoryResult.value,
                              scanAliasesNow, runAliasResult.value));
    }
  }

  /** Clearing a slot keeps the roles unique. */
  lemma ClearKeepsRolesUnique(levels: seq<Label>, level: nat)
    requires RolesUnique(levels) && level < |levels|
    ensures RolesUnique(levels[level := Blank])
  {
  }

  /** Removing duplicates from a list without any changes nothing. */
  lemma {:induction false} DedupDistinct(s: seq<string>)
    requires Distinct(s)
    ensures Dedup(s) == s
  {
    if s != [] {
      var init := s[..|s| - 1];
      assert Distinct(init);
      DedupDistinct(init);
      assert s[|s| - 1] !in init;
      assert init + [s[|s| - 1]] == s;
    }
  }
}
