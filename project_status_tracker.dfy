/** The project status tracker: a description for each (phase, category)
    pair with two levels of fallback, and the per-phase
    completed / active / future rendering. */
module ProjectStatusTracker {
  import opened Wrappers
  import opened Types

  const DefaultKey := "default"
  const GlobalFallback := "Proceeding with scheduled works."

  const PlanningRow: map<string, string> := map[
    "Healthcare" := "Conducting structural integrity assessments and sourcing medical-grade HVAC systems.",
    "Education" := "Designing modular classroom layouts and ensuring safe play area designations.",
    "Residential" := "Verifying plot boundaries and sourcing rapid-deploy insulation materials.",
    "Infrastructure" := "Surveying utility lines and calculating load requirements for the grid.",
    "default" := "Initial site surveys and architectural blueprint finalization."]

  const FoundationRow: map<string, string> := map[
    "Healthcare" := "Laying reinforced concrete base capable of supporting heavy diagnostic equipment.",
    "Education" := "Pouring earthquake-resistant foundations for the main academic block.",
    "Residential" := "Installing plumbing groundwork and pouring slab foundations.",
    "Infrastructure" := "Excavating trenches for piping and laying sub-grade stabilization layers.",
    "default" := "Site clearing, debris removal, and foundation pouring."]

  const ConstructionRow: map<string, string> := map[
    "Healthcare" := "Erecting steel framework and installing sterile partition walls.",
    "Education" := "Assembling walls, roofing, and installing solar power units.",
    "Residential" := "Vertical assembly of housing units and window installation.",
    "Infrastructure" := "Pipe fitting, cabling, and installation of control modules.",
    "default" := "Main structural assembly and core system installation."]

  const FinalizingRow: map<string, string> := map[
    "Healthcare" := "Sanitization, equipment calibration, and final safety inspections.",
    "Education" := "Painting, furniture installation, and safety certification.",
    "Residential" := "Utility connection testing and final interior finishing.",
    "Infrastructure" := "System pressure testing and grid synchronization.",
    "default" := "Final touches, safety checks, and handover preparation."]

  const RowKeys: set<string> := {"Healthcare", "Education", "Residential", "Infrastructure", DefaultKey}

  /** `descriptions[phaseIndex]`: the table has rows for phases 0 to 3,
      each keyed by a category's string value plus "default". */
  function DescriptionRow(phaseIndex: int): (row: Option<map<string, string>>)
    ensures row.Some? <==> 0 <= phaseIndex <= 3
  {
    if phaseIndex == 0 then Some(PlanningRow)
    else if phaseIndex == 1 then Some(FoundationRow)
    else if phaseIndex == 2 then Some(ConstructionRow)
    else if phaseIndex == 3 then Some(FinalizingRow)
    else None
  }

  /** `row?.[key]` followed by JavaScript truthiness: a missing row, a
      missing key and an empty string all count as absent. */
  function Entry(row: Option<map<string, string>>, key: string): (r: Option<string>)
    ensures r.Some? <==> row.Some? && key in row.value && row.value[key] != ""
    ensures r.Some? ==> r.value == row.value[key]
  {
    if row.Some? && key in row.value && row.value[key] != "" then Some(row.value[key]) else None
  }

  /** `specific || row?.["default"] || fallback` for any row: the key's own
      entry, else the row's default, else the global fallback; the result
      is never empty. */
  function DescriptionLookup(row: Option<map<string, string>>, key: string): (r: string)
    ensures r != ""
    ensures Entry(row, key).Some? ==> r == Entry(row, key).value
    ensures Entry(row, key).None? && Entry(row, DefaultKey).Some? ==> r == Entry(row, DefaultKey).value
    ensures Entry(row, key).None? && Entry(row, DefaultKey).None? ==> r == GlobalFallback
  {
    match Entry(row, key)
    case Some(s) => s
    case None =>
      match Entry(row, DefaultKey)
      case Some(d) => d
      case None => GlobalFallback
  }

  /** `getPhaseDescription(phaseIndex, category)`. */
  function GetPhaseDescription(phaseIndex: int, category: ProjectCategory): (r: string)
    ensures r != ""
    ensures (phaseIndex < 0 || phaseIndex > 3) ==> r == GlobalFallback
  {
    DescriptionLookup(DescriptionRow(phaseIndex), category.Value())
  }

  /** What every row of the table holds: exactly the four category keys
      and "default", each with a non-empty text, and a category text that
      is never the row's default. */
  predicate WellFormedRow(row: map<string, string>) {
    && row.Keys == RowKeys
    && (forall k :: k in row ==> row[k] != "")
    && row["Healthcare"] != row[DefaultKey]
    && row["Education"] != row[DefaultKey]
    && row["Residential"] != row[DefaultKey]
    && row["Infrastructure"] != row[DefaultKey]
  }

  lemma RowsWellFormed(phaseIndex: int)
    requires 0 <= phaseIndex <= 3
    ensures WellFormedRow(DescriptionRow(phaseIndex).value)
  {
    if phaseIndex == 0 {
      assert WellFormedRow(PlanningRow);
    } else if phaseIndex == 1 {
      assert WellFormedRow(FoundationRow);
    } else if phaseIndex == 2 {
      assert WellFormedRow(ConstructionRow);
    } else {
      assert WellFormedRow(FinalizingRow);
    }
  }

  /** For phases 0..3 every category has its own entry, and it differs from
      the row's default. */
  lemma PhaseDescriptionIsSpecific(phaseIndex: int, category: ProjectCategory)
    requires 0 <= phaseIndex <= 3
    ensures GetPhaseDescription(phaseIndex, category) == DescriptionRow(phaseIndex).value[category.Value()]
    ensures GetPhaseDescription(phaseIndex, category) != DescriptionRow(phaseIndex).value[DefaultKey]
  {
    RowsWellFormed(phaseIndex);
  }

  /** A key the row lacks (a category string outside the enumeration) gets
      the row's default. */
  lemma MissingKeyGetsRowDefault(phaseIndex: int, key: string)
    requires 0 <= phaseIndex <= 3
    requires key !in RowKeys
    ensures DescriptionLookup(DescriptionRow(phaseIndex), key) == DescriptionRow(phaseIndex).value[DefaultKey]
  {
    RowsWellFormed(phaseIndex);
  }

  datatype Icon = CheckCircle | Spinner | EmptyCircle
  datatype LineColour = Green | Grey

  /** One rendered phase: its three flags, the icons shown, the connecting
      line below it (absent for the last phase), whether the "Current
      Phase" marker is shown, and the description text. */
  datatype PhaseRow = PhaseRow(
    name: string,
    isCompleted: bool,
    isActive: bool,
    isFuture: bool,
    icons: seq<Icon>,
    connector: Option<LineColour>,
    currentMarker: bool,
    description: string)

  /** The row for phase `index` of `phases`. */
  function RenderPhase(phases: seq<string>, index: nat, currentPhase: int, category: ProjectCategory): (row: PhaseRow)
    requires index < |phases|
    ensures row.icons == [CheckCircle] || row.icons == [Spinner] || row.icons == [EmptyCircle]
    ensures row.icons == [CheckCircle] <==> index < currentPhase
    ensures row.icons == [Spinner] <==> index == currentPhase
  {
    var isCompleted := index < currentPhase;
    var isActive := index == currentPhase;
    var isFuture := index > currentPhase;
    var icons := (if isCompleted then [CheckCircle] else []) + (if isActive then [Spinner] else []) +
                 (if isFuture then [EmptyCircle] else []);
    assert isCompleted ==> icons == [CheckCircle];
    assert isActive ==> icons == [Spinner];
    assert isFuture ==> icons == [EmptyCircle];
    assert icons[0] == CheckCircle <==> isCompleted;
    assert icons[0] == Spinner <==> isActive;
    PhaseRow(
      phases[index], isCompleted, isActive, isFuture, icons,
      if index != |phases| - 1 then Some(if isCompleted then Green else Grey) else None,
      isActive,
      GetPhaseDescription(index, category))
  }

  /** The tracker: one row per phase, in order. Each row has exactly one
      of the three states and the matching single icon; every phase but
      the last has a connecting line, green exactly when that phase is
      completed. */
  function Tracker(phases: seq<string>, currentPhase: int, category: ProjectCategory): (rows: seq<PhaseRow>)
    ensures |rows| == |phases|
    ensures forall i :: 0 <= i < |rows| ==>
              && rows[i].name == phases[i]
              && (rows[i].isCompleted <==> i < currentPhase)
              && (rows[i].isActive <==> i == currentPhase)
              && (rows[i].isFuture <==> i > currentPhase)
              && (rows[i].icons == [CheckCircle] || rows[i].icons == [Spinner] || rows[i].icons == [EmptyCircle])
              && (rows[i].icons == [CheckCircle] <==> rows[i].isCompleted)
              && (rows[i].icons == [Spinner] <==> rows[i].isActive)
              && (rows[i].connector.None? <==> i == |phases| - 1)
              && (rows[i].connector == Some(Green) <==> rows[i].isCompleted && i != |phases| - 1)
              && rows[i].description == GetPhaseDescription(i, category)
  {
    seq(|phases|, i requires 0 <= i < |phases| => RenderPhase(phases, i, currentPhase, category))
  }

  /** Exactly one of completed, active and future holds for every phase. */
  lemma ExactlyOneState(phases: seq<string>, currentPhase: int, category: ProjectCategory, i: nat)
    requires i < |phases|
    ensures var row := Tracker(phases, currentPhase, category)[i];
      (row.isCompleted && !row.isActive && !row.isFuture) ||
      (!row.isCompleted && row.isActive && !row.isFuture) ||
      (!row.isCompleted && !row.isActive && row.isFuture)
  {
  }

  /** At most one phase is active, and none when the current phase lies
      outside the list's index range. */
  lemma AtMostOneActive(phases: seq<string>, currentPhase: int, category: ProjectCategory)
    ensures var rows := Tracker(phases, currentPhase, category);
      forall i, j :: 0 <= i < j < |rows| ==> !(rows[i].isActive && rows[j].isActive)
    ensures var rows := Tracker(phases, currentPhase, category);
      (currentPhase < 0 || currentPhase >= |phases|) ==> forall i :: 0 <= i < |rows| ==> !rows[i].isActive
  {
  }

  /** Current phase 2 of four: phases 0 and 1 completed, 2 active, 3 future;
      green lines below 0 and 1, grey below 2, none below 3. */
  lemma TrackerAtPhaseTwo(phases: seq<string>, category: ProjectCategory)
    requires |phases| == 4
    ensures var rows := Tracker(phases, 2, category);
      && rows[0].icons == [CheckCircle] && rows[1].icons == [CheckCircle]
      && rows[2].icons == [Spinner] && rows[2].currentMarker && rows[3].icons == [EmptyCircle]
      && rows[0].connector == Some(Green) && rows[1].connector == Some(Green)
      && rows[2].connector == Some(Grey) && rows[3].connector == None
  {
  }
}
