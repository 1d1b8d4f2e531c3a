/** The bridge's task mappings: which task ID, branch, project and starter commit a card has. */
module Mappings {
  import opened Text
  import opened Tables
  import opened Naming

  datatype Mapping = Mapping(
    taskId: string, branch: Option<string>, project: Option<string>, starter: Option<string>, url: Option<string>)

  /** `task_mappings` by row ID; `task_id` and `branch_name` are unique. */
  type MappingTable = map<string, Mapping>

  function TaskIds(t: MappingTable): set<string> { set row | row in t :: t[row].taskId }

  predicate BranchUsed(t: MappingTable, row: string, branch: string) {
    exists o | o in t :: o != row && t[o].branch == Some(branch)
  }

  ghost function NextId(t: MappingTable): string { Numbered(Highest(TaskIds(t)) + 1) }

  /** An empty text counts as no ID. */
  predicate Given(existing: Option<string>) { existing.Some? && existing.value != "" }

  ghost function GetOrAllocate(t: MappingTable, row: string, existing: Option<string>)
    : (MappingTable, Result<Mapping>)
  {
    if row in t then
      if Given(existing) && t[row].taskId != existing.value then (t, Failure(InvalidValue)) else (t, Success(t[row]))
    else
      var id := if Given(existing) then existing.value else NextId(t);
      if id in TaskIds(t) then (t, Failure(IntegrityFailure))
      else
        var mapping := Mapping(id, None, None, None, None);
        (t[row := mapping], Success(mapping))
  }

  function ReserveBranch(t: MappingTable, row: string, branch: string, project: string)
    : (MappingTable, Result<Mapping>)
  {
    if row !in t then (t, Failure(Missing))
    else
      var m := t[row];
      if m.branch.None? then
        if BranchUsed(t, row, branch) then (t, Failure(IntegrityFailure))
        else
          var reserved := m.(branch := Some(branch), project := Some(project));
          (t[row := reserved], Success(reserved))
      else if m.project.None? then (t[row := m.(project := Some(project))], Success(m.(project := Some(project))))
      else (t, Success(m))
  }

  predicate IsCommit(s: string) { |s| == 40 && IsHex(s) }

  function RecordStarter(t: MappingTable, row: string, starter: string): (MappingTable, Result<Mapping>) {
    if !IsCommit(starter) then (t, Failure(InvalidValue))
    else if row !in t then (t, Failure(Missing))
    else if t[row].starter.Some? && t[row].starter.value != starter then (t, Failure(InputChanged))
    else
      var m := t[row].(starter := Some(starter));
      (t[row := m], Success(m))
  }

  /** Writes the branch name again, unconditionally. */
  function RecordBranch(t: MappingTable, row: string, branch: string, url: string): (MappingTable, Result<Mapping>) {
    if row !in t then (t, Failure(Missing))
    else if BranchUsed(t, row, branch) then (t, Failure(IntegrityFailure))
    else
      var m := t[row].(branch := Some(branch), url := Some(url));
      (t[row := m], Success(m))
  }

  /** The mapping that the query by branch finds. */
  ghost function MappingOf(t: MappingTable, branch: string): Option<Mapping> {
    if exists row :: row in t && t[row].branch == Some(branch) then
      var row :| row in t && t[row].branch == Some(branch);
      Some(t[row])
    else None
  }

  // ----- what holds of the table -----

  /** No two rows share a task ID or a branch, and a project comes only with a branch. */
  ghost predicate WellFormed(t: MappingTable) {
    && (forall a, b | a in t && b in t && t[a].taskId == t[b].taskId :: a == b)
    && (forall a, b | a in t && b in t && t[a].branch.Some? && t[a].branch == t[b].branch :: a == b)
    && (forall a | a in t && t[a].project.Some? :: t[a].branch.Some?)
  }

  /** What was set stays. */
  predicate OnlySets(before: Option<string>, after: Option<string>) { before.Some? ==> after == before }

  predicate MappingGrows(m: Mapping, m': Mapping) {
    && m'.taskId == m.taskId && OnlySets(m.branch, m'.branch) && OnlySets(m.project, m'.project)
    && OnlySets(m.starter, m'.starter)
  }

  ghost predicate Grows(t: MappingTable, t': MappingTable) {
    forall row | row in t :: row in t' && MappingGrows(t[row], t'[row])
  }

  lemma WriteGrows(t: MappingTable, row: string, m: Mapping)
    requires WellFormed(t)
    requires if row in t then MappingGrows(t[row], m) else m.taskId !in TaskIds(t)
    requires m.branch.Some? ==> (row in t && t[row].branch == m.branch) || !BranchUsed(t, row, m.branch.value)
    requires m.project.Some? ==> m.branch.Some?
    ensures WellFormed(t[row := m]) && Grows(t, t[row := m])
  {}

  lemma GrowsReflexive(t: MappingTable)
    ensures Grows(t, t)
  {}

  lemma GetOrAllocateGrows(t: MappingTable, row: string, existing: Option<string>)
    requires WellFormed(t)
    ensures
      var (t', r) := GetOrAllocate(t, row, existing);
      && WellFormed(t') && Grows(t, t')
      && (r.Success? ==> row in t' && t'[row] == r.value)
  {
    hide Highest, Numbered, WellFormed, Grows, TaskIds;
    GrowsReflexive(t);
    var (t', r) := GetOrAllocate(t, row, existing);
    if row !in t && r.Success? { WriteGrows(t, row, r.value); }
  }

  lemma ReserveBranchGrows(t: MappingTable, row: string, branch: string, project: string)
    requires WellFormed(t)
    ensures
      var (t', r) := ReserveBranch(t, row, branch, project);
      && WellFormed(t') && Grows(t, t')
      && (r.Success? ==> row in t' && t'[row] == r.value && r.value.branch.Some? && r.value.project.Some?)
  {
    hide WellFormed, Grows, BranchUsed;
    GrowsReflexive(t);
    var (t', r) := ReserveBranch(t, row, branch, project);
    if r.Success? {
      ProjectNeedsBranch(t, row);
      WriteGrows(t, row, r.value);
      assert t[row := t[row]] == t;
    }
  }

  lemma ProjectNeedsBranch(t: MappingTable, row: string)
    requires WellFormed(t) && row in t
    ensures t[row].project.Some? ==> t[row].branch.Some?
  {}

  lemma RecordStarterGrows(t: MappingTable, row: string, starter: string)
    requires WellFormed(t)
    ensures
      var (t', r) := RecordStarter(t, row, starter);
      && WellFormed(t') && Grows(t, t')
      && (r.Success? ==> row in t' && t'[row] == r.value && r.value.starter == Some(starter))
  {
    hide WellFormed, Grows, IsCommit;
    GrowsReflexive(t);
    var (t', r) := RecordStarter(t, row, starter);
    if r.Success? {
      ProjectNeedsBranch(t, row);
      WriteGrows(t, row, r.value);
    }
  }

  lemma RecordBranchGrows(t: MappingTable, row: string, branch: string, url: string)
    requires WellFormed(t) && (row in t ==> t[row].branch == Some(branch))
    ensures
      var (t', r) := RecordBranch(t, row, branch, url);
      && WellFormed(t') && Grows(t, t')
      && (r.Success? ==> row in t' && t'[row] == r.value && r.value.branch == Some(branch) && r.value.url == Some(url))
  {
    hide WellFormed, Grows, BranchUsed;
    GrowsReflexive(t);
    var (t', r) := RecordBranch(t, row, branch, url);
    if r.Success? { WriteGrows(t, row, r.value); }
  }

  lemma GrowsTransitive(a: MappingTable, b: MappingTable, c: MappingTable)
    requires Grows(a, b) && Grows(b, c)
    ensures Grows(a, c)
  {}

  /** While every recorded ID is one that the bridge would print, its own reservations never collide:
      a fresh ID can always be inserted and the branch named after it is never taken by another. */
  lemma OwnNamesNeverCollide(t: MappingTable, row: string, title: string, names: map<string, string>)
    requires row in t && IsTaskId(t[row].taskId)
    requires WellFormed(t) && names.Keys == t.Keys
    requires forall o | o in t && t[o].branch.Some? ::
      IsTaskId(t[o].taskId) && t[o].branch.value == BranchName(t[o].taskId, names[o])
    ensures !BranchUsed(t, row, BranchName(t[row].taskId, title))
    ensures NextId(t) !in TaskIds(t)
  {
    hide BranchName, IsTaskId, Numbered, Highest;
    AllocatedIdIsFresh(TaskIds(t));
    forall o | o in t && o != row && t[o].branch.Some? ensures t[o].branch.value != BranchName(t[row].taskId, title) {
      BranchNamesAreDistinct(t[o].taskId, t[row].taskId, names[o], title);
    }
  }
}
