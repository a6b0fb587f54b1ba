/** The editing logic of `ContractsTable` in
    `src/components/tables/ContractsTable.tsx`: the local copy of the rows,
    the edit dialog, and the two callbacks it forwards to. The browser's
    `confirm` answer is a parameter. */
module ContractsTable {
  import opened Wrappers
  import opened Json

  const ConfirmText: string := "Tem certeza que deseja desativar este contrato?"

  /** A contract row: its `id` (a string or a number) and its other fields. */
  datatype Contract = Contract(id: Json, fields: map<string, Json>)

  datatype TableState = TableState(rows: seq<Contract>, editing: Option<Contract>, dialogOpen: bool)

  /** The first render copies `initialData`; nothing is being edited. */
  function Mount(initialData: seq<Contract>): (s: TableState)
    ensures s.rows == initialData && s.editing == None && !s.dialogOpen
  {
    TableState(initialData, None, false)
  }

  /** The effect on `initialData`: the rows become a fresh copy of it,
      whatever was shown before; the dialog is left as it was. */
  function Sync(s: TableState, initialData: seq<Contract>): (r: TableState)
    ensures r.rows == initialData && r.editing == s.editing && r.dialogOpen == s.dialogOpen
  {
    s.(rows := initialData)
  }

  /** `handleEdit`: remembers the contract and opens the dialog. */
  function Edit(s: TableState, c: Contract): (r: TableState)
    ensures r.editing == Some(c) && r.dialogOpen && r.rows == s.rows
  {
    s.(editing := Some(c), dialogOpen := true)
  }

  /** `handleSave`: with an `onEdit` callback and a contract being edited,
      forwards the edited fields with the edited contract's `id` and closes
      the dialog; otherwise nothing happens. The second component is what
      `onEdit` receives. */
  function Save(s: TableState, updated: map<string, Json>, hasOnEdit: bool): (r: (TableState, Option<map<string, Json>>))
    ensures r.1.Some? <==> hasOnEdit && s.editing.Some?
    ensures r.1.Some? ==> "id" in r.1.value && r.1.value["id"] == s.editing.value.id
    ensures r.1.Some? ==> forall k :: k in updated && k != "id" ==> k in r.1.value && r.1.value[k] == updated[k]
    ensures r.1.Some? ==> forall k :: k in r.1.value ==> k in updated || k == "id"
    ensures r.1.Some? ==> r.0 == s.(dialogOpen := false)
    ensures r.1.None? ==> r.0 == s
  {
    if hasOnEdit && s.editing.Some? then
      (s.(dialogOpen := false), Some(updated["id" := s.editing.value.id]))
    else (s, None)
  }

  /** `handleDelete`: `onDelete(id)` only after the user confirms. The
      table's own state is not touched: the row stays listed until the
      parent passes new `initialData`. */
  function Delete(s: TableState, id: Json, confirmed: bool, hasOnDelete: bool): (r: (TableState, Option<Json>))
    ensures r.0 == s
    ensures r.1.Some? <==> confirmed && hasOnDelete
    ensures r.1.Some? ==> r.1.value == id
  {
    (s, if confirmed && hasOnDelete then Some(id) else None)
  }

  /** Editing a row and saving sends that row's `id`, even when the dialog's
      fields carry another one. */
  lemma SaveKeepsEditedId(s: TableState, c: Contract, updated: map<string, Json>)
    ensures var r := Save(Edit(s, c), updated, true);
      r.1.Some? && r.1.value["id"] == c.id && !r.0.dialogOpen
  {
  }

  /** Without `onEdit` the dialog stays open after a save. */
  lemma SaveWithoutCallbackStaysOpen(s: TableState, c: Contract, updated: map<string, Json>)
    ensures Save(Edit(s, c), updated, false).0.dialogOpen
  {
  }

  /** The effect's first run, right after mounting, changes nothing. */
  lemma MountIsSynced(initialData: seq<Contract>)
    ensures Sync(Mount(initialData), initialData) == Mount(initialData)
    ensures Sync(Sync(Mount(initialData), initialData), initialData) == Mount(initialData)
  {
  }

  /** New `initialData` arriving while a row is being edited replaces the
      rows but not the edit: the dialog stays open and saving still sends
      the edited row's `id`. */
  lemma RefetchDuringEditKeepsTarget(s: TableState, c: Contract, initialData: seq<Contract>, updated: map<string, Json>)
    ensures Sync(Edit(s, c), initialData).dialogOpen
    ensures var r := Save(Sync(Edit(s, c), initialData), updated, true);
      r.1 == Some(updated["id" := c.id]) && r.0.rows == initialData && !r.0.dialogOpen
  {
  }

  /** Nothing is deleted without confirmation, and a confirmed delete
      leaves the row listed until the parent passes new rows. */
  lemma DeleteNeedsConfirmation(s: TableState, id: Json, hasOnDelete: bool, initialData: seq<Contract>)
    ensures Delete(s, id, false, hasOnDelete).1 == None
    ensures Delete(s, id, true, hasOnDelete).0.rows == s.rows
    ensures Sync(Delete(s, id, true, hasOnDelete).0, initialData).rows == initialData
  {
  }

  /** A delete while a row is being edited does not disturb the edit. */
  lemma DeleteDuringEditKeepsTarget(s: TableState, c: Contract, id: Json, confirmed: bool, hasOnDelete: bool, updated: map<string, Json>)
    ensures Save(Delete(Edit(s, c), id, confirmed, hasOnDelete).0, updated, true).1 == Some(updated["id" := c.id])
  {
  }

  /** The identity `Object.is` compares the effect's dependency by: an
      array the parent holds across renders, the array literal one render
      evaluates, or an array fixed at module level. */
  datatype ArrayIdentity = ParentArray(id: nat) | LiteralOfRender(render: nat) | ModuleConstant

  /** The `initialData` render `n` sees, as written: the parent's array when
      it passes one, else the parameter default `[]`, a new literal on every
      render. */
  function DependencyAsWritten(passed: Option<nat>, n: nat): ArrayIdentity {
    if passed.Some? then ParentArray(passed.value) else LiteralOfRender(n)
  }

  /** The same with the default hoisted to a module-level constant. */
  function DependencyFixed(passed: Option<nat>, n: nat): ArrayIdentity {
    if passed.Some? then ParentArray(passed.value) else ModuleConstant
  }

  /** The effect on `[initialData]` runs after the first render and after
      every render whose dependency is not the previous render's. Each run
      calls `setData` with a new array, which never equals the current
      state, so it causes render `n + 1`. */
  predicate EffectRunsAfter(dependency: nat -> ArrayIdentity, n: nat) {
    n == 0 || dependency(n) != dependency(n - 1)
  }

  /** As written, a table rendered without `initialData` (as
      `src/routes/contracts.tsx` does) runs the effect after every render,
      so every render causes another one and the renders never stop. */
  lemma DefaultDataRerendersForever(n: nat)
    ensures EffectRunsAfter((k: nat) => DependencyAsWritten(None, k), n)
  {
  }

  /** With a module-level default, the effect runs once after mounting and
      the renders settle; a parent-held array behaves the same either way. */
  lemma FixedDefaultSettles(passed: Option<nat>, n: nat)
    ensures EffectRunsAfter((k: nat) => DependencyFixed(passed, k), n) <==> n == 0
    ensures passed.Some? ==> DependencyFixed(passed, n) == DependencyAsWritten(passed, n)
  {
  }
}
