/** The training catalogue: every material in `order_index` order, the
    signed-in user's progress row per material, a status filter, the
    per-material action, and the progress rows written by starting and
    completing a material. */
module TrainingCatalog {
  import opened Common
  import opened Toasts

  datatype Difficulty = Beginner | Intermediate | Advanced

  /** A row of `training_materials`. */
  datatype Material = Material(id: string, title: string, content: string, category: string, role: string,
                               difficulty: Difficulty, orderIndex: int)

  /** A row of `training_progress`. */
  datatype ProgressRow = ProgressRow(id: string, userId: string, materialId: string, status: string,
                                     progressPercentage: real)

  /** The `progressMap` reduce: each row stored under its material id, a
      later row replacing an earlier one for the same material. */
  function {:induction false} ProgressMap(rows: seq<ProgressRow>): (m: map<string, ProgressRow>)
    ensures forall i :: 0 <= i < |rows| ==> rows[i].materialId in m
    ensures forall k :: k in m ==> m[k].materialId == k
  {
    if rows == [] then map[]
    else
      var last := rows[|rows| - 1];
      var before := ProgressMap(rows[..|rows| - 1]);
      assert forall i :: 0 <= i < |rows| - 1 ==> rows[..|rows| - 1][i] == rows[i];
      before[last.materialId := last]
  }

  /** No row after position `i` is for material `k`. */
  predicate NoLaterRow(rows: seq<ProgressRow>, i: nat, k: string)
  {
    forall j :: i < j < |rows| ==> rows[j].materialId != k
  }

  /** The row a material maps to is its last row: no later row exists for
      the same material. */
  lemma {:induction false} LastRowWins(rows: seq<ProgressRow>, k: string)
    requires k in ProgressMap(rows)
    ensures exists i :: 0 <= i < |rows| && rows[i] == ProgressMap(rows)[k] && NoLaterRow(rows, i, k)
  {
    var n := |rows| - 1;
    var prefix := rows[..n];
    assert ProgressMap(rows) == ProgressMap(prefix)[rows[n].materialId := rows[n]];
    if rows[n].materialId == k {
      assert NoLaterRow(rows, n, k);
    } else {
      assert k in ProgressMap(prefix) && ProgressMap(rows)[k] == ProgressMap(prefix)[k];
      LastRowWins(prefix, k);
      var i :| 0 <= i < |prefix| && prefix[i] == ProgressMap(prefix)[k] && NoLaterRow(prefix, i, k);
      assert rows[i] == prefix[i];
      assert NoLaterRow(rows, i, k) by {
        forall j | i < j < |rows|
          ensures rows[j].materialId != k
        {
          if j < n {
            assert rows[j] == prefix[j];
          }
        }
      }
    }
  }

  datatype StatusFilter = All | InProgressOnly | CompletedOnly

  /** `progress[id]?.status`. */
  function StatusOf(progress: map<string, ProgressRow>, materialId: string): (status: Option<string>)
    ensures status.Some? <==> materialId in progress
    ensures status.Some? ==> status.value == progress[materialId].status
  {
    if materialId in progress then Some(progress[materialId].status) else None
  }

  /** The test `filteredMaterials` applies to one material. */
  function Shown(filter: StatusFilter, progress: map<string, ProgressRow>): Material -> bool
  {
    (m: Material) =>
      match filter
      case CompletedOnly => StatusOf(progress, m.id) == Some("completed")
      case InProgressOnly => StatusOf(progress, m.id) == Some("in_progress")
      case All => true
  }

  /** `filteredMaterials`: the materials the filter shows, in their order. */
  function FilteredMaterials(materials: seq<Material>, progress: map<string, ProgressRow>, filter: StatusFilter): (shown: seq<Material>)
    ensures |shown| <= |materials|
  {
    Filter(materials, Shown(filter, progress))
  }

  /** `all` shows every material; `completed` and `in_progress` show a
      material exactly when its progress row has that status, so a material
      without a row shows only under `all`. */
  lemma FilterStatuses(materials: seq<Material>, progress: map<string, ProgressRow>)
    ensures FilteredMaterials(materials, progress, All) == materials
    ensures forall i :: 0 <= i < |materials| ==>
      (materials[i] in FilteredMaterials(materials, progress, CompletedOnly) <==>
       StatusOf(progress, materials[i].id) == Some("completed"))
    ensures forall i :: 0 <= i < |materials| ==>
      (materials[i] in FilteredMaterials(materials, progress, InProgressOnly) <==>
       StatusOf(progress, materials[i].id) == Some("in_progress"))
  {
    FilterKeepsAll(materials, Shown(All, progress));
    forall i | 0 <= i < |materials|
      ensures materials[i] in FilteredMaterials(materials, progress, CompletedOnly) ==>
        StatusOf(progress, materials[i].id) == Some("completed")
      ensures materials[i] in FilteredMaterials(materials, progress, InProgressOnly) ==>
        StatusOf(progress, materials[i].id) == Some("in_progress")
    {
      var c := FilteredMaterials(materials, progress, CompletedOnly);
      if materials[i] in c {
        var j :| 0 <= j < |c| && c[j] == materials[i];
      }
      var p := FilteredMaterials(materials, progress, InProgressOnly);
      if materials[i] in p {
        var j :| 0 <= j < |p| && p[j] == materials[i];
      }
    }
  }

  /** Filtering again with the same filter shows the same materials. */
  lemma FilterStable(materials: seq<Material>, progress: map<string, ProgressRow>, filter: StatusFilter)
    ensures FilteredMaterials(FilteredMaterials(materials, progress, filter), progress, filter) ==
            FilteredMaterials(materials, progress, filter)
  {
    FilterIdempotent(materials, Shown(filter, progress));
  }

  /** The action under a material card. */
  datatype Action = NoAction | CompleteButton | StartButton

  /** A completed material shows no button, one in progress the complete
      button, every other (no row, or another status) the start button. */
  function ActionFor(progress: map<string, ProgressRow>, materialId: string): (a: Action)
    ensures a == NoAction <==> StatusOf(progress, materialId) == Some("completed")
    ensures a == CompleteButton <==> StatusOf(progress, materialId) == Some("in_progress")
    ensures a == StartButton <==> StatusOf(progress, materialId) !in {Some("completed"), Some("in_progress")}
  {
    var status := StatusOf(progress, materialId);
    if status == Some("completed") then NoAction
    else if status == Some("in_progress") then CompleteButton
    else StartButton
  }

  /** The record of a progress upsert; the percentage is set only on
      completion. */
  datatype ProgressUpsert = ProgressUpsert(userId: Option<string>, materialId: string, status: string,
                                           startedAt: Option<string>, completedAt: Option<string>,
                                           progressPercentage: Option<real>)

  function StartRecord(userId: Option<string>, materialId: string, now: string): (r: ProgressUpsert)
    ensures r.status == "in_progress" && r.materialId == materialId && r.userId == userId
    ensures r.startedAt == Some(now) && r.completedAt.None? && r.progressPercentage.None?
  {
    ProgressUpsert(userId, materialId, "in_progress", Some(now), None, None)
  }

  function CompleteRecord(userId: Option<string>, materialId: string, now: string): (r: ProgressUpsert)
    ensures r.status == "completed" && r.materialId == materialId && r.userId == userId
    ensures r.completedAt == Some(now) && r.startedAt.None? && r.progressPercentage == Some(100.0)
  {
    ProgressUpsert(userId, materialId, "completed", None, Some(now), Some(100.0))
  }

  /** Once a fetched row for a material records a start, the card offers
      the complete button; once it records a completion, no button at all.
      A row appended after all others decides, whatever came before. */
  lemma ActionsAdvance(rows: seq<ProgressRow>, row: ProgressRow)
    ensures row.status == "in_progress" ==> ActionFor(ProgressMap(rows + [row]), row.materialId) == CompleteButton
    ensures row.status == "completed" ==> ActionFor(ProgressMap(rows + [row]), row.materialId) == NoAction
    ensures row.status !in {"in_progress", "completed"} ==>
      ActionFor(ProgressMap(rows + [row]), row.materialId) == StartButton
  {
    assert (rows + [row])[..|rows + [row]| - 1] == rows;
  }

  const LoadFailed: string := "Erro ao carregar materiais de treinamento"
  const Started: string := "Material iniciado!"
  const StartFailed: string := "Erro ao iniciar material"
  const Completed: string := "Material concluído!"
  const CompleteFailed: string := "Erro ao concluir material"

  /** What the two queries of `fetchMaterials` return: the materials in
      `order_index` order and the user's progress rows, each null or an
      error. */
  datatype Fetch = Fetch(materials: Result<Option<seq<Material>>>, progress: Result<Option<seq<ProgressRow>>>)

  predicate FetchFails(fetch: Fetch)
  {
    fetch.materials.Err? || fetch.progress.Err?
  }

  /** The toasts a fetch adds: one error toast when either query fails. */
  function FetchToasts(fetch: Fetch): (ts: seq<Toast>)
    ensures ts == (if FetchFails(fetch) then [Toast(ToastKind.Error, LoadFailed)] else [])
  {
    if FetchFails(fetch) then [Toast(ToastKind.Error, LoadFailed)] else []
  }

  /** The materials a fetch whose queries both succeeded loads; null data
      loads none. */
  function LoadedMaterials(fetch: Fetch): seq<Material>
    requires !FetchFails(fetch)
  {
    if fetch.materials.value.None? then [] else fetch.materials.value.value
  }

  /** The progress map a fetch whose queries both succeeded loads. */
  function LoadedProgress(fetch: Fetch): map<string, ProgressRow>
    requires !FetchFails(fetch)
  {
    ProgressMap(if fetch.progress.value.None? then [] else fetch.progress.value.value)
  }

  class Catalog {
    const userId: Option<string>
    var materials: seq<Material>
    var progress: map<string, ProgressRow>
    var loading: bool
    var filter: StatusFilter
    var upserts: seq<ProgressUpsert>
    var toasts: seq<Toast>

    constructor (userId: Option<string>)
      ensures this.userId == userId && materials == [] && progress == map[] && loading && filter == All
      ensures upserts == [] && toasts == []
    {
      this.userId := userId;
      materials := [];
      progress := map[];
      loading := true;
      filter := All;
      upserts := [];
      toasts := [];
    }

    method SetFilter(f: StatusFilter)
      modifies this
      ensures filter == f && materials == old(materials) && progress == old(progress)
      ensures upserts == old(upserts) && toasts == old(toasts) && loading == old(loading)
    {
      filter := f;
    }

    /** `fetchMaterials`: the materials and the progress map change only
        when both queries succeed; otherwise one error toast. Loading ends
        either way. */
    method FetchMaterials(fetch: Fetch)
      modifies this
      ensures !loading && upserts == old(upserts) && filter == old(filter)
      ensures toasts == old(toasts) + FetchToasts(fetch)
      ensures FetchFails(fetch) ==> materials == old(materials) && progress == old(progress)
      ensures !FetchFails(fetch) ==> materials == LoadedMaterials(fetch) && progress == LoadedProgress(fetch)
    {
      if FetchFails(fetch) {
        toasts := toasts + [Toast(ToastKind.Error, LoadFailed)];
      } else {
        materials := LoadedMaterials(fetch);
        progress := LoadedProgress(fetch);
      }
      loading := false;
    }

    /** `startMaterial`: the `in_progress` record is upserted; on success
        the catalogue is fetched again, with the outcome of
        `FetchMaterials`, and the start toasted. */
    method StartMaterial(materialId: string, now: string, upsertError: Option<string>, refetch: Fetch)
      modifies this
      ensures upsertError.Some? ==>
        upserts == old(upserts) && materials == old(materials) && progress == old(progress) &&
        toasts == old(toasts) + [Toast(ToastKind.Error, StartFailed)]
      ensures upsertError.None? ==>
        upserts == old(upserts) + [StartRecord(userId, materialId, now)] && !loading &&
        toasts == old(toasts) + FetchToasts(refetch) + [Toast(Success, Started)]
      ensures upsertError.None? && FetchFails(refetch) ==> materials == old(materials) && progress == old(progress)
      ensures upsertError.None? && !FetchFails(refetch) ==>
        materials == LoadedMaterials(refetch) && progress == LoadedProgress(refetch)
      ensures upsertError.Some? ==> loading == old(loading)
      ensures filter == old(filter)
    {
      if upsertError.Some? {
        toasts := toasts + [Toast(ToastKind.Error, StartFailed)];
        return;
      }
      upserts := upserts + [StartRecord(userId, materialId, now)];
      FetchMaterials(refetch);
      toasts := toasts + [Toast(Success, Started)];
    }

    /** `completeMaterial`: the `completed` record at 100% is upserted; on
        success the catalogue is fetched again, with the outcome of
        `FetchMaterials`, and the completion toasted. */
    method CompleteMaterial(materialId: string, now: string, upsertError: Option<string>, refetch: Fetch)
      modifies this
      ensures upsertError.Some? ==>
        upserts == old(upserts) && materials == old(materials) && progress == old(progress) &&
        toasts == old(toasts) + [Toast(ToastKind.Error, CompleteFailed)]
      ensures upsertError.None? ==>
        upserts == old(upserts) + [CompleteRecord(userId, materialId, now)] && !loading &&
        toasts == old(toasts) + FetchToasts(refetch) + [Toast(Success, Completed)]
      ensures upsertError.None? && FetchFails(refetch) ==> materials == old(materials) && progress == old(progress)
      ensures upsertError.None? && !FetchFails(refetch) ==>
        materials == LoadedMaterials(refetch) && progress == LoadedProgress(refetch)
      ensures upsertError.Some? ==> loading == old(loading)
      ensures filter == old(filter)
    {
      if upsertError.Some? {
        toasts := toasts + [Toast(ToastKind.Error, CompleteFailed)];
        return;
      }
      upserts := upserts + [CompleteRecord(userId, materialId, now)];
      FetchMaterials(refetch);
      toasts := toasts + [Toast(Success, Completed)];
    }
  }
}
