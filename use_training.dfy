/** The training hook of one role: the role's materials, which of them are
    completed, and the completed share in percent. */
module UseTraining {
  import opened Common

  datatype Material = Material(id: string, title: string, content: string, role: string, completed: bool)

  function IsCompleted(): Material -> bool
  {
    (m: Material) => m.completed
  }

  /** `(part / whole) * 100`. */
  function Percent(part: nat, whole: nat): (p: real)
    requires whole > 0
  {
    (part as real / whole as real) * 100.0
  }

  /** A part of a whole is between 0 and 100 percent of it, all of it is
      100, and a larger part is a larger share. */
  lemma PercentBounds(part: nat, more: nat, whole: nat)
    requires 0 < whole && part <= more <= whole
    ensures 0.0 <= Percent(part, whole) <= Percent(more, whole) <= 100.0
    ensures Percent(whole, whole) == 100.0
  {
    var w := whole as real;
    DivideMonotone(0.0, part as real, w);
    DivideMonotone(part as real, more as real, w);
    DivideMonotone(more as real, w, w);
  }

  lemma DivideMonotone(a: real, b: real, w: real)
    requires 0.0 < w && a <= b
    ensures a / w <= b / w
  {
    var qa, qb := a / w, b / w;
    assert qa * w == a && qb * w == b;
  }

  /** `updateProgress`: 0 for no materials, else the completed share in
      percent. */
  function Progress(materials: seq<Material>): (p: real)
    ensures 0.0 <= p <= 100.0
    ensures materials == [] ==> p == 0.0
    ensures materials != [] ==> p == Percent(Count(materials, IsCompleted()), |materials|)
  {
    if |materials| == 0 then 0.0
    else
      var done := Count(materials, IsCompleted());
      PercentBounds(done, done, |materials|);
      Percent(done, |materials|)
  }

  /** All materials completed is 100%, none completed is 0%. */
  lemma {:induction false} ProgressExtremes(materials: seq<Material>)
    ensures (forall i :: 0 <= i < |materials| ==> materials[i].completed) ==>
      Progress(materials) == (if materials == [] then 0.0 else 100.0)
    ensures (forall i :: 0 <= i < |materials| ==> !materials[i].completed) ==> Progress(materials) == 0.0
  {
    if forall i :: 0 <= i < |materials| ==> materials[i].completed {
      FilterKeepsAll(materials, IsCompleted());
      if materials != [] {
        PercentBounds(|materials|, |materials|, |materials|);
      }
    }
    if forall i :: 0 <= i < |materials| ==> !materials[i].completed {
      FilterKeepsNone(materials, IsCompleted());
    }
  }

  function MarkIfMatches(materialId: string): Material -> Material
  {
    (m: Material) => if m.id == materialId then m.(completed := true) else m
  }

  /** The list after `markAsCompleted(materialId)`. */
  function MarkCompleted(materials: seq<Material>, materialId: string): (r: seq<Material>)
    ensures |r| == |materials|
    ensures forall i :: 0 <= i < |r| && materials[i].id == materialId ==> r[i] == materials[i].(completed := true)
    ensures forall i :: 0 <= i < |r| && materials[i].id != materialId ==> r[i] == materials[i]
  {
    Map(materials, MarkIfMatches(materialId))
  }

  /** Marking twice is marking once. */
  lemma MarkCompletedIdempotent(materials: seq<Material>, materialId: string)
    ensures MarkCompleted(MarkCompleted(materials, materialId), materialId) == MarkCompleted(materials, materialId)
  {
  }

  /** Marking never un-completes a material, so the number completed never
      drops, and it grows when the marked material was not yet completed. */
  lemma {:induction false} MarkCompletedCount(materials: seq<Material>, materialId: string)
    ensures Count(MarkCompleted(materials, materialId), IsCompleted()) >= Count(materials, IsCompleted())
    ensures (exists i :: 0 <= i < |materials| && materials[i].id == materialId && !materials[i].completed) ==>
      Count(MarkCompleted(materials, materialId), IsCompleted()) > Count(materials, IsCompleted())
  {
    if materials != [] {
      var marked := MarkCompleted(materials, materialId);
      assert marked[1..] == MarkCompleted(materials[1..], materialId);
      MarkCompletedCount(materials[1..], materialId);
      if exists i :: 0 <= i < |materials| && materials[i].id == materialId && !materials[i].completed {
        var i :| 0 <= i < |materials| && materials[i].id == materialId && !materials[i].completed;
        if i > 0 {
          assert materials[1..][i - 1] == materials[i];
        }
      }
    }
  }

  /** The progress never drops when a material is marked completed. */
  lemma MarkCompletedProgress(materials: seq<Material>, materialId: string)
    ensures Progress(MarkCompleted(materials, materialId)) >= Progress(materials)
  {
    MarkCompletedCount(materials, materialId);
    if materials != [] {
      PercentBounds(Count(materials, IsCompleted()), Count(MarkCompleted(materials, materialId), IsCompleted()),
                    |materials|);
    }
  }

  class TrainingHook {
    const userRole: string
    var materials: seq<Material>
    var loading: bool
    var progress: real

    constructor (userRole: string)
      ensures this.userRole == userRole && materials == [] && loading && progress == 0.0
    {
      this.userRole := userRole;
      materials := [];
      loading := true;
      progress := 0.0;
    }

    /** `fetchTrainingMaterials`: `response` is the role's materials oldest
        first, as the query returns them, null, or an error. The list is
        replaced (null by the empty list) and the progress recomputed from
        it; an error keeps both. Loading ends either way. */
    method FetchTrainingMaterials(response: Result<Option<seq<Material>>>)
      modifies this
      ensures !loading
      ensures response.Err? ==> materials == old(materials) && progress == old(progress)
      ensures response.Ok? ==> materials == (if response.value.None? then [] else response.value.value)
      ensures response.Ok? ==> progress == Progress(materials)
    {
      if response.Ok? {
        materials := if response.value.None? then [] else response.value.value;
        progress := Progress(materials);
      }
      loading := false;
    }

    /** `markAsCompleted`: only once the update succeeded is the material
        marked and the progress recomputed from the marked list. */
    method MarkAsCompleted(materialId: string, updateError: Option<string>)
      modifies this
      ensures updateError.Some? ==> materials == old(materials) && progress == old(progress)
      ensures updateError.None? ==> materials == MarkCompleted(old(materials), materialId) && progress == Progress(materials)
      ensures loading == old(loading)
    {
      if updateError.Some? {
        return;
      }
      materials := MarkCompleted(materials, materialId);
      progress := Progress(materials);
    }
  }
}
