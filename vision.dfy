/**
 * Model of the vision subsystem's target lookup: given the camera's latest
 * pipeline result, find the first tracked target whose fiducial (AprilTag)
 * ID is the requested one. Fetching the result from the camera is I/O and
 * is a parameter here.
 */
module Vision {
  import opened Wrappers

  /** A tracked target as the camera reports it. Only the fiducial ID is read
      by the lookup; the angles and area stand for the rest of the report. */
  datatype TrackedTarget = TrackedTarget(fiducialId: int, yaw: real, pitch: real, area: real)

  /** The camera's latest pipeline result: the targets it sees, in its own order. */
  datatype PipelineResult = PipelineResult(targets: seq<TrackedTarget>) {
    /** A result has targets when its target list is not empty. */
    predicate HasTargets() {
      |targets| > 0
    }
  }

  /** The targets of `ts` whose fiducial ID is `id`, in list order
      (the stream's `filter`). */
  function FilterById(ts: seq<TrackedTarget>, id: int): (r: seq<TrackedTarget>)
    ensures |r| <= |ts|
    ensures forall t :: t in r <==> t in ts && t.fiducialId == id
  {
    if ts == [] then []
    else (if ts[0].fiducialId == id then [ts[0]] else []) + FilterById(ts[1..], id)
  }

  /** `i` is the position of the first target in `ts` with fiducial ID `id`. */
  ghost predicate IsFirstMatch(ts: seq<TrackedTarget>, id: int, i: int) {
    0 <= i < |ts| && ts[i].fiducialId == id &&
    forall j :: 0 <= j < i ==> ts[j].fiducialId != id
  }

  /** The filtered list starts with the first matching target. */
  lemma {:induction false} FilterStartsWithFirstMatch(ts: seq<TrackedTarget>, id: int, i: int)
    requires IsFirstMatch(ts, id, i)
    ensures FilterById(ts, id) != [] && FilterById(ts, id)[0] == ts[i]
  {
    if i > 0 {
      assert IsFirstMatch(ts[1..], id, i - 1);
      FilterStartsWithFirstMatch(ts[1..], id, i - 1);
    }
  }

  /** Whenever some target has ID `id`, there is a first one. */
  lemma {:induction false} FirstMatchExists(ts: seq<TrackedTarget>, id: int, k: int)
    requires 0 <= k < |ts| && ts[k].fiducialId == id
    ensures exists i :: 0 <= i <= k && IsFirstMatch(ts, id, i)
  {
    if ts[0].fiducialId == id {
      assert IsFirstMatch(ts, id, 0);
    } else {
      FirstMatchExists(ts[1..], id, k - 1);
      var i :| 0 <= i <= k - 1 && IsFirstMatch(ts[1..], id, i);
      assert IsFirstMatch(ts, id, i + 1);
    }
  }

  /**
   * getTargetForTag: the first target of the latest result whose fiducial ID
   * is `id`, or None (the source's null) when the result has no targets or
   * none of them carries that ID.
   */
  function GetTargetForTag(result: PipelineResult, id: int): (r: Option<TrackedTarget>)
    ensures !result.HasTargets() ==> r == None
    ensures r.Some? ==> r.value in result.targets && r.value.fiducialId == id
    ensures r == None <==> forall t :: t in result.targets ==> t.fiducialId != id
  {
    if result.HasTargets() then
      var matching := FilterById(result.targets, id);
      if |matching| > 0 then Some(matching[0]) else None
    else
      None
  }

  /** The target returned is the first one, in list order, that matches. */
  lemma GetTargetForTagIsFirst(result: PipelineResult, id: int, i: int)
    requires IsFirstMatch(result.targets, id, i)
    ensures GetTargetForTag(result, id) == Some(result.targets[i])
  {
    FilterStartsWithFirstMatch(result.targets, id, i);
  }

  /** Whatever is returned sits at the first matching position of the list. */
  lemma GetTargetForTagFoundFirst(result: PipelineResult, id: int)
    requires GetTargetForTag(result, id).Some?
    ensures exists i :: IsFirstMatch(result.targets, id, i) &&
                        GetTargetForTag(result, id) == Some(result.targets[i])
  {
    var t := GetTargetForTag(result, id).value;
    var k :| 0 <= k < |result.targets| && result.targets[k] == t;
    FirstMatchExists(result.targets, id, k);
    var i :| 0 <= i <= k && IsFirstMatch(result.targets, id, i);
    GetTargetForTagIsFirst(result, id, i);
  }
}
