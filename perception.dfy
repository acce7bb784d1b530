// `ObjectDetector`'s rule-based scene tip and its region of interest.
// Detections are reduced to their labels; the model and the frame
// processing around them are not part of this model.
module Perception {
  import opened Wrappers
  import opened Text

  datatype Detection = Detection(name: string, confidence: real)  // `name` is `d.label`

  const PersonLabels: seq<string> := ["person"]
  const VehicleLabels: seq<string> := ["car", "truck", "motorcycle", "bus"]
  const WorkspaceLabels: seq<string> := ["laptop", "monitor", "keyboard"]
  const PersonalLabels: seq<string> := ["cup", "bottle"]

  /** `sum(1 for d in detections if d.label in labels)`. */
  function Count(ds: seq<Detection>, labels: seq<string>): nat
    decreases |ds|
  {
    if ds == [] then 0 else (if ds[0].name in labels then 1 else 0) + Count(ds[1..], labels)
  }

  /** `any(d.label in labels for d in detections)`. */
  predicate AnyLabelled(ds: seq<Detection>, labels: seq<string>)
  {
    exists i | 0 <= i < |ds| :: ds[i].name in labels
  }

  /** Counting splits over concatenation, never exceeds the number of detections, and is positive exactly when some label is there. */
  lemma {:induction false} CountAppend(ds: seq<Detection>, es: seq<Detection>, labels: seq<string>)
    ensures Count(ds + es, labels) == Count(ds, labels) + Count(es, labels)
    ensures Count(ds, labels) <= |ds|
    ensures Count(ds, labels) > 0 <==> AnyLabelled(ds, labels)
    decreases |ds|
  {
    if ds != [] {
      assert (ds + es)[1..] == ds[1..] + es;
      CountAppend(ds[1..], es, labels);
      if AnyLabelled(ds, labels) && ds[0].name !in labels {
        var i :| 0 <= i < |ds| && ds[i].name in labels;
        assert ds[1..][i - 1] == ds[i];
      }
      if AnyLabelled(ds[1..], labels) {
        var i :| 0 <= i < |ds[1..]| && ds[1..][i].name in labels;
        assert ds[i + 1] == ds[1..][i];
      }
    } else {
      assert ds + es == es;
    }
  }

  /** `_rule_based_scene_analysis(detections)`. */
  function SceneTip(ds: seq<Detection>): string
  {
    if ds == [] then "Clear view - no objects detected"
    else
      var persons := Count(ds, PersonLabels);
      var vehicles := Count(ds, VehicleLabels);
      if persons > 0 then
        if persons == 1 then "Person in view - maintain awareness"
        else NatToString(persons) + " people detected - crowded area"
      else if vehicles > 0 then NatToString(vehicles) + " vehicle(s) detected - traffic area"
      else if |ds| > 5 then "Busy environment - multiple objects detected"
      else if AnyLabelled(ds, WorkspaceLabels) then "Workspace detected - good for productivity"
      else if AnyLabelled(ds, PersonalLabels) then "Personal items nearby - organized space"
      else NatToString(|ds|) + " object(s) in view - monitor surroundings"
  }

  /** A counted tip starts with the count's first digit. */
  lemma NumberFirst(n: nat, suffix: string)
    ensures |NatToString(n) + suffix| > 0 && IsDigit((NatToString(n) + suffix)[0])
  {
    DigitsOfNatToString(n);
    assert (NatToString(n) + suffix)[0] == NatToString(n)[0];
  }

  /** The empty scene is the only one called clear: every other tip starts with a digit or another letter. */
  lemma ClearOnlyWhenEmpty(ds: seq<Detection>)
    ensures SceneTip(ds) == "Clear view - no objects detected" <==> ds == []
  {
    if ds != [] {
      var t := SceneTip(ds);
      var p, v := Count(ds, PersonLabels), Count(ds, VehicleLabels);
      if p == 1 {
        assert t == "Person in view - maintain awareness";
      } else if p > 1 {
        NumberFirst(p, " people detected - crowded area");
      } else if v > 0 {
        NumberFirst(v, " vehicle(s) detected - traffic area");
      } else if |ds| > 5 {
        assert t == "Busy environment - multiple objects detected";
      } else if AnyLabelled(ds, WorkspaceLabels) {
        assert t == "Workspace detected - good for productivity";
      } else if AnyLabelled(ds, PersonalLabels) {
        assert t == "Personal items nearby - organized space";
      } else {
        NumberFirst(|ds|, " object(s) in view - monitor surroundings");
      }
      assert t[0] != "Clear view - no objects detected"[0];
    }
  }

  /**
   * People win over every other rule: objects that are not people, added
   * anywhere around a scene with a person in it, leave the tip unchanged.
   */
  lemma PersonWins(ds: seq<Detection>, before: seq<Detection>, after: seq<Detection>)
    requires AnyLabelled(ds, PersonLabels)
    requires !AnyLabelled(before, PersonLabels) && !AnyLabelled(after, PersonLabels)
    ensures SceneTip(before + ds + after) == SceneTip(ds)
  {
    CountAppend(before, ds, PersonLabels);
    CountAppend(before + ds, after, PersonLabels);
    CountAppend(after, [], PersonLabels);
    CountAppend(before, [], PersonLabels);
    CountAppend(ds, [], PersonLabels);
    assert Count(before + ds + after, PersonLabels) == Count(ds, PersonLabels) > 0;
    assert |before + ds + after| > 0;
  }

  /**
   * With nobody in view, vehicles win over the remaining rules: adding
   * objects that are neither people nor vehicles leaves the tip unchanged.
   */
  lemma VehiclesWinWithoutPeople(ds: seq<Detection>, more: seq<Detection>)
    requires AnyLabelled(ds, VehicleLabels) && !AnyLabelled(ds, PersonLabels)
    requires !AnyLabelled(more, PersonLabels) && !AnyLabelled(more, VehicleLabels)
    ensures SceneTip(ds + more) == SceneTip(ds)
  {
    CountAppend(ds, more, PersonLabels);
    CountAppend(ds, more, VehicleLabels);
    CountAppend(more, [], PersonLabels);
    CountAppend(more, [], VehicleLabels);
  }

  /** Labels are looked for anywhere in the list, so the order of the detections does not matter. */
  lemma OrderDoesNotMatter(ds: seq<Detection>, es: seq<Detection>)
    ensures SceneTip(ds + es) == SceneTip(es + ds)
  {
    CountAppend(ds, es, PersonLabels);
    CountAppend(es, ds, PersonLabels);
    CountAppend(ds, es, VehicleLabels);
    CountAppend(es, ds, VehicleLabels);
    AnyAppend(ds, es, WorkspaceLabels);
    AnyAppend(es, ds, WorkspaceLabels);
    AnyAppend(ds, es, PersonalLabels);
    AnyAppend(es, ds, PersonalLabels);
  }

  /** A label is in a concatenation exactly when it is in one of the parts. */
  lemma AnyAppend(ds: seq<Detection>, es: seq<Detection>, labels: seq<string>)
    ensures AnyLabelled(ds + es, labels) <==> AnyLabelled(ds, labels) || AnyLabelled(es, labels)
  {
    if AnyLabelled(ds + es, labels) {
      var i :| 0 <= i < |ds + es| && (ds + es)[i].name in labels;
      if i >= |ds| {
        assert es[i - |ds|] == (ds + es)[i];
      }
    }
    if AnyLabelled(ds, labels) {
      var i :| 0 <= i < |ds| && ds[i].name in labels;
      assert (ds + es)[i] == ds[i];
    }
    if AnyLabelled(es, labels) {
      var i :| 0 <= i < |es| && es[i].name in labels;
      assert (ds + es)[i + |ds|] == es[i];
    }
  }

  /** A region of interest in normalised frame coordinates. */
  datatype Roi = Roi(x: real, y: real, width: real, height: real)

  /** The bounds `set_roi` accepts: the corner inside the frame, the size positive and at most the frame. */
  predicate RoiInBounds(r: Roi)
  {
    0.0 <= r.x <= 1.0 && 0.0 <= r.y <= 1.0 && 0.0 < r.width <= 1.0 && 0.0 < r.height <= 1.0
  }

  class ObjectDetector {
    var roi: Option<Roi>

    predicate Valid()
      reads this
    {
      roi.Some? ==> RoiInBounds(roi.value)
    }

    constructor ()
      ensures roi == None && Valid()
    {
      roi := None;
    }

    /** `set_roi(x, y, width, height, enabled)`: stored when enabled and in bounds, otherwise cleared. */
    method SetRoi(x: real, y: real, width: real, height: real, enabled: bool)
      modifies this
      ensures roi == if enabled && RoiInBounds(Roi(x, y, width, height)) then Some(Roi(x, y, width, height)) else None
      ensures Valid()
    {
      if enabled && 0.0 <= x <= 1.0 && 0.0 <= y <= 1.0 && 0.0 < width <= 1.0 && 0.0 < height <= 1.0 {
        roi := Some(Roi(x, y, width, height));
      } else {
        roi := None;
      }
    }
  }
}
