/**
 Pod-label reconciliation (reconcile_charm_labels): labels set through it are remembered in a
 ConfigMap, so that the next call can take back those that are no longer wanted.
 */
module Labels {
  import opened Prelude

  type LabelMap = map<string, string>

  /** In a patch, None stands for null. */
  type Patch = map<string, Option<string>>

  /** JSON merge patch on a flat object (section 2 of RFC 7386): null deletes a key. */
  function MergePatch(target: LabelMap, patch: Patch): (r: LabelMap)
    ensures forall k :: k in r <==> if k in patch then patch[k].Some? else k in target
    ensures forall k :: k in r ==> r[k] == if k in patch then patch[k].value else target[k]
  {
    map k | k in target.Keys + patch.Keys && (k in patch ==> patch[k].Some?) ::
      if k in patch then patch[k].value else target[k]
  }

  function AsPatch(labels: LabelMap): Patch {
    map k | k in labels :: Some(labels[k])
  }

  /** What a call makes of an object's labels: remembered ones go, the wanted ones are set. */
  function Apply(target: LabelMap, remembered: LabelMap, labels: LabelMap): LabelMap {
    (target - remembered.Keys) + labels
  }

  /** The objects of one application. Absent: no ConfigMap yet, no pod template, no metadata. */
  class Kubernetes {
    var configMap: Option<Option<LabelMap>>  // the inner option: no data
    var statefulSet: Option<LabelMap>
    var service: Option<LabelMap>

    constructor (configMap: Option<Option<LabelMap>>, statefulSet: Option<LabelMap>, service: Option<LabelMap>)
      ensures this.configMap == configMap && this.statefulSet == statefulSet && this.service == service
    {
      this.configMap, this.statefulSet, this.service := configMap, statefulSet, service;
    }

    /** The labels set by earlier calls. */
    function Remembered(): LabelMap
      reads this`configMap
    {
      if configMap.Some? && configMap.value.Some? then configMap.value.value else map[]
    }

    method InitLabelConfigMap() returns (data: Option<LabelMap>)
      modifies this`configMap
      ensures data == Some(map[]) && configMap == Some(data)
    {
      configMap := Some(Some(map[]));
      return configMap.value;
    }

    /** Remembered labels that are not wanted any more are set to null. */
    method NullOutDropped(patch: Patch, remembered: LabelMap) returns (r: Patch)
      ensures r.Keys == patch.Keys + remembered.Keys
      ensures forall k :: k in r ==> r[k] == if k in patch then patch[k] else None
    {
      r := patch;
      var todo := remembered.Keys;
      while todo != {}
        invariant todo <= remembered.Keys
        invariant r.Keys == patch.Keys + (remembered.Keys - todo)
        invariant forall k :: k in r ==> r[k] == if k in patch then patch[k] else None
        decreases todo
      {
        var name :| name in todo;
        if name !in r {
          r := r[name := None];
        }
        todo := todo - {name};
      }
    }

    /** The patch of a call: the wanted labels, and null for those remembered but not wanted. */
    method BuildPatch(labels: LabelMap, data: Option<LabelMap>) returns (patch: Patch)
      ensures IsPatchFor(patch, if data.Some? then data.value else map[], labels)
    {
      patch := AsPatch(labels);
      if data.Some? {
        patch := NullOutDropped(patch, data.value);
      }
    }

    /**
     `reconcile_charm_labels`, of whose three patches the first `patches` go through; three or more
     stand for a call that completes. What is remembered is patched first, the objects follow.
     */
    method ReconcileCharmLabels(labels: LabelMap, patches: nat) returns (completed: bool)
      modifies this
      ensures completed <==> patches >= 3
      ensures configMap == if patches >= 1 then Some(Some(labels))
                           else if old(configMap).None? then Some(Some(map[])) else old(configMap)
      ensures statefulSet == if patches >= 2 then Updated(old(statefulSet), old(Remembered()), labels) else old(statefulSet)
      ensures service == if patches >= 3 then Updated(old(service), old(Remembered()), labels) else old(service)
      ensures patches == 0 ==> Remembered() == old(Remembered())
      ensures patches >= 1 && statefulSet.Some? ==>
        (statefulSet.value, Remembered()) == AfterCall(old(statefulSet).value, old(Remembered()), labels, patches >= 2)
      ensures patches >= 1 && service.Some? ==>
        (service.value, Remembered()) == AfterCall(old(service).value, old(Remembered()), labels, patches >= 3)
    {
      hide MergePatch, Apply, AsPatch, IsPatchFor, Kept;
      ghost var remembered := Remembered();
      var data: Option<LabelMap>;
      if configMap.Some? {
        data := configMap.value;
      } else {
        data := InitLabelConfigMap();
      }
      var patch := BuildPatch(labels, data);
      var podLabels: Option<Patch> := if statefulSet.Some? then Some(AsPatch(statefulSet.value) + patch) else None;
      var serviceLabels: Option<Patch> := if service.Some? then Some(AsPatch(service.value) + patch) else None;
      if patches == 0 {
        return false;
      }
      KeptAreWanted(patch, remembered, labels);
      configMap := Some(Some(Kept(patch)));
      if patches == 1 {
        return false;
      }
      if podLabels.Some? {
        PatchIsApply(statefulSet.value, remembered, labels, patch);
        statefulSet := Some(MergePatch(statefulSet.value, podLabels.value));
      }
      if patches == 2 {
        return false;
      }
      if serviceLabels.Some? {
        PatchIsApply(service.value, remembered, labels, patch);
        service := Some(MergePatch(service.value, serviceLabels.value));
      }
      return true;
    }
  }

  /** The patch deletes what is remembered but not wanted, and sets what is wanted. */
  ghost predicate IsPatchFor(patch: Patch, remembered: LabelMap, labels: LabelMap) {
    && patch.Keys == labels.Keys + remembered.Keys
    && forall k :: k in patch ==> patch[k] == if k in labels then Some(labels[k]) else None
  }

  function Updated(target: Option<LabelMap>, remembered: LabelMap, labels: LabelMap): Option<LabelMap> {
    if target.None? then None else Some(Apply(target.value, remembered, labels))
  }

  /** The labels to remember: those of the patch that are not null. */
  function Kept(patch: Patch): LabelMap {
    map k | k in patch && patch[k].Some? :: patch[k].value
  }

  lemma KeptAreWanted(patch: Patch, remembered: LabelMap, labels: LabelMap)
    requires IsPatchFor(patch, remembered, labels)
    ensures Kept(patch) == labels
  {
  }

  lemma PatchIsApply(target: LabelMap, remembered: LabelMap, labels: LabelMap, patch: Patch)
    requires IsPatchFor(patch, remembered, labels)
    ensures MergePatch(target, AsPatch(target) + patch) == Apply(target, remembered, labels)
  {
    hide MergePatch;
    var merged, applied := MergePatch(target, AsPatch(target) + patch), Apply(target, remembered, labels);
    assert merged.Keys == applied.Keys;
  }

  // ----- sequences of calls

  /** The labels of an object and those remembered, after a sequence of completed calls. */
  function AfterCalls(base: LabelMap, remembered: LabelMap, calls: seq<LabelMap>): (LabelMap, LabelMap) {
    if |calls| == 0 then (base, remembered)
    else
      var (target, stored) := AfterCalls(base, remembered, calls[..|calls| - 1]);
      var labels := calls[|calls| - 1];
      (Apply(target, stored, labels), labels)
  }

  ghost predicate EverSet(remembered: LabelMap, calls: seq<LabelMap>, k: string) {
    k in remembered || exists labels :: labels in calls && k in labels
  }

  /**
   A sequence of calls leaves what the last one wants: its labels hold, a label set only by an
   earlier call is gone, and every other label still has its original value.
   */
  lemma {:induction false} CallsTelescope(base: LabelMap, remembered: LabelMap, calls: seq<LabelMap>, k: string)
    requires |calls| > 0
    ensures var last := calls[|calls| - 1];
            var (target, stored) := AfterCalls(base, remembered, calls);
            && stored == last
            && (k in last ==> k in target && target[k] == last[k])
            && (k !in last && EverSet(remembered, calls, k) ==> k !in target)
            && (!EverSet(remembered, calls, k) ==> (k in target <==> k in base) && (k in base ==> target[k] == base[k]))
  {
    var n := |calls| - 1;
    assert calls[n] in calls;
    assert forall l :: l in calls <==> l in calls[..n] || l == calls[n];
    if n == 0 {
    } else {
      CallsTelescope(base, remembered, calls[..n], k);
      assert calls[..n][n - 1] in calls[..n];
    }
  }

  // ----- interrupted calls

  /** An object's labels and those remembered after a call that patched the ConfigMap and, if `patched`, the object. */
  function AfterCall(target: LabelMap, remembered: LabelMap, labels: LabelMap, patched: bool): (LabelMap, LabelMap) {
    (if patched then Apply(target, remembered, labels) else target, labels)
  }

  /**
   Calling again after an interruption gives an object the same labels as if there had been none
   exactly when the object was patched before it, or no label was to be taken back.
   */
  lemma RetryAfterInterruption(target: LabelMap, remembered: LabelMap, labels: LabelMap, next: LabelMap, patched: bool)
    ensures var (t, stored) := AfterCall(target, remembered, labels, patched);
            Apply(t, stored, next) == Apply(Apply(target, remembered, labels), labels, next)
            <==> patched || forall k :: k in target && k in remembered ==> k in labels || k in next
  {
    hide Apply;
    if !patched {
      var retried, smooth := Apply(target, labels, next), Apply(Apply(target, remembered, labels), labels, next);
      ApplyTwice(target, remembered, labels, next);
      if forall k :: k in target && k in remembered ==> k in labels || k in next {
        assert retried.Keys == smooth.Keys;
      } else {
        var k :| k in target && k in remembered && k !in labels && k !in next;
        assert k in retried && k !in smooth;
      }
    }
  }

  lemma ApplyTwice(target: LabelMap, remembered: LabelMap, labels: LabelMap, next: LabelMap)
    ensures forall k :: k in Apply(target, labels, next) <==> k in next || (k in target && k !in labels)
    ensures forall k :: k in Apply(Apply(target, remembered, labels), labels, next) <==>
      k in next || (k in target && k !in remembered && k !in labels)
    ensures forall k :: k in Apply(target, labels, next) ==>
      Apply(target, labels, next)[k] == if k in next then next[k] else target[k]
    ensures forall k :: k in Apply(Apply(target, remembered, labels), labels, next) ==>
      Apply(Apply(target, remembered, labels), labels, next)[k] == if k in next then next[k] else target[k]
  {
  }

  /** A label that an interrupted call was to take back stays through all later calls that do not set it. */
  lemma LeakedLabelStays(target: LabelMap, remembered: LabelMap, labels: LabelMap, calls: seq<LabelMap>, k: string)
    requires k in target && k in remembered && k !in labels && forall l :: l in calls ==> k !in l
    ensures var (t, stored) := AfterCall(target, remembered, labels, false);
            k in AfterCalls(t, stored, calls).0
    ensures var (t, stored) := AfterCall(target, remembered, labels, true);
            k !in AfterCalls(t, stored, calls).0
  {
    if |calls| == 0 {
    } else {
      CallsTelescope(target, labels, calls, k);
      CallsTelescope(Apply(target, remembered, labels), labels, calls, k);
    }
  }

  /** For example: a label "a" set by an earlier call, and calls that want none, the first of them interrupted. */
  lemma LeakExample(calls: nat)
    ensures var leaked := AfterCall(map["a" := "1"], map["a" := "1"], map[], false);
            "a" in AfterCalls(leaked.0, leaked.1, seq(calls, i => map[])).0
  {
    LeakedLabelStays(map["a" := "1"], map["a" := "1"], map[], seq(calls, i => map[]), "a");
  }
}
