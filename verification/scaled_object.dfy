/**
 * The ScaledObject fixture builders of resources/scaled_object.go: a
 * constructor that applies option closures in order, each closure writing
 * the object in place. `Apply` states each option's effect on a value;
 * each `With...` method writes the mutable object as the closure does and
 * is proved against it.
 */
module ScaledObjectFixtures {

  import opened Wrappers
  import opened Kube
  import opened KedaTypes

  /** A ScaledObjectOption closure, by the constructor that made it. */
  datatype ScaledObjectOption =
    | AnnotationsOpt(annotations: map<string, string>)
    | MinScaleOpt(min: int32)
    | MaxScaleOpt(max: int32)
    | ScaleTargetRefOpt(name: string)
    | ScalingModifiersOpt(modifiers: ScalingModifiers)
    | PrometheusTriggerOpt(metadata: map<string, string>)
    | CpuTriggerOpt(metadata: map<string, string>)
    | AuthTriggerOpt(triggerType: string, metricType: string, metadata: map<string, string>, name: string, kind: string)
    | HorizontalPodAutoscalerConfigOpt(name: string)
    | AuthenticationRefOpt(name: string, kind: string)
    | TriggerOpt(triggerType: string, metricType: string, metadata: map<string, string>)

  /** The object the constructor starts from, before any option. */
  function Base(namespace: string, name: string): ScaledObject
  {
    ScaledObject(
      EmptyMeta.(name := name, namespace := namespace),
      EmptySpec.(scaleTargetRef := Some(ScaleTarget(name + "-deployment", "", "", "")),
                 advanced := Some(AdvancedConfig(Some(HPAConfig("", None)), false, NoScalingModifiers))))
  }

  /** The effect of one option on an object. */
  function Apply(so: ScaledObject, option: ScaledObjectOption): ScaledObject
  {
    match option
    case AnnotationsOpt(annotations) =>
      so.(meta := so.meta.(annotations := so.meta.annotations + annotations))
    case MinScaleOpt(min) =>
      so.(spec := so.spec.(minReplicaCount := Some(min)))
    case MaxScaleOpt(max) =>
      so.(spec := so.spec.(maxReplicaCount := Some(max)))
    case ScaleTargetRefOpt(name) =>
      var target := if so.spec.scaleTargetRef.Some? then so.spec.scaleTargetRef.value.(name := name)
                    else ScaleTarget(name, "", "", "");
      so.(spec := so.spec.(scaleTargetRef := Some(target)))
    case ScalingModifiersOpt(modifiers) =>
      var advanced := if so.spec.advanced.Some? then so.spec.advanced.value.(scalingModifiers := modifiers)
                      else AdvancedConfig(None, false, modifiers);
      so.(spec := so.spec.(advanced := Some(advanced)))
    case PrometheusTriggerOpt(metadata) =>
      so.(spec := so.spec.(triggers := so.spec.triggers + [ScaleTrigger("prometheus", "", false, metadata, None, "")]))
    case CpuTriggerOpt(metadata) =>
      so.(spec := so.spec.(triggers := so.spec.triggers + [ScaleTrigger("cpu", "", false, metadata, None, Utilization)]))
    case AuthTriggerOpt(triggerType, metricType, metadata, name, kind) =>
      so.(spec := so.spec.(triggers := [ScaleTrigger(triggerType, "", false, metadata,
                                                     Some(AuthenticationRef(name, kind)), metricType)]))
    case HorizontalPodAutoscalerConfigOpt(name) =>
      var advanced := if so.spec.advanced.Some? then so.spec.advanced.value.(hpaConfig := Some(HPAConfig(name, None)))
                      else AdvancedConfig(Some(HPAConfig(name, None)), false, NoScalingModifiers);
      so.(spec := so.spec.(advanced := Some(advanced)))
    case AuthenticationRefOpt(_, _) =>
      so
    case TriggerOpt(triggerType, metricType, metadata) =>
      so.(spec := so.spec.(triggers := [ScaleTrigger(triggerType, "", false, metadata, None, metricType)]))
  }

  /** The options applied in order. */
  function ApplyAll(so: ScaledObject, options: seq<ScaledObjectOption>): ScaledObject
  {
    if options == [] then so
    else Apply(ApplyAll(so, options[..|options| - 1]), options[|options| - 1])
  }

  // ---------------------------------------------------------------------
  // The option closures, writing the object in place
  // ---------------------------------------------------------------------

  /** WithAnnotations: every given key gets its value, other keys are unchanged. */
  method WithAnnotations(so: MutableScaledObject, annotations: map<string, string>)
    modifies so
    ensures so.spec == old(so.spec)
    ensures so.meta == old(so.meta).(annotations := so.meta.annotations)
    ensures so.meta.annotations.Keys == old(so.meta.annotations).Keys + annotations.Keys
    ensures forall k :: k in annotations ==> so.meta.annotations[k] == annotations[k]
    ensures forall k :: k in old(so.meta.annotations) && k !in annotations ==>
              so.meta.annotations[k] == old(so.meta.annotations)[k]
  {
    var merged := MergeAnnotations(so.meta.annotations, annotations);
    so.meta := so.meta.(annotations := merged);
  }

  /** WithMinScale sets only MinReplicaCount. */
  method WithMinScale(so: MutableScaledObject, min: int32)
    modifies so
    ensures so.meta == old(so.meta)
    ensures so.spec == old(so.spec).(minReplicaCount := Some(min))
  {
    so.spec := so.spec.(minReplicaCount := Some(min));
  }

  /** WithMaxScale sets only MaxReplicaCount. */
  method WithMaxScale(so: MutableScaledObject, max: int32)
    modifies so
    ensures so.meta == old(so.meta)
    ensures so.spec == old(so.spec).(maxReplicaCount := Some(max))
  {
    so.spec := so.spec.(maxReplicaCount := Some(max));
  }

  /** WithScaleTargetRef sets only the target's name, allocating the target when nil. */
  method WithScaleTargetRef(so: MutableScaledObject, name: string)
    modifies so
    ensures so.meta == old(so.meta)
    ensures so.spec == old(so.spec).(scaleTargetRef := so.spec.scaleTargetRef)
    ensures so.spec.scaleTargetRef.Some? && so.spec.scaleTargetRef.value.name == name
    ensures old(so.spec.scaleTargetRef).Some? ==>
              so.spec.scaleTargetRef.value == old(so.spec.scaleTargetRef).value.(name := name)
    ensures old(so.spec.scaleTargetRef).None? ==> so.spec.scaleTargetRef.value == ScaleTarget(name, "", "", "")
  {
    if so.spec.scaleTargetRef.None? {
      so.spec := so.spec.(scaleTargetRef := Some(ScaleTarget(name, "", "", "")));
    } else {
      so.spec := so.spec.(scaleTargetRef := Some(so.spec.scaleTargetRef.value.(name := name)));
    }
  }

  /** WithScalingModifiers sets the modifiers and keeps the HPA config. */
  method WithScalingModifiers(so: MutableScaledObject, modifiers: ScalingModifiers)
    modifies so
    ensures so.meta == old(so.meta)
    ensures so.spec == old(so.spec).(advanced := so.spec.advanced)
    ensures so.spec.advanced.Some? && so.spec.advanced.value.scalingModifiers == modifiers
    ensures old(so.spec.advanced).Some? ==>
              so.spec.advanced.value == old(so.spec.advanced).value.(scalingModifiers := modifiers)
    ensures old(so.spec.advanced).None? ==> so.spec.advanced.value == AdvancedConfig(None, false, modifiers)
  {
    if so.spec.advanced.None? {
      so.spec := so.spec.(advanced := Some(AdvancedConfig(None, false, modifiers)));
    } else {
      so.spec := so.spec.(advanced := Some(so.spec.advanced.value.(scalingModifiers := modifiers)));
    }
  }

  /** WithPrometheusTrigger appends one prometheus trigger, keeping the earlier ones. */
  method WithPrometheusTrigger(so: MutableScaledObject, metadata: map<string, string>)
    modifies so
    ensures so.meta == old(so.meta)
    ensures so.spec == old(so.spec).(triggers := so.spec.triggers)
    ensures so.spec.triggers == old(so.spec.triggers) + [ScaleTrigger("prometheus", "", false, metadata, None, "")]
  {
    so.spec := so.spec.(triggers := so.spec.triggers + [ScaleTrigger("prometheus", "", false, metadata, None, "")]);
  }

  /** WithCpuTrigger appends one cpu Utilization trigger, keeping the earlier ones. */
  method WithCpuTrigger(so: MutableScaledObject, metadata: map<string, string>)
    modifies so
    ensures so.meta == old(so.meta)
    ensures so.spec == old(so.spec).(triggers := so.spec.triggers)
    ensures so.spec.triggers == old(so.spec.triggers) + [ScaleTrigger("cpu", "", false, metadata, None, Utilization)]
  {
    so.spec := so.spec.(triggers := so.spec.triggers + [ScaleTrigger("cpu", "", false, metadata, None, Utilization)]);
  }

  /** WithAuthTrigger replaces the trigger list with one authenticated trigger. */
  method WithAuthTrigger(so: MutableScaledObject, triggerType: string, metricType: string,
                         metadata: map<string, string>, name: string, kind: string)
    modifies so
    ensures so.meta == old(so.meta)
    ensures so.spec == old(so.spec).(triggers := so.spec.triggers)
    ensures so.spec.triggers ==
              [ScaleTrigger(triggerType, "", false, metadata, Some(AuthenticationRef(name, kind)), metricType)]
  {
    so.spec := so.spec.(triggers := [ScaleTrigger(triggerType, "", false, metadata,
                                                  Some(AuthenticationRef(name, kind)), metricType)]);
  }

  /** WithHorizontalPodAutoscalerConfig replaces the HPA config by one holding only the name. */
  method WithHorizontalPodAutoscalerConfig(so: MutableScaledObject, name: string)
    modifies so
    ensures so.meta == old(so.meta)
    ensures so.spec == old(so.spec).(advanced := so.spec.advanced)
    ensures so.spec.advanced.Some? && so.spec.advanced.value.hpaConfig == Some(HPAConfig(name, None))
    ensures old(so.spec.advanced).Some? ==>
              so.spec.advanced.value == old(so.spec.advanced).value.(hpaConfig := Some(HPAConfig(name, None)))
    ensures old(so.spec.advanced).None? ==>
              so.spec.advanced.value == AdvancedConfig(Some(HPAConfig(name, None)), false, NoScalingModifiers)
  {
    if so.spec.advanced.None? {
      so.spec := so.spec.(advanced := Some(AdvancedConfig(Some(HPAConfig(name, None)), false, NoScalingModifiers)));
    } else {
      so.spec := so.spec.(advanced := Some(so.spec.advanced.value.(hpaConfig := Some(HPAConfig(name, None)))));
    }
  }

  /**
   * WithAuthenticationRef: the loop sets the reference on a copy of each
   * trigger, so the object is left as it was.
   */
  method WithAuthenticationRef(so: MutableScaledObject, name: string, kind: string)
    modifies so
    ensures so.Value() == old(so.Value())
  {
    for i := 0 to |so.spec.triggers|
      invariant so.Value() == old(so.Value())
    {
      var t := so.spec.triggers[i];
      t := t.(authenticationRef := Some(AuthenticationRef(name, kind)));
    }
  }

  /** WithTrigger replaces the trigger list with one unauthenticated trigger. */
  method WithTrigger(so: MutableScaledObject, triggerType: string, metricType: string, metadata: map<string, string>)
    modifies so
    ensures so.meta == old(so.meta)
    ensures so.spec == old(so.spec).(triggers := so.spec.triggers)
    ensures so.spec.triggers == [ScaleTrigger(triggerType, "", false, metadata, None, metricType)]
  {
    so.spec := so.spec.(triggers := [ScaleTrigger(triggerType, "", false, metadata, None, metricType)]);
  }

  /** Runs one option closure. */
  method ApplyOption(so: MutableScaledObject, option: ScaledObjectOption)
    modifies so
    ensures so.Value() == Apply(old(so.Value()), option)
  {
    match option
    case AnnotationsOpt(annotations) => WithAnnotations(so, annotations);
    case MinScaleOpt(min) => WithMinScale(so, min);
    case MaxScaleOpt(max) => WithMaxScale(so, max);
    case ScaleTargetRefOpt(name) => WithScaleTargetRef(so, name);
    case ScalingModifiersOpt(modifiers) => WithScalingModifiers(so, modifiers);
    case PrometheusTriggerOpt(metadata) => WithPrometheusTrigger(so, metadata);
    case CpuTriggerOpt(metadata) => WithCpuTrigger(so, metadata);
    case AuthTriggerOpt(triggerType, metricType, metadata, name, kind) =>
      WithAuthTrigger(so, triggerType, metricType, metadata, name, kind);
    case HorizontalPodAutoscalerConfigOpt(name) => WithHorizontalPodAutoscalerConfig(so, name);
    case AuthenticationRefOpt(name, kind) => WithAuthenticationRef(so, name, kind);
    case TriggerOpt(triggerType, metricType, metadata) => WithTrigger(so, triggerType, metricType, metadata);
  }

  /**
   * ScaledObject: name and namespace, the target name + "-deployment", an
   * advanced block with an empty HPA config, then the options in order.
   */
  method ScaledObjectFixture(namespace: string, name: string, options: seq<ScaledObjectOption>)
    returns (so: MutableScaledObject)
    ensures fresh(so)
    ensures so.Value() == ApplyAll(Base(namespace, name), options)
  {
    so := new MutableScaledObject(Base(namespace, name));
    for i := 0 to |options|
      invariant so.Value() == ApplyAll(Base(namespace, name), options[..i])
    {
      ApplyOption(so, options[i]);
      assert options[..i + 1][..i] == options[..i];
    }
    assert options[..|options|] == options;
  }

  // ---------------------------------------------------------------------
  // Properties of option sequences
  // ---------------------------------------------------------------------

  /** No option touches the name, namespace, uid or owner references. */
  lemma {:induction false} OptionsKeepIdentity(so: ScaledObject, options: seq<ScaledObjectOption>)
    ensures var r := ApplyAll(so, options);
            r.meta.name == so.meta.name && r.meta.namespace == so.meta.namespace &&
            r.meta.uid == so.meta.uid && r.meta.ownerReferences == so.meta.ownerReferences
  {
    if options != [] {
      OptionsKeepIdentity(so, options[..|options| - 1]);
    }
  }

  /** Applying two option lists is applying their concatenation. */
  lemma {:induction false} ApplyAllConcat(so: ScaledObject, first: seq<ScaledObjectOption>,
                                          second: seq<ScaledObjectOption>)
    ensures ApplyAll(so, first + second) == ApplyAll(ApplyAll(so, first), second)
  {
    if second == [] {
      assert first + second == first;
    } else {
      var init := second[..|second| - 1];
      ApplyAllConcat(so, first, init);
      assert (first + second)[..|first + second| - 1] == first + init;
      assert (first + second)[|first + second| - 1] == second[|second| - 1];
    }
  }

  /** An option that appends a trigger. */
  predicate Appends(option: ScaledObjectOption)
  {
    option.PrometheusTriggerOpt? || option.CpuTriggerOpt?
  }

  /** Appending options keep the earlier triggers and add one trigger each. */
  lemma {:induction false} AppendingOptionsKeepEarlierTriggers(so: ScaledObject, options: seq<ScaledObjectOption>)
    requires forall i :: 0 <= i < |options| ==> Appends(options[i])
    ensures var r := ApplyAll(so, options).spec.triggers;
            |r| == |so.spec.triggers| + |options| && r[..|so.spec.triggers|] == so.spec.triggers
  {
    if options != [] {
      AppendingOptionsKeepEarlierTriggers(so, options[..|options| - 1]);
      var before := ApplyAll(so, options[..|options| - 1]).spec.triggers;
      assert (before + [ApplyAll(so, options).spec.triggers[|before|]])[..|so.spec.triggers|] ==
             before[..|so.spec.triggers|];
    }
  }

  /** Once a replacing trigger option runs, the list holds exactly the one trigger it names. */
  lemma ReplacingOptionLeavesOneTrigger(so: ScaledObject, option: ScaledObjectOption)
    requires option.TriggerOpt? || option.AuthTriggerOpt?
    ensures |Apply(so, option).spec.triggers| == 1
    ensures Apply(so, option).spec.triggers[0].triggerType == option.triggerType
    ensures Apply(so, option).spec.triggers[0].metricType == option.metricType
    ensures Apply(so, option).spec.triggers[0].metadata == option.metadata
  {
  }
}
