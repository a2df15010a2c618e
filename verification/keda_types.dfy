/**
 * The KEDA ScaledObject (keda v1alpha1) and the autoscaling/v2 HPA types it
 * embeds, as values. Pointers become Option; nil and empty maps and slices,
 * which the semantic equality of the API machinery does not distinguish,
 * are the empty map or sequence.
 */
module KedaTypes {

  import opened Wrappers
  import opened Kube

  /** autoscalingv2.MetricTargetType values. */
  const Utilization := "Utilization"
  const AverageValue := "AverageValue"
  const Value := "Value"

  datatype ScaleTarget = ScaleTarget(
    name: string,
    apiVersion: string,
    kind: string,
    envSourceContainerName: string)

  datatype AuthenticationRef = AuthenticationRef(name: string, kind: string)

  datatype ScaleTrigger = ScaleTrigger(
    triggerType: string,
    name: string,
    useCachedMetrics: bool,
    metadata: map<string, string>,
    authenticationRef: Option<AuthenticationRef>,
    metricType: string)

  datatype ScalingModifiers = ScalingModifiers(
    formula: string,
    target: string,
    activationTarget: string,
    metricType: string)

  /** The zero ScalingModifiers struct. */
  const NoScalingModifiers := ScalingModifiers("", "", "", "")

  datatype HPAScalingPolicy = HPAScalingPolicy(policyType: string, value: int32, periodSeconds: int32)

  datatype HPAScalingRules = HPAScalingRules(
    stabilizationWindowSeconds: Option<int32>,
    selectPolicy: Option<string>,
    policies: seq<HPAScalingPolicy>)

  datatype HPABehavior = HPABehavior(
    scaleUp: Option<HPAScalingRules>,
    scaleDown: Option<HPAScalingRules>)

  datatype HPAConfig = HPAConfig(name: string, behavior: Option<HPABehavior>)

  datatype AdvancedConfig = AdvancedConfig(
    hpaConfig: Option<HPAConfig>,
    restoreToOriginalReplicaCount: bool,
    scalingModifiers: ScalingModifiers)

  /** The replicas KEDA falls back to after repeated scaler failures. */
  datatype Fallback = Fallback(failureThreshold: int32, replicas: int32)

  /**
   * The builder never writes `initialCooldownPeriod`, `idleReplicaCount` or
   * `fallback`; they come only from an override and count in the spec
   * comparison of the reconciler.
   */
  datatype ScaledObjectSpec = ScaledObjectSpec(
    scaleTargetRef: Option<ScaleTarget>,
    pollingInterval: Option<int32>,
    initialCooldownPeriod: Option<int32>,
    cooldownPeriod: Option<int32>,
    idleReplicaCount: Option<int32>,
    minReplicaCount: Option<int32>,
    maxReplicaCount: Option<int32>,
    advanced: Option<AdvancedConfig>,
    triggers: seq<ScaleTrigger>,
    fallback: Option<Fallback>)

  datatype ScaledObject = ScaledObject(meta: ObjectMeta, spec: ScaledObjectSpec)

  const EmptySpec := ScaledObjectSpec(None, None, None, None, None, None, None, None, [], None)

  /** The zero ScaledObject, `v1alpha1.ScaledObject{}`. */
  const EmptyScaledObject := ScaledObject(EmptyMeta, EmptySpec)

  /**
   * A `*v1alpha1.ScaledObject` that code fills in step by step through the
   * pointer: the builder and the fixture options write its fields in place.
   */
  class MutableScaledObject {
    var meta: ObjectMeta
    var spec: ScaledObjectSpec

    constructor (so: ScaledObject)
      ensures Value() == so
    {
      meta := so.meta;
      spec := so.spec;
    }

    /** The object's current contents. */
    function Value(): ScaledObject
      reads this
    {
      ScaledObject(meta, spec)
    }
  }

  /** The replica counts of a HorizontalPodAutoscaler's status. */
  datatype HpaStatus = HpaStatus(currentReplicas: int32, desiredReplicas: int32)
}
