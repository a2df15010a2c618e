/**
 * The knative PodAutoscaler (PA) as far as the adapter reads and writes it.
 * Its metadata and status are updated in place, so it is a class. What
 * knative serving derives from it (scale bounds, target, metric, window,
 * initial scale) enters as an already resolved `Intent`.
 */
module PodAutoscaling {

  import opened Wrappers
  import opened Kube

  const CPU := "cpu"
  const Memory := "memory"
  const ProtocolHTTP1 := "http1"

  /** The PA kind the adapter names in owner references. */
  const PodAutoscalerAPIVersion := "autoscaling.internal.knative.dev/v1alpha1"
  const PodAutoscalerKind := "PodAutoscaler"

  /** The PA's target: a float64 in Go, here a non-negative real that fits an int32. */
  type Target = t: real | 0.0 <= t <= 2147483647.0

  /** What knative serving resolves from a PA and the autoscaler config. */
  datatype Intent = Intent(
    minScale: int32,               // ScaleBounds, lower
    maxScale: int32,               // ScaleBounds, upper (0 means unbounded)
    target: Option<Target>,        // Target()
    metric: string,                // Metric()
    window: Option<int32>,         // Window(), in whole seconds
    initialScale: Option<int32>)   // InitialScale()

  /** The parts of the serving autoscaler config the adapter reads. */
  datatype AutoscalerConfig = AutoscalerConfig(initialScale: int32, allowZeroInitialScale: bool)

  /** The SKSReady condition. */
  datatype SksCondition = SksUnknown | SksReady | SksNotReady(message: string)

  /** Why the Active condition is false. */
  datatype InactiveReason = NotOwned(kind: string, name: string) | FailedCreation(kind: string, name: string)

  /** The Active condition. */
  datatype ActiveCondition = ActiveUnknown | Active | Inactive(reason: InactiveReason)

  datatype PodAutoscalerStatus = PodAutoscalerStatus(
    sks: SksCondition,
    active: ActiveCondition,
    scaleTargetInitialized: bool,
    serviceName: string,
    metricsServiceName: string,
    desiredScale: Option<int32>,
    actualScale: Option<int32>)
  {
    predicate IsScaleTargetInitialized() { scaleTargetInitialized }

    /** InitializeConditions: every condition back to Unknown. */
    function InitializeConditions(): PodAutoscalerStatus
    {
      this.(sks := SksUnknown, active := ActiveUnknown, scaleTargetInitialized := false)
    }

    function MarkSKSReady(): PodAutoscalerStatus { this.(sks := SksReady) }
    function MarkSKSNotReady(message: string): PodAutoscalerStatus { this.(sks := SksNotReady(message)) }
    function MarkScaleTargetInitialized(): PodAutoscalerStatus { this.(scaleTargetInitialized := true) }
    function MarkActive(): PodAutoscalerStatus { this.(active := Active) }
    function MarkResourceNotOwned(kind: string, name: string): PodAutoscalerStatus
    {
      this.(active := Inactive(NotOwned(kind, name)))
    }
    function MarkResourceFailedCreation(kind: string, name: string): PodAutoscalerStatus
    {
      this.(active := Inactive(FailedCreation(kind, name)))
    }
  }

  /** The zero status. */
  const EmptyStatus := PodAutoscalerStatus(SksUnknown, ActiveUnknown, false, "", "", None, None)

  class PodAutoscaler {
    var name: string
    var namespace: string
    var uid: string
    var annotations: map<string, string>
    var labels: map<string, string>
    var scaleTargetRef: ObjectReference
    var protocolType: string
    var status: PodAutoscalerStatus

    /** A PA with the given identity and spec and otherwise zero values. */
    constructor (namespace: string, name: string, scaleTargetRef: ObjectReference, protocolType: string)
      ensures this.name == name && this.namespace == namespace && uid == ""
      ensures annotations == map[] && labels == map[]
      ensures this.scaleTargetRef == scaleTargetRef && this.protocolType == protocolType
      ensures status == EmptyStatus
    {
      this.name := name;
      this.namespace := namespace;
      uid := "";
      annotations := map[];
      labels := map[];
      this.scaleTargetRef := scaleTargetRef;
      this.protocolType := protocolType;
      status := EmptyStatus;
    }

    function Key(): ObjectKey
      reads this
    {
      ObjectKey(namespace, name)
    }
  }
}
