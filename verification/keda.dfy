/**
 * The scaler-spec builder of pkg/reconciler/autoscaling/hpa/resources/keda.go:
 * a PodAutoscaler and the adapter config in, a KEDA ScaledObject or an
 * error out.
 *
 * `DesiredScaledObjectOf` is the reference definition, written stage by
 * stage as functions; `DesiredScaledObject` builds the object step by step
 * through a mutable ScaledObject as the Go code does, and is proved equal
 * to it. The lemmas state what the builder promises about its result.
 */
module Keda {

  import opened Wrappers
  import opened Kube
  import opened Strconv
  import opened Quantity
  import opened NetUrl
  import opened KedaTypes
  import opened KedaConfig
  import opened PodAutoscaling
  import opened Helpers

  // The annotation keys, each autoscaling.GroupName ("autoscaling.knative.dev") followed by its own path.
  const PrometheusAddressAnnotation := "autoscaling.knative.dev/prometheus-address"
  const PrometheusQueryAnnotation := "autoscaling.knative.dev/prometheus-query"
  const MetricTypeAnnotation := "autoscaling.knative.dev/metric-type"
  const PrometheusAuthNameAnnotation := "autoscaling.knative.dev/trigger-prometheus-auth-name"
  const PrometheusAuthKindAnnotation := "autoscaling.knative.dev/trigger-prometheus-auth-kind"
  const PrometheusAuthModesAnnotation := "autoscaling.knative.dev/trigger-prometheus-auth-modes"
  const PrometheusNameAnnotation := "autoscaling.knative.dev/trigger-prometheus-name"
  const ExtraPrometheusTriggersAnnotation := "autoscaling.knative.dev/extra-prometheus-triggers"
  const ScalingModifiersAnnotation := "autoscaling.knative.dev/scaling-modifiers"
  const HPAScaleUpRulesAnnotation := "autoscaling.knative.dev/hpa-scale-up-rules"
  const HPAScaleDownRulesAnnotation := "autoscaling.knative.dev/hpa-scale-down-rules"
  const ScaledObjectOverrideAnnotation := "autoscaling.knative.dev/scaled-object-override"

  /** The cpu target, in percent, when the PA gives none. */
  const DefaultCPUTarget: Target := 70.0

  const DefaultCustomTriggerName := "default-trigger-custom"
  const AuthKinds := {"TriggerAuthentication", "ClusterTriggerAuthentication"}
  const LegalMetricTypes := {AverageValue, Utilization, Value}

  /** What the builder reads from the PA: its identity, metadata and resolved intent. */
  datatype BuildRequest = BuildRequest(
    name: string,
    namespace: string,
    uid: string,
    scaleTargetRef: ObjectReference,
    annotations: map<string, string>,
    labels: map<string, string>,
    intent: Intent)

  /**
   * The library calls the builder makes: JSON decoding into each target
   * type, the query template rendered with `revisionName`, and URL parsing.
   * None is a failure of the call.
   */
  datatype Codecs = Codecs(
    scaledObject: string -> Option<ScaledObject>,
    scalingModifiers: string -> Option<ScalingModifiers>,
    triggers: string -> Option<seq<ScaleTrigger>>,
    scalingRules: string -> Option<HPAScalingRules>,
    renderQuery: (string, string) -> Option<string>,
    urls: UrlParser)

  datatype BuildError =
    | OverrideUnmarshal
    | ScalingModifiersUnmarshal
    | InvalidMetricType(metricType: string)
    | QueryMissing
    | QueryTemplate
    | InvalidPrometheusAddress(cause: UrlError)
    | AuthNameRequired
    | InvalidAuthKind(kind: string)
    | AuthModesRequired
    | ExtraTriggersUnmarshal
    | NoTriggers
    | ScaleUpRulesUnmarshal
    | ScaleDownRulesUnmarshal

  // ---------------------------------------------------------------------
  // Defaults shared by the override and the derived path
  // ---------------------------------------------------------------------

  /** kmeta.NewControllerRef(pa). */
  function ControllerRef(req: BuildRequest): OwnerReference
  {
    OwnerReference(PodAutoscalerAPIVersion, PodAutoscalerKind, req.name, req.uid, true, true)
  }

  /** setScaledObjectDefaults needs an HPA config wherever an advanced block exists. */
  predicate DefaultsDefined(spec: ScaledObjectSpec)
  {
    spec.advanced.Some? ==> spec.advanced.value.hpaConfig.Some?
  }

  /**
   * setScaledObjectDefaults, as the object it leaves behind: the PA's
   * identity, owner, annotations and labels, the PA's scale target, an HPA
   * config named after the PA, and the max bound; everything else of `so`
   * is kept.
   */
  function ScaledObjectDefaults(so: ScaledObject, maxScale: int32, req: BuildRequest): (r: ScaledObject)
    requires DefaultsDefined(so.spec)
    ensures r.meta.name == req.name && r.meta.namespace == req.namespace
    ensures r.meta.annotations == req.annotations && r.meta.labels == req.labels
    // the PA replaces every earlier owner as the one controller
    ensures r.meta.ownerReferences == [ControllerRef(req)] && IsControlledBy(r.meta, req.uid)
    ensures r.meta.uid == so.meta.uid && r.meta.resourceVersion == so.meta.resourceVersion
    ensures r.spec.scaleTargetRef.Some?
    ensures r.spec.scaleTargetRef.value.name == req.scaleTargetRef.name
    ensures r.spec.scaleTargetRef.value.kind == req.scaleTargetRef.kind
    ensures r.spec.scaleTargetRef.value.apiVersion == req.scaleTargetRef.apiVersion
    ensures r.spec.scaleTargetRef.value.envSourceContainerName ==
            (if so.spec.scaleTargetRef.Some? then so.spec.scaleTargetRef.value.envSourceContainerName else "")
    ensures r.spec.advanced.Some? && r.spec.advanced.value.hpaConfig.Some?
    ensures r.spec.advanced.value.hpaConfig.value.name == req.name
    // a present advanced block keeps its modifiers, restore flag and HPA behaviour
    ensures so.spec.advanced.Some? ==>
              && r.spec.advanced.value.scalingModifiers == so.spec.advanced.value.scalingModifiers
              && r.spec.advanced.value.restoreToOriginalReplicaCount ==
                 so.spec.advanced.value.restoreToOriginalReplicaCount
              && r.spec.advanced.value.hpaConfig.value.behavior == so.spec.advanced.value.hpaConfig.value.behavior
    ensures so.spec.advanced.None? ==>
              r.spec.advanced == Some(AdvancedConfig(Some(HPAConfig(req.name, None)), false, NoScalingModifiers))
    ensures r.spec.maxReplicaCount == Some(maxScale)
    ensures r.spec.minReplicaCount == so.spec.minReplicaCount && r.spec.triggers == so.spec.triggers
    ensures r.spec.pollingInterval == so.spec.pollingInterval && r.spec.cooldownPeriod == so.spec.cooldownPeriod
    ensures r.spec.initialCooldownPeriod == so.spec.initialCooldownPeriod
    ensures r.spec.idleReplicaCount == so.spec.idleReplicaCount && r.spec.fallback == so.spec.fallback
  {
    var target := if so.spec.scaleTargetRef.Some? then so.spec.scaleTargetRef.value else ScaleTarget("", "", "", "");
    var advanced := if so.spec.advanced.Some? then so.spec.advanced.value
                    else AdvancedConfig(Some(HPAConfig("", None)), false, NoScalingModifiers);
    ScaledObject(
      so.meta.(name := req.name, namespace := req.namespace, ownerReferences := [ControllerRef(req)],
               annotations := req.annotations, labels := req.labels),
      so.spec.(
        scaleTargetRef := Some(target.(name := req.scaleTargetRef.name, kind := req.scaleTargetRef.kind,
                                       apiVersion := req.scaleTargetRef.apiVersion)),
        advanced := Some(advanced.(hpaConfig := Some(advanced.hpaConfig.value.(name := req.name)))),
        maxReplicaCount := Some(maxScale)))
  }

  /** setScaledObjectDefaults, writing the fields in place in the order keda.go does. */
  method SetScaledObjectDefaults(so: MutableScaledObject, maxScale: int32, req: BuildRequest)
    requires DefaultsDefined(so.spec)
    modifies so
    ensures so.Value() == ScaledObjectDefaults(old(so.Value()), maxScale, req)
  {
    so.meta := so.meta.(name := req.name);
    so.meta := so.meta.(namespace := req.namespace);
    so.meta := so.meta.(ownerReferences := [ControllerRef(req)]);
    so.meta := so.meta.(annotations := req.annotations);
    so.meta := so.meta.(labels := req.labels);
    if so.spec.scaleTargetRef.None? {
      so.spec := so.spec.(scaleTargetRef := Some(ScaleTarget("", "", "", "")));
    }
    var target := so.spec.scaleTargetRef.value;
    target := target.(name := req.scaleTargetRef.name);
    target := target.(kind := req.scaleTargetRef.kind);
    target := target.(apiVersion := req.scaleTargetRef.apiVersion);
    so.spec := so.spec.(scaleTargetRef := Some(target));
    if so.spec.advanced.None? {
      so.spec := so.spec.(advanced := Some(AdvancedConfig(None, false, NoScalingModifiers)));
      so.spec := so.spec.(advanced := Some(so.spec.advanced.value.(hpaConfig := Some(HPAConfig("", None)))));
    }
    var advanced := so.spec.advanced.value;
    so.spec := so.spec.(advanced := Some(advanced.(hpaConfig := Some(advanced.hpaConfig.value.(name := req.name)))));
    so.spec := so.spec.(maxReplicaCount := Some(maxScale));
  }

  // ---------------------------------------------------------------------
  // Target and metric type
  // ---------------------------------------------------------------------

  /** resolveTarget: the PA's target, else 70 for cpu, else none. */
  function ResolveTarget(target: Option<Target>, metric: string): (r: Option<Target>)
    ensures target.Some? ==> r == target
    ensures target.None? && metric == CPU ==> r == Some(DefaultCPUTarget)
    ensures r.None? <==> target.None? && metric != CPU
  {
    if target.Some? then target
    else if metric == CPU then Some(DefaultCPUTarget)
    else None
  }

  /** getDefaultMetricType: the given type, AverageValue when empty. */
  function GetDefaultMetricType(metricType: string): (r: string)
    ensures metricType != "" ==> r == metricType
    ensures metricType == "" ==> r == AverageValue
  {
    if metricType != "" then metricType else AverageValue
  }

  /**
   * getCPUOrMemoryMetricType: Value is refused; a given type is kept; the
   * default is Utilization for cpu and AverageValue otherwise. The error
   * message prints the still-empty result variable, so it carries "".
   */
  function GetCPUOrMemoryMetricType(metric: string, metricType: string): (r: Result<string, BuildError>)
    ensures r.Err? <==> metricType == Value
    ensures r.Err? ==> r.error == InvalidMetricType("")
    ensures r.Ok? && metricType != "" ==> r.value == metricType
    ensures r.Ok? && metricType == "" ==> r.value == (if metric == CPU then Utilization else AverageValue)
  {
    if metricType == Value then Err(InvalidMetricType(""))
    else if metricType != "" then Ok(metricType)
    else if metric == CPU then Ok(Utilization)
    else Ok(AverageValue)
  }

  /**
   * getMetricType: the metric-type annotation must be one of the three
   * target types, and cpu and memory refuse Value. Without the annotation
   * the type defaults per metric.
   */
  function GetMetricType(annotations: map<string, string>, metric: string): (r: Result<string, BuildError>)
    ensures r.Err? <==> MetricTypeAnnotation in annotations &&
                        (annotations[MetricTypeAnnotation] !in LegalMetricTypes ||
                         (annotations[MetricTypeAnnotation] == Value && (metric == CPU || metric == Memory)))
    ensures r.Err? && annotations[MetricTypeAnnotation] !in LegalMetricTypes ==>
              r.error == InvalidMetricType(annotations[MetricTypeAnnotation])
    ensures r.Err? && annotations[MetricTypeAnnotation] in LegalMetricTypes ==> r.error == InvalidMetricType("")
    ensures r.Ok? ==> r.value in LegalMetricTypes
    ensures r.Ok? && MetricTypeAnnotation in annotations ==> r.value == annotations[MetricTypeAnnotation]
    ensures r.Ok? && MetricTypeAnnotation !in annotations ==>
              r.value == (if metric == CPU then Utilization else AverageValue)
  {
    var v := if MetricTypeAnnotation in annotations then annotations[MetricTypeAnnotation] else "";
    if MetricTypeAnnotation in annotations && v !in LegalMetricTypes then Err(InvalidMetricType(v))
    else if metric == CPU || metric == Memory then GetCPUOrMemoryMetricType(metric, v)
    else Ok(GetDefaultMetricType(v))
  }

  // ---------------------------------------------------------------------
  // Triggers
  // ---------------------------------------------------------------------

  /** math.Ceil of a target, as the int32 the cpu trigger prints. */
  function Ceil(t: Target): (n: nat)
    ensures n as real - 1.0 < t <= n as real
    ensures n <= MaxInt32
  {
    if t.Floor as real == t then t.Floor else t.Floor + 1
  }

  /** int64(target) for a non-negative target: truncation is the floor. */
  function Trunc(t: Target): (n: nat)
    ensures n as real <= t < n as real + 1.0
    ensures n <= MaxInt32
  {
    t.Floor
  }

  /** The cpu trigger: the target rounded up, as a decimal integer. */
  function CpuTrigger(target: Target, metricType: string): ScaleTrigger
  {
    ScaleTrigger("cpu", "default-trigger-cpu", false, map["value" := NatToString(Ceil(target))], None, metricType)
  }

  /** The memory trigger: the truncated target in mebibytes, as a BinarySI quantity. */
  function MemoryTrigger(target: Target, metricType: string): ScaleTrigger
  {
    ScaleTrigger("memory", "default-trigger-memory", false,
                 map["value" := BinarySI(Trunc(target) * 1048576)], None, metricType)
  }

  /** The trigger metadata every Prometheus trigger carries. */
  function PrometheusMetadata(address: string, query: string, threshold: string, namespace: string)
    : map<string, string>
  {
    map["serverAddress" := address, "query" := query, "threshold" := threshold, "namespace" := namespace]
  }

  /**
   * The authentication annotations are consistent: a kind needs a name and
   * is one of the two KEDA kinds, and a name comes with modes and modes with
   * a name.
   */
  predicate AuthAnnotationsValid(annotations: map<string, string>)
  {
    && (PrometheusAuthKindAnnotation in annotations ==>
          PrometheusAuthNameAnnotation in annotations && annotations[PrometheusAuthKindAnnotation] in AuthKinds)
    && (PrometheusAuthModesAnnotation in annotations <==> PrometheusAuthNameAnnotation in annotations)
  }

  /**
   * getDefaultPrometheusTrigger: a "prometheus" trigger named by the name
   * annotation or "default-trigger-custom", with the four metadata keys,
   * plus authModes and an AuthenticationRef when authentication is given.
   */
  function GetDefaultPrometheusTrigger(annotations: map<string, string>, address: string, query: string,
                                       threshold: string, namespace: string, metricType: string)
    : (r: Result<ScaleTrigger, BuildError>)
    ensures r.Ok? <==> AuthAnnotationsValid(annotations)
    ensures PrometheusAuthKindAnnotation in annotations && PrometheusAuthNameAnnotation !in annotations ==>
              r == Err(AuthNameRequired)
    ensures PrometheusAuthKindAnnotation in annotations && PrometheusAuthNameAnnotation in annotations &&
            annotations[PrometheusAuthKindAnnotation] !in AuthKinds ==>
              r == Err(InvalidAuthKind(annotations[PrometheusAuthKindAnnotation]))
    ensures PrometheusAuthKindAnnotation !in annotations && PrometheusAuthModesAnnotation in annotations &&
            PrometheusAuthNameAnnotation !in annotations ==>
              r == Err(AuthNameRequired)
    ensures PrometheusAuthNameAnnotation in annotations && PrometheusAuthModesAnnotation !in annotations &&
            (PrometheusAuthKindAnnotation in annotations ==> annotations[PrometheusAuthKindAnnotation] in AuthKinds) ==>
              r == Err(AuthModesRequired)
    ensures r.Ok? ==> r.value.triggerType == "prometheus" && r.value.metricType == metricType
    ensures r.Ok? ==> r.value.name == (if PrometheusNameAnnotation in annotations
                                       then annotations[PrometheusNameAnnotation]
                                       else DefaultCustomTriggerName)
    ensures r.Ok? && PrometheusAuthModesAnnotation !in annotations ==>
              r.value.metadata == PrometheusMetadata(address, query, threshold, namespace) &&
              r.value.authenticationRef.None?
    ensures r.Ok? && PrometheusAuthModesAnnotation in annotations ==>
              r.value.metadata == PrometheusMetadata(address, query, threshold, namespace)
                                    ["authModes" := annotations[PrometheusAuthModesAnnotation]] &&
              r.value.authenticationRef == Some(AuthenticationRef(
                annotations[PrometheusAuthNameAnnotation],
                if PrometheusAuthKindAnnotation in annotations then annotations[PrometheusAuthKindAnnotation] else ""))
  {
    var name := if PrometheusNameAnnotation in annotations then annotations[PrometheusNameAnnotation]
                else DefaultCustomTriggerName;
    var trigger := ScaleTrigger("prometheus", name, false, PrometheusMetadata(address, query, threshold, namespace),
                                None, metricType);
    var ref: Option<AuthenticationRef> :=
      if PrometheusAuthNameAnnotation in annotations
      then Some(AuthenticationRef(annotations[PrometheusAuthNameAnnotation], ""))
      else None;
    if PrometheusAuthKindAnnotation in annotations && ref.None? then Err(AuthNameRequired)
    else if PrometheusAuthKindAnnotation in annotations && annotations[PrometheusAuthKindAnnotation] !in AuthKinds then
      Err(InvalidAuthKind(annotations[PrometheusAuthKindAnnotation]))
    else
      var ref := if PrometheusAuthKindAnnotation in annotations
                 then Some(ref.value.(kind := annotations[PrometheusAuthKindAnnotation]))
                 else ref;
      if PrometheusAuthModesAnnotation in annotations then
        if ref.None? then Err(AuthNameRequired)
        else
          var trigger := trigger.(metadata := trigger.metadata["authModes" := annotations[PrometheusAuthModesAnnotation]]);
          Ok(trigger.(authenticationRef := ref))
      else if ref.Some? then Err(AuthModesRequired)
      else Ok(trigger.(authenticationRef := ref))
  }

  /** getExtraPrometheusTriggers: the decoded annotation, or none without it. */
  function GetExtraPrometheusTriggers(annotations: map<string, string>, codecs: Codecs)
    : (r: Result<seq<ScaleTrigger>, BuildError>)
    ensures ExtraPrometheusTriggersAnnotation !in annotations ==> r == Ok([])
    ensures ExtraPrometheusTriggersAnnotation in annotations ==>
              var parsed := codecs.triggers(annotations[ExtraPrometheusTriggersAnnotation]);
              (r.Err? <==> parsed.None?) && (r.Err? ==> r.error == ExtraTriggersUnmarshal) &&
              (r.Ok? ==> r.value == parsed.value)
  {
    if ExtraPrometheusTriggersAnnotation in annotations then
      var parsed := codecs.triggers(annotations[ExtraPrometheusTriggersAnnotation]);
      if parsed.None? then Err(ExtraTriggersUnmarshal) else Ok(parsed.value)
    else Ok([])
  }

  /** The Prometheus address: the annotation if it passes ParseServerAddress, else the config's. */
  function PrometheusAddress(annotations: map<string, string>, kedaConfig: Option<AutoscalerKedaConfig>,
                             urls: UrlParser): (r: Result<string, BuildError>)
    requires PrometheusAddressAnnotation !in annotations ==> kedaConfig.Some?
  {
    if PrometheusAddressAnnotation in annotations then
      var v := annotations[PrometheusAddressAnnotation];
      var check := ParseServerAddress(v, urls);
      if check.Fail? then Err(InvalidPrometheusAddress(check.error)) else Ok(v)
    else Ok(kedaConfig.value.prometheusAddress)
  }

  /** The custom-metric path reads the config's address: query renders and no address annotation. */
  predicate ReadsConfigAddress(req: BuildRequest, codecs: Codecs)
  {
    && PrometheusQueryAnnotation in req.annotations
    && codecs.renderQuery(req.annotations[PrometheusQueryAnnotation], req.name).Some?
    && PrometheusAddressAnnotation !in req.annotations
  }

  /** The custom-metric trigger: query, rendered for the revision, address, threshold. */
  function CustomTrigger(req: BuildRequest, target: Target, metricType: string,
                         kedaConfig: Option<AutoscalerKedaConfig>, codecs: Codecs)
    : (r: Result<ScaleTrigger, BuildError>)
    requires ReadsConfigAddress(req, codecs) ==> kedaConfig.Some?
  {
    if PrometheusQueryAnnotation !in req.annotations then Err(QueryMissing)
    else
      var query := codecs.renderQuery(req.annotations[PrometheusQueryAnnotation], req.name);
      if query.None? then Err(QueryTemplate)
      else
        var address :- PrometheusAddress(req.annotations, kedaConfig, codecs.urls);
        GetDefaultPrometheusTrigger(req.annotations, address, query.value, DecimalSI(Trunc(target)),
                                    req.namespace, metricType)
  }

  /** Building the primary trigger reaches the config's address. */
  predicate NeedsConfigAddress(req: BuildRequest, codecs: Codecs)
  {
    && ResolveTarget(req.intent.target, req.intent.metric).Some?
    && GetMetricType(req.annotations, req.intent.metric).Ok?
    && req.intent.metric != CPU && req.intent.metric != Memory
    && ReadsConfigAddress(req, codecs)
  }

  /** The trigger derived from the PA's metric and target, if a target resolves. */
  function PrimaryTrigger(req: BuildRequest, kedaConfig: Option<AutoscalerKedaConfig>, codecs: Codecs)
    : (r: Result<Option<ScaleTrigger>, BuildError>)
    requires NeedsConfigAddress(req, codecs) ==> kedaConfig.Some?
  {
    var target := ResolveTarget(req.intent.target, req.intent.metric);
    if target.None? then Ok(None)
    else
      var metricType :- GetMetricType(req.annotations, req.intent.metric);
      if req.intent.metric == CPU then Ok(Some(CpuTrigger(target.value, metricType)))
      else if req.intent.metric == Memory then Ok(Some(MemoryTrigger(target.value, metricType)))
      else
        var trigger :- CustomTrigger(req, target.value, metricType, kedaConfig, codecs);
        Ok(Some(trigger))
  }

  // ---------------------------------------------------------------------
  // Scaling modifiers and HPA behaviour
  // ---------------------------------------------------------------------

  /** The scaling-modifiers annotation, decoded. */
  function ScalingModifiersOf(annotations: map<string, string>, codecs: Codecs)
    : Result<Option<ScalingModifiers>, BuildError>
  {
    if ScalingModifiersAnnotation in annotations then
      var parsed := codecs.scalingModifiers(annotations[ScalingModifiersAnnotation]);
      if parsed.None? then Err(ScalingModifiersUnmarshal) else Ok(parsed)
    else Ok(None)
  }

  /** A scale-rules annotation, decoded; `failure` is the error of its side. */
  function ScalingRulesOf(annotations: map<string, string>, key: string, codecs: Codecs, failure: BuildError)
    : Result<Option<HPAScalingRules>, BuildError>
  {
    if key in annotations then
      var parsed := codecs.scalingRules(annotations[key]);
      if parsed.None? then Err(failure) else Ok(parsed)
    else Ok(None)
  }

  /** The rules a stabilization window sets on each side. */
  function WindowRules(window: int32): HPAScalingRules
  {
    HPAScalingRules(Some(window), None, [])
  }

  /**
   * The HPA behaviour: a window sets both sides, then each rule annotation
   * replaces its own side only.
   */
  function Behavior(window: Option<int32>, up: Option<HPAScalingRules>, down: Option<HPAScalingRules>)
    : (r: Option<HPABehavior>)
    ensures r.None? <==> window.None? && up.None? && down.None?
    ensures r.Some? ==> r.value.scaleUp == (if up.Some? then up
                                            else if window.Some? then Some(WindowRules(window.value)) else None)
    ensures r.Some? ==> r.value.scaleDown == (if down.Some? then down
                                              else if window.Some? then Some(WindowRules(window.value)) else None)
  {
    var b := if window.Some? then Some(HPABehavior(Some(WindowRules(window.value)), Some(WindowRules(window.value))))
             else None;
    var b := if up.Some? then Some((if b.Some? then b.value else HPABehavior(None, None)).(scaleUp := up)) else b;
    if down.Some? then Some((if b.Some? then b.value else HPABehavior(None, None)).(scaleDown := down)) else b
  }

  /** The min replica count: the PA's min bound when positive, else 1 behind a cpu or memory trigger. */
  function MinReplicaCount(minScale: int32, resourceTrigger: bool): Option<int32>
  {
    if minScale > 0 then Some(minScale) else if resourceTrigger then Some(1) else None
  }

  function MaxReplicaCount(maxScale: int32): int32
  {
    if maxScale == 0 then MaxInt32 else maxScale
  }

  function OptionToSeq<T>(o: Option<T>): seq<T>
  {
    if o.Some? then [o.value] else []
  }

  // ---------------------------------------------------------------------
  // The builder
  // ---------------------------------------------------------------------

  /**
   * When the builder is defined: an override that has an advanced block
   * has an HPA config in it, and the derived path reaches the config's
   * address only when there is a config.
   */
  predicate BuildDefined(req: BuildRequest, kedaConfig: Option<AutoscalerKedaConfig>, codecs: Codecs)
  {
    && (ScaledObjectOverrideAnnotation in req.annotations &&
        codecs.scaledObject(req.annotations[ScaledObjectOverrideAnnotation]).Some? ==>
          DefaultsDefined(codecs.scaledObject(req.annotations[ScaledObjectOverrideAnnotation]).value.spec))
    && ((ScaledObjectOverrideAnnotation !in req.annotations &&
         ScalingModifiersOf(req.annotations, codecs).Ok? &&
         NeedsConfigAddress(req, codecs)) ==> kedaConfig.Some?)
  }

  /** DesiredScaledObject, as a composition of its stages. */
  function DesiredScaledObjectOf(req: BuildRequest, kedaConfig: Option<AutoscalerKedaConfig>, codecs: Codecs)
    : Result<ScaledObject, BuildError>
    requires BuildDefined(req, kedaConfig, codecs)
  {
    if ScaledObjectOverrideAnnotation in req.annotations then
      var parsed := codecs.scaledObject(req.annotations[ScaledObjectOverrideAnnotation]);
      if parsed.None? then Err(OverrideUnmarshal)
      else Ok(ScaledObjectDefaults(parsed.value, MaxReplicaCount(req.intent.maxScale), req))
    else
      var staged :- StagedObjectOf(req, kedaConfig, codecs);
      var up :- ScalingRulesOf(req.annotations, HPAScaleUpRulesAnnotation, codecs, ScaleUpRulesUnmarshal);
      var down :- ScalingRulesOf(req.annotations, HPAScaleDownRulesAnnotation, codecs, ScaleDownRulesUnmarshal);
      Ok(WithBehavior(staged, Behavior(req.intent.window, up, down)))
  }

  /** The defaulted empty object with the scaling modifiers and a positive min bound applied. */
  function ModifiedObjectOf(req: BuildRequest, codecs: Codecs): (r: Result<ScaledObject, BuildError>)
    ensures r.Ok? ==> && r.value.spec.triggers == []
                      && r.value.spec.advanced.Some?
                      && r.value.spec.advanced.value.hpaConfig == Some(HPAConfig(req.name, None))
  {
    var base := ScaledObjectDefaults(EmptyScaledObject, MaxReplicaCount(req.intent.maxScale), req);
    var modifiers :- ScalingModifiersOf(req.annotations, codecs);
    var advanced := AdvancedConfig(Some(HPAConfig(req.name, None)), false,
                                   if modifiers.Some? then modifiers.value else NoScalingModifiers);
    Ok(ScaledObject(base.meta, base.spec.(
      minReplicaCount := if req.intent.minScale > 0 then Some(req.intent.minScale) else None,
      advanced := Some(advanced))))
  }

  /**
   * The object without an override, before the behaviour stage: the
   * modified object with the triggers (and a min bound of 1 behind a cpu or
   * memory trigger), or the first error.
   */
  function StagedObjectOf(req: BuildRequest, kedaConfig: Option<AutoscalerKedaConfig>, codecs: Codecs)
    : (r: Result<ScaledObject, BuildError>)
    requires BuildDefined(req, kedaConfig, codecs)
    requires ScaledObjectOverrideAnnotation !in req.annotations
    ensures r.Ok? ==> HasHpaConfig(r.value) && r.value.spec.advanced.value.hpaConfig.value.behavior.None?
  {
    var modified :- ModifiedObjectOf(req, codecs);
    var primary :- PrimaryTrigger(req, kedaConfig, codecs);
    var extras :- GetExtraPrometheusTriggers(req.annotations, codecs);
    var triggers := OptionToSeq(primary) + extras;
    if triggers == [] then Err(NoTriggers)
    else
      var resourceTrigger := primary.Some? && (req.intent.metric == CPU || req.intent.metric == Memory);
      Ok(modified.(spec := modified.spec.(
        minReplicaCount := MinReplicaCount(req.intent.minScale, resourceTrigger),
        triggers := triggers)))
  }

  /**
   * DesiredScaledObject: the Go builder, filling a ScaledObject in place
   * stage by stage and returning at the first error.
   */
  method DesiredScaledObject(req: BuildRequest, kedaConfig: Option<AutoscalerKedaConfig>, codecs: Codecs)
    returns (r: Result<ScaledObject, BuildError>)
    requires BuildDefined(req, kedaConfig, codecs)
    ensures r == DesiredScaledObjectOf(req, kedaConfig, codecs)
  {
    var maxScale := req.intent.maxScale;
    if maxScale == 0 {
      maxScale := MaxInt32;  // default to no limit
    }

    if ScaledObjectOverrideAnnotation in req.annotations {
      var parsed := codecs.scaledObject(req.annotations[ScaledObjectOverrideAnnotation]);
      if parsed.None? {
        return Err(OverrideUnmarshal);
      }
      var so := new MutableScaledObject(parsed.value);
      SetScaledObjectDefaults(so, maxScale, req);
      return Ok(so.Value());
    }

    r := BuildDerived(req, kedaConfig, codecs, maxScale);
  }

  /** The path of DesiredScaledObject without an override: the stages in order, stopping at the first error. */
  method BuildDerived(req: BuildRequest, kedaConfig: Option<AutoscalerKedaConfig>, codecs: Codecs, maxScale: int32)
    returns (r: Result<ScaledObject, BuildError>)
    requires BuildDefined(req, kedaConfig, codecs)
    requires ScaledObjectOverrideAnnotation !in req.annotations
    requires maxScale == MaxReplicaCount(req.intent.maxScale)
    ensures r == DesiredScaledObjectOf(req, kedaConfig, codecs)
  {
    var so := new MutableScaledObject(EmptyScaledObject);
    SetScaledObjectDefaults(so, maxScale, req);
    var staged := BuildStaged(so, req, kedaConfig, codecs);
    if staged.Fail? {
      return Err(staged.error);
    }
    var overrides := ApplyBehaviorOverrides(so, req, codecs);
    if overrides.Fail? {
      return Err(overrides.error);
    }
    return Ok(so.Value());
  }

  /** The stages of DesiredScaledObject before the behaviour, on the defaulted empty object. */
  method BuildStaged(so: MutableScaledObject, req: BuildRequest, kedaConfig: Option<AutoscalerKedaConfig>,
                     codecs: Codecs)
    returns (r: Outcome<BuildError>)
    requires BuildDefined(req, kedaConfig, codecs)
    requires ScaledObjectOverrideAnnotation !in req.annotations
    requires so.Value() == ScaledObjectDefaults(EmptyScaledObject, MaxReplicaCount(req.intent.maxScale), req)
    modifies so
    ensures var staged := StagedObjectOf(req, kedaConfig, codecs);
            && (staged.Err? ==> r == Fail(staged.error))
            && (staged.Ok? ==> r == Pass && so.Value() == staged.value)
  {
    var modified := BuildModified(so, req, codecs);
    if modified.Fail? {
      return Fail(modified.error);
    }
    r := AddTriggers(so, req, kedaConfig, codecs);
  }

  /** The scaling-modifiers and min-bound stages of DesiredScaledObject. */
  method BuildModified(so: MutableScaledObject, req: BuildRequest, codecs: Codecs)
    returns (r: Outcome<BuildError>)
    requires so.Value() == ScaledObjectDefaults(EmptyScaledObject, MaxReplicaCount(req.intent.maxScale), req)
    modifies so
    ensures var modified := ModifiedObjectOf(req, codecs);
            && (modified.Err? ==> r == Fail(modified.error))
            && (modified.Ok? ==> r == Pass && so.Value() == modified.value)
  {
    var modifiers := ApplyScalingModifiers(so, req, codecs);
    if modifiers.Err? {
      return Fail(modifiers.error);
    }
    if req.intent.minScale > 0 {
      so.spec := so.spec.(minReplicaCount := Some(req.intent.minScale));
    }
    return Pass;
  }

  /** The scaling-modifiers stage of DesiredScaledObject. */
  method ApplyScalingModifiers(so: MutableScaledObject, req: BuildRequest, codecs: Codecs)
    returns (r: Result<Option<ScalingModifiers>, BuildError>)
    requires so.spec.advanced.Some?
    modifies so
    ensures r == ScalingModifiersOf(req.annotations, codecs)
    ensures r.Ok? ==> so.meta == old(so.meta)
    ensures r.Ok? && r.value.None? ==> so.spec == old(so.spec)
    ensures r.Ok? && r.value.Some? ==>
              so.spec == old(so.spec).(advanced := Some(old(so.spec.advanced.value).(scalingModifiers := r.value.value)))
  {
    if ScalingModifiersAnnotation !in req.annotations {
      return Ok(None);
    }
    var parsed := codecs.scalingModifiers(req.annotations[ScalingModifiersAnnotation]);
    if parsed.None? {
      return Err(ScalingModifiersUnmarshal);
    }
    so.spec := so.spec.(advanced := Some(so.spec.advanced.value.(scalingModifiers := parsed.value)));
    return Ok(parsed);
  }

  /**
   * The trigger stage of DesiredScaledObject: the primary trigger, then the
   * extra triggers appended, then the check that some trigger exists.
   */
  method AddTriggers(so: MutableScaledObject, req: BuildRequest, kedaConfig: Option<AutoscalerKedaConfig>,
                     codecs: Codecs)
    returns (r: Outcome<BuildError>)
    requires NeedsConfigAddress(req, codecs) ==> kedaConfig.Some?
    requires so.spec.triggers == []
    modifies so
    ensures var primary := PrimaryTrigger(req, kedaConfig, codecs);
            var extras := GetExtraPrometheusTriggers(req.annotations, codecs);
            && (primary.Err? ==> r == Fail(primary.error))
            && (primary.Ok? && extras.Err? ==> r == Fail(extras.error))
            && (primary.Ok? && extras.Ok? && OptionToSeq(primary.value) + extras.value == [] ==> r == Fail(NoTriggers))
            && (primary.Ok? && extras.Ok? && OptionToSeq(primary.value) + extras.value != [] ==>
                  && r == Pass
                  && so.meta == old(so.meta)
                  && so.spec == old(so.spec).(
                       triggers := OptionToSeq(primary.value) + extras.value,
                       minReplicaCount := if primary.value.Some? && (req.intent.metric == CPU || req.intent.metric == Memory) &&
                                             req.intent.minScale <= 0
                                          then Some(1) else old(so.spec.minReplicaCount)))
  {
    var primary := AddPrimaryTrigger(so, req, kedaConfig, codecs);
    if primary.Err? {
      return Fail(primary.error);
    }
    var extras := GetExtraPrometheusTriggers(req.annotations, codecs);
    if extras.Err? {
      return Fail(extras.error);
    }
    so.spec := so.spec.(triggers := so.spec.triggers + extras.value);
    assert so.spec.triggers == OptionToSeq(primary.value) + extras.value;
    if |so.spec.triggers| == 0 {
      return Fail(NoTriggers);
    }
    return Pass;
  }

  /**
   * The primary-trigger stage of DesiredScaledObject: sets the trigger list
   * to the one derived trigger and, behind a cpu or memory trigger, raises
   * an unset min bound to 1.
   */
  method AddPrimaryTrigger(so: MutableScaledObject, req: BuildRequest, kedaConfig: Option<AutoscalerKedaConfig>,
                           codecs: Codecs)
    returns (r: Result<Option<ScaleTrigger>, BuildError>)
    requires NeedsConfigAddress(req, codecs) ==> kedaConfig.Some?
    modifies so
    ensures r == PrimaryTrigger(req, kedaConfig, codecs)
    ensures so.meta == old(so.meta)
    ensures r.Ok? && r.value.None? ==> so.spec == old(so.spec)
    ensures r.Ok? && r.value.Some? ==>
              so.spec == old(so.spec).(
                triggers := [r.value.value],
                minReplicaCount := if (req.intent.metric == CPU || req.intent.metric == Memory) &&
                                      req.intent.minScale <= 0
                                   then Some(1) else old(so.spec.minReplicaCount))
  {
    var target := ResolveTarget(req.intent.target, req.intent.metric);
    if target.None? {
      return Ok(None);
    }
    var metricType := GetMetricType(req.annotations, req.intent.metric);
    if metricType.Err? {
      return Err(metricType.error);
    }
    var trigger: ScaleTrigger;
    if req.intent.metric == CPU {
      trigger := CpuTrigger(target.value, metricType.value);
      so.spec := so.spec.(triggers := [trigger]);
      if req.intent.minScale <= 0 {
        so.spec := so.spec.(minReplicaCount := Some(1));
      }
    } else if req.intent.metric == Memory {
      trigger := MemoryTrigger(target.value, metricType.value);
      so.spec := so.spec.(triggers := [trigger]);
      if req.intent.minScale <= 0 {
        so.spec := so.spec.(minReplicaCount := Some(1));
      }
    } else {
      var threshold := DecimalSI(Trunc(target.value));
      if PrometheusQueryAnnotation !in req.annotations {
        return Err(QueryMissing);
      }
      var query := codecs.renderQuery(req.annotations[PrometheusQueryAnnotation], req.name);
      if query.None? {
        return Err(QueryTemplate);
      }
      var address: string;
      if PrometheusAddressAnnotation in req.annotations {
        var v := req.annotations[PrometheusAddressAnnotation];
        var check := ParseServerAddress(v, codecs.urls);
        if check.Fail? {
          return Err(InvalidPrometheusAddress(check.error));
        }
        address := v;
      } else {
        address := kedaConfig.value.prometheusAddress;
      }
      var defaultTrigger := GetDefaultPrometheusTrigger(req.annotations, address, query.value, threshold,
                                                        req.namespace, metricType.value);
      if defaultTrigger.Err? {
        return Err(defaultTrigger.error);
      }
      trigger := defaultTrigger.value;
      so.spec := so.spec.(triggers := [trigger]);
    }
    return Ok(Some(trigger));
  }

  /** The object has an HPA config to hold a behaviour. */
  predicate HasHpaConfig(so: ScaledObject)
  {
    so.spec.advanced.Some? && so.spec.advanced.value.hpaConfig.Some?
  }

  /** The object with its HPA behaviour replaced. */
  function WithBehavior(so: ScaledObject, behavior: Option<HPABehavior>): ScaledObject
    requires HasHpaConfig(so)
  {
    var advanced := so.spec.advanced.value;
    so.(spec := so.spec.(advanced := Some(advanced.(hpaConfig := Some(advanced.hpaConfig.value.(behavior := behavior))))))
  }

  /** The behaviour block, allocated empty when nil. */
  function BehaviorOf(so: MutableScaledObject): HPABehavior
    reads so
    requires HasHpaConfig(so.Value())
  {
    var b := so.spec.advanced.value.hpaConfig.value.behavior;
    if b.Some? then b.value else HPABehavior(None, None)
  }

  /** Writes Spec.Advanced.HorizontalPodAutoscalerConfig.Behavior. */
  method SetBehavior(so: MutableScaledObject, behavior: Option<HPABehavior>)
    requires HasHpaConfig(so.Value())
    modifies so
    ensures so.Value() == WithBehavior(old(so.Value()), behavior)
  {
    var advanced := so.spec.advanced.value;
    so.spec := so.spec.(advanced := Some(advanced.(hpaConfig := Some(advanced.hpaConfig.value.(behavior := behavior)))));
  }

  /**
   * The behaviour stage of DesiredScaledObject: the window on both sides,
   * then the scale-up and scale-down rule annotations, each on its side.
   */
  method ApplyBehaviorOverrides(so: MutableScaledObject, req: BuildRequest, codecs: Codecs)
    returns (r: Outcome<BuildError>)
    requires HasHpaConfig(so.Value()) && so.spec.advanced.value.hpaConfig.value.behavior.None?
    modifies so
    ensures var up := ScalingRulesOf(req.annotations, HPAScaleUpRulesAnnotation, codecs, ScaleUpRulesUnmarshal);
            var down := ScalingRulesOf(req.annotations, HPAScaleDownRulesAnnotation, codecs, ScaleDownRulesUnmarshal);
            && (up.Err? ==> r == Fail(up.error))
            && (up.Ok? && down.Err? ==> r == Fail(down.error))
            && (up.Ok? && down.Ok? ==>
                  r == Pass && so.Value() == WithBehavior(old(so.Value()), Behavior(req.intent.window, up.value, down.value)))
  {
    if req.intent.window.Some? {
      var rules := WindowRules(req.intent.window.value);
      SetBehavior(so, Some(HPABehavior(Some(rules), Some(rules))));
    }

    if HPAScaleUpRulesAnnotation in req.annotations {
      var parsed := codecs.scalingRules(req.annotations[HPAScaleUpRulesAnnotation]);
      if parsed.None? {
        return Fail(ScaleUpRulesUnmarshal);
      }
      var behavior := BehaviorOf(so);
      SetBehavior(so, Some(behavior.(scaleUp := parsed)));
    }

    if HPAScaleDownRulesAnnotation in req.annotations {
      var parsed := codecs.scalingRules(req.annotations[HPAScaleDownRulesAnnotation]);
      if parsed.None? {
        return Fail(ScaleDownRulesUnmarshal);
      }
      var behavior := BehaviorOf(so);
      SetBehavior(so, Some(behavior.(scaleDown := parsed)));
    }
    return Pass;
  }
}
