/**
 * What the scaler-spec builder promises about the ScaledObject it returns,
 * stated over the reference definition `Keda.DesiredScaledObjectOf` (which
 * the step-by-step `Keda.DesiredScaledObject` equals).
 */
module KedaProperties {

  import opened Wrappers
  import opened Kube
  import opened Strconv
  import opened Quantity
  import opened KedaTypes
  import opened KedaConfig
  import opened PodAutoscaling
  import opened Helpers
  import opened Keda

  /** The stages before the primary trigger pass: no override, scaling modifiers decode. */
  predicate DerivedPath(req: BuildRequest, codecs: Codecs)
  {
    ScaledObjectOverrideAnnotation !in req.annotations && ScalingModifiersOf(req.annotations, codecs).Ok?
  }

  // ---------------------------------------------------------------------
  // Bounds
  // ---------------------------------------------------------------------

  /** MaxReplicaCount is the PA's max bound, MaxInt32 for 0, on both paths. */
  lemma MaxReplicaCountOnBothPaths(req: BuildRequest, kedaConfig: Option<AutoscalerKedaConfig>, codecs: Codecs)
    requires BuildDefined(req, kedaConfig, codecs)
    ensures var r := DesiredScaledObjectOf(req, kedaConfig, codecs);
            r.Ok? ==> r.value.spec.maxReplicaCount ==
                        Some(if req.intent.maxScale == 0 then MaxInt32 else req.intent.maxScale)
  {
  }

  /**
   * On the derived path, MinReplicaCount is the min bound when positive;
   * otherwise it is 1 behind a cpu trigger or a memory trigger (which needs
   * a target), and unset for any other metric.
   */
  lemma MinReplicaCountOnDerivedPath(req: BuildRequest, kedaConfig: Option<AutoscalerKedaConfig>, codecs: Codecs)
    requires BuildDefined(req, kedaConfig, codecs)
    requires ScaledObjectOverrideAnnotation !in req.annotations
    ensures var r := DesiredScaledObjectOf(req, kedaConfig, codecs);
            r.Ok? ==> r.value.spec.minReplicaCount ==
                        if req.intent.minScale > 0 then Some(req.intent.minScale)
                        else if req.intent.metric == CPU || (req.intent.metric == Memory && req.intent.target.Some?)
                        then Some(1)
                        else None
  {
    var r := DesiredScaledObjectOf(req, kedaConfig, codecs);
    if r.Ok? {
      var primary := PrimaryTrigger(req, kedaConfig, codecs);
      assert primary.Ok?;
      assert req.intent.metric == CPU ==> primary.value.Some?;
      assert req.intent.metric == Memory && req.intent.target.Some? ==> primary.value.Some?;
      assert req.intent.metric == Memory && req.intent.target.None? ==> primary.value.None?;
    }
  }

  // ---------------------------------------------------------------------
  // The override escape hatch
  // ---------------------------------------------------------------------

  /**
   * With the override annotation, malformed JSON is an error, and otherwise
   * the result is the decoded object with only the defaults overwritten:
   * its triggers (even none) and min bound are kept as given.
   */
  lemma OverridePath(req: BuildRequest, kedaConfig: Option<AutoscalerKedaConfig>, codecs: Codecs)
    requires BuildDefined(req, kedaConfig, codecs)
    requires ScaledObjectOverrideAnnotation in req.annotations
    ensures var parsed := codecs.scaledObject(req.annotations[ScaledObjectOverrideAnnotation]);
            var r := DesiredScaledObjectOf(req, kedaConfig, codecs);
            && (r.Err? <==> parsed.None?)
            && (r.Err? ==> r.error == OverrideUnmarshal)
            && (r.Ok? ==> r.value == ScaledObjectDefaults(parsed.value, MaxReplicaCount(req.intent.maxScale), req))
            && (r.Ok? ==> r.value.spec.triggers == parsed.value.spec.triggers &&
                          r.value.spec.minReplicaCount == parsed.value.spec.minReplicaCount &&
                          r.value.spec.pollingInterval == parsed.value.spec.pollingInterval &&
                          r.value.spec.cooldownPeriod == parsed.value.spec.cooldownPeriod)
  {
  }

  /** On both paths the result carries the PA's identity and is controlled by it. */
  lemma ResultControlledByPA(req: BuildRequest, kedaConfig: Option<AutoscalerKedaConfig>, codecs: Codecs)
    requires BuildDefined(req, kedaConfig, codecs)
    ensures var r := DesiredScaledObjectOf(req, kedaConfig, codecs);
            r.Ok? ==> && r.value.meta.name == req.name && r.value.meta.namespace == req.namespace
                      && r.value.meta.annotations == req.annotations && r.value.meta.labels == req.labels
                      && IsControlledBy(r.value.meta, req.uid)
                      && r.value.spec.scaleTargetRef.Some?
                      && r.value.spec.scaleTargetRef.value.name == req.scaleTargetRef.name
                      && r.value.spec.advanced.Some? && r.value.spec.advanced.value.hpaConfig.Some?
                      && r.value.spec.advanced.value.hpaConfig.value.name == req.name
  {
  }

  // ---------------------------------------------------------------------
  // Target, metric type and the primary trigger
  // ---------------------------------------------------------------------

  /** Without a resolved target no metric type is checked and no primary trigger is built. */
  lemma NoTargetNoPrimaryTrigger(req: BuildRequest, kedaConfig: Option<AutoscalerKedaConfig>, codecs: Codecs)
    requires NeedsConfigAddress(req, codecs) ==> kedaConfig.Some?
    requires req.intent.target.None? && req.intent.metric != CPU
    ensures PrimaryTrigger(req, kedaConfig, codecs) == Ok(None)
  {
  }

  /** A refused metric type fails the build when a target resolves, before any trigger is built. */
  lemma MetricTypeErrorFailsBuild(req: BuildRequest, kedaConfig: Option<AutoscalerKedaConfig>, codecs: Codecs)
    requires BuildDefined(req, kedaConfig, codecs) && DerivedPath(req, codecs)
    requires ResolveTarget(req.intent.target, req.intent.metric).Some?
    requires GetMetricType(req.annotations, req.intent.metric).Err?
    ensures DesiredScaledObjectOf(req, kedaConfig, codecs) == Err(GetMetricType(req.annotations, req.intent.metric).error)
  {
  }

  /** The cpu trigger: type cpu, the target (70 by default) rounded up in decimal. */
  lemma CpuPrimaryTrigger(req: BuildRequest, kedaConfig: Option<AutoscalerKedaConfig>, codecs: Codecs)
    requires NeedsConfigAddress(req, codecs) ==> kedaConfig.Some?
    requires req.intent.metric == CPU
    ensures var mt := GetMetricType(req.annotations, CPU);
            var target := if req.intent.target.Some? then req.intent.target.value else DefaultCPUTarget;
            PrimaryTrigger(req, kedaConfig, codecs) ==
              if mt.Err? then Err(mt.error)
              else Ok(Some(ScaleTrigger("cpu", "default-trigger-cpu", false,
                                        map["value" := NatToString(Ceil(target))], None, mt.value)))
  {
  }

  /** The memory trigger: type memory, the truncated target in mebibytes as a BinarySI quantity. */
  lemma MemoryPrimaryTrigger(req: BuildRequest, kedaConfig: Option<AutoscalerKedaConfig>, codecs: Codecs)
    requires NeedsConfigAddress(req, codecs) ==> kedaConfig.Some?
    requires req.intent.metric == Memory && req.intent.target.Some?
    ensures var mt := GetMetricType(req.annotations, Memory);
            PrimaryTrigger(req, kedaConfig, codecs) ==
              if mt.Err? then Err(mt.error)
              else Ok(Some(ScaleTrigger("memory", "default-trigger-memory", false,
                                        map["value" := BinarySI(Trunc(req.intent.target.value) * 1048576)],
                                        None, mt.value)))
  {
  }

  /**
   * A custom metric needs the query annotation; the query is rendered for
   * the revision; an address annotation must pass ParseServerAddress, an
   * absent one falls back to the config's address; the threshold is the
   * truncated target as a DecimalSI quantity.
   */
  lemma CustomPrimaryTrigger(req: BuildRequest, kedaConfig: Option<AutoscalerKedaConfig>, codecs: Codecs)
    requires NeedsConfigAddress(req, codecs) ==> kedaConfig.Some?
    requires req.intent.metric != CPU && req.intent.metric != Memory && req.intent.target.Some?
    requires GetMetricType(req.annotations, req.intent.metric).Ok?
    ensures var r := PrimaryTrigger(req, kedaConfig, codecs);
            var a := req.annotations;
            && (PrometheusQueryAnnotation !in a ==> r == Err(QueryMissing))
            && (PrometheusQueryAnnotation in a && codecs.renderQuery(a[PrometheusQueryAnnotation], req.name).None? ==>
                  r == Err(QueryTemplate))
            && (PrometheusQueryAnnotation in a && codecs.renderQuery(a[PrometheusQueryAnnotation], req.name).Some? ==>
                  var query := codecs.renderQuery(a[PrometheusQueryAnnotation], req.name).value;
                  var check := if PrometheusAddressAnnotation in a
                               then ParseServerAddress(a[PrometheusAddressAnnotation], codecs.urls) else Pass;
                  var address := if PrometheusAddressAnnotation in a then a[PrometheusAddressAnnotation]
                                 else kedaConfig.value.prometheusAddress;
                  var trigger := GetDefaultPrometheusTrigger(a, address, query, DecimalSI(Trunc(req.intent.target.value)),
                                                             req.namespace,
                                                             GetMetricType(a, req.intent.metric).value);
                  && (check.Fail? ==> r == Err(InvalidPrometheusAddress(check.error)))
                  && (check.Pass? && trigger.Err? ==> r == Err(trigger.error))
                  && (check.Pass? && trigger.Ok? ==> r == Ok(Some(trigger.value))))
  {
  }

  /** Custom metric types: any legal annotation value is taken, AverageValue by default. */
  lemma CustomMetricType(annotations: map<string, string>, metric: string)
    requires metric != CPU && metric != Memory
    ensures MetricTypeAnnotation in annotations && annotations[MetricTypeAnnotation] in LegalMetricTypes ==>
              GetMetricType(annotations, metric) == Ok(annotations[MetricTypeAnnotation])
    ensures MetricTypeAnnotation !in annotations ==> GetMetricType(annotations, metric) == Ok(AverageValue)
  {
  }

  // ---------------------------------------------------------------------
  // Trigger list
  // ---------------------------------------------------------------------

  /**
   * On the derived path the final trigger list is the primary trigger, if
   * any, followed by the decoded extra triggers in their order; it is
   * never empty.
   */
  lemma TriggersArePrimaryThenExtras(req: BuildRequest, kedaConfig: Option<AutoscalerKedaConfig>, codecs: Codecs)
    requires BuildDefined(req, kedaConfig, codecs)
    requires ScaledObjectOverrideAnnotation !in req.annotations
    ensures var r := DesiredScaledObjectOf(req, kedaConfig, codecs);
            r.Ok? ==> && PrimaryTrigger(req, kedaConfig, codecs).Ok?
                      && GetExtraPrometheusTriggers(req.annotations, codecs).Ok?
                      && r.value.spec.triggers == OptionToSeq(PrimaryTrigger(req, kedaConfig, codecs).value) +
                                                  GetExtraPrometheusTriggers(req.annotations, codecs).value
                      && |r.value.spec.triggers| > 0
  {
  }

  /** The empty-trigger check: with the earlier stages passing, the build fails exactly when no trigger is left. */
  lemma NoTriggersIsAnError(req: BuildRequest, kedaConfig: Option<AutoscalerKedaConfig>, codecs: Codecs)
    requires BuildDefined(req, kedaConfig, codecs) && DerivedPath(req, codecs)
    requires PrimaryTrigger(req, kedaConfig, codecs).Ok?
    requires GetExtraPrometheusTriggers(req.annotations, codecs).Ok?
    ensures DesiredScaledObjectOf(req, kedaConfig, codecs) == Err(NoTriggers) <==>
            PrimaryTrigger(req, kedaConfig, codecs) == Ok(None) &&
            GetExtraPrometheusTriggers(req.annotations, codecs) == Ok([])
  {
  }

  /** Malformed extra-trigger JSON fails the build once the primary trigger is built. */
  lemma MalformedExtraTriggersFailBuild(req: BuildRequest, kedaConfig: Option<AutoscalerKedaConfig>, codecs: Codecs)
    requires BuildDefined(req, kedaConfig, codecs) && DerivedPath(req, codecs)
    requires PrimaryTrigger(req, kedaConfig, codecs).Ok?
    requires ExtraPrometheusTriggersAnnotation in req.annotations
    requires codecs.triggers(req.annotations[ExtraPrometheusTriggersAnnotation]).None?
    ensures DesiredScaledObjectOf(req, kedaConfig, codecs) == Err(ExtraTriggersUnmarshal)
  {
  }

  // ---------------------------------------------------------------------
  // HPA behaviour
  // ---------------------------------------------------------------------

  /**
   * On the derived path the HPA behaviour is the window on both sides with
   * each rule annotation replacing its own side, and the scaling modifiers
   * are the decoded annotation.
   */
  lemma BehaviorOnDerivedPath(req: BuildRequest, kedaConfig: Option<AutoscalerKedaConfig>, codecs: Codecs)
    requires BuildDefined(req, kedaConfig, codecs)
    requires ScaledObjectOverrideAnnotation !in req.annotations
    ensures var r := DesiredScaledObjectOf(req, kedaConfig, codecs);
            var up := ScalingRulesOf(req.annotations, HPAScaleUpRulesAnnotation, codecs, ScaleUpRulesUnmarshal);
            var down := ScalingRulesOf(req.annotations, HPAScaleDownRulesAnnotation, codecs, ScaleDownRulesUnmarshal);
            var modifiers := ScalingModifiersOf(req.annotations, codecs);
            r.Ok? ==> && up.Ok? && down.Ok? && modifiers.Ok?
                      && r.value.spec.advanced ==
                           Some(AdvancedConfig(Some(HPAConfig(req.name, Behavior(req.intent.window, up.value, down.value))),
                                               false,
                                               if modifiers.value.Some? then modifiers.value.value
                                               else NoScalingModifiers))
  {
  }

  // ---------------------------------------------------------------------
  // Cases of resources/keda_test.go
  // ---------------------------------------------------------------------

  /** None of the builder's own annotations is present. */
  predicate NoBuilderAnnotations(a: map<string, string>)
  {
    && ScaledObjectOverrideAnnotation !in a && ScalingModifiersAnnotation !in a && MetricTypeAnnotation !in a
    && ExtraPrometheusTriggersAnnotation !in a && HPAScaleUpRulesAnnotation !in a && HPAScaleDownRulesAnnotation !in a
  }

  /** "cpu metric with default cm values": target 75, max 10, no min. */
  lemma CpuTargetScenario(req: BuildRequest, kedaConfig: Option<AutoscalerKedaConfig>, codecs: Codecs)
    requires NoBuilderAnnotations(req.annotations)
    requires req.intent == Intent(0, 10, Some(75.0), CPU, None, None)
    ensures BuildDefined(req, kedaConfig, codecs)
    ensures var r := DesiredScaledObjectOf(req, kedaConfig, codecs);
            && r.Ok?
            && r.value.spec.maxReplicaCount == Some(10)
            && r.value.spec.minReplicaCount == Some(1)
            && r.value.spec.triggers ==
                 [ScaleTrigger("cpu", "default-trigger-cpu", false, map["value" := "75"], None, Utilization)]
            && r.value.spec.advanced == Some(AdvancedConfig(Some(HPAConfig(req.name, None)), false, NoScalingModifiers))
  {
    assert NatToString(75) == "75" by {
      assert NatToString(7) == "7";
    }
  }

  /** cpu without a target uses 70. */
  lemma CpuDefaultTargetScenario(req: BuildRequest, kedaConfig: Option<AutoscalerKedaConfig>, codecs: Codecs)
    requires NoBuilderAnnotations(req.annotations)
    requires req.intent.metric == CPU && req.intent.target.None?
    ensures BuildDefined(req, kedaConfig, codecs)
    ensures var r := DesiredScaledObjectOf(req, kedaConfig, codecs);
            && r.Ok?
            && r.value.spec.triggers ==
                 [ScaleTrigger("cpu", "default-trigger-cpu", false, map["value" := "70"], None, Utilization)]
  {
    assert NatToString(70) == "70" by {
      assert NatToString(7) == "7";
    }
    assert GetMetricType(req.annotations, CPU) == Ok(Utilization);
    assert PrimaryTrigger(req, kedaConfig, codecs) == Ok(Some(CpuTrigger(DefaultCPUTarget, Utilization)));
  }

  /** "memory metric with default cm values": target 200 is "200Mi", type AverageValue. */
  lemma MemoryTargetScenario(req: BuildRequest, kedaConfig: Option<AutoscalerKedaConfig>, codecs: Codecs)
    requires NoBuilderAnnotations(req.annotations)
    requires req.intent == Intent(1, 10, Some(200.0), Memory, None, None)
    ensures BuildDefined(req, kedaConfig, codecs)
    ensures var r := DesiredScaledObjectOf(req, kedaConfig, codecs);
            && r.Ok?
            && r.value.spec.minReplicaCount == Some(1)
            && r.value.spec.triggers ==
                 [ScaleTrigger("memory", "default-trigger-memory", false, map["value" := "200Mi"], None, AverageValue)]
  {
    assert Trunc(200.0) == 200;
    TwoHundredMebibytes();
    assert MemoryTrigger(200.0, AverageValue) ==
           ScaleTrigger("memory", "default-trigger-memory", false, map["value" := "200Mi"], None, AverageValue);
    assert GetMetricType(req.annotations, Memory) == Ok(AverageValue);
    assert PrimaryTrigger(req, kedaConfig, codecs) == Ok(Some(MemoryTrigger(200.0, AverageValue)));
  }

  /**
   * "custom metric with default cm values": threshold "5", the config's
   * address, the rendered query, type AverageValue.
   */
  lemma CustomMetricScenario(req: BuildRequest, kedaConfig: Option<AutoscalerKedaConfig>, codecs: Codecs)
    requires NoBuilderAnnotations(req.annotations)
    requires PrometheusAddressAnnotation !in req.annotations && PrometheusNameAnnotation !in req.annotations
    requires PrometheusAuthNameAnnotation !in req.annotations && PrometheusAuthKindAnnotation !in req.annotations
    requires PrometheusAuthModesAnnotation !in req.annotations
    requires req.intent == Intent(1, 10, Some(5.0), "http_requests_total", None, None)
    requires PrometheusQueryAnnotation in req.annotations
    requires codecs.renderQuery(req.annotations[PrometheusQueryAnnotation], req.name).Some?
    requires kedaConfig == Some(AutoscalerKedaConfig(DefaultPrometheusAddress, false))
    ensures BuildDefined(req, kedaConfig, codecs)
    ensures var r := DesiredScaledObjectOf(req, kedaConfig, codecs);
            var query := codecs.renderQuery(req.annotations[PrometheusQueryAnnotation], req.name).value;
            && r.Ok?
            && r.value.spec.minReplicaCount == Some(1)
            && r.value.spec.triggers ==
                 [ScaleTrigger("prometheus", DefaultCustomTriggerName, false,
                               map["serverAddress" := DefaultPrometheusAddress, "query" := query,
                                   "threshold" := "5", "namespace" := req.namespace],
                               None, AverageValue)]
  {
    DecimalSISmall(5);
  }
}
