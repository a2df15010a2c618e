# KEDA autoscaler for Knative Serving — Dafny model

This project models the core of the Knative Serving KEDA autoscaler: the HPA-class PodAutoscaler (PA) reconciler,
which turns a PA into a KEDA ScaledObject and reports the resulting scale back on the PA. Five parts are modelled:

- **The builder.** `resources/keda.go`, module `Keda`. It derives the desired ScaledObject from the PA's scale
  bounds, target, metric and annotations. The result is one of:
  - a user override;
  - a CPU, memory or Prometheus trigger;
  - extra triggers;
  - scaling modifiers;
  - HPA behaviour from the stable window and the scale-up and scale-down rules.

  It has every error exit of the Go code.
- **The reconciler.** `keda_hpa.go`, module `KedaHpa`. A class holds the ScaledObject store and the HPA status
  store. `ReconcileKind` decides each of the following and updates the PA status as the Go code does:
  - whether to build;
  - whether to create, refuse a foreign object or update;
  - whether to wait for the HPA;
  - how to report the SKS (serverless service) result.
- **The configuration loader.** `config/autoscaler_keda.go`, module `KedaConfig`. It handles the Prometheus
  address with its default and URL validation.
- **The test helpers.** `helpers/helpers.go` and `resources/scaled_object.go`, modules `Helpers` and
  `ScaledObjectFixtures`. These are the PA and ScaledObject builders with functional options. Objects the tests
  mutate in place are classes; option lists become loops over a datatype of options.
- **Supporting modules.**
  - `Kube`: object metadata, the controller owner reference and the annotation merge loop.
  - `Strconv`: Go's `strconv.ParseBool` and decimal printing.
  - `Quantity`: the canonical strings of `resource.Quantity` for the DecimalSI and BinarySI formats.
  - `NetUrl`: the URL parser interface.
  - `PodAutoscaling`: the PA, its intent and its status conditions.
  - `KedaTypes`: the ScaledObject and HPA types.

The builder has two forms. `Keda.DesiredScaledObjectOf` is the reference definition. `Keda.DesiredScaledObject`
builds the object step by step on a mutable ScaledObject, as keda.go does, and is proved equal to the reference.
All properties of the builder are lemmas about the reference definition.

Where the code and the written design disagree, the model follows the code:

- **A failed `url.Parse` is an error.** It fails configuration loading and `ParseServerAddress`. Only a parsed
  address with an empty host is accepted without error: the Go code then returns the nil error, with a nil
  config in the loader.
- **`getCPUOrMemoryMetricType` prints an empty type.** Its error for the `Value` type formats a variable that is
  still empty, so the model's error carries `""`.
- **`ShouldCreateScaledObject` is never set by the loader.** The reconciler reads this config field, but the
  loader in autoscaler_keda.go never sets it, so a loaded config carries Go's zero value (false). Without the
  auto-create annotation, a PA therefore gets a ScaledObject only when no KEDA config is present. Some reconciler
  test cases assume creation with the default config; the model keeps the loader as written.
- **The ScaledObject fixture leaves triggers unnamed, while keda.go names them.** The fixture builds triggers
  without names (`WithTrigger`), but the builder names them `default-trigger-cpu`, `default-trigger-memory` or
  `default-trigger-custom`. Each module follows its own source file.

## Model

| member | source | states |
|---|---|---|
| Keda.DesiredScaledObject | pkg/reconciler/autoscaling/hpa/resources/keda.go:60-208 | the step-by-step build on a mutable ScaledObject yields exactly the reference result: the same object or the same error |
| Keda.BuildDerived | pkg/reconciler/autoscaling/hpa/resources/keda.go:79-207 | the in-place build without an override on a fresh object returns exactly the reference result |
| Keda.BuildStaged | pkg/reconciler/autoscaling/hpa/resources/keda.go:82-171 | from the defaulted object, the modifier, min-replica and trigger steps fail with the reference stage's error, or leave the object equal to the reference staged object |
| Keda.BuildModified | pkg/reconciler/autoscaling/hpa/resources/keda.go:82-93 | the scaling-modifier and min-scale steps fail with the modifier unmarshal error, or leave the object equal to the reference modified object |
| Keda.ApplyScalingModifiers | pkg/reconciler/autoscaling/hpa/resources/keda.go:82-89 | returns the decoded scaling-modifiers annotation or its unmarshal error; on success the advanced block carries the modifiers, or keeps its old ones when there is no annotation |
| Keda.AddTriggers | pkg/reconciler/autoscaling/hpa/resources/keda.go:95-171 | fails with the primary trigger's error, then the extra triggers' error, then "no triggers" when the list is empty; on success the triggers are the primary trigger followed by the extras, min replicas is raised to 1 for a CPU or memory trigger when min scale is not positive, and nothing else changes |
| Keda.ModifiedObjectOf | pkg/reconciler/autoscaling/hpa/resources/keda.go:79-93 | the stage before the triggers has no triggers, an advanced block and an HPA config named after the PA without behaviour |
| Keda.StagedObjectOf | pkg/reconciler/autoscaling/hpa/resources/keda.go:79-171 | the stage before the behaviour overrides has an HPA config and no behaviour yet |
| Keda.SetScaledObjectDefaults | pkg/reconciler/autoscaling/hpa/resources/keda.go:328-346 | the in-place default setting leaves the object equal to `ScaledObjectDefaults` of its old value |
| Keda.ScaledObjectDefaults | pkg/reconciler/autoscaling/hpa/resources/keda.go:328-346 | name, namespace, annotations and labels come from the PA; the owner references are exactly the PA's controller reference, so earlier owners are dropped; the scale target ref takes the PA's name, kind and API version and keeps its env-source container; an existing advanced block keeps its scaling modifiers, restore flag and HPA behaviour, and a missing one becomes a default block; the HPA config is named after the PA; max replicas is the given bound; uid, resource version, min replicas, triggers, intervals, initial cooldown, idle replica count and fallback are kept |
| Keda.AddPrimaryTrigger | pkg/reconciler/autoscaling/hpa/resources/keda.go:95-160 | the in-place trigger step returns the reference primary trigger; with one it replaces the trigger list (and raises min replicas to 1 for CPU and memory when min scale is not positive); without one the spec is unchanged |
| Keda.ApplyBehaviorOverrides | pkg/reconciler/autoscaling/hpa/resources/keda.go:173-205 | the window and the scale-up and scale-down rule annotations set the HPA behaviour of the object, or fail with the matching unmarshal error |
| Keda.SetBehavior | pkg/reconciler/autoscaling/hpa/resources/keda.go:175-204 | storing a behaviour changes only the HPA config's behaviour |
| Keda.ResolveTarget | pkg/reconciler/autoscaling/hpa/resources/keda.go:210-220 | the PA's target when it has one, else 70 for CPU; there is no target exactly when none is set and the metric is not CPU |
| Keda.GetDefaultMetricType | pkg/reconciler/autoscaling/hpa/resources/keda.go:303-309 | AverageValue for an empty type, the given type otherwise |
| Keda.GetCPUOrMemoryMetricType | pkg/reconciler/autoscaling/hpa/resources/keda.go:311-326 | fails exactly for `Value`, reporting an empty type; a given type is kept; otherwise Utilization for CPU and AverageValue for memory |
| Keda.GetMetricType | pkg/reconciler/autoscaling/hpa/resources/keda.go:281-301 | fails exactly for an annotation outside {AverageValue, Utilization, Value}, or `Value` with CPU or memory; a successful result is always one of the three legal types and equals the annotation when there is one |
| Keda.Ceil | pkg/reconciler/autoscaling/hpa/resources/keda.go:107 | the least integer not below the target, and at most MaxInt32, so `int32(math.Ceil(target))` does not wrap |
| Keda.Trunc | pkg/reconciler/autoscaling/hpa/resources/keda.go:114 | the integer part of the target, at most MaxInt32 |
| Keda.GetDefaultPrometheusTrigger | pkg/reconciler/autoscaling/hpa/resources/keda.go:222-269 | succeeds exactly when the auth annotations are consistent; a kind without a name, a kind outside the two auth kinds, modes without a name and a name without modes each give their own error; the trigger is of type prometheus with the given metric type, named by the annotation or `default-trigger-custom`, with metadata serverAddress/query/threshold/namespace plus authModes when given, and an authentication ref exactly when a name is given |
| Keda.GetExtraPrometheusTriggers | pkg/reconciler/autoscaling/hpa/resources/keda.go:271-279 | no annotation gives no triggers; otherwise the decoded list, or an unmarshal error when it does not decode |
| Keda.Behavior | pkg/reconciler/autoscaling/hpa/resources/keda.go:173-205 | there is a behaviour exactly when a window or a rule is given; each side is its rule annotation when given, else the window's stabilization seconds, else unset |
| KedaProperties.MaxReplicaCountOnBothPaths | pkg/reconciler/autoscaling/hpa/resources/keda.go:65-68 | every built object has max replicas equal to the PA's max scale, or MaxInt32 when that is 0, on the override path too |
| KedaProperties.MinReplicaCountOnDerivedPath | pkg/reconciler/autoscaling/hpa/resources/keda.go:91-93 | without an override, min replicas is the PA's min scale when positive, 1 when a CPU or memory trigger was added, and unset otherwise |
| KedaProperties.OverridePath | pkg/reconciler/autoscaling/hpa/resources/keda.go:71-77 | with the override annotation, the result is the decoded object with the defaults applied, or an unmarshal error |
| KedaProperties.ResultControlledByPA | pkg/reconciler/autoscaling/hpa/resources/keda.go:328-345 | every built object carries the PA's name, namespace, annotations and labels, is controlled by the PA and names its HPA config after the PA |
| KedaProperties.NoTargetNoPrimaryTrigger | pkg/reconciler/autoscaling/hpa/resources/keda.go:95-99 | a non-CPU metric without a target adds no primary trigger |
| KedaProperties.MetricTypeErrorFailsBuild | pkg/reconciler/autoscaling/hpa/resources/keda.go:95-99 | with a target, an invalid metric type fails the whole build with that error |
| KedaProperties.CpuPrimaryTrigger | pkg/reconciler/autoscaling/hpa/resources/keda.go:101-112 | the CPU trigger is `cpu`, named default-trigger-cpu, with the resolved metric type and `value` = the decimal ceiling of the target |
| KedaProperties.MemoryPrimaryTrigger | pkg/reconciler/autoscaling/hpa/resources/keda.go:113-125 | the memory trigger is `memory`, named default-trigger-memory, with `value` = the BinarySI string of the truncated target in MiB |
| KedaProperties.CustomPrimaryTrigger | pkg/reconciler/autoscaling/hpa/resources/keda.go:126-159 | a custom metric needs the query annotation and a rendering query; the address is the annotation (validated) or the config's; the threshold is the DecimalSI string of the truncated target |
| KedaProperties.CustomMetricType | pkg/reconciler/autoscaling/hpa/resources/keda.go:289-299 | for custom metrics a legal annotation is used as is and no annotation means AverageValue |
| KedaProperties.TriggersArePrimaryThenExtras | pkg/reconciler/autoscaling/hpa/resources/keda.go:162-171 | without an override, the triggers are the primary trigger (if any) followed by the extra triggers, and never empty |
| KedaProperties.NoTriggersIsAnError | pkg/reconciler/autoscaling/hpa/resources/keda.go:169-171 | the build fails with "no triggers" exactly when there is neither a primary trigger nor an extra trigger |
| KedaProperties.MalformedExtraTriggersFailBuild | pkg/reconciler/autoscaling/hpa/resources/keda.go:162-165 | extra triggers that do not decode fail the build |
| KedaProperties.BehaviorOnDerivedPath | pkg/reconciler/autoscaling/hpa/resources/keda.go:173-205 | without an override, the HPA behaviour is `Behavior` of the window and the two rule annotations |
| KedaProperties.CpuTargetScenario | pkg/reconciler/autoscaling/hpa/resources/keda_test.go:61-77 | CPU, target 75, max 10: min replicas 1, max 10, one cpu trigger of type Utilization with value "75" |
| KedaProperties.CpuDefaultTargetScenario | pkg/reconciler/autoscaling/hpa/resources/keda.go:214-218 | CPU without a target: the trigger list is exactly one cpu trigger named default-trigger-cpu, of type Utilization, with value "70" |
| KedaProperties.MemoryTargetScenario | pkg/reconciler/autoscaling/hpa/resources/keda_test.go:125-143 | memory, target 200, min 1, max 10: one memory trigger of type AverageValue with value "200Mi" |
| KedaProperties.CustomMetricScenario | pkg/reconciler/autoscaling/hpa/resources/keda_test.go:144-166 | custom metric with target 5 and the default config: one prometheus trigger with threshold "5", the default Prometheus address and the PA's namespace |
| KedaHpa.Reconciler.ReconcileKind | pkg/reconciler/autoscaling/hpa/keda_hpa.go:68-159 | without auto-create the ScaledObject store is untouched and the pass is `FinishPass` with no floor; with auto-create the pass is `ManagedPass` of the reference build |
| KedaHpa.Reconciler.ReconcileManaged | pkg/reconciler/autoscaling/hpa/keda_hpa.go:90-158 | a build error fails before any write; otherwise the pass is `StepPass` with the built object: a missing object is created (or the PA is marked FailedCreation), a foreign object marks the PA NotOwned and writes nothing, an owned object with a differing spec is updated to the live object carrying the desired spec (or the update error is returned), and the rest is `FinishPass` on the object the pass holds |
| KedaHpa.Reconciler.ReconcileWith | pkg/reconciler/autoscaling/hpa/keda_hpa.go:96-158 | the ScaledObject step followed by the HPA and SKS steps satisfies `StepPass` for the given desired object |
| KedaHpa.Reconciler.ReconcileScaledObject | pkg/reconciler/autoscaling/hpa/keda_hpa.go:96-117 | create when missing (failure marks FailedCreation), refuse a foreign object (marks NotOwned, nothing written), update an owned object whose spec differs with the desired spec over the live copy; the pass continues with the created or live object |
| KedaHpa.Reconciler.FinishReconcile | pkg/reconciler/autoscaling/hpa/keda_hpa.go:119-158 | the outcome and new PA status are those of `FinishPass` on the HPA store, the ScaledObject's min replicas and the SKS result, including the NotOwned mark a disowned SKS leaves on the PA |
| KedaHpa.Reconciler.ApplySksResult | pkg/reconciler/autoscaling/hpa/keda_hpa.go:136-157 | the in-place status writes leave the status equal to `StatusAfterSks` with the threshold for the old initialized flag |
| KedaHpa.Reconciler.CreateScaledObject | pkg/reconciler/autoscaling/hpa/keda_hpa.go:96-102 | a successful create stores the object under its key and returns it; a failed one leaves the store unchanged |
| KedaHpa.Reconciler.UpdateScaledObject | pkg/reconciler/autoscaling/hpa/keda_hpa.go:110-117 | a successful update replaces the stored object; a failed one leaves the store unchanged |
| KedaHpa.ShouldCreateScaledObject | pkg/reconciler/autoscaling/hpa/keda_hpa.go:76-88 | the auto-create annotation decides when it parses as a boolean; otherwise the config's flag, or true without a config |
| KedaHpa.IntMax | pkg/reconciler/autoscaling/hpa/keda_hpa.go:183-188 | the larger of the two arguments |
| KedaHpa.GetInitialScale | pkg/reconciler/autoscaling/hpa/keda_hpa.go:174-181 | the config's initial scale when the PA has none, or has 0 while zero is not allowed; the PA's otherwise |
| KedaHpa.ActiveThreshold | pkg/reconciler/autoscaling/hpa/keda_hpa.go:162-170 | at least the min scale; before initialization also at least the initial scale, after it at least 1, and always equal to one of the two |
| KedaHpa.StatusAfterSks | pkg/reconciler/autoscaling/hpa/keda_hpa.go:136-157 | the service names are copied, SKS is ready or not-ready with the fixed message, the target becomes initialized exactly when it was or the SKS is ready and current replicas reach the threshold, the PA is Active, and desired/actual scale are the HPA's |
| KedaHpa.StatusAfterSksFailure | pkg/reconciler/autoscaling/hpa/keda_hpa.go:131-134 | a failed SKS step leaves the status untouched, except that a disowned SKS sets the Active condition to NotOwned for that ServerlessService and changes nothing else |
| KedaHpa.ScaleTargetInitializedNeverCleared | pkg/reconciler/autoscaling/hpa/keda_hpa.go:143-150 | no pass clears ScaleTargetInitialized |
| KedaHpa.StatusUntouchedWhenSkipped | pkg/reconciler/autoscaling/hpa/keda_hpa.go:119-134 | a missing HPA, an HPA below the ScaledObject's min replicas, or an SKS error other than a disowned SKS leave the status unchanged; the first two end the pass without error |
| KedaHpa.DisownedSksMarksNotOwned | pkg/reconciler/autoscaling/hpa/keda_hpa_test.go:287-301 | past the HPA gates, a disowned SKS fails the pass with the SKS error and marks the PA ResourceNotOwned for that ServerlessService; initialization, SKS condition and scales are unchanged |
| KedaHpa.StatusStepEffects | pkg/reconciler/autoscaling/hpa/keda_hpa.go:136-157 | a pass reaching the status step succeeds, marks Active, sets both scales and initializes exactly when already initialized or ready with current replicas at least max(min scale, initial scale) |
| KedaHpa.WrittenObjectIsStable | pkg/reconciler/autoscaling/hpa/keda_hpa.go:96-117 | the object a pass creates is controlled by the PA, and an updated owned object stays controlled and carries the desired spec, so the next pass writes nothing |
| KedaHpa.InitializedScenario | pkg/reconciler/autoscaling/hpa/keda_hpa_test.go:197-213 | SKS ready, HPA at 1/1, min 0, initial scale 1: initialized, SKS ready, scales 1/1 |
| KedaHpa.NotInitializedScenario | pkg/reconciler/autoscaling/hpa/keda_hpa_test.go:182-196 | SKS ready, HPA at 0 current replicas: not initialized, SKS ready |
| KedaConfig.NewConfigFromMap | pkg/reconciler/autoscaling/hpa/config/autoscaler_keda.go:41-59 | the address is the configured key or the default; a request-URI failure or a parse failure is an error; a parsed address with an empty host yields no config and no error; otherwise the config with that address |
| KedaConfig.NewAutoscalerKedaConfigFromConfigMap | pkg/reconciler/autoscaling/hpa/config/autoscaler_keda.go:62-64 | loading from a ConfigMap is loading from its data |
| KedaConfig.DefaultAddressLoaded | pkg/reconciler/autoscaling/hpa/config/autoscaler_keda.go:42-44 | an empty map loads the default Prometheus address when it parses with a host |
| KedaConfig.ConfiguredAddressWins | pkg/reconciler/autoscaling/hpa/config/autoscaler_keda.go:45-47 | a configured address replaces the default |
| Helpers.ParseServerAddress | pkg/reconciler/autoscaling/hpa/helpers/helpers.go:67-76 | fails exactly when the address is not a request URI or does not parse, with the matching error; an empty host passes |
| Helpers.ParseServerAddressIsRequestURI | pkg/reconciler/autoscaling/hpa/helpers/helpers.go:67-76 | when every request URI also parses, validation succeeds exactly for request URIs |
| Helpers.EmptyHostAccepted | pkg/reconciler/autoscaling/hpa/helpers/helpers.go:71-73 | an address that parses with an empty host is accepted |
| Helpers.MergedAnnotations | pkg/reconciler/autoscaling/hpa/helpers/helpers.go:56-65 | the keys are the union; given values win; other values are kept |
| Helpers.WithAnnotations | pkg/reconciler/autoscaling/hpa/helpers/helpers.go:56-65 | the PA's annotations become the merge of the old ones with the given ones |
| Helpers.AnnotationsAfterLastWins | pkg/reconciler/autoscaling/hpa/helpers/helpers.go:50-52 | after a list of annotation options a key is present exactly when some option or the start has it, and its value comes from the last option that sets it |
| Helpers.Pa | pkg/reconciler/autoscaling/hpa/helpers/helpers.go:34-54 | a fresh PA with the name and namespace, a Deployment scale target `<name>-deployment`, HTTP1, initialized conditions and the annotations of the options applied in order |
| Kube.ControllerOf | pkg/reconciler/autoscaling/hpa/keda_hpa.go:105 | the first owner reference marked controller, or none when no reference is |
| Kube.MergeAnnotations | pkg/reconciler/autoscaling/hpa/helpers/helpers.go:58-63 | the loop's result has the union of keys, the given values, and the old values elsewhere |
| Strconv.NatToStringValue | pkg/reconciler/autoscaling/hpa/resources/keda.go:107 | the decimal string of a number reads back as that number |
| Strconv.ParseBool | pkg/reconciler/autoscaling/hpa/keda_hpa.go:83 | true exactly for 1, t, T, true, TRUE, True; false exactly for 0, f, F, false, FALSE, False; otherwise no value |
| Strconv.ParseFormatBool | pkg/reconciler/autoscaling/hpa/keda_hpa.go:83 | a formatted boolean parses back to itself |
| Quantity.DecimalExponentBound | pkg/reconciler/autoscaling/hpa/resources/keda.go:127 | an int64 has at most 18 factors of ten, so its DecimalSI suffix is one of k, M, G, T, P, E |
| Quantity.BinaryExponentBound | pkg/reconciler/autoscaling/hpa/resources/keda.go:114 | an int64 has at most 6 factors of 1024, so its BinarySI suffix is one of Ki to Ei |
| Quantity.DecimalSISmall | pkg/reconciler/autoscaling/hpa/resources/keda.go:127 | a DecimalSI quantity below 1000 prints as its plain decimal digits |
| Quantity.MebibytesString | pkg/reconciler/autoscaling/hpa/resources/keda.go:114 | k MiB in BinarySI prints as k's digits followed by `Mi` when k is not a multiple of 1024 |
| Quantity.TwoHundredMebibytes | pkg/reconciler/autoscaling/hpa/resources/keda.go:114 | 200 MiB prints as "200Mi" |
| ScaledObjectFixtures.ScaledObjectFixture | pkg/reconciler/autoscaling/hpa/resources/scaled_object.go:28-45 | a fresh ScaledObject equal to the base object with the options applied in order |
| ScaledObjectFixtures.ApplyOption | pkg/reconciler/autoscaling/hpa/resources/scaled_object.go:47-163 | each option changes the object exactly as its reference `Apply` case |
| ScaledObjectFixtures.WithAnnotations | pkg/reconciler/autoscaling/hpa/resources/scaled_object.go:47-56 | merges the annotations; nothing else changes |
| ScaledObjectFixtures.WithMinScale | pkg/reconciler/autoscaling/hpa/resources/scaled_object.go:58-62 | sets min replicas only |
| ScaledObjectFixtures.WithMaxScale | pkg/reconciler/autoscaling/hpa/resources/scaled_object.go:64-68 | sets max replicas only |
| ScaledObjectFixtures.WithScaleTargetRef | pkg/reconciler/autoscaling/hpa/resources/scaled_object.go:70-80 | sets the scale target's name, creating the ref when missing |
| ScaledObjectFixtures.WithScalingModifiers | pkg/reconciler/autoscaling/hpa/resources/scaled_object.go:82-92 | sets the scaling modifiers, creating the advanced block when missing |
| ScaledObjectFixtures.WithPrometheusTrigger | pkg/reconciler/autoscaling/hpa/resources/scaled_object.go:94-101 | appends one prometheus trigger with the metadata |
| ScaledObjectFixtures.WithCpuTrigger | pkg/reconciler/autoscaling/hpa/resources/scaled_object.go:103-111 | appends one cpu Utilization trigger with the metadata |
| ScaledObjectFixtures.WithAuthTrigger | pkg/reconciler/autoscaling/hpa/resources/scaled_object.go:113-126 | replaces the triggers by one trigger with an authentication ref |
| ScaledObjectFixtures.WithHorizontalPodAutoscalerConfig | pkg/reconciler/autoscaling/hpa/resources/scaled_object.go:128-141 | sets a named HPA config without behaviour, creating the advanced block when missing |
| ScaledObjectFixtures.WithAuthenticationRef | pkg/reconciler/autoscaling/hpa/resources/scaled_object.go:143-152 | leaves the object unchanged: the loop assigns to copies of the triggers |
| ScaledObjectFixtures.WithTrigger | pkg/reconciler/autoscaling/hpa/resources/scaled_object.go:154-163 | replaces the triggers by one trigger of the given type, metric type and metadata |
| ScaledObjectFixtures.OptionsKeepIdentity | pkg/reconciler/autoscaling/hpa/resources/scaled_object.go:28-45 | no option changes the object's name or namespace |
| ScaledObjectFixtures.ApplyAllConcat | pkg/reconciler/autoscaling/hpa/resources/scaled_object.go:41-43 | applying two option lists in turn is applying their concatenation |
| ScaledObjectFixtures.AppendingOptionsKeepEarlierTriggers | pkg/reconciler/autoscaling/hpa/resources/scaled_object.go:94-111 | options that append triggers keep the existing triggers as a prefix |
| ScaledObjectFixtures.ReplacingOptionLeavesOneTrigger | pkg/reconciler/autoscaling/hpa/resources/scaled_object.go:113-163 | the replacing trigger options leave exactly one trigger with their type, metric type and metadata |
| KedaTypes.MutableScaledObject.constructor | pkg/reconciler/autoscaling/hpa/resources/keda.go:70 | the mutable object starts as the given value |
| PodAutoscaling.PodAutoscaler.constructor | pkg/reconciler/autoscaling/hpa/helpers/helpers.go:35-48 | a PA with the given name, namespace, scale target and protocol, no annotations or labels and an empty status |

## Left out

- Values instead of pointers: ScaledObjects, triggers and statuses are values. Aliasing between the ScaledObject
  and the PA (`sO.Annotations = pa.Annotations` shares the map) and pointer identity are not captured.
- Foreign libraries as parameters: JSON decoding, Go template rendering and the URL parsers (`url.ParseRequestURI`,
  `url.Parse`) are functions passed in a record. Template parse and execute failures are one error, `QueryTemplate`.
  `strconv.ParseBool`, integer printing and `resource.Quantity` canonical strings are written out.
- Keda.Ceil, Keda.Trunc: the target is a real in [0, MaxInt32], so the int32 and int64 conversions of keda.go never
  overflow; negative or larger targets are not modelled.
- Keda.Behavior: the stable window is whole seconds (`int32(window.Seconds())` after the truncation).
- The reconcile timeout context, logging and event recording are not modelled.
- KedaHpa.Reconciler.ReconcileKind: `ReconcileSKS` enters only as its result (ready flag, service names or error,
  with the name of a disowned SKS). Its writes to the SKS are not modelled. Its one write to the PA status, the
  NotOwned mark for a disowned SKS, is modelled by `StatusAfterSksFailure`.
- KedaHpa.Reconciler.ReconcileKind: the ScaledObject and HPA listers are maps, so the lister error other than
  not-found cannot happen.
- KedaHpa.Reconciler.CreateScaledObject: the API server stores and returns the object as sent, with no
  server-side defaulting; success or failure is nondeterministic.
- KedaConfig.NewConfigFromMap: the `cm.Parse` failure is not modelled, since `AsString` cannot fail. The
  `ShouldCreateScaledObject` field is not part of the Go struct shown; the model adds it and the loader leaves it
  false.
- Keda.DesiredScaledObject: a nil pointer dereference in keda.go is a precondition (`BuildDefined`), not an
  error. Such a dereference happens for an override with an advanced block but no HPA config, and for a custom
  metric without an address annotation when there is no KEDA config.
- Semantic deep equality of ScaledObject specs is structural equality; nil and empty maps are the same map.
- The serving test options for PAs other than `WithAnnotations` are not part of this model.
- controller.go and config/store.go are not part of this model, and neither are the end-to-end tests.
- Error message wording is reduced to one constructor per error exit.
