/**
 * The reconcile decision engine of pkg/reconciler/autoscaling/hpa/keda_hpa.go.
 * The Reconciler holds the ScaledObject store and the HPA status store; a
 * pass builds the desired ScaledObject, creates it, refuses a foreign one
 * or updates a differing one, then drives the PA's status from the HPA and
 * the SKS result. ReconcileSKS, an external collaborator, enters only as
 * its result.
 */
module KedaHpa {

  import opened Wrappers
  import opened Kube
  import opened Strconv
  import opened KedaTypes
  import opened KedaConfig
  import opened PodAutoscaling
  import opened Keda
  import opened KedaProperties

  const AutoCreateAnnotation := "autoscaling.knative.dev/scaled-object-auto-create"
  const ScaledObjectKind := "ScaledObject"
  const SksNotReadyMessage := "SKS Services are not ready yet"
  const ServerlessServiceKind := "ServerlessService"

  /** The config snapshot a pass reads from its context (hpaconfig.Config). */
  datatype Config = Config(autoscaler: AutoscalerConfig, autoscalerKeda: Option<AutoscalerKedaConfig>)

  /** What ReconcileSKS hands back: readiness and the two service names. */
  datatype SksResult = SksResult(ready: bool, serviceName: string, privateServiceName: string)

  /**
   * A ReconcileSKS error. `disowned` names the SKS when the PA does not
   * control it: ReconcileSKS then marks the PA ResourceNotOwned for that
   * ServerlessService before it returns the error.
   */
  datatype SksFailure = SksFailure(message: string, disowned: Option<string>)

  datatype ReconcileError =
    | BuildFailed(cause: BuildError)
    | CreateFailed(name: string)
    | ScaledObjectNotOwned(paName: string, name: string)
    | UpdateFailed(name: string)
    | SksFailed(failure: SksFailure)

  // ---------------------------------------------------------------------
  // Pure helpers
  // ---------------------------------------------------------------------

  /**
   * The auto-create flag: true, or the config's value when there is a
   * config; the annotation overrides it only when it parses as a boolean.
   */
  function ShouldCreateScaledObject(kedaConfig: Option<AutoscalerKedaConfig>, annotations: map<string, string>)
    : (r: bool)
    ensures AutoCreateAnnotation in annotations && ParseBool(annotations[AutoCreateAnnotation]).Some? ==>
              r == ParseBool(annotations[AutoCreateAnnotation]).value
    ensures AutoCreateAnnotation !in annotations || ParseBool(annotations[AutoCreateAnnotation]).None? ==>
              r == (kedaConfig.None? || kedaConfig.value.shouldCreateScaledObject)
  {
    var fromConfig := if kedaConfig.Some? then kedaConfig.value.shouldCreateScaledObject else true;
    if AutoCreateAnnotation in annotations then
      var b := ParseBool(annotations[AutoCreateAnnotation]);
      if b.Some? then b.value else fromConfig
    else fromConfig
  }

  /** intMax: the larger argument. */
  function IntMax(a: int32, b: int32): (r: int32)
    ensures r >= a && r >= b
    ensures r == a || r == b
  {
    if a < b then b else a
  }

  /**
   * getInitialScale: the PA's initial scale, unless it is absent, or 0
   * while zero initial scale is not allowed; then the config's.
   */
  function GetInitialScale(config: AutoscalerConfig, revisionInitialScale: Option<int32>): (r: int32)
    ensures revisionInitialScale.None? ==> r == config.initialScale
    ensures revisionInitialScale == Some(0) && !config.allowZeroInitialScale ==> r == config.initialScale
    ensures revisionInitialScale.Some? && (revisionInitialScale.value != 0 || config.allowZeroInitialScale) ==>
              r == revisionInitialScale.value
  {
    if revisionInitialScale.None? || (revisionInitialScale.value == 0 && !config.allowZeroInitialScale) then
      config.initialScale
    else revisionInitialScale.value
  }

  /**
   * activeThreshold: the scale needed to count as initialized: at least the
   * min bound and the initial scale before initialization, at least the min
   * bound and 1 after; it is always one of those two.
   */
  function ActiveThreshold(config: AutoscalerConfig, intent: Intent, initialized: bool): (r: int)
    ensures r >= intent.minScale
    ensures !initialized ==> r >= GetInitialScale(config, intent.initialScale) &&
                             (r == intent.minScale || r == GetInitialScale(config, intent.initialScale))
    ensures initialized ==> r >= 1 && (r == intent.minScale || r == 1)
  {
    if !initialized then IntMax(intent.minScale, GetInitialScale(config, intent.initialScale)) as int
    else IntMax(intent.minScale, 1) as int
  }

  /**
   * The status after a successful SKS step: the service names copied, SKS
   * ready or not, scale target initialized once and never cleared, Active,
   * and the HPA's desired and current replicas as the scales.
   */
  function StatusAfterSks(status: PodAutoscalerStatus, sks: SksResult, hpa: HpaStatus, threshold: int)
    : (r: PodAutoscalerStatus)
    ensures r.serviceName == sks.serviceName && r.metricsServiceName == sks.privateServiceName
    ensures r.sks == (if sks.ready then SksReady else SksNotReady(SksNotReadyMessage))
    ensures r.scaleTargetInitialized <==>
              status.scaleTargetInitialized || (sks.ready && hpa.currentReplicas >= threshold)
    ensures r.active == Active
    ensures r.desiredScale == Some(hpa.desiredReplicas) && r.actualScale == Some(hpa.currentReplicas)
  {
    var s := status.(metricsServiceName := sks.privateServiceName, serviceName := sks.serviceName);
    var s := if !sks.ready then s.MarkSKSNotReady(SksNotReadyMessage)
             else if !s.IsScaleTargetInitialized() && hpa.currentReplicas >= threshold
             then s.MarkSKSReady().MarkScaleTargetInitialized()
             else s.MarkSKSReady();
    s.MarkActive().(desiredScale := Some(hpa.desiredReplicas), actualScale := Some(hpa.currentReplicas))
  }

  /** The status ReconcileSKS leaves when it fails: NotOwned for a disowned SKS, else untouched. */
  function StatusAfterSksFailure(status: PodAutoscalerStatus, failure: SksFailure): (r: PodAutoscalerStatus)
    ensures failure.disowned.None? ==> r == status
    ensures failure.disowned.Some? ==>
              r.active == Inactive(NotOwned(ServerlessServiceKind, failure.disowned.value)) &&
              r.(active := status.active) == status
  {
    if failure.disowned.Some? then status.MarkResourceNotOwned(ServerlessServiceKind, failure.disowned.value)
    else status
  }

  /** The outcome of a pass and the PA status it leaves. */
  datatype PassResult = PassResult(outcome: Outcome<ReconcileError>, status: PodAutoscalerStatus)

  /**
   * The part of a pass after the ScaledObject step (keda_hpa.go from the
   * HPA lookup on): `floor` is the MinReplicaCount of the ScaledObject the
   * pass holds, if any.
   */
  function FinishPass(status: PodAutoscalerStatus, floor: Option<int32>, hpa: Option<HpaStatus>,
                      sks: Result<SksResult, SksFailure>, config: AutoscalerConfig, intent: Intent): PassResult
  {
    if hpa.None? then PassResult(Pass, status)
    else if floor.Some? && hpa.value.desiredReplicas < floor.value then PassResult(Pass, status)
    else if sks.Err? then PassResult(Fail(SksFailed(sks.error)), StatusAfterSksFailure(status, sks.error))
    else PassResult(Pass, StatusAfterSks(status, sks.value, hpa.value,
                                         ActiveThreshold(config, intent, status.scaleTargetInitialized)))
  }

  /** The MinReplicaCount the HPA gate compares against. */
  function Floor(so: Option<ScaledObject>): Option<int32>
  {
    if so.Some? then so.value.spec.minReplicaCount else None
  }

  /** What the builder sees of a PA. */
  function RequestOf(pa: PodAutoscaler, intent: Intent): BuildRequest
    reads pa
  {
    BuildRequest(pa.name, pa.namespace, pa.uid, pa.scaleTargetRef, pa.annotations, pa.labels, intent)
  }

  // ---------------------------------------------------------------------
  // The reconciler
  // ---------------------------------------------------------------------

  /**
   * The effect of a pass that manages a ScaledObject, from the store and
   * status before (`store`, `status`) to those after (`store'`, `status'`)
   * with outcome `r`: a build error fails before any write, otherwise the
   * pass is a `StepPass` with the built object.
   */
  ghost predicate ManagedPass(store: map<ObjectKey, ScaledObject>, store': map<ObjectKey, ScaledObject>,
                              hpas: map<ObjectKey, HpaStatus>, status: PodAutoscalerStatus,
                              status': PodAutoscalerStatus, r: Outcome<ReconcileError>, req: BuildRequest,
                              config: Config, sks: Result<SksResult, SksFailure>, codecs: Codecs)
    requires BuildDefined(req, config.autoscalerKeda, codecs)
  {
    var desired := DesiredScaledObjectOf(req, config.autoscalerKeda, codecs);
    if desired.Err? then
      r == Fail(BuildFailed(desired.error)) && store' == store && status' == status
    else
      StepPass(store, store', hpas, status, status', r, ObjectKey(req.namespace, req.name), req.uid, req.name,
               desired.value, config.autoscaler, sks, req.intent)
  }

  /**
   * The ScaledObject step with `desired` followed by the rest of the pass:
   * a missing object is created (a failure marks the PA FailedCreation); a
   * foreign one marks the PA NotOwned and stops with nothing written; an
   * owned one whose spec differs is updated with the desired spec over the
   * live copy. The rest is `FinishPass` on the object the pass holds.
   * Create and update may each fail, so those cases allow two results.
   */
  ghost predicate StepPass(store: map<ObjectKey, ScaledObject>, store': map<ObjectKey, ScaledObject>,
                           hpas: map<ObjectKey, HpaStatus>, status: PodAutoscalerStatus,
                           status': PodAutoscalerStatus, r: Outcome<ReconcileError>, key: ObjectKey,
                           uid: string, name: string, desired: ScaledObject, config: AutoscalerConfig,
                           sks: Result<SksResult, SksFailure>, intent: Intent)
  {
    var hpa := if key in hpas then Some(hpas[key]) else None;
    if key !in store then
      || (&& r == Fail(CreateFailed(name))
          && store' == store
          && status' == status.MarkResourceFailedCreation(ScaledObjectKind, name))
      || (&& store' == store[key := desired]
          && PassResult(r, status') == FinishPass(status, Floor(Some(desired)), hpa, sks, config, intent))
    else if !IsControlledBy(store[key].meta, uid) then
      && r == Fail(ScaledObjectNotOwned(name, name))
      && store' == store
      && status' == status.MarkResourceNotOwned(ScaledObjectKind, name)
    else
      var live := store[key];
      var finish := FinishPass(status, Floor(Some(live)), hpa, sks, config, intent);
      if live.spec == desired.spec then
        store' == store && PassResult(r, status') == finish
      else
        || (r == Fail(UpdateFailed(name)) && store' == store && status' == status)
        || (store' == store[key := live.(spec := desired.spec)] && PassResult(r, status') == finish)
  }

  class Reconciler {
    /** The ScaledObjects, by namespace and name (lister and client). */
    var scaledObjects: map<ObjectKey, ScaledObject>
    /** The HPA statuses, by namespace and name (lister). */
    var hpas: map<ObjectKey, HpaStatus>

    constructor (scaledObjects: map<ObjectKey, ScaledObject>, hpas: map<ObjectKey, HpaStatus>)
      ensures this.scaledObjects == scaledObjects && this.hpas == hpas
    {
      this.scaledObjects := scaledObjects;
      this.hpas := hpas;
    }

    /** The client's Create: stores the object and returns it, or fails. */
    method CreateScaledObject(key: ObjectKey, so: ScaledObject) returns (created: Option<ScaledObject>)
      modifies this`scaledObjects
      ensures created.Some? ==> created.value == so && scaledObjects == old(scaledObjects)[key := so]
      ensures created.None? ==> scaledObjects == old(scaledObjects)
    {
      var succeeds: bool := *;
      if succeeds {
        scaledObjects := scaledObjects[key := so];
        created := Some(so);
      } else {
        created := None;
      }
    }

    /** The client's Update: replaces the stored object, or fails. */
    method UpdateScaledObject(key: ObjectKey, so: ScaledObject) returns (updated: bool)
      modifies this`scaledObjects
      ensures updated ==> scaledObjects == old(scaledObjects)[key := so]
      ensures !updated ==> scaledObjects == old(scaledObjects)
    {
      updated := *;
      if updated {
        scaledObjects := scaledObjects[key := so];
      }
    }

    /**
     * ReconcileKind: decides whether this pass manages a ScaledObject, then
     * runs the pass with or without the ScaledObject step.
     */
    method ReconcileKind(pa: PodAutoscaler, intent: Intent, config: Config, sks: Result<SksResult, SksFailure>,
                         codecs: Codecs)
      returns (r: Outcome<ReconcileError>)
      requires ShouldCreateScaledObject(config.autoscalerKeda, pa.annotations) ==>
                 BuildDefined(RequestOf(pa, intent), config.autoscalerKeda, codecs)
      modifies this`scaledObjects, pa`status
      ensures var hpa := if pa.Key() in hpas then Some(hpas[pa.Key()]) else None;
              !ShouldCreateScaledObject(config.autoscalerKeda, pa.annotations) ==>
                scaledObjects == old(scaledObjects) &&
                PassResult(r, pa.status) == FinishPass(old(pa.status), None, hpa, sks, config.autoscaler, intent)
      ensures ShouldCreateScaledObject(config.autoscalerKeda, pa.annotations) ==>
                ManagedPass(old(scaledObjects), scaledObjects, hpas, old(pa.status), pa.status, r,
                            RequestOf(pa, intent), config, sks, codecs)
    {
      var shouldCreate := true;
      if config.autoscalerKeda.Some? {
        shouldCreate := config.autoscalerKeda.value.shouldCreateScaledObject;
      }
      if AutoCreateAnnotation in pa.annotations {
        var b := ParseBool(pa.annotations[AutoCreateAnnotation]);
        if b.Some? {
          shouldCreate := b.value;
        }  // otherwise the value is logged and ignored
      }

      if shouldCreate {
        r := ReconcileManaged(pa, intent, config, sks, codecs);
      } else {
        r := FinishReconcile(pa, None, intent, config.autoscaler, sks);
      }
    }

    /**
     * A pass with the ScaledObject step: a build error fails before any
     * write; a missing object is created (a failure marks the PA
     * FailedCreation); a foreign one marks the PA NotOwned and stops with
     * nothing written; an owned one whose spec differs is updated with the
     * desired spec over the live copy. The rest is `FinishPass` on the
     * object the pass holds.
     */
    method ReconcileManaged(pa: PodAutoscaler, intent: Intent, config: Config, sks: Result<SksResult, SksFailure>,
                            codecs: Codecs)
      returns (r: Outcome<ReconcileError>)
      requires BuildDefined(RequestOf(pa, intent), config.autoscalerKeda, codecs)
      modifies this`scaledObjects, pa`status
      ensures ManagedPass(old(scaledObjects), scaledObjects, hpas, old(pa.status), pa.status, r,
                          RequestOf(pa, intent), config, sks, codecs)
    {
      var built := DesiredScaledObject(RequestOf(pa, intent), config.autoscalerKeda, codecs);
      if built.Err? {
        return Fail(BuildFailed(built.error));
      }
      ResultControlledByPA(RequestOf(pa, intent), config.autoscalerKeda, codecs);
      r := ReconcileWith(pa, built.value, intent, config.autoscaler, sks);
    }

    /** The ScaledObject step with a built object, then the rest of the pass. */
    method ReconcileWith(pa: PodAutoscaler, desired: ScaledObject, intent: Intent, config: AutoscalerConfig,
                         sks: Result<SksResult, SksFailure>)
      returns (r: Outcome<ReconcileError>)
      requires desired.meta.namespace == pa.namespace && desired.meta.name == pa.name
      modifies this`scaledObjects, pa`status
      ensures StepPass(old(scaledObjects), scaledObjects, hpas, old(pa.status), pa.status, r, pa.Key(), pa.uid,
                       pa.name, desired, config, sks, intent)
    {
      var failure, scaledObj := ReconcileScaledObject(pa, desired);
      if failure.Some? {
        return Fail(failure.value);
      }
      r := FinishReconcile(pa, scaledObj, intent, config, sks);
    }

    /**
     * The ScaledObject step of a pass, for the desired object: create it when
     * missing, refuse a foreign one, update an owned one whose spec differs.
     * `scaledObj` is the object the pass goes on with: the created one or
     * the live one as read before any update.
     */
    method ReconcileScaledObject(pa: PodAutoscaler, desired: ScaledObject)
      returns (failure: Option<ReconcileError>, scaledObj: Option<ScaledObject>)
      requires desired.meta.namespace == pa.namespace && desired.meta.name == pa.name
      modifies this`scaledObjects, pa`status
      ensures pa.Key() !in old(scaledObjects) ==>
                || (&& failure == Some(CreateFailed(pa.name))
                    && scaledObjects == old(scaledObjects)
                    && pa.status == old(pa.status).MarkResourceFailedCreation(ScaledObjectKind, pa.name))
                || (&& failure.None? && scaledObj == Some(desired)
                    && scaledObjects == old(scaledObjects)[pa.Key() := desired]
                    && pa.status == old(pa.status))
      ensures pa.Key() in old(scaledObjects) && !IsControlledBy(old(scaledObjects)[pa.Key()].meta, pa.uid) ==>
                && failure == Some(ScaledObjectNotOwned(pa.name, pa.name))
                && scaledObjects == old(scaledObjects)
                && pa.status == old(pa.status).MarkResourceNotOwned(ScaledObjectKind, pa.name)
      ensures pa.Key() in old(scaledObjects) && IsControlledBy(old(scaledObjects)[pa.Key()].meta, pa.uid) ==>
                var live := old(scaledObjects)[pa.Key()];
                && pa.status == old(pa.status)
                && (live.spec == desired.spec ==> failure.None? && scaledObj == Some(live) && scaledObjects == old(scaledObjects))
                && (live.spec != desired.spec ==>
                      || (failure == Some(UpdateFailed(pa.name)) && scaledObjects == old(scaledObjects))
                      || (&& failure.None? && scaledObj == Some(live)
                          && scaledObjects == old(scaledObjects)[pa.Key() := live.(spec := desired.spec)]))
    {
      var key := ObjectKey(pa.namespace, desired.meta.name);
      if key !in scaledObjects {
        scaledObj := CreateScaledObject(key, desired);
        if scaledObj.None? {
          pa.status := pa.status.MarkResourceFailedCreation(ScaledObjectKind, desired.meta.name);
          return Some(CreateFailed(desired.meta.name)), None;
        }
      } else {
        scaledObj := Some(scaledObjects[key]);
        if !IsControlledBy(scaledObj.value.meta, pa.uid) {
          pa.status := pa.status.MarkResourceNotOwned(ScaledObjectKind, desired.meta.name);
          return Some(ScaledObjectNotOwned(pa.name, desired.meta.name)), None;
        }
      }
      if desired.spec != scaledObj.value.spec {
        var update := scaledObj.value.(spec := desired.spec);
        var updated := UpdateScaledObject(pa.Key(), update);
        if !updated {
          return Some(UpdateFailed(desired.meta.name)), None;
        }
      }
      failure := None;
    }

    /**
     * The pass after the ScaledObject step: skip without an HPA or while
     * the HPA wants fewer replicas than the ScaledObject's floor; stop on an
     * SKS error; otherwise update the status.
     */
    method FinishReconcile(pa: PodAutoscaler, scaledObj: Option<ScaledObject>, intent: Intent,
                           config: AutoscalerConfig, sks: Result<SksResult, SksFailure>)
      returns (r: Outcome<ReconcileError>)
      modifies pa`status
      ensures var hpa := if pa.Key() in hpas then Some(hpas[pa.Key()]) else None;
              PassResult(r, pa.status) == FinishPass(old(pa.status), Floor(scaledObj), hpa, sks, config, intent)
    {
      if pa.Key() !in hpas {
        return Pass;  // wait to be triggered by HPA events
      }
      var hpa := hpas[pa.Key()];
      if scaledObj.Some? && scaledObj.value.spec.minReplicaCount.Some? {
        if hpa.desiredReplicas < scaledObj.value.spec.minReplicaCount.value {
          return Pass;  // the HPA is not configured yet
        }
      }
      if sks.Err? {
        if sks.error.disowned.Some? {
          pa.status := pa.status.MarkResourceNotOwned(ServerlessServiceKind, sks.error.disowned.value);
        }
        return Fail(SksFailed(sks.error));
      }
      ApplySksResult(pa, sks.value, hpa, intent, config);
      return Pass;
    }

    /** The status writes after a successful SKS step, in keda_hpa.go's order. */
    method ApplySksResult(pa: PodAutoscaler, sks: SksResult, hpa: HpaStatus, intent: Intent, config: AutoscalerConfig)
      modifies pa`status
      ensures pa.status == StatusAfterSks(old(pa.status), sks, hpa,
                                          ActiveThreshold(config, intent, old(pa.status).scaleTargetInitialized))
    {
      pa.status := pa.status.(metricsServiceName := sks.privateServiceName);
      pa.status := pa.status.(serviceName := sks.serviceName);
      if !sks.ready {
        pa.status := pa.status.MarkSKSNotReady(SksNotReadyMessage);
      } else {
        pa.status := pa.status.MarkSKSReady();
        if !pa.status.IsScaleTargetInitialized() {
          var ms := ActiveThreshold(config, intent, pa.status.IsScaleTargetInitialized());
          if hpa.currentReplicas >= ms {
            pa.status := pa.status.MarkScaleTargetInitialized();
          }
        }
      }
      pa.status := pa.status.MarkActive();
      pa.status := pa.status.(desiredScale := Some(hpa.desiredReplicas));
      pa.status := pa.status.(actualScale := Some(hpa.currentReplicas));
    }
  }

  // ---------------------------------------------------------------------
  // Properties of a pass
  // ---------------------------------------------------------------------

  /** ScaleTargetInitialized is never cleared by a pass. */
  lemma ScaleTargetInitializedNeverCleared(status: PodAutoscalerStatus, floor: Option<int32>, hpa: Option<HpaStatus>,
                                           sks: Result<SksResult, SksFailure>, config: AutoscalerConfig, intent: Intent)
    requires status.scaleTargetInitialized
    ensures FinishPass(status, floor, hpa, sks, config, intent).status.scaleTargetInitialized
  {
  }

  /**
   * A pass leaves the status untouched when the HPA is missing, when the
   * HPA's desired replicas are below the floor, or when the SKS step fails
   * for a reason other than a disowned SKS.
   */
  lemma StatusUntouchedWhenSkipped(status: PodAutoscalerStatus, floor: Option<int32>, hpa: Option<HpaStatus>,
                                   sks: Result<SksResult, SksFailure>, config: AutoscalerConfig, intent: Intent)
    requires || hpa.None? || (floor.Some? && hpa.value.desiredReplicas < floor.value)
             || (sks.Err? && sks.error.disowned.None?)
    ensures FinishPass(status, floor, hpa, sks, config, intent).status == status
    ensures hpa.None? || (floor.Some? && hpa.value.desiredReplicas < floor.value) ==>
              FinishPass(status, floor, hpa, sks, config, intent).outcome == Pass
  {
  }

  /**
   * "sks is disowned": past the HPA gates, an SKS the PA does not control
   * fails the pass and marks the PA ResourceNotOwned for that
   * ServerlessService, leaving the rest of the status alone.
   */
  lemma DisownedSksMarksNotOwned(status: PodAutoscalerStatus, floor: Option<int32>, hpa: HpaStatus,
                                 failure: SksFailure, config: AutoscalerConfig, intent: Intent)
    requires floor.None? || hpa.desiredReplicas >= floor.value
    requires failure.disowned.Some?
    ensures var p := FinishPass(status, floor, Some(hpa), Err(failure), config, intent);
            && p.outcome == Fail(SksFailed(failure))
            && p.status.active == Inactive(NotOwned(ServerlessServiceKind, failure.disowned.value))
            && p.status.scaleTargetInitialized == status.scaleTargetInitialized
            && p.status.sks == status.sks
            && p.status.desiredScale == status.desiredScale && p.status.actualScale == status.actualScale
  {
  }

  /**
   * A pass that reaches the status step marks Active and sets the scales;
   * it marks the target initialized exactly when it already was or the SKS
   * is ready and the current replicas reach the threshold.
   */
  lemma StatusStepEffects(status: PodAutoscalerStatus, floor: Option<int32>, hpa: HpaStatus,
                          sks: SksResult, config: AutoscalerConfig, intent: Intent)
    requires floor.None? || hpa.desiredReplicas >= floor.value
    ensures var p := FinishPass(status, floor, Some(hpa), Ok(sks), config, intent);
            && p.outcome == Pass
            && p.status.active == Active
            && p.status.desiredScale == Some(hpa.desiredReplicas) && p.status.actualScale == Some(hpa.currentReplicas)
            && (p.status.scaleTargetInitialized <==>
                  status.scaleTargetInitialized ||
                  (sks.ready && hpa.currentReplicas >= IntMax(intent.minScale,
                                                              GetInitialScale(config, intent.initialScale))))
  {
  }

  /**
   * The object a pass writes needs no further write: a created object is
   * the desired one, controlled by the PA; an updated object keeps the live
   * object's (controlling) owner references and carries the desired spec.
   * So a second pass over the same inputs takes the no-write branch.
   */
  lemma WrittenObjectIsStable(req: BuildRequest, kedaConfig: Option<AutoscalerKedaConfig>, codecs: Codecs,
                              live: ScaledObject)
    requires BuildDefined(req, kedaConfig, codecs)
    requires DesiredScaledObjectOf(req, kedaConfig, codecs).Ok?
    ensures var desired := DesiredScaledObjectOf(req, kedaConfig, codecs).value;
            IsControlledBy(desired.meta, req.uid)
    ensures var desired := DesiredScaledObjectOf(req, kedaConfig, codecs).value;
            IsControlledBy(live.meta, req.uid) ==>
              IsControlledBy(live.(spec := desired.spec).meta, req.uid) &&
              live.(spec := desired.spec).spec == desired.spec
  {
    ResultControlledByPA(req, kedaConfig, codecs);
  }

  /**
   * "sks becomes ready, scale target initialized": min 0, initial scale 1,
   * HPA at 1 desired and 1 current marks the target initialized with scales 1/1.
   */
  lemma InitializedScenario(status: PodAutoscalerStatus, sks: SksResult, intent: Intent)
    requires !status.scaleTargetInitialized && sks.ready
    requires intent.minScale == 0 && intent.initialScale.None?
    ensures var p := FinishPass(status, None, Some(HpaStatus(1, 1)), Ok(sks), AutoscalerConfig(1, false), intent);
            p.status.scaleTargetInitialized && p.status.sks == SksReady &&
            p.status.desiredScale == Some(1) && p.status.actualScale == Some(1)
  {
  }

  /** "sks becomes ready, scale target not initialized": an HPA at 0 current replicas does not initialize. */
  lemma NotInitializedScenario(status: PodAutoscalerStatus, sks: SksResult, intent: Intent)
    requires !status.scaleTargetInitialized && sks.ready
    requires intent.minScale == 0 && intent.initialScale.None?
    ensures var p := FinishPass(status, None, Some(HpaStatus(0, 0)), Ok(sks), AutoscalerConfig(1, false), intent);
            !p.status.scaleTargetInitialized && p.status.sks == SksReady
  {
  }
}
