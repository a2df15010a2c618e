/**
 * pkg/reconciler/autoscaling/hpa/helpers: the address check the builder
 * uses, and the PA fixture constructor with its annotation option.
 */
module Helpers {

  import opened Wrappers
  import opened Kube
  import opened NetUrl
  import opened PodAutoscaling

  const TestNamespace := "test-namespace"
  const TestRevision := "test-revision"

  /**
   * ParseServerAddress: the request-URI parse error, else the plain parse
   * error. An empty host is not reported: the error returned there is the
   * parse's, which is nil.
   */
  function ParseServerAddress(address: string, urls: UrlParser): (r: Outcome<UrlError>)
    ensures r.Fail? <==> urls.parseRequestURI(address).None? || urls.parse(address).None?
    ensures r.Fail? && urls.parseRequestURI(address).None? ==> r.error == RequestURIError(address)
    ensures r.Fail? && urls.parseRequestURI(address).Some? ==> r.error == ParseError(address)
  {
    if urls.parseRequestURI(address).None? then Fail(RequestURIError(address))
    else
      var u := urls.parse(address);
      if u.None? then Fail(ParseError(address))
      else Pass  // an empty host returns err, which is nil here, so it passes too
  }

  /** Go's url.Parse accepts every string url.ParseRequestURI accepts. */
  ghost predicate ParsersAgree(urls: UrlParser)
  {
    forall s :: urls.parseRequestURI(s).Some? ==> urls.parse(s).Some?
  }

  /** So the host check never fires: exactly the request-URI-parseable addresses pass. */
  lemma ParseServerAddressIsRequestURI(address: string, urls: UrlParser)
    requires ParsersAgree(urls)
    ensures ParseServerAddress(address, urls).Pass? <==> urls.parseRequestURI(address).Some?
  {
  }

  /** An address with an empty host is accepted. */
  lemma EmptyHostAccepted(address: string, urls: UrlParser)
    requires urls.parseRequestURI(address).Some? && urls.parse(address).Some?
    requires urls.parse(address).value.host == ""
    ensures ParseServerAddress(address, urls) == Pass
  {
  }

  /** A PA fixture option; the one the repository defines is WithAnnotations. */
  datatype PaOption = WithAnnotationsOption(annotations: map<string, string>)

  /** The effect of one option on the annotations. */
  function MergedAnnotations(annotations: map<string, string>, given: map<string, string>)
    : (r: map<string, string>)
    ensures r.Keys == annotations.Keys + given.Keys
    ensures forall k :: k in given ==> r[k] == given[k]
    ensures forall k :: k in annotations && k !in given ==> r[k] == annotations[k]
  {
    annotations + given
  }

  /** The annotations after applying the options in order. */
  function AnnotationsAfter(annotations: map<string, string>, options: seq<PaOption>): map<string, string>
  {
    if options == [] then annotations
    else MergedAnnotations(AnnotationsAfter(annotations, options[..|options| - 1]),
                           options[|options| - 1].annotations)
  }

  /** Later options win: the value of a key is the one of the last option that gives it. */
  lemma {:induction false} AnnotationsAfterLastWins(annotations: map<string, string>, options: seq<PaOption>, k: string)
    ensures k in AnnotationsAfter(annotations, options) <==>
            k in annotations || exists i :: 0 <= i < |options| && k in options[i].annotations
    ensures forall i :: 0 <= i < |options| && k in options[i].annotations &&
                        (forall j :: i < j < |options| ==> k !in options[j].annotations) ==>
                        AnnotationsAfter(annotations, options)[k] == options[i].annotations[k]
    ensures (forall i :: 0 <= i < |options| ==> k !in options[i].annotations) && k in annotations ==>
            AnnotationsAfter(annotations, options)[k] == annotations[k]
  {
    if options != [] {
      var init := options[..|options| - 1];
      AnnotationsAfterLastWins(annotations, init, k);
      assert forall i :: 0 <= i < |init| ==> init[i] == options[i];
    }
  }

  /**
   * WithAnnotations: allocate the map when nil (the empty map here), then
   * write every given key.
   */
  method WithAnnotations(pa: PodAutoscaler, annotations: map<string, string>)
    modifies pa`annotations
    ensures pa.annotations == MergedAnnotations(old(pa.annotations), annotations)
  {
    var merged := MergeAnnotations(pa.annotations, annotations);
    pa.annotations := merged;
  }

  /**
   * Pa: a PA named `name` in `namespace` targeting the Deployment
   * name + "-deployment" over HTTP1, conditions initialized, then the
   * options applied in order.
   */
  method Pa(namespace: string, name: string, options: seq<PaOption>) returns (pa: PodAutoscaler)
    ensures fresh(pa)
    ensures pa.name == name && pa.namespace == namespace
    ensures pa.scaleTargetRef == ObjectReference("apps/v1", "Deployment", name + "-deployment")
    ensures pa.protocolType == ProtocolHTTP1
    ensures pa.status == EmptyStatus.InitializeConditions()
    ensures pa.annotations == AnnotationsAfter(map[], options)
    ensures pa.labels == map[] && pa.uid == ""
  {
    pa := new PodAutoscaler(namespace, name, ObjectReference("apps/v1", "Deployment", name + "-deployment"),
                            ProtocolHTTP1);
    pa.status := pa.status.InitializeConditions();
    for i := 0 to |options|
      invariant pa.name == name && pa.namespace == namespace && pa.uid == "" && pa.labels == map[]
      invariant pa.scaleTargetRef == ObjectReference("apps/v1", "Deployment", name + "-deployment")
      invariant pa.protocolType == ProtocolHTTP1
      invariant pa.status == EmptyStatus.InitializeConditions()
      invariant pa.annotations == AnnotationsAfter(map[], options[..i])
    {
      WithAnnotations(pa, options[i].annotations);
      assert options[..i + 1][..i] == options[..i];
    }
    assert options[..|options|] == options;
  }
}
