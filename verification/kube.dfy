/**
 * Kubernetes object metadata as the core uses it: names, annotations,
 * labels, owner references, and the 32-bit integers of the API types.
 */
module Kube {

  import opened Wrappers

  type int32 = x: int | -0x8000_0000 <= x <= 0x7fff_ffff

  /** math.MaxInt32, the "no limit" replica count. */
  const MaxInt32: int32 := 0x7fff_ffff

  /** An (namespace, name) pair identifying a namespaced object. */
  datatype ObjectKey = ObjectKey(namespace: string, name: string)

  /** A reference to another object (corev1.ObjectReference, the fields used here). */
  datatype ObjectReference = ObjectReference(apiVersion: string, kind: string, name: string)

  datatype OwnerReference = OwnerReference(
    apiVersion: string,
    kind: string,
    name: string,
    uid: string,
    controller: bool,
    blockOwnerDeletion: bool)

  /**
   * metav1.ObjectMeta restricted to the fields the core reads or writes, plus
   * uid and resourceVersion, which the server sets and the core never touches.
   * A nil map and an empty map compare equal under the semantic equality the
   * core uses, so both are the empty map here.
   */
  datatype ObjectMeta = ObjectMeta(
    name: string,
    namespace: string,
    uid: string,
    resourceVersion: string,
    annotations: map<string, string>,
    labels: map<string, string>,
    ownerReferences: seq<OwnerReference>)

  const EmptyMeta := ObjectMeta("", "", "", "", map[], map[], [])

  /** The first owner reference marked as controller (metav1.GetControllerOf). */
  function ControllerOf(refs: seq<OwnerReference>): (r: Option<OwnerReference>)
    ensures r.Some? ==> r.value in refs && r.value.controller
    ensures r.None? ==> forall i :: 0 <= i < |refs| ==> !refs[i].controller
    ensures r.Some? ==> exists i :: 0 <= i < |refs| && refs[i] == r.value &&
                          forall j :: 0 <= j < i ==> !refs[j].controller
  {
    if refs == [] then None
    else if refs[0].controller then Some(refs[0])
    else
      var rest := ControllerOf(refs[1..]);
      assert rest.Some? ==> exists i :: 0 <= i < |refs[1..]| && refs[1..][i] == rest.value &&
                              forall j :: 0 <= j < i ==> !refs[1..][j].controller;
      if rest.Some? then
        var i :| 0 <= i < |refs[1..]| && refs[1..][i] == rest.value &&
                 forall j :: 0 <= j < i ==> !refs[1..][j].controller;
        assert refs[i + 1] == rest.value;
        assert forall j :: 0 <= j < i + 1 ==> !refs[j].controller by {
          forall j | 0 <= j < i + 1 ensures !refs[j].controller {
            if j > 0 { assert refs[j] == refs[1..][j - 1]; }
          }
        }
        rest
      else
        rest
  }

  /** metav1.IsControlledBy: the controller reference points at the owner's uid. */
  predicate IsControlledBy(meta: ObjectMeta, ownerUid: string)
  {
    var c := ControllerOf(meta.ownerReferences);
    c.Some? && c.value.uid == ownerUid
  }

  /**
   * The annotation-merge loop shared by the two fixture option helpers:
   * every given key ends with its given value, every other key is unchanged.
   */
  method MergeAnnotations(into: map<string, string>, given: map<string, string>)
    returns (r: map<string, string>)
    ensures r.Keys == into.Keys + given.Keys
    ensures forall k :: k in given ==> r[k] == given[k]
    ensures forall k :: k in into && k !in given ==> r[k] == into[k]
  {
    r := into;
    var todo := given.Keys;
    while todo != {}
      invariant todo <= given.Keys
      invariant r.Keys == into.Keys + (given.Keys - todo)
      invariant forall k :: k in given && k !in todo ==> r[k] == given[k]
      invariant forall k :: k in into && k !in given ==> r[k] == into[k]
      invariant forall k :: k in into && k in todo ==> r[k] == into[k]
      decreases todo
    {
      var k :| k in todo;
      r := r[k := given[k]];
      todo := todo - {k};
    }
  }
}
