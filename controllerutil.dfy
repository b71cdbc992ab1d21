/**
 * The two helpers of the controller runtime the syncers rely on
 * (vendor/sigs.k8s.io/controller-runtime/pkg/controller/controllerutil/controllerutil.go):
 * `SetControllerReference`, which appends the owner's controller reference to
 * an object, and `CreateOrUpdate`, which reads an object from the cluster,
 * runs a transform on it and writes the result back when it is new or has
 * changed.
 *
 * The cluster is a store of objects by key; its answers that do not follow
 * from its contents (a failing read, a failing write, a kind missing from
 * the scheme) are parameters.
 */
module ControllerUtil {
  import opened Wrappers
  import opened KubeMeta

  /** A group, version and kind, as the scheme reports it for an owner. */
  datatype GroupVersionKind = GroupVersionKind(group: string, version: string, kind: string)

  /** The owner of an object: its name and UID. */
  datatype Owner = Owner(name: string, uid: string)

  /** An owner reference. */
  datatype OwnerRef = OwnerRef(apiVersion: string, kind: string, name: string, uid: string,
                               controller: bool, blockOwnerDeletion: bool)

  /** `GroupVersion().String()`: the version alone for the core group, else `<group>/<version>`. */
  function ApiVersion(gvk: GroupVersionKind): string
  {
    if gvk.group == "" then gvk.version else gvk.group + "/" + gvk.version
  }

  /** `metav1.NewControllerRef`: a reference to the owner marked as controller that blocks the owner's deletion. */
  function ControllerRef(owner: Owner, gvk: GroupVersionKind): (r: OwnerRef)
    ensures r.controller && r.blockOwnerDeletion
    ensures r.name == owner.name && r.uid == owner.uid && r.kind == gvk.kind
  {
    OwnerRef(ApiVersion(gvk), gvk.kind, owner.name, owner.uid, true, true)
  }

  /** The owner references of an object. */
  class OwnedObject {
    var ownerReferences: seq<OwnerRef>

    constructor (ownerReferences: seq<OwnerRef>)
      ensures this.ownerReferences == ownerReferences
    {
      this.ownerReferences := ownerReferences;
    }
  }

  /**
   * `SetControllerReference`: when the scheme knows the owner's kind
   * (`gvk`), appends one controller reference to the owner after the existing
   * ones; otherwise returns the scheme's error and changes nothing.
   */
  method SetControllerReference(owner: Owner, obj: OwnedObject, gvk: Result<GroupVersionKind, string>)
    returns (err: Option<string>)
    modifies obj
    ensures gvk.Err? ==> err == Some(gvk.error) && obj.ownerReferences == old(obj.ownerReferences)
    ensures gvk.Ok? ==> err.None? && obj.ownerReferences == old(obj.ownerReferences) + [ControllerRef(owner, gvk.value)]
  {
    match gvk {
      case Err(e) =>
        return Some(e);
      case Ok(kind) =>
        obj.ownerReferences := obj.ownerReferences + [ControllerRef(owner, kind)];
        return None;
    }
  }

  // ---------------------------------------------------------------------------
  // CreateOrUpdate

  /** `OperationType`. */
  datatype Operation = Noop | Created | Updated

  /** The cluster: objects of one type by key. */
  class Store<T(==)> {
    var objects: map<ObjectKey, T>

    constructor (objects: map<ObjectKey, T>)
      ensures this.objects == objects
    {
      this.objects := objects;
    }
  }

  /** The outcome of one call: the operation, the error, and the store's objects afterwards. */
  datatype Outcome<T> = Outcome(op: Operation, err: Option<string>, objects: map<ObjectKey, T>)

  /**
   * What `CreateOrUpdate` does on the objects `objects`: a failing read
   * (`readFault`) stops it; a missing object is built by the transform from
   * the empty object with the key's name and namespace (`zero`) and created;
   * an existing one is transformed and updated when the result differs from
   * it. A transform error or a failing write (`writeFault`) stops it with
   * nothing written.
   */
  function CreateOrUpdateOutcome<T(==)>(objects: map<ObjectKey, T>, key: ObjectKey, zero: T,
                                         transform: T -> Result<T, string>,
                                         readFault: Option<string>, writeFault: Option<string>): (o: Outcome<T>)
    ensures o.op == Noop ==> o.objects == objects
    ensures o.op != Noop ==> o.err.None? && o.objects.Keys == objects.Keys + {key}
    ensures o.op == Created ==> key !in objects && transform(zero).Ok? && o.objects == objects[key := transform(zero).value]
    ensures o.op == Updated ==>
      key in objects && transform(objects[key]).Ok? && transform(objects[key]).value != objects[key] &&
      o.objects == objects[key := transform(objects[key]).value]
  {
    if readFault.Some? then Outcome(Noop, readFault, objects)
    else if key !in objects then
      match transform(zero)
      case Err(e) => Outcome(Noop, Some(e), objects)
      case Ok(obj) =>
        if writeFault.Some? then Outcome(Noop, writeFault, objects)
        else Outcome(Created, None, objects[key := obj])
    else
      match transform(objects[key])
      case Err(e) => Outcome(Noop, Some(e), objects)
      case Ok(obj) =>
        if obj == objects[key] then Outcome(Noop, None, objects)
        else if writeFault.Some? then Outcome(Noop, writeFault, objects)
        else Outcome(Updated, None, objects[key := obj])
  }

  /** `CreateOrUpdate` on the store: at most one write, at the key. */
  method CreateOrUpdate<T(==)>(store: Store<T>, key: ObjectKey, zero: T, transform: T -> Result<T, string>,
                               readFault: Option<string>, writeFault: Option<string>)
    returns (op: Operation, err: Option<string>)
    modifies store
    ensures Outcome(op, err, store.objects) == CreateOrUpdateOutcome(old(store.objects), key, zero, transform, readFault, writeFault)
  {
    if readFault.Some? {
      return Noop, readFault;
    }
    if key !in store.objects {
      var result := transform(zero);
      if result.Err? {
        return Noop, Some(result.error);
      }
      if writeFault.Some? {
        return Noop, writeFault;
      }
      store.objects := store.objects[key := result.value];
      return Created, None;
    }
    var existing := store.objects[key];
    var result := transform(existing);
    if result.Err? {
      return Noop, Some(result.error);
    }
    if result.value == existing {
      return Noop, None;
    }
    if writeFault.Some? {
      return Noop, writeFault;
    }
    store.objects := store.objects[key := result.value];
    return Updated, None;
  }

  /** Each call writes at most the one object at the key and leaves every other object alone. */
  lemma AtMostOneWrite<T>(objects: map<ObjectKey, T>, key: ObjectKey, zero: T, transform: T -> Result<T, string>,
                              readFault: Option<string>, writeFault: Option<string>, other: ObjectKey)
    requires other != key
    ensures var o := CreateOrUpdateOutcome(objects, key, zero, transform, readFault, writeFault);
      (other in o.objects <==> other in objects) && (other in objects ==> o.objects[other] == objects[other])
  {
  }

  /** Every error, from the read, the transform or the write, comes with Noop. */
  lemma ErrorsAreNoop<T>(objects: map<ObjectKey, T>, key: ObjectKey, zero: T, transform: T -> Result<T, string>,
                             readFault: Option<string>, writeFault: Option<string>)
    ensures var o := CreateOrUpdateOutcome(objects, key, zero, transform, readFault, writeFault);
      o.err.Some? ==> o.op == Noop && o.objects == objects
    ensures readFault.Some? ==>
      CreateOrUpdateOutcome(objects, key, zero, transform, readFault, writeFault) == Outcome(Noop, readFault, objects)
  {
  }

  /**
   * A transform that is stable on its own results (running it again on its
   * output gives that output back) makes a second call a Noop: after a
   * successful call, the next one writes nothing.
   */
  lemma SecondCallIsNoop<T>(objects: map<ObjectKey, T>, key: ObjectKey, zero: T, transform: T -> Result<T, string>,
                                writeFault: Option<string>)
    requires forall x :: transform(x).Ok? ==> transform(transform(x).value) == transform(x)
    requires CreateOrUpdateOutcome(objects, key, zero, transform, None, writeFault).err.None?
    ensures var first := CreateOrUpdateOutcome(objects, key, zero, transform, None, writeFault);
      CreateOrUpdateOutcome(first.objects, key, zero, transform, None, writeFault) == Outcome(Noop, None, first.objects)
  {
    var first := CreateOrUpdateOutcome(objects, key, zero, transform, None, writeFault);
    var x := if key in objects then objects[key] else zero;
    assert transform(x).Ok?;
    assert first.objects[key] == transform(x).value;
  }
}
