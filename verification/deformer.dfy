/** Objects of class `Deformer`: the checked downcast from a generic object
    handle and the accessors that forward to the wrapped object. */
module Deformer {
  import opened Wrappers
  import opened Objects

  /** The class string every deformer object carries. */
  const DeformerClass := "Deformer"

  /** Node id of a deformer object: the object's node id, retyped. */
  datatype DeformerNodeId = DeformerNodeId(node: nat)

  /** Handle of an object whose class is `Deformer`. */
  datatype DeformerHandle = DeformerHandle(obj: Object)

  /** Subclass of a deformer known to the object layer. */
  datatype DeformerSubclass = Skin

  /** A downcast of an object of another class: the class that was expected
      and the class the object actually has. */
  datatype ClassMismatch = ClassMismatch(expected: string, actual: string)

  /** Downcasts an object handle to a deformer handle.  Only the class is
      checked; the subclass is never looked at. */
  function FromObject(obj: Object): (r: Result<DeformerHandle, ClassMismatch>)
    ensures r.Ok? <==> obj.className == "Deformer"
    ensures r.Ok? ==> AsObject(r.value) == obj && AsRef(r.value) == obj
    ensures r.Err? ==> r.error == ClassMismatch("Deformer", obj.className)
  {
    if obj.className != DeformerClass then Err(ClassMismatch(DeformerClass, obj.className))
    else Ok(DeformerHandle(obj))
  }

  /** The wrapped object handle. */
  function AsObject(h: DeformerHandle): Object {
    h.obj
  }

  /** The wrapped object handle, reached through the subtype accessor. */
  function AsRef(h: DeformerHandle): Object {
    AsObject(h)
  }

  /** The object id of the wrapped object. */
  function ObjectId(h: DeformerHandle): int {
    h.obj.id
  }

  /** The deformer node id of the wrapped object. */
  function NodeId(h: DeformerHandle): DeformerNodeId {
    DeformerNodeId(h.obj.nodeId)
  }

  /** A successful downcast keeps the object's identity: the handle reports
      the object's own id and node id, both accessors give the object back,
      and downcasting the object it wraps gives the same handle again. */
  lemma DowncastKeepsIdentity(obj: Object)
    requires obj.className == "Deformer"
    ensures FromObject(obj).Ok?
    ensures ObjectId(FromObject(obj).value) == obj.id
    ensures NodeId(FromObject(obj).value) == DeformerNodeId(obj.nodeId)
    ensures AsObject(FromObject(obj).value) == obj && AsRef(FromObject(obj).value) == obj
    ensures FromObject(AsObject(FromObject(obj).value)) == FromObject(obj)
  {
  }

  /** Whether a downcast succeeds depends on the class alone: two objects of
      the same class, whatever their subclasses, both succeed or both fail. */
  lemma DowncastIgnoresSubclass(a: Object, b: Object)
    requires a.className == b.className
    ensures FromObject(a).Ok? <==> FromObject(b).Ok?
  {
  }
}
