/** The generic object handle the typed layer is built on.  The document
    that owns the objects, its node indices and its connection storage are
    outside this model: an object is reduced to the fields the typed layer
    reads, and a connection edge to its optional label and its optionally
    resolvable far end. */
module Objects {
  import opened Wrappers

  /** A view of one object node: its object id, the id of the node that
      holds it, its class and its subclass (which may be empty). */
  datatype Object = Object(id: int, nodeId: nat, className: string, subclass: string)

  /** One connection of an object, as seen from that object.  `edgeLabel` is the
      optional connection label; `target` is the object at the other end, or
      `None` when the far node does not resolve to an object handle. */
  datatype Edge = Edge(edgeLabel: Option<string>, target: Option<Object>)
}
