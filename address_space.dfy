/**
 * An abstract OPC UA address space, as far as tragen uses it: a node is named by the path of
 * qualified names that leads to it from the root node, so `add_folder`, `add_object`,
 * `add_variable` and `get_child` all return the parent's path extended by one name.
 */
module AddressSpace {
  import opened PyValues

  /** A browse name `ns:name`. */
  datatype QName = QName(ns: int, name: string)

  /** A node of the server's address space, reached from the root node through these names. */
  type Handle = seq<QName>

  const RootNode: Handle := []

  /** `get_objects_node()`: the standard `0:Objects` folder under the root. */
  const ObjectsNode: Handle := [QName(0, "Objects")]

  /** `ua.ObjectIds.BaseEventType`, reached as `0:Types/0:EventTypes/0:BaseEventType`. */
  const BaseEventType: Handle := [QName(0, "Types"), QName(0, "EventTypes"), QName(0, "BaseEventType")]

  /** The node a call `parent.add_*(ns, name)` creates, or `parent.get_child("ns:name")` finds. */
  function ChildOf(parent: Handle, ns: int, name: string): Handle
  {
    parent + [QName(ns, name)]
  }

  /** Two calls name the same node exactly when they name the same child of the same parent. */
  lemma ChildOfInjective(p: Handle, a: int, x: string, q: Handle, b: int, y: string)
    ensures ChildOf(p, a, x) == ChildOf(q, b, y) <==> p == q && a == b && x == y
  {
    if ChildOf(p, a, x) == ChildOf(q, b, y) {
      var h := ChildOf(p, a, x);
      assert p == h[..|h| - 1] == q;
      assert QName(a, x) == h[|h| - 1] == QName(b, y);
    }
  }

  datatype NodeKind = FolderKind | ObjectKind | VariableKind | EventTypeKind

  /** One node a tragen server creates in its address space. */
  datatype Created = Created(node: Handle, kind: NodeKind, value: PyValue, writable: bool)

  /** The event generator `get_event_generator(ev_type, ev_obj)` returns. */
  datatype EventGenerator = EventGenerator(eventType: Handle, emitter: Handle)

  /** The companion object a regularly updated variable's events are emitted from. */
  function NotifObjectNode(varName: string): Handle
  {
    ChildOf(ObjectsNode, 2, varName + "_NotifObject")
  }

  /** The custom event type created for a regularly updated variable. */
  function NotifEventType(varName: string): Handle
  {
    ChildOf(BaseEventType, 2, varName + "_NotifEvent")
  }

  /** Distinct variable names give distinct companion nodes. */
  lemma NotifNodesDistinct(a: string, b: string)
    requires a != b
    ensures NotifObjectNode(a) != NotifObjectNode(b)
    ensures NotifEventType(a) != NotifEventType(b)
  {
    SuffixCancels(a, b, "_NotifObject");
    assert NotifObjectNode(a)[1] == QName(2, a + "_NotifObject");
    SuffixCancels(a, b, "_NotifEvent");
    assert NotifEventType(a)[3] == QName(2, a + "_NotifEvent");
  }

  lemma SuffixCancels(a: string, b: string, s: string)
    ensures a + s == b + s ==> a == b
  {
    if a + s == b + s {
      assert |a| == |b|;
      assert a == (a + s)[..|a|];
      assert b == (b + s)[..|b|];
    }
  }
}
