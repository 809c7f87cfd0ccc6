/**
 * The tragen client (`tragen/client_tragen/tragenClient.py`): the reader and writer threads of a
 * client, its subscription table, and the walks of the namespace graph that subscribe to the
 * server's updated variables, hand nodes to the reader and writer, and list the readable and
 * writable names.
 *
 * A Python list is shared by reference; `NodeList` stands for one. In particular the `[]` default
 * of `ItemValueReader(items_list=[])` is evaluated once, so every reader built without an argument
 * appends to that one list, and likewise for `VariableValueWriter(var_list=[])`: the constructors
 * take the list they store, and callers pass the shared default where the source relies on it.
 */
module TragenClient {
  import opened Wrappers
  import opened NamespaceGraph
  import opened AddressSpace
  import opened Walk

  datatype ClientError =
    | AttributeError  // `self.reader` or `self.writer` on a client that never created them

  /** `SubType`: DATA_CHANGE = 0x1, EVENT = 0x2, STATUS_CHANGE = 0x4. */
  datatype SubType = DataChange | Event | StatusChange

  // ---------------------------------------------------------------- reader and writer threads

  /** A Python list of nodes, shared by every holder of a reference to it. */
  class NodeList {
    var items: seq<Handle>

    constructor ()
      ensures items == []
    {
      items := [];
    }

    /** `append(h)`. */
    method Append(h: Handle)
      modifies this
      ensures items == old(items) + [h]
    {
      items := items + [h];
    }
  }

  const ReaderPeriod: real := 0.5
  const WriterPeriod: real := 1.0

  /** `ItemValueReader`: the thread that reads a randomly chosen item of `itemsList`. */
  class ItemValueReader {
    const itemsList: NodeList
    const period: real
    var running: bool

    constructor (itemsList: NodeList, period: real)
      ensures this.itemsList == itemsList && this.period == period && running
    {
      this.itemsList := itemsList;
      this.period := period;
      running := true;
    }

    /** `stop()` assigns a local variable `self_running`, so the reader goes on running. */
    method Stop()
      ensures running == old(running)
    {
    }
  }

  /** `VariableValueWriter`: the thread that rewrites a randomly chosen node of `varList`. */
  class VariableValueWriter {
    const varList: NodeList
    const period: real
    var writing: bool

    constructor (varList: NodeList, period: real)
      ensures this.varList == varList && this.period == period && writing
    {
      this.varList := varList;
      this.period := period;
      writing := true;
    }

    /** `stop()` clears the flag the thread loops on. */
    method Stop()
      modifies this
      ensures !writing
    {
      writing := false;
    }
  }

  // ---------------------------------------------------------------- subscriptions

  /** What a subscription monitors: the data changes of a node, or the events of a source node. */
  datatype Monitored =
    | DataChangeOf(node: Handle)
    | EventsOf(source: Option<Handle>, eventType: Option<Handle>)

  /** A subscription `create_subscription(period, handler)` opens, with what it then monitors. */
  datatype Subscription = Subscription(period: int, monitored: Monitored)

  /** A `subscriptions[node]` entry: the subscription and its type. */
  datatype SubEntry = SubEntry(subscription: Subscription, stype: SubType)

  const SubscriptionPeriod: int := 1000

  /** The subscription `subscribe_node(node, stype, event, event_obj)` opens. */
  function SubscriptionFor(node: Handle, stype: SubType, event: Option<Handle>, eventObj: Option<Handle>): Subscription
  {
    Subscription(SubscriptionPeriod, if stype == DataChange then DataChangeOf(node) else EventsOf(eventObj, event))
  }

  /**
   * The `subscribe_node` calls `rec_subs` makes at a visit: a data-change subscription to an
   * irregularly updated variable, then an event subscription to the companion nodes of a
   * regularly updated one.
   */
  function SubEntriesOf(v: Visit): seq<(Handle, SubEntry)>
  {
    match v
    case VariableVisit(x, h) =>
      (if x.isIrregUd then [(h, SubEntry(SubscriptionFor(h, DataChange, None, None), DataChange))] else [])
      + (if x.isRegUd
         then [(h, SubEntry(SubscriptionFor(h, Event, Some(NotifEventType(x.name)), Some(NotifObjectNode(x.name))), Event))]
         else [])
    case _ => []
  }

  /** The subscriptions `rec_subs` opens at a visit, one per `subscribe_node` call. */
  function NewSubscriptionsOf(v: Visit): seq<Subscription>
  {
    match v
    case VariableVisit(x, h) =>
      (if x.isIrregUd then [SubscriptionFor(h, DataChange, None, None)] else [])
      + (if x.isRegUd then [SubscriptionFor(h, Event, Some(NotifEventType(x.name)), Some(NotifObjectNode(x.name)))] else [])
    case _ => []
  }

  /** The subscriptions of the entries at `ks`, in that order. */
  function SubscriptionsAt(m: map<Handle, SubEntry>, ks: seq<Handle>): seq<Subscription>
    requires forall k :: k in ks ==> k in m
    decreases |ks|
  {
    if ks == [] then [] else SubscriptionsAt(m, ks[..|ks| - 1]) + [m[ks[|ks| - 1]].subscription]
  }

  // ---------------------------------------------------------------- client agents

  /** The nodes `set_client_agents` hands the reader at a visit: items whose name is in `items`. */
  function ReaderNodesOf(items: seq<string>, v: Visit): seq<Handle>
  {
    match v
    case VariableVisit(x, h) => if x.name in items then [h] else []
    case PropertyVisit(p, h) => if p.name in items then [h] else []
    case _ => []
  }

  /** The nodes `set_client_agents` hands the writer at a visit: variables whose name is in `vars`. */
  function WriterNodesOf(vars: seq<string>, v: Visit): seq<Handle>
  {
    match v
    case VariableVisit(x, h) => if x.name in vars then [h] else []
    case _ => []
  }

  function ReaderOf(items: seq<string>): Visit -> seq<Handle>
  {
    v => ReaderNodesOf(items, v)
  }

  function WriterOf(vars: seq<string>): Visit -> seq<Handle>
  {
    v => WriterNodesOf(vars, v)
  }

  /** The node of every variable and property of the walk. */
  function ItemNodeOf(v: Visit): seq<Handle>
  {
    match v
    case VariableVisit(_, h) => [h]
    case PropertyVisit(_, h) => [h]
    case _ => []
  }

  // ---------------------------------------------------------------- what the walks give

  /** A node joins the reader's list iff the walk visits a variable or property there whose name is listed. */
  lemma ReaderNodes(vs: seq<Visit>, items: seq<string>, h: Handle)
    ensures h in FlatMap(vs, ReaderOf(items)) <==>
            exists i :: 0 <= i < |vs| && vs[i].node == h
                        && ((vs[i].VariableVisit? && vs[i].variable.name in items)
                            || (vs[i].PropertyVisit? && vs[i].property.name in items))
  {
    FlatMapMember(vs, ReaderOf(items), h);
  }

  /** A node joins the writer's list iff the walk visits a variable there whose name is listed: never a property. */
  lemma WriterNodes(vs: seq<Visit>, vars: seq<string>, h: Handle)
    ensures h in FlatMap(vs, WriterOf(vars)) <==>
            exists i :: 0 <= i < |vs| && vs[i].node == h && vs[i].VariableVisit? && vs[i].variable.name in vars
  {
    FlatMapMember(vs, WriterOf(vars), h);
  }

  /** Given the readable names of the same walk, the reader gets every variable and property node, in walk order. */
  lemma ReaderGetsEveryItem(vs: seq<Visit>)
    ensures FlatMap(vs, ReaderOf(FlatMap(vs, ReadableOf))) == FlatMap(vs, ItemNodeOf)
  {
    var items := FlatMap(vs, ReadableOf);
    forall i | 0 <= i < |vs|
      ensures ReaderOf(items)(vs[i]) == ItemNodeOf(vs[i])
    {
      FlatMapMember(vs, ReadableOf, VisitName(vs[i]).name);
      assert VisitName(vs[i]).name in ReadableOf(vs[i]) ==> VisitName(vs[i]).name in items;
    }
    FlatMapPointwise(vs, ReaderOf(items), ItemNodeOf);
  }

  /**
   * Given the writable names of the same walk, the writer gets the node of every writable
   * variable, and of every other variable that shares a name with one.
   */
  lemma WriterGetsWritable(vs: seq<Visit>, h: Handle)
    ensures h in FlatMap(vs, WriterOf(FlatMap(vs, WritableOf))) <==>
            exists i :: 0 <= i < |vs| && vs[i].node == h && vs[i].VariableVisit?
                        && exists j :: 0 <= j < |vs| && vs[j].VariableVisit? && vs[j].variable.isWritable
                                       && vs[j].variable.name == vs[i].variable.name
  {
    var vars := FlatMap(vs, WritableOf);
    WriterNodes(vs, vars, h);
    forall n
      ensures n in vars <==> exists j :: 0 <= j < |vs| && vs[j].VariableVisit? && vs[j].variable.isWritable && vs[j].variable.name == n
    {
      WritableNames(vs, n);
    }
  }

  /** A node has a subscription entry iff the walk visits an updated variable there. */
  lemma SubscribedNodes(vs: seq<Visit>, h: Handle)
    ensures h in Assign(map[], FlatMap(vs, SubEntriesOf)) <==>
            exists i :: 0 <= i < |vs| && vs[i].VariableVisit? && vs[i].node == h
                        && (vs[i].variable.isIrregUd || vs[i].variable.isRegUd)
  {
    forall v, p | p in SubEntriesOf(v) ensures p.0 == v.node {
      EntryAtVisit(v);
    }
    KeysOfVisits(vs, SubEntriesOf, h);
    forall i | 0 <= i < |vs|
      ensures SubEntriesOf(vs[i]) != [] <==> vs[i].VariableVisit? && (vs[i].variable.isIrregUd || vs[i].variable.isRegUd)
    {
      EntryAtVisit(vs[i]);
    }
  }

  /** The entries of one visit are keyed by its node, and there is one iff it is an updated variable. */
  lemma EntryAtVisit(v: Visit)
    ensures forall p :: p in SubEntriesOf(v) ==> p.0 == v.node
    ensures SubEntriesOf(v) != [] <==> v.VariableVisit? && (v.variable.isIrregUd || v.variable.isRegUd)
  {
  }

  /**
   * The entry of a regularly updated variable's node is its event subscription, even when the
   * variable is also irregularly updated: the second `_add_subscription` overwrites the first.
   */
  lemma {:induction false} EventEntryWins(vs: seq<Visit>, i: nat)
    requires i < |vs| && vs[i].VariableVisit? && vs[i].variable.isRegUd
    requires forall j :: i < j < |vs| && vs[j].VariableVisit? && vs[j].node == vs[i].node ==>
               !vs[j].variable.isIrregUd && !vs[j].variable.isRegUd
    ensures var x := vs[i].variable;
            var table := Assign(map[], FlatMap(vs, SubEntriesOf));
            vs[i].node in table
            && table[vs[i].node]
               == SubEntry(SubscriptionFor(vs[i].node, Event, Some(NotifEventType(x.name)), Some(NotifObjectNode(x.name))), Event)
    decreases |vs|
  {
    var init := vs[..|vs| - 1];
    var last := SubEntriesOf(vs[|vs| - 1]);
    AssignAppend(map[], FlatMap(init, SubEntriesOf), last);
    if i < |vs| - 1 {
      EventEntryWins(init, i);
      AssignUntouched(Assign(map[], FlatMap(init, SubEntriesOf)), last, vs[i].node);
    } else {
      AssignLastWins(Assign(map[], FlatMap(init, SubEntriesOf)), last, |last| - 1);
    }
  }

  /** The table never holds more entries than subscriptions were created: an overwritten one stays open. */
  lemma EntriesAtMostCreated(vs: seq<Visit>)
    ensures |Assign(map[], FlatMap(vs, SubEntriesOf))| <= |FlatMap(vs, NewSubscriptionsOf)|
  {
    AssignSize(map[], FlatMap(vs, SubEntriesOf));
    FlatMapSameLength(vs, SubEntriesOf, NewSubscriptionsOf);
  }

  /** `delete_all_subscription` deletes, in the order given, the subscription of each entry. */
  lemma {:induction false} SubscriptionsAtEntries(m: map<Handle, SubEntry>, ks: seq<Handle>)
    requires forall k :: k in ks ==> k in m
    ensures |SubscriptionsAt(m, ks)| == |ks|
    ensures forall i :: 0 <= i < |ks| ==> SubscriptionsAt(m, ks)[i] == m[ks[i]].subscription
    decreases |ks|
  {
    if ks != [] {
      SubscriptionsAtEntries(m, ks[..|ks| - 1]);
    }
  }

  // ---------------------------------------------------------------- the client

  /** `ClientTragen`: an OPC UA client with its subscriptions and, when independent, its reader and writer. */
  class ClientTragen {
    const srvAddress: string
    const name: Option<string>
    const independant: bool
    var connected: bool
    var rootNode: Option<Handle>
    var objects: Option<Handle>
    /** `subscriptions`, keyed by node. */
    var subscriptions: map<Handle, SubEntry>
    /** Every subscription created, in order, and every one deleted, in order. */
    var created: seq<Subscription>
    var deleted: seq<Subscription>
    const reader: Option<ItemValueReader>
    const writer: Option<VariableValueWriter>

    /**
     * `__init__`; `readerDefault` and `writerDefault` are the lists the `[]` defaults of the
     * reader's and the writer's constructors evaluate to.
     */
    constructor (srvAddress: string, name: Option<string>, independant: bool,
                 readerDefault: NodeList, writerDefault: NodeList)
      ensures this.srvAddress == srvAddress && this.name == name && this.independant == independant
      ensures !connected && rootNode == None && objects == None
      ensures subscriptions == map[] && created == [] && deleted == []
      ensures reader.Some? == independant && writer.Some? == independant
      ensures independant ==> fresh(reader.value) && reader.value.itemsList == readerDefault
                              && reader.value.period == ReaderPeriod && reader.value.running
      ensures independant ==> fresh(writer.value) && writer.value.varList == writerDefault
                              && writer.value.period == WriterPeriod && writer.value.writing
    {
      this.srvAddress := srvAddress;
      this.name := name;
      this.independant := independant;
      connected := false;
      rootNode := None;
      objects := None;
      subscriptions := map[];
      created := [];
      deleted := [];
      if independant {
        var r := new ItemValueReader(readerDefault, ReaderPeriod);
        var w := new VariableValueWriter(writerDefault, WriterPeriod);
        reader := Some(r);
        writer := Some(w);
      } else {
        reader := None;
        writer := None;
      }
    }

    // ------------------------------------------------------------ subscriptions

    /** `_add_subscription(node, type, sub, handle)`: the node's entry is replaced, nothing is unsubscribed. */
    method AddSubscription(node: Handle, stype: SubType, sub: Subscription)
      modifies this
      ensures subscriptions == old(subscriptions)[node := SubEntry(sub, stype)]
      ensures created == old(created) && deleted == old(deleted)
      ensures rootNode == old(rootNode) && objects == old(objects) && connected == old(connected)
    {
      subscriptions := subscriptions[node := SubEntry(sub, stype)];
    }

    /** `subscribe_node(node, stype, event, event_obj)`: opens a subscription and records it under `node`. */
    method SubscribeNode(node: Handle, stype: SubType, event: Option<Handle>, eventObj: Option<Handle>)
      modifies this
      ensures subscriptions == old(subscriptions)[node := SubEntry(SubscriptionFor(node, stype, event, eventObj), stype)]
      ensures created == old(created) + [SubscriptionFor(node, stype, event, eventObj)]
      ensures deleted == old(deleted)
      ensures rootNode == old(rootNode) && objects == old(objects) && connected == old(connected)
    {
      var sub := SubscriptionFor(node, stype, event, eventObj);
      created := created + [sub];
      AddSubscription(node, stype, sub);
    }

    /** The fields a subscribing walk leaves alone are as they were. */
    twostate predicate KeepsAgents()
      reads this
    {
      deleted == old(deleted) && rootNode == old(rootNode) && objects == old(objects) && connected == old(connected)
    }

    /** `rec_subs(root, objects, lv)`: the subscriptions of every updated variable, in walk order. */
    method RecSubs(lv: Level, root: Handle, objects: Handle)
      modifies this
      ensures subscriptions == Assign(old(subscriptions), FlatMap(Visits(lv, root, objects), SubEntriesOf))
      ensures created == old(created) + FlatMap(Visits(lv, root, objects), NewSubscriptionsOf)
      ensures KeepsAgents()
      decreases lv, 2
    {
      SubsFolders(lv, root);
      SubsObjects(lv.objects, objects);
      SubsVariables(lv.variables, root);
      // the walk has no loop over properties, which subscribe to nothing
      PropertiesAddNothing(lv.properties, root, |lv.properties|, NewSubscriptionsOf);
      PropertiesAddNothing(lv.properties, root, |lv.properties|, SubEntriesOf);
      SubsJoin(lv, root, objects, old(created), old(subscriptions));
    }

    /** The three loops of `rec_subs`, one after the other, cover the whole walk. */
    static lemma SubsJoin(lv: Level, root: Handle, objects: Handle, created0: seq<Subscription>, table0: map<Handle, SubEntry>)
      requires FlatMap(PropertyVisits(lv.properties, root, |lv.properties|), NewSubscriptionsOf) == []
      requires FlatMap(PropertyVisits(lv.properties, root, |lv.properties|), SubEntriesOf) == []
      ensures created0 + FlatMap(FolderVisits(lv, root, |lv.folders|), NewSubscriptionsOf)
              + FlatMap(ObjectVisits(lv.objects, objects, |lv.objects|), NewSubscriptionsOf)
              + FlatMap(VariableVisits(lv.variables, root, |lv.variables|), NewSubscriptionsOf)
              == created0 + FlatMap(Visits(lv, root, objects), NewSubscriptionsOf)
      ensures var a := FlatMap(FolderVisits(lv, root, |lv.folders|), SubEntriesOf);
              var b := FlatMap(ObjectVisits(lv.objects, objects, |lv.objects|), SubEntriesOf);
              var c := FlatMap(VariableVisits(lv.variables, root, |lv.variables|), SubEntriesOf);
              Assign(Assign(Assign(table0, a), b), c) == Assign(table0, FlatMap(Visits(lv, root, objects), SubEntriesOf))
    {
      VisitsSplit(lv, root, objects, NewSubscriptionsOf);
      AppendFour(created0, FlatMap(FolderVisits(lv, root, |lv.folders|), NewSubscriptionsOf),
                 FlatMap(ObjectVisits(lv.objects, objects, |lv.objects|), NewSubscriptionsOf),
                 FlatMap(VariableVisits(lv.variables, root, |lv.variables|), NewSubscriptionsOf), []);
      var a := FlatMap(FolderVisits(lv, root, |lv.folders|), SubEntriesOf);
      var b := FlatMap(ObjectVisits(lv.objects, objects, |lv.objects|), SubEntriesOf);
      var c := FlatMap(VariableVisits(lv.variables, root, |lv.variables|), SubEntriesOf);
      VisitsSplit(lv, root, objects, SubEntriesOf);
      AssignAppend(table0, a, b);
      AssignAppend(table0, a + b, c);
      assert Assign(Assign(Assign(table0, a), b), c) == Assign(Assign(table0, a + b), c);
      assert Assign(Assign(table0, a + b), c) == Assign(table0, a + b + c);
      assert FlatMap(Visits(lv, root, objects), SubEntriesOf) == a + b + c;
    }

    method SubsFolders(lv: Level, root: Handle)
      modifies this
      ensures subscriptions == Assign(old(subscriptions), FlatMap(FolderVisits(lv, root, |lv.folders|), SubEntriesOf))
      ensures created == old(created) + FlatMap(FolderVisits(lv, root, |lv.folders|), NewSubscriptionsOf)
      ensures KeepsAgents()
      decreases lv, 1
    {
      for i := 0 to |lv.folders|
        invariant subscriptions == Assign(old(subscriptions), FlatMap(FolderVisits(lv, root, i), SubEntriesOf))
        invariant created == old(created) + FlatMap(FolderVisits(lv, root, i), NewSubscriptionsOf)
        invariant KeepsAgents()
      {
        SubsFolder(lv, root, i, old(created), old(subscriptions));
      }
    }

    /**
     * One round of the folders loop of `rec_subs`, after the subscriptions `created0` and the
     * table `table0`: the walk of the folder's contents.
     */
    method SubsFolder(lv: Level, root: Handle, i: nat, ghost created0: seq<Subscription>, ghost table0: map<Handle, SubEntry>)
      requires i < |lv.folders|
      requires created == created0 + FlatMap(FolderVisits(lv, root, i), NewSubscriptionsOf)
      requires subscriptions == Assign(table0, FlatMap(FolderVisits(lv, root, i), SubEntriesOf))
      modifies this
      ensures created == created0 + FlatMap(FolderVisits(lv, root, i + 1), NewSubscriptionsOf)
      ensures subscriptions == Assign(table0, FlatMap(FolderVisits(lv, root, i + 1), SubEntriesOf))
      ensures KeepsAgents()
      decreases lv, 0
    {
      var e := lv.folders[i];
      var folderNode := ChildOf(root, e.folder.namespace, e.folder.name);
      RecSubs(e.content, folderNode, folderNode);
      assert created == created0 + FlatMap(FolderVisits(lv, root, i + 1), NewSubscriptionsOf) by {
        FolderExtendsBy(lv, root, i, created0, NewSubscriptionsOf);
      }
      assert subscriptions == Assign(table0, FlatMap(FolderVisits(lv, root, i + 1), SubEntriesOf)) by {
        assert SubEntriesOf(FolderVisit(e.folder, folderNode)) + FlatMap(Visits(e.content, folderNode, folderNode), SubEntriesOf)
               == FlatMap(Visits(e.content, folderNode, folderNode), SubEntriesOf);
        FolderAssigns(lv, root, i, table0, SubEntriesOf);
      }
    }

    method SubsObjects(os: seq<ObjectEntry>, objects: Handle)
      modifies this
      ensures subscriptions == Assign(old(subscriptions), FlatMap(ObjectVisits(os, objects, |os|), SubEntriesOf))
      ensures created == old(created) + FlatMap(ObjectVisits(os, objects, |os|), NewSubscriptionsOf)
      ensures KeepsAgents()
    {
      for i := 0 to |os|
        invariant subscriptions == Assign(old(subscriptions), FlatMap(ObjectVisits(os, objects, i), SubEntriesOf))
        invariant created == old(created) + FlatMap(ObjectVisits(os, objects, i), NewSubscriptionsOf)
        invariant KeepsAgents()
      {
        SubsObject(os, objects, i, old(created), old(subscriptions));
      }
    }

    /** One round of the objects loop of `rec_subs`: the walk of the object's variables. */
    method SubsObject(os: seq<ObjectEntry>, objects: Handle, i: nat, ghost created0: seq<Subscription>, ghost table0: map<Handle, SubEntry>)
      requires i < |os|
      requires created == created0 + FlatMap(ObjectVisits(os, objects, i), NewSubscriptionsOf)
      requires subscriptions == Assign(table0, FlatMap(ObjectVisits(os, objects, i), SubEntriesOf))
      modifies this
      ensures created == created0 + FlatMap(ObjectVisits(os, objects, i + 1), NewSubscriptionsOf)
      ensures subscriptions == Assign(table0, FlatMap(ObjectVisits(os, objects, i + 1), SubEntriesOf))
      ensures KeepsAgents()
    {
      var e := os[i];
      var objNode := ChildOf(objects, e.obj.namespace, e.obj.name);
      SubsVariables(e.content.variables, objNode);
      assert created == created0 + FlatMap(ObjectVisits(os, objects, i + 1), NewSubscriptionsOf) by {
        ContentIsVariables(e.obj, e.content, objNode, NewSubscriptionsOf);
        ObjectExtends(os, objects, i, created0, NewSubscriptionsOf);
      }
      assert subscriptions == Assign(table0, FlatMap(ObjectVisits(os, objects, i + 1), SubEntriesOf)) by {
        ContentIsVariables(e.obj, e.content, objNode, SubEntriesOf);
        ObjectAssigns(os, objects, i, table0, SubEntriesOf);
      }
    }

    method SubsVariables(vs: seq<TragenVariable>, root: Handle)
      modifies this
      ensures subscriptions == Assign(old(subscriptions), FlatMap(VariableVisits(vs, root, |vs|), SubEntriesOf))
      ensures created == old(created) + FlatMap(VariableVisits(vs, root, |vs|), NewSubscriptionsOf)
      ensures KeepsAgents()
    {
      for i := 0 to |vs|
        invariant subscriptions == Assign(old(subscriptions), FlatMap(VariableVisits(vs, root, i), SubEntriesOf))
        invariant created == old(created) + FlatMap(VariableVisits(vs, root, i), NewSubscriptionsOf)
        invariant KeepsAgents()
      {
        SubsVariableAt(vs, root, i, old(created), old(subscriptions));
      }
    }

    /** Round `i` of the variables loop of `rec_subs`, as the loop sees it. */
    method SubsVariableAt(vs: seq<TragenVariable>, root: Handle, i: nat, ghost created0: seq<Subscription>, ghost table0: map<Handle, SubEntry>)
      requires i < |vs|
      requires created == created0 + FlatMap(VariableVisits(vs, root, i), NewSubscriptionsOf)
      requires subscriptions == Assign(table0, FlatMap(VariableVisits(vs, root, i), SubEntriesOf))
      modifies this
      ensures created == created0 + FlatMap(VariableVisits(vs, root, i + 1), NewSubscriptionsOf)
      ensures subscriptions == Assign(table0, FlatMap(VariableVisits(vs, root, i + 1), SubEntriesOf))
      ensures KeepsAgents()
    {
      SubsVariable(vs[i], root);
      assert created == created0 + FlatMap(VariableVisits(vs, root, i + 1), NewSubscriptionsOf) by {
        VariableExtends(vs, root, i, created0, NewSubscriptionsOf);
      }
      assert subscriptions == Assign(table0, FlatMap(VariableVisits(vs, root, i + 1), SubEntriesOf)) by {
        VariableAssigns(vs, root, i, table0, SubEntriesOf);
      }
    }

    /** One round of the variables loop of `rec_subs`. */
    method SubsVariable(x: TragenVariable, root: Handle)
      modifies this
      ensures created == old(created) + NewSubscriptionsOf(VariableVisit(x, ChildOf(root, x.namespace, x.name)))
      ensures subscriptions == Assign(old(subscriptions), SubEntriesOf(VariableVisit(x, ChildOf(root, x.namespace, x.name))))
      ensures KeepsAgents()
    {
      var varNode := ChildOf(root, x.namespace, x.name);
      ghost var table0 := subscriptions;
      ghost var first: seq<(Handle, SubEntry)> := [];
      if x.isIrregUd {
        SubscribeNode(varNode, DataChange, None, None);
        first := [(varNode, SubEntry(SubscriptionFor(varNode, DataChange, None, None), DataChange))];
        assert first[..0] == [];
      }
      assert subscriptions == Assign(table0, first);
      if x.isRegUd {
        var evObj := ChildOf(ObjectsNode, 2, x.name + "_NotifObject");
        var evType := ChildOf(BaseEventType, 2, x.name + "_NotifEvent");
        SubscribeNode(varNode, Event, Some(evType), Some(evObj));
        var second := [(varNode, SubEntry(SubscriptionFor(varNode, Event, Some(evType), Some(evObj)), Event))];
        assert (first + second)[..|first + second| - 1] == first;
        assert subscriptions == Assign(table0, first + second);
      }
    }

    /** `initialize_subs(lv)`: `rec_subs` from the client's root and Objects nodes. */
    method InitializeSubs(g: Level)
      modifies this
      ensures rootNode == Some(RootNode) && objects == Some(ObjectsNode)
      ensures subscriptions == Assign(old(subscriptions), FlatMap(Visits(g, RootNode, ObjectsNode), SubEntriesOf))
      ensures created == old(created) + FlatMap(Visits(g, RootNode, ObjectsNode), NewSubscriptionsOf)
      ensures deleted == old(deleted) && connected == old(connected)
    {
      rootNode := Some(RootNode);
      objects := Some(ObjectsNode);
      RecSubs(g, RootNode, ObjectsNode);
    }

    /** `delete_subscription(sub, handle)`: unsubscribes the item and deletes the subscription. */
    method DeleteSubscription(sub: Subscription)
      modifies this
      ensures deleted == old(deleted) + [sub]
      ensures subscriptions == old(subscriptions) && created == old(created)
      ensures rootNode == old(rootNode) && objects == old(objects) && connected == old(connected)
    {
      deleted := deleted + [sub];
    }

    /**
     * `delete_all_subscription()`: deletes the subscription of every entry once, in the order
     * `order` the table enumerates its keys, and leaves the table as it is.
     */
    method DeleteAllSubscription() returns (order: seq<Handle>)
      modifies this
      ensures forall k :: k in order <==> k in subscriptions
      ensures forall i, j :: 0 <= i < j < |order| ==> order[i] != order[j]
      ensures deleted == old(deleted) + SubscriptionsAt(subscriptions, order)
      ensures subscriptions == old(subscriptions) && created == old(created)
      ensures rootNode == old(rootNode) && objects == old(objects) && connected == old(connected)
    {
      order := KeyOrder(subscriptions);
      for i := 0 to |order|
        invariant forall k :: k in order[..i] ==> k in subscriptions
        invariant deleted == old(deleted) + SubscriptionsAt(subscriptions, order[..i])
        invariant subscriptions == old(subscriptions) && created == old(created)
        invariant rootNode == old(rootNode) && objects == old(objects) && connected == old(connected)
      {
        DeleteSubscription(subscriptions[order[i]].subscription);
        assert order[..i + 1][..i] == order[..i];
      }
      assert order[..|order|] == order;
    }

    // ------------------------------------------------------------ client agents

    /**
     * `set_client_agents(items_list, var_list, lv)`: the reader gets every variable or property
     * node whose name is in `itemsList`, the writer every variable node whose name is in
     * `varList`. Without a reader and a writer, the first node to hand over raises.
     */
    method SetClientAgents(itemsList: seq<string>, varList: seq<string>, g: Level) returns (r: Outcome<ClientError>)
      requires reader.Some? == writer.Some?
      requires reader.Some? ==> reader.value.itemsList != writer.value.varList
      modifies if reader.Some? then {reader.value.itemsList, writer.value.varList} else {}
      ensures reader.None? ==>
                (r.Fail? <==> FlatMap(Visits(g, RootNode, ObjectsNode), ReaderOf(itemsList)) != []
                              || FlatMap(Visits(g, RootNode, ObjectsNode), WriterOf(varList)) != [])
      ensures r.Fail? ==> r.error == AttributeError
      ensures reader.Some? ==> r.Pass?
      ensures reader.Some? ==>
                reader.value.itemsList.items
                == old(reader.value.itemsList.items) + FlatMap(Visits(g, RootNode, ObjectsNode), ReaderOf(itemsList))
      ensures reader.Some? ==>
                writer.value.varList.items
                == old(writer.value.varList.items) + FlatMap(Visits(g, RootNode, ObjectsNode), WriterOf(varList))
    {
      if reader.None? {
        if FlatMap(Visits(g, RootNode, ObjectsNode), ReaderOf(itemsList)) != []
           || FlatMap(Visits(g, RootNode, ObjectsNode), WriterOf(varList)) != [] {
          return Fail(AttributeError);
        }
        return Pass;
      }
      RecClSetup(itemsList, varList, reader.value.itemsList, writer.value.varList, g, RootNode, ObjectsNode);
      r := Pass;
    }

    /** `rec_clsetup(root, objects, lv)`, appending to the reader's list `rl` and the writer's list `wl`. */
    static method RecClSetup(items: seq<string>, vars: seq<string>, rl: NodeList, wl: NodeList,
                             lv: Level, root: Handle, objects: Handle)
      requires rl != wl
      modifies rl, wl
      ensures rl.items == old(rl.items) + FlatMap(Visits(lv, root, objects), ReaderOf(items))
      ensures wl.items == old(wl.items) + FlatMap(Visits(lv, root, objects), WriterOf(vars))
      decreases lv, 2
    {
      ClFolders(items, vars, rl, wl, lv, root);
      ClObjects(items, vars, rl, wl, lv.objects, objects);
      ClVariables(items, vars, rl, wl, lv.variables, root);
      ClProperties(items, vars, rl, wl, lv.properties, root);
      AgentsJoin(lv, root, objects, old(rl.items), ReaderOf(items));
      AgentsJoin(lv, root, objects, old(wl.items), WriterOf(vars));
    }

    /** The four loops of a walk, one after the other, extend a list by the whole walk. */
    static lemma AgentsJoin<T>(lv: Level, root: Handle, objects: Handle, s0: seq<T>, f: Visit -> seq<T>)
      ensures s0 + FlatMap(FolderVisits(lv, root, |lv.folders|), f)
              + FlatMap(ObjectVisits(lv.objects, objects, |lv.objects|), f)
              + FlatMap(VariableVisits(lv.variables, root, |lv.variables|), f)
              + FlatMap(PropertyVisits(lv.properties, root, |lv.properties|), f)
              == s0 + FlatMap(Visits(lv, root, objects), f)
    {
      VisitsSplit(lv, root, objects, f);
      AppendFour(s0, FlatMap(FolderVisits(lv, root, |lv.folders|), f),
                 FlatMap(ObjectVisits(lv.objects, objects, |lv.objects|), f),
                 FlatMap(VariableVisits(lv.variables, root, |lv.variables|), f),
                 FlatMap(PropertyVisits(lv.properties, root, |lv.properties|), f));
    }

    static method ClFolders(items: seq<string>, vars: seq<string>, rl: NodeList, wl: NodeList, lv: Level, root: Handle)
      requires rl != wl
      modifies rl, wl
      ensures rl.items == old(rl.items) + FlatMap(FolderVisits(lv, root, |lv.folders|), ReaderOf(items))
      ensures wl.items == old(wl.items) + FlatMap(FolderVisits(lv, root, |lv.folders|), WriterOf(vars))
      decreases lv, 1
    {
      for i := 0 to |lv.folders|
        invariant rl.items == old(rl.items) + FlatMap(FolderVisits(lv, root, i), ReaderOf(items))
        invariant wl.items == old(wl.items) + FlatMap(FolderVisits(lv, root, i), WriterOf(vars))
      {
        ClFolder(items, vars, rl, wl, lv, root, i, old(rl.items), old(wl.items));
      }
    }

    /** One round of the folders loop of `rec_clsetup`, after `r0` and `w0`: the walk of the folder's contents. */
    static method ClFolder(items: seq<string>, vars: seq<string>, rl: NodeList, wl: NodeList, lv: Level, root: Handle, i: nat,
                           ghost r0: seq<Handle>, ghost w0: seq<Handle>)
      requires rl != wl && i < |lv.folders|
      requires rl.items == r0 + FlatMap(FolderVisits(lv, root, i), ReaderOf(items))
      requires wl.items == w0 + FlatMap(FolderVisits(lv, root, i), WriterOf(vars))
      modifies rl, wl
      ensures rl.items == r0 + FlatMap(FolderVisits(lv, root, i + 1), ReaderOf(items))
      ensures wl.items == w0 + FlatMap(FolderVisits(lv, root, i + 1), WriterOf(vars))
      decreases lv, 0
    {
      var e := lv.folders[i];
      var folderNode := ChildOf(root, e.folder.namespace, e.folder.name);
      RecClSetup(items, vars, rl, wl, e.content, folderNode, folderNode);
      assert ReaderOf(items)(FolderVisit(e.folder, folderNode)) == [] && WriterOf(vars)(FolderVisit(e.folder, folderNode)) == [];
      FolderExtendsBy(lv, root, i, r0, ReaderOf(items));
      FolderExtendsBy(lv, root, i, w0, WriterOf(vars));
    }

    static method ClObjects(items: seq<string>, vars: seq<string>, rl: NodeList, wl: NodeList, os: seq<ObjectEntry>, objects: Handle)
      requires rl != wl
      modifies rl, wl
      ensures rl.items == old(rl.items) + FlatMap(ObjectVisits(os, objects, |os|), ReaderOf(items))
      ensures wl.items == old(wl.items) + FlatMap(ObjectVisits(os, objects, |os|), WriterOf(vars))
    {
      for i := 0 to |os|
        invariant rl.items == old(rl.items) + FlatMap(ObjectVisits(os, objects, i), ReaderOf(items))
        invariant wl.items == old(wl.items) + FlatMap(ObjectVisits(os, objects, i), WriterOf(vars))
      {
        ClObjectAt(items, vars, rl, wl, os, objects, i, old(rl.items), old(wl.items));
      }
    }

    /** Round `i` of the objects loop of `rec_clsetup`, after `r0` and `w0`, as the loop sees it. */
    static method ClObjectAt(items: seq<string>, vars: seq<string>, rl: NodeList, wl: NodeList, os: seq<ObjectEntry>, objects: Handle, i: nat,
                             ghost r0: seq<Handle>, ghost w0: seq<Handle>)
      requires rl != wl && i < |os|
      requires rl.items == r0 + FlatMap(ObjectVisits(os, objects, i), ReaderOf(items))
      requires wl.items == w0 + FlatMap(ObjectVisits(os, objects, i), WriterOf(vars))
      modifies rl, wl
      ensures rl.items == r0 + FlatMap(ObjectVisits(os, objects, i + 1), ReaderOf(items))
      ensures wl.items == w0 + FlatMap(ObjectVisits(os, objects, i + 1), WriterOf(vars))
    {
      ClObject(items, vars, rl, wl, os[i], objects);
      assert rl.items == r0 + FlatMap(ObjectVisits(os, objects, i + 1), ReaderOf(items)) by {
        ObjectExtends(os, objects, i, r0, ReaderOf(items));
      }
      assert wl.items == w0 + FlatMap(ObjectVisits(os, objects, i + 1), WriterOf(vars)) by {
        ObjectExtends(os, objects, i, w0, WriterOf(vars));
      }
    }

    /** One round of the objects loop of `rec_clsetup`: the walk of the object's content. */
    static method ClObject(items: seq<string>, vars: seq<string>, rl: NodeList, wl: NodeList, e: ObjectEntry, objects: Handle)
      requires rl != wl
      modifies rl, wl
      ensures var h := ChildOf(objects, e.obj.namespace, e.obj.name);
              rl.items == old(rl.items) + (ReaderOf(items)(ObjectVisit(e.obj, h)) + FlatMap(ContentVisits(e.content, h), ReaderOf(items)))
              && wl.items == old(wl.items) + (WriterOf(vars)(ObjectVisit(e.obj, h)) + FlatMap(ContentVisits(e.content, h), WriterOf(vars)))
    {
      var objNode := ChildOf(objects, e.obj.namespace, e.obj.name);
      ClContent(items, vars, rl, wl, e.content, objNode);
      assert ReaderOf(items)(ObjectVisit(e.obj, objNode)) == [] && WriterOf(vars)(ObjectVisit(e.obj, objNode)) == [];
    }

    /** The variables and then the properties loop of `rec_clsetup` for one object. */
    static method ClContent(items: seq<string>, vars: seq<string>, rl: NodeList, wl: NodeList, c: ObjectContent, h: Handle)
      requires rl != wl
      modifies rl, wl
      ensures rl.items == old(rl.items) + FlatMap(ContentVisits(c, h), ReaderOf(items))
      ensures wl.items == old(wl.items) + FlatMap(ContentVisits(c, h), WriterOf(vars))
    {
      ClVariables(items, vars, rl, wl, c.variables, h);
      ClProperties(items, vars, rl, wl, c.properties, h);
      assert rl.items == old(rl.items) + FlatMap(ContentVisits(c, h), ReaderOf(items)) by {
        ContentJoin(c, h, old(rl.items), ReaderOf(items));
      }
      assert wl.items == old(wl.items) + FlatMap(ContentVisits(c, h), WriterOf(vars)) by {
        ContentJoin(c, h, old(wl.items), WriterOf(vars));
      }
    }

    static method ClVariables(items: seq<string>, vars: seq<string>, rl: NodeList, wl: NodeList, vs: seq<TragenVariable>, root: Handle)
      requires rl != wl
      modifies rl, wl
      ensures rl.items == old(rl.items) + FlatMap(VariableVisits(vs, root, |vs|), ReaderOf(items))
      ensures wl.items == old(wl.items) + FlatMap(VariableVisits(vs, root, |vs|), WriterOf(vars))
    {
      for i := 0 to |vs|
        invariant rl.items == old(rl.items) + FlatMap(VariableVisits(vs, root, i), ReaderOf(items))
        invariant wl.items == old(wl.items) + FlatMap(VariableVisits(vs, root, i), WriterOf(vars))
      {
        ClVariable(items, vars, rl, wl, vs[i], root);
        assert rl.items == old(rl.items) + FlatMap(VariableVisits(vs, root, i + 1), ReaderOf(items)) by {
          VariableExtends(vs, root, i, old(rl.items), ReaderOf(items));
        }
        assert wl.items == old(wl.items) + FlatMap(VariableVisits(vs, root, i + 1), WriterOf(vars)) by {
          VariableExtends(vs, root, i, old(wl.items), WriterOf(vars));
        }
      }
    }

    /** One round of the variables loop of `rec_clsetup`. */
    static method ClVariable(items: seq<string>, vars: seq<string>, rl: NodeList, wl: NodeList, x: TragenVariable, root: Handle)
      requires rl != wl
      modifies rl, wl
      ensures rl.items == old(rl.items) + ReaderOf(items)(VariableVisit(x, ChildOf(root, x.namespace, x.name)))
      ensures wl.items == old(wl.items) + WriterOf(vars)(VariableVisit(x, ChildOf(root, x.namespace, x.name)))
    {
      if x.name in items {
        var varNode := ChildOf(root, x.namespace, x.name);
        rl.Append(varNode);
      }
      if x.name in vars {
        var varNode := ChildOf(root, x.namespace, x.name);
        wl.Append(varNode);
      }
    }

    static method ClProperties(items: seq<string>, vars: seq<string>, rl: NodeList, wl: NodeList, ps: seq<TragenProperty>, root: Handle)
      requires rl != wl
      modifies rl, wl
      ensures rl.items == old(rl.items) + FlatMap(PropertyVisits(ps, root, |ps|), ReaderOf(items))
      ensures wl.items == old(wl.items) + FlatMap(PropertyVisits(ps, root, |ps|), WriterOf(vars))
    {
      for i := 0 to |ps|
        invariant rl.items == old(rl.items) + FlatMap(PropertyVisits(ps, root, i), ReaderOf(items))
        invariant wl.items == old(wl.items) + FlatMap(PropertyVisits(ps, root, i), WriterOf(vars))
      {
        ClProperty(items, rl, ps[i], root);
        assert rl.items == old(rl.items) + FlatMap(PropertyVisits(ps, root, i + 1), ReaderOf(items)) by {
          PropertyExtends(ps, root, i, old(rl.items), ReaderOf(items));
        }
        assert wl.items == old(wl.items) + FlatMap(PropertyVisits(ps, root, i + 1), WriterOf(vars)) by {
          PropertyExtends(ps, root, i, old(wl.items), WriterOf(vars));
        }
      }
    }

    /** One round of the properties loop of `rec_clsetup`: properties only ever go to the reader. */
    static method ClProperty(items: seq<string>, rl: NodeList, p: TragenProperty, root: Handle)
      modifies rl
      ensures rl.items == old(rl.items) + ReaderOf(items)(PropertyVisit(p, ChildOf(root, p.namespace, p.name)))
    {
      if p.name in items {
        var prtNode := ChildOf(root, p.namespace, p.name);
        rl.Append(prtNode);
      }
    }

    // ------------------------------------------------------------ setup_rw

    /** `setup_rw(lv)`: the writable and the readable names of the walk, in walk order. */
    method SetupRw(g: Level) returns (writables: seq<string>, readables: seq<string>)
      ensures writables == FlatMap(Visits(g, RootNode, ObjectsNode), WritableOf)
      ensures readables == FlatMap(Visits(g, RootNode, ObjectsNode), ReadableOf)
    {
      writables, readables := RecRwSetup(g, RootNode, ObjectsNode);
    }

    /** `rec_rwsetup(lv)`; the nodes `root` and `objects` only name the walk it follows. */
    static method RecRwSetup(lv: Level, ghost root: Handle, ghost objects: Handle) returns (w: seq<string>, r: seq<string>)
      ensures w == FlatMap(Visits(lv, root, objects), WritableOf)
      ensures r == FlatMap(Visits(lv, root, objects), ReadableOf)
      decreases lv, 2
    {
      var w1, r1 := RwFolders(lv, root);
      var w2, r2 := RwObjects(lv.objects, objects);
      var w3, r3 := RwVariables(lv.variables, root);
      var w4, r4 := RwProperties(lv.properties, root);
      w := w1 + w2 + w3 + w4;
      r := r1 + r2 + r3 + r4;
      VisitsSplit(lv, root, objects, WritableOf);
      VisitsSplit(lv, root, objects, ReadableOf);
    }

    static method RwFolders(lv: Level, ghost root: Handle) returns (w: seq<string>, r: seq<string>)
      ensures w == FlatMap(FolderVisits(lv, root, |lv.folders|), WritableOf)
      ensures r == FlatMap(FolderVisits(lv, root, |lv.folders|), ReadableOf)
      decreases lv, 1
    {
      w, r := [], [];
      for i := 0 to |lv.folders|
        invariant w == FlatMap(FolderVisits(lv, root, i), WritableOf)
        invariant r == FlatMap(FolderVisits(lv, root, i), ReadableOf)
      {
        w, r := RwFolder(lv, root, i, w, r);
      }
    }

    /** One round of the folders loop of `rec_rwsetup`, after `w0` and `r0`: the walk of the folder's contents. */
    static method RwFolder(lv: Level, ghost root: Handle, i: nat, w0: seq<string>, r0: seq<string>) returns (w: seq<string>, r: seq<string>)
      requires i < |lv.folders|
      requires w0 == FlatMap(FolderVisits(lv, root, i), WritableOf)
      requires r0 == FlatMap(FolderVisits(lv, root, i), ReadableOf)
      ensures w == FlatMap(FolderVisits(lv, root, i + 1), WritableOf)
      ensures r == FlatMap(FolderVisits(lv, root, i + 1), ReadableOf)
      decreases lv, 0
    {
      ghost var h := ChildOf(root, lv.folders[i].folder.namespace, lv.folders[i].folder.name);
      var wi, ri := RecRwSetup(lv.folders[i].content, h, h);
      w, r := w0 + wi, r0 + ri;
      assert w == FlatMap(FolderVisits(lv, root, i + 1), WritableOf) by {
        FolderStep(lv, root, i, WritableOf);
        assert WritableOf(FolderVisit(lv.folders[i].folder, h)) + wi == wi;
      }
      assert r == FlatMap(FolderVisits(lv, root, i + 1), ReadableOf) by {
        FolderStep(lv, root, i, ReadableOf);
        assert ReadableOf(FolderVisit(lv.folders[i].folder, h)) + ri == ri;
      }
    }

    static method RwObjects(os: seq<ObjectEntry>, ghost objects: Handle) returns (w: seq<string>, r: seq<string>)
      ensures w == FlatMap(ObjectVisits(os, objects, |os|), WritableOf)
      ensures r == FlatMap(ObjectVisits(os, objects, |os|), ReadableOf)
    {
      w, r := [], [];
      for i := 0 to |os|
        invariant w == FlatMap(ObjectVisits(os, objects, i), WritableOf)
        invariant r == FlatMap(ObjectVisits(os, objects, i), ReadableOf)
      {
        var wi, ri := RwObject(os[i], objects);
        w, r := RwObjectJoin(os, objects, i, w, r, wi, ri);
      }
    }

    /** The objects loop of `rec_rwsetup` after round `i`, which gave `wi` and `ri`. */
    static method RwObjectJoin(os: seq<ObjectEntry>, ghost objects: Handle, i: nat, w0: seq<string>, r0: seq<string>, wi: seq<string>, ri: seq<string>)
      returns (w: seq<string>, r: seq<string>)
      requires i < |os|
      requires w0 == FlatMap(ObjectVisits(os, objects, i), WritableOf)
      requires r0 == FlatMap(ObjectVisits(os, objects, i), ReadableOf)
      requires var h := ChildOf(objects, os[i].obj.namespace, os[i].obj.name);
               wi == WritableOf(ObjectVisit(os[i].obj, h)) + FlatMap(ContentVisits(os[i].content, h), WritableOf)
               && ri == ReadableOf(ObjectVisit(os[i].obj, h)) + FlatMap(ContentVisits(os[i].content, h), ReadableOf)
      ensures w == FlatMap(ObjectVisits(os, objects, i + 1), WritableOf)
      ensures r == FlatMap(ObjectVisits(os, objects, i + 1), ReadableOf)
    {
      w, r := w0 + wi, r0 + ri;
      assert w == FlatMap(ObjectVisits(os, objects, i + 1), WritableOf) by {
        ObjectStep(os, objects, i, WritableOf);
      }
      assert r == FlatMap(ObjectVisits(os, objects, i + 1), ReadableOf) by {
        ObjectStep(os, objects, i, ReadableOf);
      }
    }

    /** One round of the objects loop of `rec_rwsetup`: the walk of the object's content. */
    static method RwObject(e: ObjectEntry, ghost objects: Handle) returns (w: seq<string>, r: seq<string>)
      ensures var h := ChildOf(objects, e.obj.namespace, e.obj.name);
              w == WritableOf(ObjectVisit(e.obj, h)) + FlatMap(ContentVisits(e.content, h), WritableOf)
              && r == ReadableOf(ObjectVisit(e.obj, h)) + FlatMap(ContentVisits(e.content, h), ReadableOf)
    {
      ghost var h := ChildOf(objects, e.obj.namespace, e.obj.name);
      var wv, rv := RwVariables(e.content.variables, h);
      var wp, rp := RwProperties(e.content.properties, h);
      w, r := wv + wp, rv + rp;
      assert w == FlatMap(ContentVisits(e.content, h), WritableOf) by {
        ContentSplit(e.content, h, WritableOf);
      }
      assert r == FlatMap(ContentVisits(e.content, h), ReadableOf) by {
        ContentSplit(e.content, h, ReadableOf);
      }
      assert WritableOf(ObjectVisit(e.obj, h)) + w == w;
      assert ReadableOf(ObjectVisit(e.obj, h)) + r == r;
    }

    static method RwVariables(vs: seq<TragenVariable>, ghost root: Handle) returns (w: seq<string>, r: seq<string>)
      ensures w == FlatMap(VariableVisits(vs, root, |vs|), WritableOf)
      ensures r == FlatMap(VariableVisits(vs, root, |vs|), ReadableOf)
    {
      w, r := [], [];
      for i := 0 to |vs|
        invariant w == FlatMap(VariableVisits(vs, root, i), WritableOf)
        invariant r == FlatMap(VariableVisits(vs, root, i), ReadableOf)
      {
        assert r + [vs[i].name] == FlatMap(VariableVisits(vs, root, i + 1), ReadableOf) by {
          VariableStep(vs, root, i, ReadableOf);
        }
        assert (if vs[i].isWritable then w + [vs[i].name] else w) == FlatMap(VariableVisits(vs, root, i + 1), WritableOf) by {
          VariableStep(vs, root, i, WritableOf);
        }
        r := r + [vs[i].name];
        if vs[i].isWritable {
          w := w + [vs[i].name];
        }
      }
    }

    static method RwProperties(ps: seq<TragenProperty>, ghost root: Handle) returns (w: seq<string>, r: seq<string>)
      ensures w == FlatMap(PropertyVisits(ps, root, |ps|), WritableOf)
      ensures r == FlatMap(PropertyVisits(ps, root, |ps|), ReadableOf)
    {
      w, r := [], [];
      for i := 0 to |ps|
        invariant r == FlatMap(PropertyVisits(ps, root, i), ReadableOf)
      {
        assert r + [ps[i].name] == FlatMap(PropertyVisits(ps, root, i + 1), ReadableOf) by {
          PropertyStep(ps, root, i, ReadableOf);
        }
        r := r + [ps[i].name];
      }
      assert w == FlatMap(PropertyVisits(ps, root, |ps|), WritableOf) by {
        PropertiesAddNothing(ps, root, |ps|, WritableOf);
      }
    }
  }
}
