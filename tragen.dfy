/**
 * The Tragen context (`tragen/tragen.py`): one server, its clients, and the rosters of
 * threads the context starts for them: variable updaters, notifiers, and a reader and a
 * writer for every call of `set_client_agents`.
 */
module TragenContext {
  import opened Wrappers
  import opened PyValues
  import opened NamespaceGraph
  import opened AddressSpace
  import opened Walk
  import opened TragenServer
  import opened TragenClient

  // ---------------------------------------------------------------- the calls of set_client_agents

  /**
   * The variable and property visits each call of `set_client_agents` handles in its own
   * loops, one entry per call, in the order the calls start: the call on `lv` itself, then
   * the calls on its folders, then the calls on its objects.
   */
  function Calls(lv: Level, root: Handle, objects: Handle): seq<seq<Visit>>
    decreases lv, 2, 0
  {
    [OwnVisits(lv, root)] + FolderCalls(lv, root, |lv.folders|) + ObjectCalls(lv.objects, objects, |lv.objects|)
  }

  /** The visits of a level's own `variables` and `properties` loops. */
  function OwnVisits(lv: Level, root: Handle): seq<Visit>
  {
    VariableVisits(lv.variables, root, |lv.variables|) + PropertyVisits(lv.properties, root, |lv.properties|)
  }

  /** The calls made on the first `k` folders of `lv`, each with every call it makes in turn. */
  function FolderCalls(lv: Level, root: Handle, k: nat): seq<seq<Visit>>
    requires k <= |lv.folders|
    decreases lv, 1, k
  {
    if k == 0 then []
    else
      var e := lv.folders[k - 1];
      var h := ChildOf(root, e.folder.namespace, e.folder.name);
      FolderCalls(lv, root, k - 1) + Calls(e.content, h, h)
  }

  /** The calls made on the first `k` objects: an object's content has no folders and no objects. */
  function ObjectCalls(os: seq<ObjectEntry>, objects: Handle, k: nat): (cs: seq<seq<Visit>>)
    requires k <= |os|
    ensures |cs| == k
    ensures forall j :: 0 <= j < k ==> cs[j] == ContentVisits(os[j].content, ChildOf(objects, os[j].obj.namespace, os[j].obj.name))
  {
    if k == 0 then []
    else
      var e := os[k - 1];
      ObjectCalls(os, objects, k - 1) + [ContentVisits(e.content, ChildOf(objects, e.obj.namespace, e.obj.name))]
  }

  /** The node of a visit at which `set_client_agents` calls itself: a folder's or an object's. */
  function NestedOf(v: Visit): seq<Handle>
  {
    match v
    case FolderVisit(_, h) => [h]
    case ObjectVisit(_, h) => [h]
    case _ => []
  }

  /** One call on `lv`, then one per folder and per object visited below it. */
  lemma {:induction false} CallsCount(lv: Level, root: Handle, objects: Handle)
    ensures |Calls(lv, root, objects)| == 1 + |FlatMap(Visits(lv, root, objects), NestedOf)|
    decreases lv, 2
  {
    FolderCallsCount(lv, root, |lv.folders|);
    ObjectVisitsNested(lv.objects, objects, |lv.objects|);
    VariablesAddNothing(lv.variables, root, |lv.variables|, NestedOf);
    PropertiesAddNothing(lv.properties, root, |lv.properties|, NestedOf);
    VisitsSplit(lv, root, objects, NestedOf);
  }

  lemma {:induction false} FolderCallsCount(lv: Level, root: Handle, k: nat)
    requires k <= |lv.folders|
    ensures |FolderCalls(lv, root, k)| == |FlatMap(FolderVisits(lv, root, k), NestedOf)|
    decreases lv, 1, k
  {
    if k > 0 {
      var e := lv.folders[k - 1];
      var h := ChildOf(root, e.folder.namespace, e.folder.name);
      assert |FolderCalls(lv, root, k - 1)| == |FlatMap(FolderVisits(lv, root, k - 1), NestedOf)| by {
        FolderCallsCount(lv, root, k - 1);
      }
      assert |Calls(e.content, h, h)| == 1 + |FlatMap(Visits(e.content, h, h), NestedOf)| by {
        CallsCount(e.content, h, h);
      }
      assert |FolderCalls(lv, root, k)| == |FolderCalls(lv, root, k - 1)| + |Calls(e.content, h, h)| by {
        FolderCallsStep(lv, root, k);
      }
      assert |FlatMap(FolderVisits(lv, root, k), NestedOf)|
             == |FlatMap(FolderVisits(lv, root, k - 1), NestedOf)| + 1 + |FlatMap(Visits(e.content, h, h), NestedOf)| by {
        NestedFolderStep(lv, root, k);
      }
    } else {
      assert |FolderCalls(lv, root, k)| == 0;
      assert |FlatMap(FolderVisits(lv, root, k), NestedOf)| == 0;
    }
  }

  lemma FolderCallsStep(lv: Level, root: Handle, k: nat)
    requires 0 < k <= |lv.folders|
    ensures var e := lv.folders[k - 1];
            var h := ChildOf(root, e.folder.namespace, e.folder.name);
            |FolderCalls(lv, root, k)| == |FolderCalls(lv, root, k - 1)| + |Calls(e.content, h, h)|
  {
  }

  lemma NestedFolderStep(lv: Level, root: Handle, k: nat)
    requires 0 < k <= |lv.folders|
    ensures var e := lv.folders[k - 1];
            var h := ChildOf(root, e.folder.namespace, e.folder.name);
            |FlatMap(FolderVisits(lv, root, k), NestedOf)|
            == |FlatMap(FolderVisits(lv, root, k - 1), NestedOf)| + 1 + |FlatMap(Visits(e.content, h, h), NestedOf)|
  {
    var e := lv.folders[k - 1];
    var h := ChildOf(root, e.folder.namespace, e.folder.name);
    var before := FolderVisits(lv, root, k - 1);
    var v := FolderVisit(e.folder, h);
    assert FolderVisits(lv, root, k) == before + [v] + Visits(e.content, h, h);
    FlatMapAppend(before + [v], Visits(e.content, h, h), NestedOf);
    FlatMapAppend(before, [v], NestedOf);
    FlatMapSingle(v, NestedOf);
  }

  lemma {:induction false} ObjectVisitsNested(os: seq<ObjectEntry>, objects: Handle, k: nat)
    requires k <= |os|
    ensures |FlatMap(ObjectVisits(os, objects, k), NestedOf)| == k
    decreases k
  {
    if k > 0 {
      assert |FlatMap(ObjectVisits(os, objects, k - 1), NestedOf)| == k - 1 by {
        ObjectVisitsNested(os, objects, k - 1);
      }
      assert |FlatMap(ObjectVisits(os, objects, k), NestedOf)| == |FlatMap(ObjectVisits(os, objects, k - 1), NestedOf)| + 1 by {
        NestedObjectStep(os, objects, k);
      }
    } else {
      assert ObjectVisits(os, objects, k) == [];
    }
  }

  lemma NestedObjectStep(os: seq<ObjectEntry>, objects: Handle, k: nat)
    requires 0 < k <= |os|
    ensures |FlatMap(ObjectVisits(os, objects, k), NestedOf)| == |FlatMap(ObjectVisits(os, objects, k - 1), NestedOf)| + 1
  {
    var e := os[k - 1];
    var h := ChildOf(objects, e.obj.namespace, e.obj.name);
    var before := ObjectVisits(os, objects, k - 1);
    var v := ObjectVisit(e.obj, h);
    var c := ContentVisits(e.content, h);
    assert ObjectVisits(os, objects, k) == before + [v] + c;
    assert FlatMap(c, NestedOf) == [] by {
      ContentSplit(e.content, h, NestedOf);
      VariablesAddNothing(e.content.variables, h, |e.content.variables|, NestedOf);
      PropertiesAddNothing(e.content.properties, h, |e.content.properties|, NestedOf);
    }
    FlatMapAppend(before + [v], c, NestedOf);
    FlatMapAppend(before, [v], NestedOf);
    FlatMapSingle(v, NestedOf);
  }

  // ---------------------------------------------------------------- the agents of one set_client_agents call

  /**
   * The body of `set_client_agents(items_list, var_list, root, objects, lv)`: every call,
   * the recursive ones included, builds a reader and a writer with the default lists `rl`
   * and `wl`, and the nodes of the call's own variables and properties go into the lists of
   * the agents it built. Since those are the shared defaults, every agent of every call ends
   * up with all the eligible nodes of the walk.
   */
  method AgentsAt(items: seq<string>, vars: seq<string>, rl: NodeList, wl: NodeList,
                  lv: Level, root: Handle, objects: Handle)
    returns (rs: seq<ItemValueReader>, ws: seq<VariableValueWriter>)
    requires rl != wl
    modifies rl, wl
    ensures |rs| == |Calls(lv, root, objects)| && |ws| == |rs|
    ensures forall r :: r in rs ==> r.itemsList == rl && r.period == ReaderPeriod
    ensures forall w :: w in ws ==> w.varList == wl && w.period == WriterPeriod
    ensures rl.items == old(rl.items) + FlatMap(Visits(lv, root, objects), ReaderOf(items))
    ensures wl.items == old(wl.items) + FlatMap(Visits(lv, root, objects), WriterOf(vars))
    decreases lv, 2
  {
    var reader := new ItemValueReader(rl, ReaderPeriod);
    var writer := new VariableValueWriter(wl, WriterPeriod);
    var frs, fws := AgentsFolders(items, vars, rl, wl, lv, root);
    var ors, ows := AgentsObjects(items, vars, rl, wl, lv.objects, objects);
    ClientTragen.ClVariables(items, vars, reader.itemsList, writer.varList, lv.variables, root);
    ClientTragen.ClProperties(items, vars, reader.itemsList, writer.varList, lv.properties, root);
    assert rl.items == old(rl.items) + FlatMap(Visits(lv, root, objects), ReaderOf(items)) by {
      ClientTragen.AgentsJoin(lv, root, objects, old(rl.items), ReaderOf(items));
    }
    assert wl.items == old(wl.items) + FlatMap(Visits(lv, root, objects), WriterOf(vars)) by {
      ClientTragen.AgentsJoin(lv, root, objects, old(wl.items), WriterOf(vars));
    }
    rs := [reader] + frs + ors;
    ws := [writer] + fws + ows;
    assert |Calls(lv, root, objects)| == 1 + |frs| + |ors|;
  }

  method AgentsFolders(items: seq<string>, vars: seq<string>, rl: NodeList, wl: NodeList, lv: Level, root: Handle)
    returns (rs: seq<ItemValueReader>, ws: seq<VariableValueWriter>)
    requires rl != wl
    modifies rl, wl
    ensures |rs| == |FolderCalls(lv, root, |lv.folders|)| && |ws| == |rs|
    ensures forall r :: r in rs ==> r.itemsList == rl && r.period == ReaderPeriod
    ensures forall w :: w in ws ==> w.varList == wl && w.period == WriterPeriod
    ensures rl.items == old(rl.items) + FlatMap(FolderVisits(lv, root, |lv.folders|), ReaderOf(items))
    ensures wl.items == old(wl.items) + FlatMap(FolderVisits(lv, root, |lv.folders|), WriterOf(vars))
    decreases lv, 1
  {
    rs, ws := [], [];
    var i := 0;
    while i < |lv.folders|
      invariant 0 <= i <= |lv.folders|
      invariant |rs| == |FolderCalls(lv, root, i)| && |ws| == |rs|
      invariant forall r :: r in rs ==> r.itemsList == rl && r.period == ReaderPeriod
      invariant forall w :: w in ws ==> w.varList == wl && w.period == WriterPeriod
      invariant rl.items == old(rl.items) + FlatMap(FolderVisits(lv, root, i), ReaderOf(items))
      invariant wl.items == old(wl.items) + FlatMap(FolderVisits(lv, root, i), WriterOf(vars))
    {
      rs, ws := AgentsFolder(items, vars, rl, wl, lv, root, i, old(rl.items), old(wl.items), rs, ws);
      i := i + 1;
    }
  }

  /** One round of the folders loop: the call on the folder's contents, its agents added to `rs0` and `ws0`. */
  method AgentsFolder(items: seq<string>, vars: seq<string>, rl: NodeList, wl: NodeList, lv: Level, root: Handle, i: nat,
                      ghost r0: seq<Handle>, ghost w0: seq<Handle>, rs0: seq<ItemValueReader>, ws0: seq<VariableValueWriter>)
    returns (rs: seq<ItemValueReader>, ws: seq<VariableValueWriter>)
    requires rl != wl && i < |lv.folders|
    requires |rs0| == |FolderCalls(lv, root, i)| && |ws0| == |rs0|
    requires forall r :: r in rs0 ==> r.itemsList == rl && r.period == ReaderPeriod
    requires forall w :: w in ws0 ==> w.varList == wl && w.period == WriterPeriod
    requires rl.items == r0 + FlatMap(FolderVisits(lv, root, i), ReaderOf(items))
    requires wl.items == w0 + FlatMap(FolderVisits(lv, root, i), WriterOf(vars))
    modifies rl, wl
    ensures |rs| == |FolderCalls(lv, root, i + 1)| && |ws| == |rs|
    ensures forall r :: r in rs ==> r.itemsList == rl && r.period == ReaderPeriod
    ensures forall w :: w in ws ==> w.varList == wl && w.period == WriterPeriod
    ensures rl.items == r0 + FlatMap(FolderVisits(lv, root, i + 1), ReaderOf(items))
    ensures wl.items == w0 + FlatMap(FolderVisits(lv, root, i + 1), WriterOf(vars))
    decreases lv, 0
  {
    var e := lv.folders[i];
    var folderNode := ChildOf(root, e.folder.namespace, e.folder.name);
    var frs, fws := AgentsAt(items, vars, rl, wl, e.content, folderNode, folderNode);
    assert ReaderOf(items)(FolderVisit(e.folder, folderNode)) == [] && WriterOf(vars)(FolderVisit(e.folder, folderNode)) == [];
    FolderExtendsBy(lv, root, i, r0, ReaderOf(items));
    FolderExtendsBy(lv, root, i, w0, WriterOf(vars));
    rs := rs0 + frs;
    ws := ws0 + fws;
  }

  method AgentsObjects(items: seq<string>, vars: seq<string>, rl: NodeList, wl: NodeList, os: seq<ObjectEntry>, objects: Handle)
    returns (rs: seq<ItemValueReader>, ws: seq<VariableValueWriter>)
    requires rl != wl
    modifies rl, wl
    ensures |rs| == |os| && |ws| == |os|
    ensures forall r :: r in rs ==> r.itemsList == rl && r.period == ReaderPeriod
    ensures forall w :: w in ws ==> w.varList == wl && w.period == WriterPeriod
    ensures rl.items == old(rl.items) + FlatMap(ObjectVisits(os, objects, |os|), ReaderOf(items))
    ensures wl.items == old(wl.items) + FlatMap(ObjectVisits(os, objects, |os|), WriterOf(vars))
  {
    rs, ws := [], [];
    var i := 0;
    while i < |os|
      invariant 0 <= i <= |os| && |rs| == i && |ws| == i
      invariant forall r :: r in rs ==> r.itemsList == rl && r.period == ReaderPeriod
      invariant forall w :: w in ws ==> w.varList == wl && w.period == WriterPeriod
      invariant rl.items == old(rl.items) + FlatMap(ObjectVisits(os, objects, i), ReaderOf(items))
      invariant wl.items == old(wl.items) + FlatMap(ObjectVisits(os, objects, i), WriterOf(vars))
    {
      rs, ws := AgentsObject(items, vars, rl, wl, os, objects, i, old(rl.items), old(wl.items), rs, ws);
      i := i + 1;
    }
  }

  /** One round of the objects loop: a reader and a writer on the defaults, and the call on the object's contents. */
  method AgentsObject(items: seq<string>, vars: seq<string>, rl: NodeList, wl: NodeList, os: seq<ObjectEntry>, objects: Handle, i: nat,
                      ghost r0: seq<Handle>, ghost w0: seq<Handle>, rs0: seq<ItemValueReader>, ws0: seq<VariableValueWriter>)
    returns (rs: seq<ItemValueReader>, ws: seq<VariableValueWriter>)
    requires rl != wl && i < |os|
    requires |rs0| == i && |ws0| == i
    requires forall r :: r in rs0 ==> r.itemsList == rl && r.period == ReaderPeriod
    requires forall w :: w in ws0 ==> w.varList == wl && w.period == WriterPeriod
    requires rl.items == r0 + FlatMap(ObjectVisits(os, objects, i), ReaderOf(items))
    requires wl.items == w0 + FlatMap(ObjectVisits(os, objects, i), WriterOf(vars))
    modifies rl, wl
    ensures |rs| == i + 1 && |ws| == i + 1
    ensures forall r :: r in rs ==> r.itemsList == rl && r.period == ReaderPeriod
    ensures forall w :: w in ws ==> w.varList == wl && w.period == WriterPeriod
    ensures rl.items == r0 + FlatMap(ObjectVisits(os, objects, i + 1), ReaderOf(items))
    ensures wl.items == w0 + FlatMap(ObjectVisits(os, objects, i + 1), WriterOf(vars))
  {
    var reader := new ItemValueReader(rl, ReaderPeriod);
    var writer := new VariableValueWriter(wl, WriterPeriod);
    ClientTragen.ClObject(items, vars, reader.itemsList, writer.varList, os[i], objects);
    ObjectExtends(os, objects, i, r0, ReaderOf(items));
    ObjectExtends(os, objects, i, w0, WriterOf(vars));
    rs := rs0 + [reader];
    ws := ws0 + [writer];
  }

  /** Reading a folder visit and then the visit of a listed variable yields that variable's node. */
  lemma TwoVisitsRead(fv: Visit, xv: Visit, items: seq<string>)
    requires fv.FolderVisit? && xv.VariableVisit? && xv.variable.name in items
    ensures FlatMap([fv, xv], ReaderOf(items)) == [xv.node]
  {
    FlatMapAppend([fv], [xv], ReaderOf(items));
    FlatMapSingle(fv, ReaderOf(items));
    FlatMapSingle(xv, ReaderOf(items));
  }

  /**
   * A level holding one folder `F` with one variable `x`, read with the list `[x.name]`: the
   * call on the level and the call on `F` build two readers (and two writers), every one on
   * the shared default list, and that list holds the node of `x`, which the call on the level
   * itself never visits.
   */
  lemma SharedAgentsExample(root: Handle, x: TragenVariable)
    ensures var lv := Level([FolderEntry(TragenFolder("F", 1), Level([], [], [x], []))], [], [], []);
            |Calls(lv, root, root)| == 2
            && FlatMap(Calls(lv, root, root)[0], ReaderOf([x.name])) == []
            && FlatMap(Visits(lv, root, root), ReaderOf([x.name])) == [ChildOf(ChildOf(root, 1, "F"), x.namespace, x.name)]
  {
    var inner := Level([], [], [x], []);
    var lv := Level([FolderEntry(TragenFolder("F", 1), inner)], [], [], []);
    var f := ChildOf(root, 1, "F");
    var xv := VariableVisit(x, ChildOf(f, x.namespace, x.name));
    assert OwnVisits(lv, root) == [];
    assert VariableVisits(inner.variables, f, 1) == [xv];
    assert Visits(inner, f, f) == [xv];
    assert Calls(inner, f, f) == [[xv]];
    assert FolderCalls(lv, root, 1) == [[xv]];
    assert Calls(lv, root, root) == [[], [xv]];
    assert FolderVisits(lv, root, 1) == [FolderVisit(TragenFolder("F", 1), f)] + [xv];
    assert Visits(lv, root, root) == [FolderVisit(TragenFolder("F", 1), f), xv];
    assert FlatMap([FolderVisit(TragenFolder("F", 1), f), xv], ReaderOf([x.name])) == [xv.node] by {
      TwoVisitsRead(FolderVisit(TragenFolder("F", 1), f), xv, [x.name]);
    }
  }

  /** `[ClientTragen(srv_url) for i in range(nb_client)]`. */
  method NewClients(srvUrl: string, nbClient: int, readerDefault: NodeList, writerDefault: NodeList)
    returns (cs: seq<ClientTragen>)
    ensures |cs| == (if nbClient < 0 then 0 else nbClient)
    ensures forall c :: c in cs ==> fresh(c) && c.srvAddress == srvUrl && c.name == None && c.independant && !c.connected
    ensures forall i, j :: 0 <= i < j < |cs| ==> cs[i] != cs[j]
  {
    cs := [];
    var i := 0;
    while i < nbClient
      invariant 0 <= i && |cs| == i && (if nbClient < 0 then i == 0 else i <= nbClient)
      invariant forall c :: c in cs ==> fresh(c) && c.srvAddress == srvUrl && c.name == None && c.independant && !c.connected
      invariant forall k, j :: 0 <= k < j < |cs| ==> cs[k] != cs[j]
    {
      var c := new ClientTragen(srvUrl, None, true, readerDefault, writerDefault);
      cs := cs + [c];
      i := i + 1;
    }
  }

  // ---------------------------------------------------------------- the context

  /** `Tragen`: one server, its clients, and the threads the context builds for them. */
  class Tragen {
    const server: ServerTragen
    const srvUrl: string
    /** The lists the `[]` defaults of `ItemValueReader` and `VariableValueWriter` evaluate to. */
    const readerDefault: NodeList
    const writerDefault: NodeList
    var clients: seq<ClientTragen>
    /** `srv_data`, set by `init`; `None` until then. */
    var srvData: Option<Level>
    var varUpdaters: seq<VariableNodeValue>
    var notifiers: seq<AsynchronousNotfication>
    var writers: seq<VariableValueWriter>
    var readers: seq<ItemValueReader>

    /** `__init__(srv_addr, srv_name, nb_client)`: the server is built independent, as are the clients. */
    constructor (srvAddr: string, srvName: Option<string>, nbClient: int, readerDefault: NodeList, writerDefault: NodeList)
      ensures fresh(server) && server.uri == srvAddr && server.name == srvName && server.independant
      ensures srvUrl == srvAddr && this.readerDefault == readerDefault && this.writerDefault == writerDefault
      ensures |clients| == (if nbClient < 0 then 0 else nbClient)
      ensures forall c :: c in clients ==> fresh(c) && c.srvAddress == srvAddr && c.independant && !c.connected
      ensures forall i, j :: 0 <= i < j < |clients| ==> clients[i] != clients[j]
      ensures srvData == None && varUpdaters == [] && notifiers == [] && writers == [] && readers == []
    {
      var s := new ServerTragen(srvAddr, srvName, true);
      var cs := NewClients(s.uri, nbClient, readerDefault, writerDefault);
      server := s;
      srvUrl := s.uri;
      this.readerDefault := readerDefault;
      this.writerDefault := writerDefault;
      clients := cs;
      srvData := None;
      varUpdaters := [];
      notifiers := [];
      writers := [];
      readers := [];
    }

    /**
     * `init(ua_srv_data)`: it records the data structure, then calls the server's `init`
     * with a keyword argument, `independant`, that `ServerTragen.init` does not take.
     */
    method Init(g: Level) returns (r: Outcome<ServerError>)
      modifies this
      ensures r == Fail(TypeError)
      ensures srvData == Some(g)
      ensures clients == old(clients) && varUpdaters == old(varUpdaters) && notifiers == old(notifiers)
      ensures writers == old(writers) && readers == old(readers)
    {
      srvData := Some(g);
      r := Fail(TypeError);
    }

    /** `set_updaters(root, objects, lv)`: one updater per update flag of every variable of the walk. */
    method SetUpdaters(lv: Level, root: Handle, objects: Handle)
      modifies this
      ensures Configs(varUpdaters) == Configs(old(varUpdaters)) + FlatMap(Visits(lv, root, objects), UpdatersOf)
      ensures varUpdaters[..|old(varUpdaters)|] == old(varUpdaters)
      ensures clients == old(clients) && srvData == old(srvData) && notifiers == old(notifiers)
      ensures writers == old(writers) && readers == old(readers)
    {
      var us := ServerTragen.RecSetUpdater(lv, root, objects);
      ConfigsAppend(varUpdaters, us);
      varUpdaters := varUpdaters + us;
    }

    /**
     * `set_client_agents(items_list, var_list, root, objects, lv)`: every call, the recursive
     * ones included, appends one reader and one writer built on the default lists, so the
     * rosters grow by one agent per call and all the new agents share the walk's eligible nodes.
     */
    method SetClientAgents(items: seq<string>, vars: seq<string>, lv: Level, root: Handle, objects: Handle)
      requires readerDefault != writerDefault
      modifies this, readerDefault, writerDefault
      ensures |readers| == |old(readers)| + |Calls(lv, root, objects)| && readers[..|old(readers)|] == old(readers)
      ensures |writers| == |readers| - |old(readers)| + |old(writers)| && writers[..|old(writers)|] == old(writers)
      ensures forall i :: |old(readers)| <= i < |readers| ==> readers[i].itemsList == readerDefault && readers[i].period == ReaderPeriod
      ensures forall i :: |old(writers)| <= i < |writers| ==> writers[i].varList == writerDefault && writers[i].period == WriterPeriod
      ensures readerDefault.items == old(readerDefault.items) + FlatMap(Visits(lv, root, objects), ReaderOf(items))
      ensures writerDefault.items == old(writerDefault.items) + FlatMap(Visits(lv, root, objects), WriterOf(vars))
      ensures clients == old(clients) && srvData == old(srvData) && varUpdaters == old(varUpdaters) && notifiers == old(notifiers)
    {
      var rs, ws := AgentsAt(items, vars, readerDefault, writerDefault, lv, root, objects);
      assert forall i :: |readers| <= i < |readers| + |rs| ==> (readers + rs)[i] == rs[i - |readers|];
      assert forall i :: |writers| <= i < |writers| + |ws| ==> (writers + ws)[i] == ws[i - |writers|];
      readers := readers + rs;
      writers := writers + ws;
    }

    /**
     * `set_notifiers()` over the server's table in its iteration order `order`: the notifiers
     * are appended one at a time, one per key, until the first entry that raises `TypeError`;
     * those appended before it stay in `notifiers`.
     */
    method SetNotifiers(valueOf: Handle -> PyValue) returns (r: Outcome<ServerError>, order: seq<string>)
      modifies this
      ensures forall k :: k in order <==> k in server.notifyingEvents
      ensures forall i, j :: 0 <= i < j < |order| ==> order[i] != order[j]
      ensures r.Fail? <==> exists k :: k in server.notifyingEvents && Faulty(server.notifyingEvents[k], valueOf)
      ensures r.Fail? ==> r.error == TypeError
      ensures ExtendedAlong(old(notifiers), notifiers, order, server.notifyingEvents, valueOf, r.Fail?)
      ensures forall i :: |old(notifiers)| <= i < |notifiers| ==> fresh(notifiers[i])
      ensures clients == old(clients) && srvData == old(srvData) && varUpdaters == old(varUpdaters)
      ensures writers == old(writers) && readers == old(readers)
    {
      var events := server.notifyingEvents;
      var ks, ns, fault := BuildNotifiers(events, valueOf);
      AppendBuilt(notifiers, ns, ks, events, valueOf, fault);
      notifiers := notifiers + ns;
      order := ks;
      r := if fault then Fail(TypeError) else Pass;
    }

    /**
     * `add_client(srv_addr)`: the new client goes to the end of `clients`; `initialized` says
     * whether `add_client` goes on to call its `init`, which it does when the first client is
     * connected.
     */
    method AddClient(srvAddr: string) returns (initialized: bool)
      modifies this
      ensures |clients| == |old(clients)| + 1 && clients[..|old(clients)|] == old(clients)
      ensures var c := clients[|clients| - 1];
              fresh(c) && c.srvAddress == srvAddr && c.independant && !c.connected
      ensures initialized == clients[0].connected
      ensures srvData == old(srvData) && varUpdaters == old(varUpdaters) && notifiers == old(notifiers)
      ensures writers == old(writers) && readers == old(readers)
    {
      var c := new ClientTragen(srvAddr, None, true, readerDefault, writerDefault);
      clients := clients + [c];
      initialized := clients[0].connected;
    }
  }
}
