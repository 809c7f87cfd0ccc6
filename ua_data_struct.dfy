/**
 * `UaDataStruct` (tragen/ua_data_structure/uaDataStructure.py): the object that owns a namespace
 * graph and grows it one node at a time. Every operation either raises, leaving the graph as it
 * was, or attaches exactly one node; the raised exception is modelled as a `GraphError`.
 *
 * Python's `None` and `""` are both falsy and play the same part in the argument tests, so an
 * absent name is `""`; an absent node reference is `None`.
 */
module UaDataStructure {
  import opened Wrappers
  import opened PyValues
  import opened NamespaceGraph

  datatype GraphError =
    | AmbiguousName     // "Two or more / Many ... with this name"
    | NoSuchNode        // "No such object: ..."
    | DuplicateName     // "Another ... with this name exists ..."
    | InvalidValueType  // "A property cannot be of type ..."
    | UndefinedName     // NameError: the statement names a local variable that does not exist
    | MissingAttribute  // AttributeError
    | MissingKey        // KeyError

  /** A property holds a string, or a value Python treats as false. */
  predicate ValidPropertyValue(v: PyValue)
  {
    v.PyStr? || !Truthy(v)
  }

  /** The `TragenProperty` constructor: it refuses a truthy value that is not a string. */
  function NewProperty(name: string, value: PyValue, namespace: int): (r: Result<TragenProperty, GraphError>)
    ensures r.Ok? <==> ValidPropertyValue(value)
    ensures r.Ok? ==> r.value.name == name && r.value.value == value && r.value.namespace == namespace
                      && !r.value.isWritable
    ensures r.Err? ==> r.error == InvalidValueType
  {
    if Truthy(value) && !value.PyStr? then Err(InvalidValueType)
    else Ok(TragenProperty(name, namespace, value, false))
  }

  /** The properties built from `(name, value)` pairs, or the error of the first pair refused. */
  function NewProperties(ps: seq<(string, PyValue)>, namespace: int): (r: Result<seq<TragenProperty>, GraphError>)
    ensures r.Ok? <==> forall i :: 0 <= i < |ps| ==> ValidPropertyValue(ps[i].1)
    ensures r.Ok? ==> |r.value| == |ps| && forall i :: 0 <= i < |ps| ==> Ok(r.value[i]) == NewProperty(ps[i].0, ps[i].1, namespace)
    ensures r.Err? ==> r.error == InvalidValueType
    decreases |ps|
  {
    if ps == [] then Ok([])
    else
      match NewProperty(ps[0].0, ps[0].1, namespace)
      case Err(e) => Err(e)
      case Ok(p) =>
        match NewProperties(ps[1..], namespace)
        case Err(e) => Err(e)
        case Ok(rest) => Ok([p] + rest)
  }

  /** The variables built from `(name, value)` pairs, with the class defaults for every attribute. */
  function NewVariables(vs: seq<(string, PyValue)>, namespace: int): (r: seq<TragenVariable>)
    ensures |r| == |vs| && forall i :: 0 <= i < |vs| ==> r[i] == NewVariable(vs[i].0, vs[i].1, namespace, ClassDefaults)
  {
    seq(|vs|, i requires 0 <= i < |vs| => NewVariable(vs[i].0, vs[i].1, namespace, ClassDefaults))
  }

  function PairNames(vs: seq<(string, PyValue)>): (r: seq<string>)
    ensures |r| == |vs| && forall i :: 0 <= i < |vs| ==> r[i] == vs[i].0
  {
    seq(|vs|, i requires 0 <= i < |vs| => vs[i].0)
  }

  /** The graph `UaDataStruct(namespace, folder, ua_object=..., ua_variables, ua_properties)` builds. */
  function SeededGraph(namespace: int, folder: string, uaObject: string,
                       vs: seq<(string, PyValue)>, ps: seq<TragenProperty>): Level
  {
    SeedFolder(namespace, folder, SeedInner(namespace, uaObject, NewVariables(vs, namespace), ps))
  }

  /** The root with the seeded folder holding `inner`, or `inner` itself as the root when there is no folder. */
  function SeedFolder(namespace: int, folder: string, inner: Level): Level
  {
    if folder != "" then Level([FolderEntry(TragenFolder(folder, namespace), inner)], [], [], [])
    else inner
  }

  /** The level holding the seeded object with the variables and properties, or holding them directly. */
  function SeedInner(namespace: int, uaObject: string, vars: seq<TragenVariable>, ps: seq<TragenProperty>): Level
  {
    if uaObject != "" then Level([], [ObjectEntry(TragenObject(uaObject, namespace), ObjectContent(vars, ps))], [], [])
    else Level([], [], vars, ps)
  }

  function SeedPath(folder: string): FolderPath
  {
    if folder != "" then [0] else []
  }

  /** Where the seeding constructor attaches its variables and properties. */
  function SeedContainer(folder: string, uaObject: string): Option<NodeRef>
  {
    if uaObject != "" then Some(ObjectNode(SeedPath(folder), 0))
    else if folder != "" then Some(FolderNode(SeedPath(folder)))
    else None
  }

  lemma SeedFolderAt(namespace: int, folder: string, inner: Level, sub: Level)
    ensures ValidPath(SeedFolder(namespace, folder, inner), SeedPath(folder))
    ensures LevelAt(SeedFolder(namespace, folder, inner), SeedPath(folder)) == inner
    ensures WithLevelAt(SeedFolder(namespace, folder, inner), SeedPath(folder), sub) == SeedFolder(namespace, folder, sub)
  {
    if folder != "" {
      assert SeedPath(folder)[1..] == [];
    }
  }

  /**
   * How the seeding constructor ends: under a folder or an object the duplicate check of
   * add_variable refuses a repeated variable name, and add_property refuses a truthy non-string.
   */
  function SeedOutcome(folder: string, uaObject: string, vs: seq<(string, PyValue)>,
                       ps: seq<(string, PyValue)>, namespace: int): Outcome<GraphError>
  {
    if (folder != "" || uaObject != "") && !NoDuplicates(PairNames(vs)) then Fail(DuplicateName)
    else if NewProperties(ps, namespace).Err? then Fail(InvalidValueType)
    else Pass
  }

  lemma FlatLevelVariables(lv: Level, n: string)
    requires lv.folders == [] && lv.objects == []
    ensures HasVariableNamed(lv, n) <==> n in VariableNames(lv.variables)
  {
    if HasVariableNamed(lv, n) {
      var r :| IsVariableNamed(lv, r, n);
      assert VariableNames(lv.variables)[r.index] == n;
    }
    if n in VariableNames(lv.variables) {
      var i :| 0 <= i < |lv.variables| && VariableNames(lv.variables)[i] == n;
      assert IsVariableNamed(lv, LeafRef(FolderNode([]), i), n);
    }
  }

  /**
   * `find_folder(n)` followed by the `len(metafolder)` tests: the one folder of that name, or the
   * error raised when there is none or more than one.
   */
  function ResolveFolder(lv: Level, n: string): (r: Result<FolderPath, GraphError>)
    ensures r == Err(NoSuchNode) <==> NoFolderNamed(lv, n)
    ensures r == Err(AmbiguousName) <==> ManyFoldersNamed(lv, n)
    ensures r.Ok? ==> ValidPath(lv, r.value) && UniqueFolderNamed(lv, n, r.value)
  {
    var found := FindFolder(lv, n);
    FolderLookupCases(lv, n);
    if |found| > 1 then Err(AmbiguousName)
    else if |found| == 0 then Err(NoSuchNode)
    else Ok(found[0])
  }

  /** `find_object(n)` followed by the `len(metaobject)` tests. */
  function ResolveObject(lv: Level, n: string): (r: Result<NodeRef, GraphError>)
    ensures r == Err(NoSuchNode) <==> NoVisibleObject(lv, n)
    ensures r == Err(AmbiguousName) <==> ManyVisibleObjects(lv, n)
    ensures r.Ok? ==> ValidRef(lv, r.value) && UniqueVisibleObject(lv, n, r.value)
  {
    var found := FindObject(lv, n);
    ObjectLookupCases(lv, n);
    if |found| > 1 then Err(AmbiguousName)
    else if |found| == 0 then Err(NoSuchNode)
    else Ok(found[0])
  }

  /** The NameError that replaces the "No such ..." exception whose message names an undefined variable. */
  function Renamed(e: GraphError): GraphError
  {
    if e == NoSuchNode then UndefinedName else e
  }

  /** The graph seeding builds, after a prefix of its variables, grows by the next one. */
  lemma SeedVariableStep(namespace: int, folder: string, uaObject: string,
                         vs: seq<(string, PyValue)>, v: (string, PyValue))
    ensures var g := SeededGraph(namespace, folder, uaObject, vs, []);
            var nv := NewVariable(v.0, v.1, namespace, ClassDefaults);
            var g' := SeededGraph(namespace, folder, uaObject, vs + [v], []);
            match SeedContainer(folder, uaObject)
            case None => g' == g.(variables := g.variables + [nv])
            case Some(c) => ValidRef(g, c) && g' == AppendVariableAt(g, c, nv)
                            && (VariableNameTaken(g, c, v.0) <==> v.0 in PairNames(vs))
  {
    var nv := NewVariable(v.0, v.1, namespace, ClassDefaults);
    var vars := NewVariables(vs, namespace);
    assert NewVariables(vs + [v], namespace) == vars + [nv];
    assert VariableNames(vars) == PairNames(vs);
    var inner := SeedInner(namespace, uaObject, vars, []);
    var inner' := SeedInner(namespace, uaObject, vars + [nv], []);
    SeedFolderAt(namespace, folder, inner, inner');
    var g := SeededGraph(namespace, folder, uaObject, vs, []);
    if uaObject != "" {
      var e := inner.objects[0];
      assert inner.objects[0 := ObjectEntry(e.obj, e.content.(variables := e.content.variables + [nv]))] == inner'.objects;
      assert VariablesAt(g, ObjectNode(SeedPath(folder), 0)) == vars;
    } else if folder != "" {
      FlatLevelVariables(inner, v.0);
    }
  }

  /** The graph seeding builds, after a prefix of its properties, grows by the next one. */
  lemma SeedPropertyStep(namespace: int, folder: string, uaObject: string,
                         vs: seq<(string, PyValue)>, ps: seq<TragenProperty>, p: TragenProperty)
    ensures var g := SeededGraph(namespace, folder, uaObject, vs, ps);
            var g' := SeededGraph(namespace, folder, uaObject, vs, ps + [p]);
            match SeedContainer(folder, uaObject)
            case None => g' == g.(properties := g.properties + [p])
            case Some(c) => ValidRef(g, c) && g' == AppendPropertyAt(g, c, p)
  {
    var vars := NewVariables(vs, namespace);
    var inner := SeedInner(namespace, uaObject, vars, ps);
    var inner' := SeedInner(namespace, uaObject, vars, ps + [p]);
    SeedFolderAt(namespace, folder, inner, inner');
    if uaObject != "" {
      var e := inner.objects[0];
      assert inner.objects[0 := ObjectEntry(e.obj, e.content.(properties := e.content.properties + [p]))] == inner'.objects;
    }
  }

  lemma NewPropertiesStep(ps: seq<(string, PyValue)>, namespace: int, j: nat)
    requires j < |ps| && NewProperties(ps[..j], namespace).Ok?
    ensures NewProperties(ps[..j + 1], namespace) ==
              match NewProperty(ps[j].0, ps[j].1, namespace)
              case Err(e) => Err(e)
              case Ok(p) => Ok(NewProperties(ps[..j], namespace).value + [p])
  {
    assert ps[..j + 1] == ps[..j] + [ps[j]];
    NewPropertiesAppend(ps[..j], ps[j], namespace);
  }

  lemma {:induction false} NewPropertiesAppend(ps: seq<(string, PyValue)>, q: (string, PyValue), namespace: int)
    requires NewProperties(ps, namespace).Ok?
    ensures NewProperties(ps + [q], namespace) ==
              match NewProperty(q.0, q.1, namespace)
              case Err(e) => Err(e)
              case Ok(p) => Ok(NewProperties(ps, namespace).value + [p])
    decreases |ps|
  {
    if ps == [] {
      assert [] + [q] == [q];
      assert ([q])[1..] == [];
      match NewProperty(q.0, q.1, namespace)
      case Err(_) =>
      case Ok(p) =>
        assert [p] + [] == [] + [p];
    } else {
      assert (ps + [q])[1..] == ps[1..] + [q];
      assert (ps + [q])[0] == ps[0];
      var first := NewProperty(ps[0].0, ps[0].1, namespace).value;
      var rest := NewProperties(ps[1..], namespace).value;
      NewPropertiesAppend(ps[1..], q, namespace);
      match NewProperty(q.0, q.1, namespace)
      case Err(_) =>
      case Ok(p) =>
        assert [first] + (rest + [p]) == ([first] + rest) + [p];
    }
  }

  class UaDataStruct {
    var graph: Level

    /** `UaDataStruct()`: the four empty parts of the root level. */
    constructor ()
      ensures graph == EmptyLevel
    {
      graph := EmptyLevel;
    }

    /**
     * The rest of `__init__`: a folder at the root, an object in it (or at the root), then the
     * variables and properties in the innermost of the two (or at the root).
     */
    method Seed(namespace: int, folder: string, uaObject: string,
                uaVariables: seq<(string, PyValue)>, uaProperties: seq<(string, PyValue)>)
      returns (r: Outcome<GraphError>)
      requires graph == EmptyLevel
      modifies this
      ensures r == SeedOutcome(folder, uaObject, uaVariables, uaProperties, namespace)
      ensures r.Pass? ==> graph == SeededGraph(namespace, folder, uaObject, uaVariables,
                                               NewProperties(uaProperties, namespace).value)
    {
      if folder != "" || uaObject != "" || uaVariables != [] || uaProperties != [] {
        var parName, parNode := SeedContainers(namespace, folder, uaObject);
        r := SeedVariables(namespace, folder, uaObject, parName, parNode, uaVariables);
        if r.Fail? {
          return;
        }
        r := SeedProperties(namespace, folder, uaObject, parName, parNode, uaVariables, uaProperties);
      } else {
        r := Pass;
      }
    }

    /** The first two statements of the seeding: the folder, then the object. */
    method SeedContainers(namespace: int, folder: string, uaObject: string)
      returns (parName: string, parNode: Option<NodeRef>)
      requires graph == EmptyLevel
      modifies this
      ensures graph == SeededGraph(namespace, folder, uaObject, [], [])
      ensures parNode == SeedContainer(folder, uaObject)
      ensures parName == if uaObject != "" then uaObject else folder
    {
      var fldrNode: Option<NodeRef> := None;
      if folder != "" {
        var f := AddFolder(folder, namespace, "", None);
        fldrNode := Some(f.value);
      }
      assert graph == SeedFolder(namespace, folder, EmptyLevel);
      assert fldrNode == if folder != "" then Some(FolderNode(SeedPath(folder))) else None;
      SeedFolderAt(namespace, folder, EmptyLevel, SeedInner(namespace, uaObject, [], []));
      var objNode: Option<NodeRef> := None;
      if uaObject != "" {
        var o := AddObject(uaObject, namespace, folder, fldrNode, [], []);
        objNode := Some(o.value);
        var entry := ObjectEntry(TragenObject(uaObject, namespace), ObjectContent([], []));
        assert NewVariables([], namespace) == [] && NewProperties([], namespace) == Ok([]);
        assert EmptyLevel.objects + [entry] == [entry];
      }
      assert NewVariables([], namespace) == [];
      parName := if uaObject != "" then uaObject else folder;
      parNode := if objNode.Some? then objNode else fldrNode;
    }

    /** The `for var_name, var_val in ua_variables` loop of the seeding. */
    method SeedVariables(namespace: int, folder: string, uaObject: string, parName: string,
                         parNode: Option<NodeRef>, uaVariables: seq<(string, PyValue)>)
      returns (r: Outcome<GraphError>)
      requires graph == SeededGraph(namespace, folder, uaObject, [], [])
      requires parNode == SeedContainer(folder, uaObject)
      requires parName == if uaObject != "" then uaObject else folder
      modifies this
      ensures r.Fail? <==> (folder != "" || uaObject != "") && !NoDuplicates(PairNames(uaVariables))
      ensures r.Fail? ==> r.error == DuplicateName
      ensures r.Pass? ==> graph == SeededGraph(namespace, folder, uaObject, uaVariables, [])
    {
      var i := 0;
      while i < |uaVariables|
        invariant 0 <= i <= |uaVariables|
        invariant graph == SeededGraph(namespace, folder, uaObject, uaVariables[..i], [])
        invariant (folder != "" || uaObject != "") ==> NoDuplicates(PairNames(uaVariables[..i]))
      {
        SeedVariableStep(namespace, folder, uaObject, uaVariables[..i], uaVariables[i]);
        var res := AddVariable(uaVariables[i].0, uaVariables[i].1, namespace, parName, parNode, ClassDefaults);
        if res.Err? {
          SeedDuplicateSpotted(uaVariables, i);
          return Fail(res.error);
        }
        assert uaVariables[..i + 1] == uaVariables[..i] + [uaVariables[i]];
        assert PairNames(uaVariables[..i + 1]) == PairNames(uaVariables[..i]) + [uaVariables[i].0];
        i := i + 1;
      }
      assert uaVariables[..i] == uaVariables;
      return Pass;
    }

    /** The `for prt_name, prt_val in ua_properties` loop of the seeding. */
    method SeedProperties(namespace: int, folder: string, uaObject: string, parName: string,
                          parNode: Option<NodeRef>, uaVariables: seq<(string, PyValue)>,
                          uaProperties: seq<(string, PyValue)>)
      returns (r: Outcome<GraphError>)
      requires graph == SeededGraph(namespace, folder, uaObject, uaVariables, [])
      requires parNode == SeedContainer(folder, uaObject)
      requires parName == if uaObject != "" then uaObject else folder
      modifies this
      ensures r.Fail? <==> NewProperties(uaProperties, namespace).Err?
      ensures r.Fail? ==> r.error == InvalidValueType
      ensures r.Pass? ==> graph == SeededGraph(namespace, folder, uaObject, uaVariables,
                                               NewProperties(uaProperties, namespace).value)
    {
      var j := 0;
      assert uaProperties[..0] == [];
      while j < |uaProperties|
        invariant 0 <= j <= |uaProperties|
        invariant NewProperties(uaProperties[..j], namespace).Ok?
        invariant graph == SeededGraph(namespace, folder, uaObject, uaVariables,
                                       NewProperties(uaProperties[..j], namespace).value)
      {
        NewPropertiesStep(uaProperties, namespace, j);
        var res := AddProperty(uaProperties[j].0, uaProperties[j].1, namespace, parName, parNode);
        if res.Err? {
          assert !ValidPropertyValue(uaProperties[j].1);
          return Fail(res.error);
        }
        SeedPropertyStep(namespace, folder, uaObject, uaVariables,
                         NewProperties(uaProperties[..j], namespace).value, res.value);
        j := j + 1;
      }
      assert uaProperties[..j] == uaProperties;
      return Pass;
    }

    /** A failed duplicate check during seeding means two of the given variables share a name. */
    static lemma SeedDuplicateSpotted(vs: seq<(string, PyValue)>, i: nat)
      requires i < |vs|
      requires vs[i].0 in PairNames(vs[..i])
      ensures !NoDuplicates(PairNames(vs))
    {
      var k :| 0 <= k < i && PairNames(vs[..i])[k] == vs[i].0;
      assert PairNames(vs)[k] == PairNames(vs)[i];
    }

    /**
     * add_folder. At the root there is no duplicate check. Under a named parent the name must
     * designate exactly one folder, and no folder below that parent may already bear the new name.
     * With a parent reference the duplicate test names an undefined variable and always raises.
     */
    method AddFolder(folderName: string, namespace: int, parentName: string, parentNode: Option<NodeRef>)
      returns (r: Result<NodeRef, GraphError>)
      modifies this
      ensures r.Err? ==> graph == old(graph)
      ensures r.Ok? ==> Grows(old(graph), graph) && ValidRef(graph, r.value) && r.value.FolderNode?
                        && LevelAt(graph, r.value.path) == EmptyLevel
      ensures parentName == "" && parentNode.None? ==>
                r == Ok(FolderNode([|old(graph).folders|]))
                && graph == AddFolderAt(old(graph), [], TragenFolder(folderName, namespace))
      ensures parentNode.Some? ==> r == Err(UndefinedName)
      ensures parentName != "" && parentNode.None? ==>
                match ResolveFolder(old(graph), parentName)
                case Err(e) => r == Err(e)
                case Ok(p) =>
                  if !NoFolderNamed(LevelAt(old(graph), p), folderName) then r == Err(DuplicateName)
                  else r == Ok(FolderNode(Child(p, |LevelAt(old(graph), p).folders|)))
                       && graph == AddFolderAt(old(graph), p, TragenFolder(folderName, namespace))
    {
      var folder := TragenFolder(folderName, namespace);
      if parentName == "" && parentNode.None? {
        AddFolderAtSpec(graph, [], folder);
        AddFolderAtGrows(graph, [], folder);
        r := Ok(FolderNode([|graph.folders|]));
        graph := AddFolderAt(graph, [], folder);
      } else if parentNode.None? {
        var metafolder := ResolveFolder(graph, parentName);
        if metafolder.Err? {
          return Err(metafolder.error);
        }
        var p := metafolder.value;
        var at := LevelAt(graph, p);
        FolderLookupCases(at, folderName);
        if |FindFolder(at, folderName)| >= 1 {
          return Err(DuplicateName);
        }
        AddFolderAtSpec(graph, p, folder);
        AddFolderAtGrows(graph, p, folder);
        r := Ok(FolderNode(Child(p, |at.folders|)));
        graph := AddFolderAt(graph, p, folder);
      } else {
        r := Err(UndefinedName);
      }
    }

    /**
     * add_object. The property values are checked first. At the root there is no duplicate check;
     * in a folder designated by name (which must be unique) or by reference, no object that
     * find_object sees below that folder may bear the new name. A missing folder raises a
     * NameError (the message names an undefined variable); a reference to an object's content
     * raises a KeyError ("objects").
     */
    method AddObject(uaObject: string, namespace: int, folderName: string, folderNode: Option<NodeRef>,
                     uaVariables: seq<(string, PyValue)>, uaProperties: seq<(string, PyValue)>)
      returns (r: Result<NodeRef, GraphError>)
      requires folderNode.Some? ==> ValidRef(graph, folderNode.value)
      modifies this
      ensures r.Err? ==> graph == old(graph)
      ensures r.Ok? ==> Grows(old(graph), graph) && ValidRef(graph, r.value) && r.value.ObjectNode?
      ensures NewProperties(uaProperties, namespace).Err? ==> r == Err(InvalidValueType)
      ensures NewProperties(uaProperties, namespace).Ok? ==>
                var content := ObjectContent(NewVariables(uaVariables, namespace), NewProperties(uaProperties, namespace).value);
                var obj := TragenObject(uaObject, namespace);
                var target: Result<NodeRef, GraphError> := if folderNode.Some? then Ok(folderNode.value)
                              else if folderName == "" then Ok(FolderNode([]))
                              else match ResolveFolder(old(graph), folderName)
                                   case Err(e) => Err(Renamed(e))
                                   case Ok(p) => Ok(FolderNode(p));
                match target
                case Err(e) => r == Err(e)
                case Ok(ObjectNode(_, _)) => r == Err(MissingKey)
                case Ok(FolderNode(p)) =>
                  ValidPath(old(graph), p)
                  && if (folderNode.Some? || folderName != "") && !NoVisibleObject(LevelAt(old(graph), p), uaObject)
                     then r == Err(DuplicateName)
                     else r == Ok(ObjectNode(p, |LevelAt(old(graph), p).objects|))
                          && graph == AddObjectAt(old(graph), p, obj, content)
    {
      var obj := TragenObject(uaObject, namespace);
      var variables := NewVariables(uaVariables, namespace);
      var properties := NewProperties(uaProperties, namespace);
      if properties.Err? {
        return Err(properties.error);
      }
      var content := ObjectContent(variables, properties.value);
      var p: FolderPath;
      if folderName == "" && folderNode.None? {
        p := [];
      } else if folderNode.None? {
        var metafolder := ResolveFolder(graph, folderName);
        if metafolder.Err? {
          return Err(Renamed(metafolder.error));
        }
        p := metafolder.value;
        ObjectLookupCases(LevelAt(graph, p), uaObject);
        if |FindObject(LevelAt(graph, p), uaObject)| >= 1 {
          return Err(DuplicateName);
        }
      } else if folderNode.value.ObjectNode? {
        return Err(MissingKey);
      } else {
        p := folderNode.value.path;
        ObjectLookupCases(LevelAt(graph, p), uaObject);
        if |FindObject(LevelAt(graph, p), uaObject)| >= 1 {
          return Err(DuplicateName);
        }
      }
      var at := LevelAt(graph, p);
      AddObjectAtGrows(graph, p, obj, content);
      WithLevelAtSpec(graph, p, at.(objects := at.objects + [ObjectEntry(obj, content)]));
      r := Ok(ObjectNode(p, |at.objects|));
      graph := AddObjectAt(graph, p, obj, content);
    }

    /**
     * add_variable. At the root there is no duplicate check. By parent name every path raises:
     * an ambiguous or a missing object, a duplicate among the object's variables, and otherwise
     * the AttributeError of reading `.name` from the object's content dict. By reference the new
     * name must not be taken in the container (see VariableNameTaken). The attributes a caller
     * sets on the returned variable are given as `attrs`.
     */
    method AddVariable(varName: string, varValue: PyValue, namespace: int, parName: string,
                       parNode: Option<NodeRef>, attrs: VariableAttributes)
      returns (r: Result<TragenVariable, GraphError>)
      requires parNode.Some? ==> ValidRef(graph, parNode.value)
      modifies this
      ensures r.Err? ==> graph == old(graph)
      ensures r.Ok? ==> r.value == NewVariable(varName, varValue, namespace, attrs) && Grows(old(graph), graph)
      ensures parName == "" && parNode.None? ==>
                r.Ok? && graph == old(graph).(variables := old(graph).variables + [r.value])
      ensures parName != "" && parNode.None? ==>
                r == Err(match ResolveObject(old(graph), parName)
                         case Err(e) => Renamed(e)
                         case Ok(x) => if varName in VariableNames(VariablesAt(old(graph), x)) then DuplicateName
                                       else MissingAttribute)
      ensures parNode.Some? ==>
                if VariableNameTaken(old(graph), parNode.value, varName) then r == Err(DuplicateName)
                else r.Ok? && graph == AppendVariableAt(old(graph), parNode.value, r.value)
                     && ValidRef(graph, parNode.value)
                     && VariablesAt(graph, parNode.value) == VariablesAt(old(graph), parNode.value) + [r.value]
    {
      var variable := NewVariable(varName, varValue, namespace, attrs);
      if parName == "" && parNode.None? {
        AppendVariableAtGrows(graph, FolderNode([]), variable);
        graph := graph.(variables := graph.variables + [variable]);
        r := Ok(variable);
      } else if parNode.None? {
        var metaobject := ResolveObject(graph, parName);
        if metaobject.Err? {
          return Err(Renamed(metaobject.error));
        }
        var x := metaobject.value;
        if |FindVariableFrom(graph, x, varName)| >= 1 {
          return Err(DuplicateName);
        }
        r := Err(MissingAttribute);
      } else {
        var c := parNode.value;
        if |FindVariableFrom(graph, c, varName)| >= 1 {
          return Err(DuplicateName);
        }
        AppendVariableAtGrows(graph, c, variable);
        AppendVariableAtSpec(graph, c, variable);
        graph := AppendVariableAt(graph, c, variable);
        r := Ok(variable);
      }
    }

    /**
     * add_property. The value is checked first. There is no duplicate check: at the root, in the
     * one object a name designates, or in the container a reference designates, the property is
     * appended.
     */
    method AddProperty(propertyName: string, propertyValue: PyValue, namespace: int, parName: string,
                       parNode: Option<NodeRef>)
      returns (r: Result<TragenProperty, GraphError>)
      requires parNode.Some? ==> ValidRef(graph, parNode.value)
      modifies this
      ensures r.Err? ==> graph == old(graph)
      ensures r.Ok? ==> Ok(r.value) == NewProperty(propertyName, propertyValue, namespace) && Grows(old(graph), graph)
      ensures !ValidPropertyValue(propertyValue) ==> r == Err(InvalidValueType)
      ensures ValidPropertyValue(propertyValue) ==>
                var prpt := TragenProperty(propertyName, namespace, propertyValue, false);
                var target: Result<NodeRef, GraphError> := if parNode.Some? then Ok(parNode.value)
                              else if parName == "" then Ok(FolderNode([]))
                              else ResolveObject(old(graph), parName);
                match target
                case Err(e) => r == Err(e)
                case Ok(c) =>
                  ValidRef(old(graph), c) && r == Ok(prpt) && graph == AppendPropertyAt(old(graph), c, prpt)
                  && ValidRef(graph, c) && PropertiesAt(graph, c) == PropertiesAt(old(graph), c) + [prpt]
    {
      var made := NewProperty(propertyName, propertyValue, namespace);
      if made.Err? {
        return Err(made.error);
      }
      var prpt := made.value;
      var c: NodeRef;
      if parName == "" && parNode.None? {
        c := FolderNode([]);
      } else if parNode.None? {
        var metaobject := ResolveObject(graph, parName);
        if metaobject.Err? {
          return Err(metaobject.error);
        }
        c := metaobject.value;
      } else {
        c := parNode.value;
      }
      AppendPropertyAtGrows(graph, c, prpt);
      AppendPropertyAtSpec(graph, c, prpt);
      graph := AppendPropertyAt(graph, c, prpt);
      r := Ok(prpt);
    }
  }
}
