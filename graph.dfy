/**
 * The declarative namespace graph of `UaDataStruct` (tragen/ua_data_structure/uaDataStructure.py).
 *
 * Every level of the Python graph is a dict with four parts: `folders` (folder descriptor -> sub-level),
 * `objects` (object descriptor -> {variables, properties}), `variables` and `properties` (lists).
 * Folder and object descriptors are dict keys that hash by identity, so two entries with the same
 * name coexist; the dict enumerates them in an order the program does not control. The model keeps
 * each map as a sequence of entries: one fixed enumeration, in which a new key goes last.
 *
 * A reference to a nested dict (the `par_node`, `folder_node` and return values of the add_*
 * operations) is the path of positions that leads to it from the root: a `NodeRef`.
 */
module NamespaceGraph {
  import opened PyValues

  // ---------------------------------------------------------------- descriptors

  datatype TragenFolder = TragenFolder(name: string, namespace: int)

  datatype TragenObject = TragenObject(name: string, namespace: int)

  /** A variable with the attributes the source reads from it (class attributes default to False/None). */
  datatype TragenVariable = TragenVariable(
    name: string,
    namespace: int,
    value: PyValue,
    isRegUd: bool,
    isIrregUd: bool,
    isWritable: bool,
    isMonitored: bool,
    lowerBound: PyValue,
    upperBound: PyValue)

  datatype TragenProperty = TragenProperty(name: string, namespace: int, value: PyValue, isWritable: bool)

  /** The attributes a caller sets on a `TragenVariable` after creating it. */
  datatype VariableAttributes = VariableAttributes(
    isRegUd: bool,
    isIrregUd: bool,
    isWritable: bool,
    isMonitored: bool,
    lowerBound: PyValue,
    upperBound: PyValue)

  /** The class-level defaults of `TragenVariable`. */
  const ClassDefaults := VariableAttributes(false, false, false, false, PyNone, PyNone)

  function NewVariable(name: string, value: PyValue, namespace: int, a: VariableAttributes): TragenVariable
  {
    TragenVariable(name, namespace, value, a.isRegUd, a.isIrregUd, a.isWritable, a.isMonitored,
                   a.lowerBound, a.upperBound)
  }

  // ---------------------------------------------------------------- the tree

  /** The `{variables, properties}` dict stored under an object key. */
  datatype ObjectContent = ObjectContent(variables: seq<TragenVariable>, properties: seq<TragenProperty>)

  /** One `{folders, objects, variables, properties}` level. */
  datatype Level = Level(
    folders: seq<FolderEntry>,
    objects: seq<ObjectEntry>,
    variables: seq<TragenVariable>,
    properties: seq<TragenProperty>)

  datatype FolderEntry = FolderEntry(folder: TragenFolder, content: Level)

  datatype ObjectEntry = ObjectEntry(obj: TragenObject, content: ObjectContent)

  const EmptyLevel := Level([], [], [], [])

  /** Positions in successive `folders` enumerations, from some level down to a sub-level. */
  type FolderPath = seq<nat>

  /** A folder level (the root is `FolderNode([])`) or the content dict of one object. */
  datatype NodeRef = FolderNode(path: FolderPath) | ObjectNode(path: FolderPath, index: nat)

  /** A variable or property: its container and its position in the container's list. */
  datatype LeafRef = LeafRef(container: NodeRef, index: nat)

  predicate ValidPath(lv: Level, p: FolderPath)
    decreases |p|
  {
    |p| == 0 || (p[0] < |lv.folders| && ValidPath(lv.folders[p[0]].content, p[1..]))
  }

  function LevelAt(lv: Level, p: FolderPath): Level
    requires ValidPath(lv, p)
    decreases |p|
  {
    if |p| == 0 then lv else LevelAt(lv.folders[p[0]].content, p[1..])
  }

  predicate ValidRef(lv: Level, r: NodeRef)
  {
    match r
    case FolderNode(p) => ValidPath(lv, p)
    case ObjectNode(p, i) => ValidPath(lv, p) && i < |LevelAt(lv, p).objects|
  }

  /** `lv` with the sub-level at `p` replaced by `sub`: what a key assignment through a nested reference does. */
  function WithLevelAt(lv: Level, p: FolderPath, sub: Level): Level
    requires ValidPath(lv, p)
    decreases |p|
  {
    if |p| == 0 then sub
    else
      var e := lv.folders[p[0]];
      lv.(folders := lv.folders[p[0] := FolderEntry(e.folder, WithLevelAt(e.content, p[1..], sub))])
  }

  function Nest(i: nat, r: NodeRef): NodeRef
  {
    match r
    case FolderNode(p) => FolderNode([i] + p)
    case ObjectNode(p, x) => ObjectNode([i] + p, x)
  }

  function NestLeaf(i: nat, r: LeafRef): LeafRef
  {
    LeafRef(Nest(i, r.container), r.index)
  }

  function Pop(r: NodeRef): NodeRef
    requires |r.path| > 0
  {
    match r
    case FolderNode(p) => FolderNode(p[1..])
    case ObjectNode(p, x) => ObjectNode(p[1..], x)
  }

  /** The path of the `i`-th sub-folder of the level at `p`. */
  function Child(p: FolderPath, i: nat): FolderPath
  {
    p + [i]
  }

  // ---------------------------------------------------------------- names and positions

  function FolderNames(fs: seq<FolderEntry>): (r: seq<string>)
    ensures |r| == |fs| && forall i :: 0 <= i < |fs| ==> r[i] == fs[i].folder.name
  {
    seq(|fs|, i requires 0 <= i < |fs| => fs[i].folder.name)
  }

  function ObjectNames(os: seq<ObjectEntry>): (r: seq<string>)
    ensures |r| == |os| && forall i :: 0 <= i < |os| ==> r[i] == os[i].obj.name
  {
    seq(|os|, i requires 0 <= i < |os| => os[i].obj.name)
  }

  function VariableNames(vs: seq<TragenVariable>): (r: seq<string>)
    ensures |r| == |vs| && forall i :: 0 <= i < |vs| ==> r[i] == vs[i].name
  {
    seq(|vs|, i requires 0 <= i < |vs| => vs[i].name)
  }

  /** The positions below `k` that hold `n`, in increasing order: the `if obj.name == name` scan of a loop. */
  function IndicesOf(names: seq<string>, n: string, k: nat): (r: seq<nat>)
    requires k <= |names|
    ensures forall i: nat :: i in r <==> i < k && names[i] == n
    ensures forall a :: 0 <= a < |r| ==> r[a] < k
    ensures forall a, b :: 0 <= a < b < |r| ==> r[a] < r[b]
    decreases k
  {
    if k == 0 then []
    else IndicesOf(names, n, k - 1) + (if names[k - 1] == n then [k - 1] else [])
  }

  predicate NoDuplicates<T(==)>(s: seq<T>)
  {
    forall a, b :: 0 <= a < b < |s| ==> s[a] != s[b]
  }

  lemma TwoDistinctMembers<T>(s: seq<T>, x: T, y: T)
    requires x in s && y in s && x != y
    ensures |s| > 1
  {
  }

  lemma OnlyMember<T>(s: seq<T>, x: T)
    requires |s| == 1 && x in s
    ensures x == s[0]
  {
  }

  lemma NoDuplicatesConcat<T>(s: seq<T>, t: seq<T>)
    requires NoDuplicates(s) && NoDuplicates(t)
    requires forall x :: x in s ==> x !in t
    ensures NoDuplicates(s + t)
  {
    forall a, b | 0 <= a < b < |s + t|
      ensures (s + t)[a] != (s + t)[b]
    {
      if b >= |s| && a < |s| {
        assert (s + t)[a] in s;
        assert (s + t)[b] == t[b - |s|];
      }
    }
  }

  // ---------------------------------------------------------------- folder lookup (find_folder)

  /** `p` leads from `lv` to a folder named `n`; `p` ends at the folder itself, so it is not empty. */
  predicate IsFolderNamed(lv: Level, p: FolderPath, n: string)
    ensures IsFolderNamed(lv, p, n) ==> ValidPath(lv, p)
    decreases |p|
  {
    && |p| > 0
    && p[0] < |lv.folders|
    && if |p| == 1 then lv.folders[p[0]].folder.name == n
       else IsFolderNamed(lv.folders[p[0]].content, p[1..], n)
  }

  ghost predicate NoFolderNamed(lv: Level, n: string)
  {
    forall p :: !IsFolderNamed(lv, p, n)
  }

  ghost predicate ManyFoldersNamed(lv: Level, n: string)
  {
    exists p, q :: IsFolderNamed(lv, p, n) && IsFolderNamed(lv, q, n) && p != q
  }

  ghost predicate UniqueFolderNamed(lv: Level, n: string, p: FolderPath)
  {
    IsFolderNamed(lv, p, n) && forall q :: IsFolderNamed(lv, q, n) ==> q == p
  }

  function Under(i: nat, ps: seq<FolderPath>): (r: seq<FolderPath>)
    ensures |r| == |ps| && forall j :: 0 <= j < |ps| ==> r[j] == [i] + ps[j]
  {
    seq(|ps|, j requires 0 <= j < |ps| => [i] + ps[j])
  }

  function Singletons(ixs: seq<nat>): (r: seq<FolderPath>)
    ensures |r| == |ixs| && forall j :: 0 <= j < |ixs| ==> r[j] == [ixs[j]]
  {
    seq(|ixs|, j requires 0 <= j < |ixs| => [ixs[j]])
  }

  /**
   * `find_node(name, NodeType.FOLDER, starting_point=lv)`: the findings of every sub-folder, in
   * enumeration order, before the matches among `lv`'s own folders; nothing when `lv` has no folders.
   */
  function FindFolder(lv: Level, n: string): seq<FolderPath>
    decreases lv, 1, 0
  {
    if lv.folders == [] then []
    else FindFolderIn(lv, n, |lv.folders|) + Singletons(IndicesOf(FolderNames(lv.folders), n, |lv.folders|))
  }

  /** `reduce(add, map(rec_find, start["folders"].values()))` over the first `k` sub-folders. */
  function FindFolderIn(lv: Level, n: string, k: nat): seq<FolderPath>
    requires k <= |lv.folders|
    decreases lv, 0, k
  {
    if k == 0 then []
    else FindFolderIn(lv, n, k - 1) + Under(k - 1, FindFolder(lv.folders[k - 1].content, n))
  }

  lemma UnderMember(i: nat, ps: seq<FolderPath>, p: FolderPath)
    ensures p in Under(i, ps) <==> |p| > 0 && p[0] == i && p[1..] in ps
  {
    if |p| > 0 && p[0] == i && p[1..] in ps {
      var j :| 0 <= j < |ps| && ps[j] == p[1..];
      assert Under(i, ps)[j] == p;
    }
  }

  lemma FindFolderInMember(lv: Level, n: string, k: nat, p: FolderPath)
    requires k <= |lv.folders|
    ensures p in FindFolderIn(lv, n, k) <==>
              |p| > 1 && p[0] < k && IsFolderNamed(lv.folders[p[0]].content, p[1..], n)
    decreases lv, 0, k
  {
    if k > 0 {
      FindFolderInMember(lv, n, k - 1, p);
      UnderMember(k - 1, FindFolder(lv.folders[k - 1].content, n), p);
      if |p| > 0 && p[0] < k {
        FindFolderMember(lv.folders[p[0]].content, n, p[1..]);
      }
    }
  }

  /** find_folder is sound and complete: it returns exactly the paths of the folders named `n`. */
  lemma FindFolderMember(lv: Level, n: string, p: FolderPath)
    ensures p in FindFolder(lv, n) <==> IsFolderNamed(lv, p, n)
    decreases lv, 1, 0
  {
    if lv.folders != [] {
      FindFolderInMember(lv, n, |lv.folders|, p);
      var local := IndicesOf(FolderNames(lv.folders), n, |lv.folders|);
      if p in Singletons(local) {
        var j :| 0 <= j < |local| && Singletons(local)[j] == p;
        assert p == [local[j]];
      }
      if |p| == 1 && IsFolderNamed(lv, p, n) {
        assert p == [p[0]];
        assert p[0] in local;
        var j :| 0 <= j < |local| && local[j] == p[0];
        assert Singletons(local)[j] == p;
      }
    }
  }

  lemma FindFolderInNoDuplicates(lv: Level, n: string, k: nat)
    requires k <= |lv.folders|
    ensures NoDuplicates(FindFolderIn(lv, n, k))
    decreases lv, 0, k
  {
    if k > 0 {
      FindFolderInNoDuplicates(lv, n, k - 1);
      var sub := FindFolder(lv.folders[k - 1].content, n);
      FindFolderNoDuplicates(lv.folders[k - 1].content, n);
      var u := Under(k - 1, sub);
      forall a, b | 0 <= a < b < |u| ensures u[a] != u[b] {
        assert u[a][1..] == sub[a] && u[b][1..] == sub[b];
      }
      forall x | x in FindFolderIn(lv, n, k - 1) ensures x !in u {
        FindFolderInMember(lv, n, k - 1, x);
        UnderMember(k - 1, sub, x);
      }
      NoDuplicatesConcat(FindFolderIn(lv, n, k - 1), u);
    }
  }

  /** find_folder never reports one folder twice. */
  lemma FindFolderNoDuplicates(lv: Level, n: string)
    ensures NoDuplicates(FindFolder(lv, n))
    decreases lv, 1, 0
  {
    if lv.folders != [] {
      FindFolderInNoDuplicates(lv, n, |lv.folders|);
      var local := IndicesOf(FolderNames(lv.folders), n, |lv.folders|);
      var s := Singletons(local);
      forall a, b | 0 <= a < b < |s| ensures s[a] != s[b] {
        assert s[a][0] == local[a] && s[b][0] == local[b];
      }
      forall x | x in FindFolderIn(lv, n, |lv.folders|) ensures x !in s {
        FindFolderInMember(lv, n, |lv.folders|, x);
      }
      NoDuplicatesConcat(FindFolderIn(lv, n, |lv.folders|), s);
    }
  }

  lemma FindFolderInOrdered(lv: Level, n: string, k: nat)
    requires k <= |lv.folders|
    ensures forall p :: p in FindFolderIn(lv, n, k) ==> |p| > 1 && p[0] < k
    ensures forall a, b :: 0 <= a < b < |FindFolderIn(lv, n, k)| ==> FindFolderIn(lv, n, k)[a][0] <= FindFolderIn(lv, n, k)[b][0]
    decreases k
  {
    if k > 0 {
      FindFolderInOrdered(lv, n, k - 1);
      var d0 := FindFolderIn(lv, n, k - 1);
      var u := Under(k - 1, FindFolder(lv.folders[k - 1].content, n));
      forall x | x in FindFolder(lv.folders[k - 1].content, n) ensures |x| > 0 {
        FindFolderMember(lv.folders[k - 1].content, n, x);
      }
      assert forall a :: 0 <= a < |u| ==> u[a][1..] in FindFolder(lv.folders[k - 1].content, n);
      assert FindFolderIn(lv, n, k) == d0 + u;
    }
  }

  /**
   * The order of find_folder's result: the findings of the sub-folders come first, grouped by
   * sub-folder in enumeration order, and the matches among the level's own folders come last,
   * in enumeration order.
   */
  lemma FindFolderOrder(lv: Level, n: string)
    ensures forall p :: p in FindFolder(lv, n) ==> |p| > 0
    ensures var r := FindFolder(lv, n);
              forall a, b :: 0 <= a < b < |r| ==>
                && (|r[a]| == 1 ==> |r[b]| == 1 && r[a][0] < r[b][0])
                && (|r[b]| > 1 ==> |r[a]| > 1 && r[a][0] <= r[b][0])
  {
    forall p | p in FindFolder(lv, n) ensures |p| > 0 {
      FindFolderMember(lv, n, p);
    }
    if lv.folders != [] {
      FindFolderInOrdered(lv, n, |lv.folders|);
      var d := FindFolderIn(lv, n, |lv.folders|);
      var ixs := IndicesOf(FolderNames(lv.folders), n, |lv.folders|);
      var own := Singletons(ixs);
      var r := d + own;
      assert r == FindFolder(lv, n);
      forall a, b | 0 <= a < b < |r|
        ensures |r[a]| == 1 ==> |r[b]| == 1 && r[a][0] < r[b][0]
        ensures |r[b]| > 1 ==> |r[a]| > 1 && r[a][0] <= r[b][0]
      {
        if b < |d| {
          assert r[a] == d[a] && r[b] == d[b];
        } else if a < |d| {
          assert r[a] == d[a] && r[b] == own[b - |d|];
        } else {
          assert r[a] == own[a - |d|] && r[b] == own[b - |d|];
          assert ixs[a - |d|] < ixs[b - |d|];
        }
      }
    }
  }

  /** What the `len(metafolder)` tests of add_folder and add_object decide. */
  lemma FolderLookupCases(lv: Level, n: string)
    ensures |FindFolder(lv, n)| == 0 <==> NoFolderNamed(lv, n)
    ensures |FindFolder(lv, n)| == 1 ==> UniqueFolderNamed(lv, n, FindFolder(lv, n)[0])
    ensures |FindFolder(lv, n)| > 1 <==> ManyFoldersNamed(lv, n)
  {
    FolderLookupNone(lv, n);
    FolderLookupOne(lv, n);
    FolderLookupMany(lv, n);
  }

  lemma FolderLookupNone(lv: Level, n: string)
    ensures |FindFolder(lv, n)| == 0 <==> NoFolderNamed(lv, n)
  {
    var r := FindFolder(lv, n);
    if |r| == 0 {
      forall p ensures !IsFolderNamed(lv, p, n) {
        FindFolderMember(lv, n, p);
      }
    } else {
      FindFolderMember(lv, n, r[0]);
    }
  }

  lemma FolderLookupOne(lv: Level, n: string)
    ensures |FindFolder(lv, n)| == 1 ==> UniqueFolderNamed(lv, n, FindFolder(lv, n)[0])
  {
    var r := FindFolder(lv, n);
    if |r| == 1 {
      assert IsFolderNamed(lv, r[0], n) by {
        FindFolderMember(lv, n, r[0]);
      }
      forall q | IsFolderNamed(lv, q, n) ensures q == r[0] {
        assert q in r by {
          FindFolderMember(lv, n, q);
        }
        OnlyMember(r, q);
      }
    }
  }

  lemma FolderLookupMany(lv: Level, n: string)
    ensures |FindFolder(lv, n)| > 1 <==> ManyFoldersNamed(lv, n)
  {
    var r := FindFolder(lv, n);
    if |r| > 1 {
      FindFolderNoDuplicates(lv, n);
      FindFolderMember(lv, n, r[0]);
      FindFolderMember(lv, n, r[1]);
      assert r[0] != r[1];
    }
    if ManyFoldersNamed(lv, n) {
      var p, q :| IsFolderNamed(lv, p, n) && IsFolderNamed(lv, q, n) && p != q;
      FindFolderMember(lv, n, p);
      FindFolderMember(lv, n, q);
      TwoDistinctMembers(r, p, q);
    }
  }

  // ---------------------------------------------------------------- object lookup (find_object)

  /** An object named `n` sits at `r`, with no condition on the levels it is below. */
  predicate IsObjectNamed(lv: Level, r: NodeRef, n: string)
    decreases |r.path|
  {
    && r.ObjectNode?
    && if |r.path| == 0 then r.index < |lv.objects| && lv.objects[r.index].obj.name == n
       else r.path[0] < |lv.folders| && IsObjectNamed(lv.folders[r.path[0]].content, Pop(r), n)
  }

  /**
   * An object named `n` sits at `r`, and every level from `lv` down to the object's own level has at
   * least one object: the objects that find_object can see, since its search returns `[]` at a level
   * whose `objects` map is empty, whatever the sub-folders hold.
   */
  predicate IsVisibleObject(lv: Level, r: NodeRef, n: string)
    ensures IsVisibleObject(lv, r, n) ==> ValidRef(lv, r)
    decreases |r.path|
  {
    && r.ObjectNode?
    && lv.objects != []
    && if |r.path| == 0 then r.index < |lv.objects| && lv.objects[r.index].obj.name == n
       else r.path[0] < |lv.folders| && IsVisibleObject(lv.folders[r.path[0]].content, Pop(r), n)
  }

  ghost predicate NoVisibleObject(lv: Level, n: string)
  {
    forall r :: !IsVisibleObject(lv, r, n)
  }

  ghost predicate ManyVisibleObjects(lv: Level, n: string)
  {
    exists r, s :: IsVisibleObject(lv, r, n) && IsVisibleObject(lv, s, n) && r != s
  }

  ghost predicate UniqueVisibleObject(lv: Level, n: string, r: NodeRef)
  {
    IsVisibleObject(lv, r, n) && forall s :: IsVisibleObject(lv, s, n) ==> s == r
  }

  function NestAll(i: nat, rs: seq<NodeRef>): (r: seq<NodeRef>)
    ensures |r| == |rs| && forall j :: 0 <= j < |rs| ==> r[j] == Nest(i, rs[j])
  {
    seq(|rs|, j requires 0 <= j < |rs| => Nest(i, rs[j]))
  }

  function LocalObjects(ixs: seq<nat>): (r: seq<NodeRef>)
    ensures |r| == |ixs| && forall j :: 0 <= j < |ixs| ==> r[j] == ObjectNode([], ixs[j])
  {
    seq(|ixs|, j requires 0 <= j < |ixs| => ObjectNode([], ixs[j]))
  }

  /**
   * `find_node(name, NodeType.OBJECT, starting_point=lv)`: `[]` when `lv` has no objects;
   * otherwise the findings of every sub-folder before the matches among `lv`'s own objects.
   */
  function FindObject(lv: Level, n: string): seq<NodeRef>
    decreases lv, 1, 0
  {
    if lv.objects == [] then []
    else FindObjectIn(lv, n, |lv.folders|) + LocalObjects(IndicesOf(ObjectNames(lv.objects), n, |lv.objects|))
  }

  function FindObjectIn(lv: Level, n: string, k: nat): seq<NodeRef>
    requires k <= |lv.folders|
    decreases lv, 0, k
  {
    if k == 0 then []
    else FindObjectIn(lv, n, k - 1) + NestAll(k - 1, FindObject(lv.folders[k - 1].content, n))
  }

  lemma NestAllMember(i: nat, rs: seq<NodeRef>, r: NodeRef)
    ensures r in NestAll(i, rs) <==> |r.path| > 0 && r.path[0] == i && Pop(r) in rs
  {
    if |r.path| > 0 && r.path[0] == i && Pop(r) in rs {
      var j :| 0 <= j < |rs| && rs[j] == Pop(r);
      assert NestAll(i, rs)[j] == r;
    }
  }

  lemma FindObjectInMember(lv: Level, n: string, k: nat, r: NodeRef)
    requires k <= |lv.folders|
    ensures r in FindObjectIn(lv, n, k) <==>
              r.ObjectNode? && |r.path| > 0 && r.path[0] < k && IsVisibleObject(lv.folders[r.path[0]].content, Pop(r), n)
    decreases lv, 0, k
  {
    if k > 0 {
      FindObjectInMember(lv, n, k - 1, r);
      NestAllMember(k - 1, FindObject(lv.folders[k - 1].content, n), r);
      if |r.path| > 0 && r.path[0] < k {
        FindObjectMember(lv.folders[r.path[0]].content, n, Pop(r));
      }
    }
  }

  /** find_object returns exactly the visible objects named `n`. */
  lemma FindObjectMember(lv: Level, n: string, r: NodeRef)
    ensures r in FindObject(lv, n) <==> IsVisibleObject(lv, r, n)
    decreases lv, 1, 0
  {
    if lv.objects != [] {
      FindObjectInMember(lv, n, |lv.folders|, r);
      var local := IndicesOf(ObjectNames(lv.objects), n, |lv.objects|);
      if r in LocalObjects(local) {
        var j :| 0 <= j < |local| && LocalObjects(local)[j] == r;
      }
      if r.ObjectNode? && |r.path| == 0 && IsVisibleObject(lv, r, n) {
        assert r.index in local;
        var j :| 0 <= j < |local| && local[j] == r.index;
        assert LocalObjects(local)[j] == r;
      }
    }
  }

  lemma FindObjectInNoDuplicates(lv: Level, n: string, k: nat)
    requires k <= |lv.folders|
    ensures NoDuplicates(FindObjectIn(lv, n, k))
    decreases lv, 0, k
  {
    if k > 0 {
      FindObjectInNoDuplicates(lv, n, k - 1);
      var sub := FindObject(lv.folders[k - 1].content, n);
      FindObjectNoDuplicates(lv.folders[k - 1].content, n);
      var u := NestAll(k - 1, sub);
      forall a, b | 0 <= a < b < |u| ensures u[a] != u[b] {
        assert Pop(u[a]) == sub[a] && Pop(u[b]) == sub[b];
      }
      forall x | x in FindObjectIn(lv, n, k - 1) ensures x !in u {
        FindObjectInMember(lv, n, k - 1, x);
        NestAllMember(k - 1, sub, x);
      }
      NoDuplicatesConcat(FindObjectIn(lv, n, k - 1), u);
    }
  }

  /** find_object never reports one object twice. */
  lemma FindObjectNoDuplicates(lv: Level, n: string)
    ensures NoDuplicates(FindObject(lv, n))
    decreases lv, 1, 0
  {
    if lv.objects != [] {
      FindObjectInNoDuplicates(lv, n, |lv.folders|);
      var local := IndicesOf(ObjectNames(lv.objects), n, |lv.objects|);
      var s := LocalObjects(local);
      forall a, b | 0 <= a < b < |s| ensures s[a] != s[b] {
        assert s[a].index == local[a] && s[b].index == local[b];
      }
      forall x | x in FindObjectIn(lv, n, |lv.folders|) ensures x !in s {
        FindObjectInMember(lv, n, |lv.folders|, x);
      }
      NoDuplicatesConcat(FindObjectIn(lv, n, |lv.folders|), s);
    }
  }

  lemma FindObjectInOrdered(lv: Level, n: string, k: nat)
    requires k <= |lv.folders|
    ensures forall r :: r in FindObjectIn(lv, n, k) ==> r.ObjectNode? && |r.path| > 0 && r.path[0] < k
    ensures forall a, b :: 0 <= a < b < |FindObjectIn(lv, n, k)| ==> FindObjectIn(lv, n, k)[a].path[0] <= FindObjectIn(lv, n, k)[b].path[0]
    decreases k
  {
    if k > 0 {
      FindObjectInOrdered(lv, n, k - 1);
      var d0 := FindObjectIn(lv, n, k - 1);
      var u := NestAll(k - 1, FindObject(lv.folders[k - 1].content, n));
      forall x | x in FindObjectIn(lv, n, k) ensures x.ObjectNode? && |x.path| > 0 && x.path[0] < k {
        FindObjectInMember(lv, n, k, x);
      }
      forall x | x in u ensures x.path[0] == k - 1 {
        NestAllMember(k - 1, FindObject(lv.folders[k - 1].content, n), x);
      }
      assert FindObjectIn(lv, n, k) == d0 + u;
    }
  }

  /**
   * The order of find_object's result: the findings of the sub-folders come first, grouped by
   * sub-folder in enumeration order, and the matches among the level's own objects (the
   * references with an empty folder path) come last, in enumeration order.
   */
  lemma FindObjectOrder(lv: Level, n: string)
    ensures forall r :: r in FindObject(lv, n) ==> r.ObjectNode?
    ensures var r := FindObject(lv, n);
              forall a, b :: 0 <= a < b < |r| ==>
                && (r[a].path == [] ==> r[b].path == [] && r[a].index < r[b].index)
                && (r[b].path != [] ==> r[a].path != [] && r[a].path[0] <= r[b].path[0])
  {
    forall r | r in FindObject(lv, n) ensures r.ObjectNode? {
      FindObjectMember(lv, n, r);
    }
    if lv.objects != [] {
      FindObjectInOrdered(lv, n, |lv.folders|);
      var d := FindObjectIn(lv, n, |lv.folders|);
      var ixs := IndicesOf(ObjectNames(lv.objects), n, |lv.objects|);
      var own := LocalObjects(ixs);
      var r := d + own;
      assert r == FindObject(lv, n);
      forall a, b | 0 <= a < b < |r|
        ensures r[a].path == [] ==> r[b].path == [] && r[a].index < r[b].index
        ensures r[b].path != [] ==> r[a].path != [] && r[a].path[0] <= r[b].path[0]
      {
        if b < |d| {
          assert r[a] == d[a] && r[b] == d[b];
        } else if a < |d| {
          assert r[a] == d[a] && r[b] == own[b - |d|];
        } else {
          assert r[a] == own[a - |d|] && r[b] == own[b - |d|];
          assert ixs[a - |d|] < ixs[b - |d|];
        }
      }
    }
  }

  /** What the `len(metaobject)` tests of add_variable and add_property decide. */
  lemma ObjectLookupCases(lv: Level, n: string)
    ensures |FindObject(lv, n)| == 0 <==> NoVisibleObject(lv, n)
    ensures |FindObject(lv, n)| == 1 ==> UniqueVisibleObject(lv, n, FindObject(lv, n)[0])
    ensures |FindObject(lv, n)| > 1 <==> ManyVisibleObjects(lv, n)
  {
    ObjectLookupNone(lv, n);
    ObjectLookupOne(lv, n);
    ObjectLookupMany(lv, n);
  }

  lemma ObjectLookupNone(lv: Level, n: string)
    ensures |FindObject(lv, n)| == 0 <==> NoVisibleObject(lv, n)
  {
    var r := FindObject(lv, n);
    if |r| == 0 {
      forall x ensures !IsVisibleObject(lv, x, n) {
        FindObjectMember(lv, n, x);
      }
    } else {
      FindObjectMember(lv, n, r[0]);
    }
  }

  lemma ObjectLookupOne(lv: Level, n: string)
    ensures |FindObject(lv, n)| == 1 ==> UniqueVisibleObject(lv, n, FindObject(lv, n)[0])
  {
    var r := FindObject(lv, n);
    if |r| == 1 {
      assert IsVisibleObject(lv, r[0], n) by {
        FindObjectMember(lv, n, r[0]);
      }
      forall s | IsVisibleObject(lv, s, n) ensures s == r[0] {
        assert s in r by {
          FindObjectMember(lv, n, s);
        }
        OnlyMember(r, s);
      }
    }
  }

  lemma ObjectLookupMany(lv: Level, n: string)
    ensures |FindObject(lv, n)| > 1 <==> ManyVisibleObjects(lv, n)
  {
    var r := FindObject(lv, n);
    if |r| > 1 {
      FindObjectNoDuplicates(lv, n);
      FindObjectMember(lv, n, r[0]);
      FindObjectMember(lv, n, r[1]);
      assert r[0] != r[1];
    }
    if ManyVisibleObjects(lv, n) {
      var x, y :| IsVisibleObject(lv, x, n) && IsVisibleObject(lv, y, n) && x != y;
      FindObjectMember(lv, n, x);
      FindObjectMember(lv, n, y);
      TwoDistinctMembers(r, x, y);
    }
  }

  /** Every object find_object sees exists; the converse fails (see ObjectLookupIsBlindBelowEmptyLevel). */
  lemma {:induction false} VisibleObjectIsObject(lv: Level, r: NodeRef, n: string)
    requires IsVisibleObject(lv, r, n)
    ensures IsObjectNamed(lv, r, n)
    decreases |r.path|
  {
    if |r.path| > 0 {
      VisibleObjectIsObject(lv.folders[r.path[0]].content, Pop(r), n);
    }
  }

  /**
   * A root with no objects and one folder holding an object named `n`: the object exists, yet
   * find_object does not return it, because the root's `objects` map is empty.
   */
  lemma ObjectLookupIsBlindBelowEmptyLevel(n: string)
    ensures var inner := Level([], [ObjectEntry(TragenObject(n, 0), ObjectContent([], []))], [], []);
            var root := Level([FolderEntry(TragenFolder("F", 0), inner)], [], [], []);
            IsObjectNamed(root, ObjectNode([0], 0), n) && FindObject(root, n) == []
  {
  }

  // ---------------------------------------------------------------- variable lookup (find_variable)

  /** A variable named `n` sits at `r` (in a folder level or in an object's content), below `lv`. */
  predicate IsVariableNamed(lv: Level, r: LeafRef, n: string)
    decreases |r.container.path|
  {
    if |r.container.path| == 0 then
      match r.container
      case FolderNode(_) => r.index < |lv.variables| && lv.variables[r.index].name == n
      case ObjectNode(_, x) =>
        x < |lv.objects| && r.index < |lv.objects[x].content.variables|
        && lv.objects[x].content.variables[r.index].name == n
    else
      r.container.path[0] < |lv.folders|
      && IsVariableNamed(lv.folders[r.container.path[0]].content, LeafRef(Pop(r.container), r.index), n)
  }

  ghost predicate HasVariableNamed(lv: Level, n: string)
  {
    exists r :: IsVariableNamed(lv, r, n)
  }

  function NestLeaves(i: nat, rs: seq<LeafRef>): (r: seq<LeafRef>)
    ensures |r| == |rs| && forall j :: 0 <= j < |rs| ==> r[j] == NestLeaf(i, rs[j])
  {
    seq(|rs|, j requires 0 <= j < |rs| => NestLeaf(i, rs[j]))
  }

  function LeavesIn(c: NodeRef, ixs: seq<nat>): (r: seq<LeafRef>)
    ensures |r| == |ixs| && forall j :: 0 <= j < |ixs| ==> r[j] == LeafRef(c, ixs[j])
  {
    seq(|ixs|, j requires 0 <= j < |ixs| => LeafRef(c, ixs[j]))
  }

  /**
   * `find_variable(name, graph=lv)` on a folder level: the findings of the sub-folders, then of the
   * objects' contents, then the matches among `lv`'s own variables. (Its early `return []` compares
   * a list with `{}` and never fires.)
   */
  function FindVariable(lv: Level, n: string): seq<LeafRef>
    decreases lv, 1, 0
  {
    FindVariableIn(lv, n, |lv.folders|)
    + FindVariableInObjects(lv.objects, n, |lv.objects|)
    + LeavesIn(FolderNode([]), IndicesOf(VariableNames(lv.variables), n, |lv.variables|))
  }

  function FindVariableIn(lv: Level, n: string, k: nat): seq<LeafRef>
    requires k <= |lv.folders|
    decreases lv, 0, k
  {
    if k == 0 then []
    else FindVariableIn(lv, n, k - 1) + NestLeaves(k - 1, FindVariable(lv.folders[k - 1].content, n))
  }

  /**
   * The recursion of find_variable into one object's content finds only that object's variables
   * (`start["folders"]` raises KeyError there and the handler returns the findings).
   */
  function FindVariableInObjects(os: seq<ObjectEntry>, n: string, k: nat): seq<LeafRef>
    requires k <= |os|
    decreases k
  {
    if k == 0 then []
    else
      var vs := os[k - 1].content.variables;
      FindVariableInObjects(os, n, k - 1) + LeavesIn(ObjectNode([], k - 1), IndicesOf(VariableNames(vs), n, |vs|))
  }

  lemma NestLeavesMember(i: nat, rs: seq<LeafRef>, r: LeafRef)
    ensures r in NestLeaves(i, rs) <==>
              |r.container.path| > 0 && r.container.path[0] == i && LeafRef(Pop(r.container), r.index) in rs
  {
    if |r.container.path| > 0 && r.container.path[0] == i && LeafRef(Pop(r.container), r.index) in rs {
      var j :| 0 <= j < |rs| && rs[j] == LeafRef(Pop(r.container), r.index);
      assert NestLeaves(i, rs)[j] == r;
    }
  }

  lemma FindVariableInMember(lv: Level, n: string, k: nat, r: LeafRef)
    requires k <= |lv.folders|
    ensures r in FindVariableIn(lv, n, k) <==>
              |r.container.path| > 0 && r.container.path[0] < k
              && IsVariableNamed(lv.folders[r.container.path[0]].content, LeafRef(Pop(r.container), r.index), n)
    decreases lv, 0, k
  {
    if k > 0 {
      FindVariableInMember(lv, n, k - 1, r);
      NestLeavesMember(k - 1, FindVariable(lv.folders[k - 1].content, n), r);
      if |r.container.path| > 0 && r.container.path[0] < k {
        FindVariableMember(lv.folders[r.container.path[0]].content, n, LeafRef(Pop(r.container), r.index));
      }
    }
  }

  /** The leaves one scan of a variables list adds: the positions in `c` of the variables named `n`. */
  lemma LeavesOfNamedMember(c: NodeRef, vs: seq<TragenVariable>, n: string, r: LeafRef)
    ensures r in LeavesIn(c, IndicesOf(VariableNames(vs), n, |vs|)) <==>
              r.container == c && r.index < |vs| && vs[r.index].name == n
  {
    var local := IndicesOf(VariableNames(vs), n, |vs|);
    if r in LeavesIn(c, local) {
      var j :| 0 <= j < |local| && LeavesIn(c, local)[j] == r;
    }
    if r.container == c && r.index < |vs| && vs[r.index].name == n {
      assert r.index in local;
      var j :| 0 <= j < |local| && local[j] == r.index;
      assert LeavesIn(c, local)[j] == r;
    }
  }

  lemma FindVariableInObjectsMember(os: seq<ObjectEntry>, n: string, k: nat, r: LeafRef)
    requires k <= |os|
    ensures r in FindVariableInObjects(os, n, k) <==>
              r.container.ObjectNode? && |r.container.path| == 0 && r.container.index < k
              && r.index < |os[r.container.index].content.variables|
              && os[r.container.index].content.variables[r.index].name == n
    decreases k
  {
    if k > 0 {
      FindVariableInObjectsMember(os, n, k - 1, r);
      LeavesOfNamedMember(ObjectNode([], k - 1), os[k - 1].content.variables, n, r);
    }
  }

  /** find_variable returns exactly the variables named `n` anywhere below `lv`, objects included. */
  lemma FindVariableMember(lv: Level, n: string, r: LeafRef)
    ensures r in FindVariable(lv, n) <==> IsVariableNamed(lv, r, n)
    decreases lv, 1, 0
  {
    FindVariableInMember(lv, n, |lv.folders|, r);
    FindVariableInObjectsMember(lv.objects, n, |lv.objects|, r);
    LeavesOfNamedMember(FolderNode([]), lv.variables, n, r);
  }

  lemma VariableLookupCases(lv: Level, n: string)
    ensures |FindVariable(lv, n)| > 0 <==> HasVariableNamed(lv, n)
  {
    if |FindVariable(lv, n)| > 0 {
      FindVariableMember(lv, n, FindVariable(lv, n)[0]);
    }
    if HasVariableNamed(lv, n) {
      var r :| IsVariableNamed(lv, r, n);
      FindVariableMember(lv, n, r);
    }
  }

  /**
   * A variable named `n` is already in the container `c`: anywhere below a folder level (objects
   * included), or among the object's own variables.
   */
  ghost predicate VariableNameTaken(lv: Level, c: NodeRef, n: string)
    requires ValidRef(lv, c)
  {
    match c
    case FolderNode(p) => HasVariableNamed(LevelAt(lv, p), n)
    case ObjectNode(_, _) => n in VariableNames(VariablesAt(lv, c))
  }

  /** `find_variable(n, graph=c)`, with positions relative to `c`. */
  function FindVariableFrom(lv: Level, c: NodeRef, n: string): (r: seq<LeafRef>)
    requires ValidRef(lv, c)
    ensures |r| > 0 <==> VariableNameTaken(lv, c, n)
  {
    match c
    case FolderNode(p) =>
      VariableLookupCases(LevelAt(lv, p), n);
      FindVariable(LevelAt(lv, p), n)
    case ObjectNode(_, _) =>
      var vs := VariablesAt(lv, c);
      var found := IndicesOf(VariableNames(vs), n, |vs|);
      assert n in VariableNames(vs) ==> exists k :: 0 <= k < |vs| && VariableNames(vs)[k] == n && k in found;
      assert |found| > 0 ==> found[0] in found;
      LeavesIn(c, found)
  }

  // ---------------------------------------------------------------- growth of the graph

  /** Every add_* call attaches a folder, an object, a variable or a property to the level at a path. */
  function AddFolderAt(lv: Level, p: FolderPath, f: TragenFolder): Level
    requires ValidPath(lv, p)
  {
    var at := LevelAt(lv, p);
    WithLevelAt(lv, p, at.(folders := at.folders + [FolderEntry(f, EmptyLevel)]))
  }

  function AddObjectAt(lv: Level, p: FolderPath, o: TragenObject, c: ObjectContent): Level
    requires ValidPath(lv, p)
  {
    var at := LevelAt(lv, p);
    WithLevelAt(lv, p, at.(objects := at.objects + [ObjectEntry(o, c)]))
  }

  function AppendVariableAt(lv: Level, c: NodeRef, v: TragenVariable): Level
    requires ValidRef(lv, c)
  {
    var at := LevelAt(lv, c.path);
    match c
    case FolderNode(p) => WithLevelAt(lv, p, at.(variables := at.variables + [v]))
    case ObjectNode(p, x) =>
      var e := at.objects[x];
      WithLevelAt(lv, p, at.(objects := at.objects[x := ObjectEntry(e.obj, e.content.(variables := e.content.variables + [v]))]))
  }

  function AppendPropertyAt(lv: Level, c: NodeRef, pr: TragenProperty): Level
    requires ValidRef(lv, c)
  {
    var at := LevelAt(lv, c.path);
    match c
    case FolderNode(p) => WithLevelAt(lv, p, at.(properties := at.properties + [pr]))
    case ObjectNode(p, x) =>
      var e := at.objects[x];
      WithLevelAt(lv, p, at.(objects := at.objects[x := ObjectEntry(e.obj, e.content.(properties := e.content.properties + [pr]))]))
  }

  /** The variables (or properties) held by the container `c`. */
  function VariablesAt(lv: Level, c: NodeRef): seq<TragenVariable>
    requires ValidRef(lv, c)
  {
    match c
    case FolderNode(p) => LevelAt(lv, p).variables
    case ObjectNode(p, x) => LevelAt(lv, p).objects[x].content.variables
  }

  function PropertiesAt(lv: Level, c: NodeRef): seq<TragenProperty>
    requires ValidRef(lv, c)
  {
    match c
    case FolderNode(p) => LevelAt(lv, p).properties
    case ObjectNode(p, x) => LevelAt(lv, p).objects[x].content.properties
  }

  /** The new sub-level is in place at `p`, and the path still leads there. */
  lemma {:induction false} WithLevelAtSpec(lv: Level, p: FolderPath, sub: Level)
    requires ValidPath(lv, p)
    ensures ValidPath(WithLevelAt(lv, p, sub), p) && LevelAt(WithLevelAt(lv, p, sub), p) == sub
    decreases |p|
  {
    if |p| > 0 {
      WithLevelAtSpec(lv.folders[p[0]].content, p[1..], sub);
    }
  }

  /**
   * `b` is `a` with nodes attached and nothing removed, renamed or reordered: the only way the
   * add_* operations change the graph.
   */
  predicate Grows(a: Level, b: Level)
    decreases a
  {
    && |a.folders| <= |b.folders|
    && (forall i :: 0 <= i < |a.folders| ==>
          a.folders[i].folder == b.folders[i].folder && Grows(a.folders[i].content, b.folders[i].content))
    && |a.objects| <= |b.objects|
    && (forall i :: 0 <= i < |a.objects| ==>
          && a.objects[i].obj == b.objects[i].obj
          && a.objects[i].content.variables <= b.objects[i].content.variables
          && a.objects[i].content.properties <= b.objects[i].content.properties)
    && a.variables <= b.variables
    && a.properties <= b.properties
  }

  lemma {:induction false} GrowsReflexive(a: Level)
    ensures Grows(a, a)
    decreases a
  {
    forall i | 0 <= i < |a.folders| ensures Grows(a.folders[i].content, a.folders[i].content) {
      GrowsReflexive(a.folders[i].content);
    }
  }

  lemma {:induction false} GrowsUnder(lv: Level, p: FolderPath, sub: Level)
    requires ValidPath(lv, p) && Grows(LevelAt(lv, p), sub)
    ensures Grows(lv, WithLevelAt(lv, p, sub))
    decreases |p|
  {
    if |p| > 0 {
      GrowsUnder(lv.folders[p[0]].content, p[1..], sub);
      var b := WithLevelAt(lv, p, sub);
      forall i | 0 <= i < |lv.folders| && i != p[0]
        ensures Grows(lv.folders[i].content, b.folders[i].content)
      {
        GrowsReflexive(lv.folders[i].content);
      }
    }
  }

  /** Growth keeps every path valid and every sub-level growing. */
  lemma {:induction false} GrowsAt(a: Level, b: Level, p: FolderPath)
    requires Grows(a, b) && ValidPath(a, p)
    ensures ValidPath(b, p) && Grows(LevelAt(a, p), LevelAt(b, p))
    decreases |p|
  {
    if |p| > 0 {
      GrowsAt(a.folders[p[0]].content, b.folders[p[0]].content, p[1..]);
    }
  }

  /** A reference returned by an earlier add_* call still designates a node after later ones. */
  lemma GrowsKeepsRefs(a: Level, b: Level, r: NodeRef)
    requires Grows(a, b) && ValidRef(a, r)
    ensures ValidRef(b, r)
  {
    GrowsAt(a, b, r.path);
  }

  /** Growth keeps every folder where it was, with its name. */
  lemma {:induction false} GrowsKeepsFolders(a: Level, b: Level, p: FolderPath, n: string)
    requires Grows(a, b) && IsFolderNamed(a, p, n)
    ensures IsFolderNamed(b, p, n)
    decreases |p|
  {
    if |p| > 1 {
      GrowsKeepsFolders(a.folders[p[0]].content, b.folders[p[0]].content, p[1..], n);
    }
  }

  lemma AddFolderAtGrows(lv: Level, p: FolderPath, f: TragenFolder)
    requires ValidPath(lv, p)
    ensures Grows(lv, AddFolderAt(lv, p, f))
  {
    var at := LevelAt(lv, p);
    GrowsReflexive(at);
    GrowsUnder(lv, p, at.(folders := at.folders + [FolderEntry(f, EmptyLevel)]));
  }

  lemma AddObjectAtGrows(lv: Level, p: FolderPath, o: TragenObject, c: ObjectContent)
    requires ValidPath(lv, p)
    ensures Grows(lv, AddObjectAt(lv, p, o, c))
  {
    var at := LevelAt(lv, p);
    GrowsReflexive(at);
    GrowsUnder(lv, p, at.(objects := at.objects + [ObjectEntry(o, c)]));
  }

  lemma AppendVariableAtGrows(lv: Level, c: NodeRef, v: TragenVariable)
    requires ValidRef(lv, c)
    ensures Grows(lv, AppendVariableAt(lv, c, v))
  {
    var at := LevelAt(lv, c.path);
    GrowsReflexive(at);
    match c
    case FolderNode(p) =>
      GrowsUnder(lv, p, at.(variables := at.variables + [v]));
    case ObjectNode(p, x) =>
      var e := at.objects[x];
      GrowsUnder(lv, p, at.(objects := at.objects[x := ObjectEntry(e.obj, e.content.(variables := e.content.variables + [v]))]));
  }

  lemma AppendPropertyAtGrows(lv: Level, c: NodeRef, pr: TragenProperty)
    requires ValidRef(lv, c)
    ensures Grows(lv, AppendPropertyAt(lv, c, pr))
  {
    var at := LevelAt(lv, c.path);
    GrowsReflexive(at);
    match c
    case FolderNode(p) =>
      GrowsUnder(lv, p, at.(properties := at.properties + [pr]));
    case ObjectNode(p, x) =>
      var e := at.objects[x];
      GrowsUnder(lv, p, at.(objects := at.objects[x := ObjectEntry(e.obj, e.content.(properties := e.content.properties + [pr]))]));
  }

  /** The folder add_folder attaches is the last of its parent's folders and is empty. */
  lemma AddFolderAtSpec(lv: Level, p: FolderPath, f: TragenFolder)
    requires ValidPath(lv, p)
    ensures var g := AddFolderAt(lv, p, f);
            ValidPath(g, p)
            && LevelAt(g, p).folders == LevelAt(lv, p).folders + [FolderEntry(f, EmptyLevel)]
            && ValidPath(g, p + [|LevelAt(lv, p).folders|])
            && LevelAt(g, p + [|LevelAt(lv, p).folders|]) == EmptyLevel
  {
    var at := LevelAt(lv, p);
    var g := AddFolderAt(lv, p, f);
    WithLevelAtSpec(lv, p, at.(folders := at.folders + [FolderEntry(f, EmptyLevel)]));
    PathExtend(g, p, |at.folders|);
  }

  lemma {:induction false} PathExtend(lv: Level, p: FolderPath, i: nat)
    requires ValidPath(lv, p) && i < |LevelAt(lv, p).folders|
    ensures ValidPath(lv, p + [i]) && LevelAt(lv, p + [i]) == LevelAt(lv, p).folders[i].content
    decreases |p|
  {
    if |p| > 0 {
      assert (p + [i])[1..] == p[1..] + [i];
      PathExtend(lv.folders[p[0]].content, p[1..], i);
    } else {
      assert (p + [i])[1..] == [];
    }
  }

  /** The variable add_variable attaches goes last in its container's list; earlier ones keep their order. */
  lemma AppendVariableAtSpec(lv: Level, c: NodeRef, v: TragenVariable)
    requires ValidRef(lv, c)
    ensures ValidRef(AppendVariableAt(lv, c, v), c)
    ensures VariablesAt(AppendVariableAt(lv, c, v), c) == VariablesAt(lv, c) + [v]
    ensures PropertiesAt(AppendVariableAt(lv, c, v), c) == PropertiesAt(lv, c)
  {
    var at := LevelAt(lv, c.path);
    match c
    case FolderNode(p) =>
      WithLevelAtSpec(lv, p, at.(variables := at.variables + [v]));
    case ObjectNode(p, x) =>
      var e := at.objects[x];
      WithLevelAtSpec(lv, p, at.(objects := at.objects[x := ObjectEntry(e.obj, e.content.(variables := e.content.variables + [v]))]));
  }

  /** The property add_property attaches goes last in its container's list; earlier ones keep their order. */
  lemma AppendPropertyAtSpec(lv: Level, c: NodeRef, pr: TragenProperty)
    requires ValidRef(lv, c)
    ensures ValidRef(AppendPropertyAt(lv, c, pr), c)
    ensures PropertiesAt(AppendPropertyAt(lv, c, pr), c) == PropertiesAt(lv, c) + [pr]
    ensures VariablesAt(AppendPropertyAt(lv, c, pr), c) == VariablesAt(lv, c)
  {
    var at := LevelAt(lv, c.path);
    match c
    case FolderNode(p) =>
      WithLevelAtSpec(lv, p, at.(properties := at.properties + [pr]));
    case ObjectNode(p, x) =>
      var e := at.objects[x];
      WithLevelAtSpec(lv, p, at.(objects := at.objects[x := ObjectEntry(e.obj, e.content.(properties := e.content.properties + [pr]))]));
  }

  /**
   * Root-level add_folder performs no duplicate check, so a second root folder with an existing
   * name is attached beside the first, and from then on every lookup of that name is ambiguous.
   */
  lemma SameNamedRootFoldersCoexist(lv: Level, n: string, ns: int)
    requires !NoFolderNamed(lv, n)
    ensures ManyFoldersNamed(AddFolderAt(lv, [], TragenFolder(n, ns)), n)
  {
    var p :| IsFolderNamed(lv, p, n);
    var g := AddFolderAt(lv, [], TragenFolder(n, ns));
    AddFolderAtGrows(lv, [], TragenFolder(n, ns));
    GrowsKeepsFolders(lv, g, p, n);
    var q := [|lv.folders|];
    assert IsFolderNamed(g, q, n);
    assert p != q;
  }
}
