/**
 * The depth-first walk that `_rec_populate`, `create_notifying_events`, `set_updaters`,
 * `rec_subs`, `set_client_agents` and `setup_rw` all perform over a namespace graph.
 *
 * At each level the walk visits every folder (then the folder's contents, with the folder's node
 * as both `root` and `objects`), then every object (then its variables and properties, under the
 * object's node), then the level's variables and properties, under `root`. Folders hang off
 * `root` and objects off `objects`: at the top level these are the root node and the Objects
 * folder. Each roster or table these functions build is read off this one sequence of visits.
 */
module Walk {
  import opened NamespaceGraph
  import opened AddressSpace

  /** One node the walk reaches, with the address-space node it corresponds to. */
  datatype Visit =
    | FolderVisit(folder: TragenFolder, node: Handle)
    | ObjectVisit(obj: TragenObject, node: Handle)
    | VariableVisit(variable: TragenVariable, node: Handle)
    | PropertyVisit(property: TragenProperty, node: Handle)

  function Visits(lv: Level, root: Handle, objects: Handle): seq<Visit>
    decreases lv, 2, 0
  {
    FolderVisits(lv, root, |lv.folders|)
    + ObjectVisits(lv.objects, objects, |lv.objects|)
    + VariableVisits(lv.variables, root, |lv.variables|)
    + PropertyVisits(lv.properties, root, |lv.properties|)
  }

  /** The visits of the first `k` folders of `lv`, each followed by the visits of its contents. */
  function FolderVisits(lv: Level, root: Handle, k: nat): seq<Visit>
    requires k <= |lv.folders|
    decreases lv, 1, k
  {
    if k == 0 then []
    else
      var e := lv.folders[k - 1];
      var h := ChildOf(root, e.folder.namespace, e.folder.name);
      FolderVisits(lv, root, k - 1) + [FolderVisit(e.folder, h)] + Visits(e.content, h, h)
  }

  /** The visits of the first `k` objects, each followed by the visits of its variables and properties. */
  function ObjectVisits(os: seq<ObjectEntry>, objects: Handle, k: nat): seq<Visit>
    requires k <= |os|
    decreases k
  {
    if k == 0 then []
    else
      var e := os[k - 1];
      var h := ChildOf(objects, e.obj.namespace, e.obj.name);
      ObjectVisits(os, objects, k - 1) + [ObjectVisit(e.obj, h)] + ContentVisits(e.content, h)
  }

  /** The walk inside an object's content: it has neither `folders` nor `objects`. */
  function ContentVisits(c: ObjectContent, h: Handle): seq<Visit>
  {
    VariableVisits(c.variables, h, |c.variables|) + PropertyVisits(c.properties, h, |c.properties|)
  }

  function VariableVisits(vs: seq<TragenVariable>, root: Handle, k: nat): seq<Visit>
    requires k <= |vs|
    decreases k
  {
    if k == 0 then []
    else VariableVisits(vs, root, k - 1) + [VariableVisit(vs[k - 1], ChildOf(root, vs[k - 1].namespace, vs[k - 1].name))]
  }

  function PropertyVisits(ps: seq<TragenProperty>, root: Handle, k: nat): seq<Visit>
    requires k <= |ps|
    decreases k
  {
    if k == 0 then []
    else PropertyVisits(ps, root, k - 1) + [PropertyVisit(ps[k - 1], ChildOf(root, ps[k - 1].namespace, ps[k - 1].name))]
  }

  // ---------------------------------------------------------------- reading the walk

  /** The concatenation of `f` over the visits, in order: what a walk appending `f(v)` at each visit builds. */
  function FlatMap<T>(vs: seq<Visit>, f: Visit -> seq<T>): seq<T>
    decreases |vs|
  {
    if vs == [] then [] else FlatMap(vs[..|vs| - 1], f) + f(vs[|vs| - 1])
  }

  lemma {:induction false} FlatMapAppend<T>(a: seq<Visit>, b: seq<Visit>, f: Visit -> seq<T>)
    ensures FlatMap(a + b, f) == FlatMap(a, f) + FlatMap(b, f)
    decreases |b|
  {
    if b == [] {
      assert a + b == a;
    } else {
      assert (a + b)[..|a + b| - 1] == a + b[..|b| - 1];
      FlatMapAppend(a, b[..|b| - 1], f);
    }
  }

  /** Regrouping a concatenation, which the verifier only sees element by element. */
  lemma AppendAssoc<T>(a: seq<T>, b: seq<T>, c: seq<T>)
    ensures a + b + c == a + (b + c)
  {
  }

  /** A list extended by the four parts of a walk, one after the other, is the list extended by the walk. */
  lemma AppendFour<T>(s0: seq<T>, a: seq<T>, b: seq<T>, c: seq<T>, d: seq<T>)
    ensures s0 + a + b + c + d == s0 + (a + b + c + d)
  {
    AppendAssoc(s0, a, b);
    AppendAssoc(s0, a + b, c);
    AppendAssoc(s0, a + b + c, d);
  }

  lemma FlatMapSingle<T>(v: Visit, f: Visit -> seq<T>)
    ensures FlatMap([v], f) == f(v)
  {
    assert [v][..0] == [];
  }

  /** An element of a FlatMap comes from one visit, and every element of every visit's part is there. */
  lemma {:induction false} FlatMapMember<T>(vs: seq<Visit>, f: Visit -> seq<T>, x: T)
    ensures x in FlatMap(vs, f) <==> exists i :: 0 <= i < |vs| && x in f(vs[i])
    decreases |vs|
  {
    if vs != [] {
      var init := vs[..|vs| - 1];
      FlatMapMember(init, f, x);
      if exists i :: 0 <= i < |init| && x in f(init[i]) {
        var i :| 0 <= i < |init| && x in f(init[i]);
        assert vs[i] == init[i];
      }
      if exists i :: 0 <= i < |vs| && x in f(vs[i]) {
        var i :| 0 <= i < |vs| && x in f(vs[i]);
        if i < |init| {
          assert init[i] == vs[i];
        }
      }
    }
  }

  /** Two parts that agree at every visit of the walk agree on the whole walk. */
  lemma {:induction false} FlatMapPointwise<T>(vs: seq<Visit>, f: Visit -> seq<T>, g: Visit -> seq<T>)
    requires forall i :: 0 <= i < |vs| ==> f(vs[i]) == g(vs[i])
    ensures FlatMap(vs, f) == FlatMap(vs, g)
    decreases |vs|
  {
    if vs != [] {
      var init := vs[..|vs| - 1];
      forall i | 0 <= i < |init|
        ensures f(init[i]) == g(init[i])
      {
        assert init[i] == vs[i];
      }
      FlatMapPointwise(init, f, g);
    }
  }

  /** Two parts of the same length at every visit give walks of the same length. */
  lemma {:induction false} FlatMapSameLength<T, U>(vs: seq<Visit>, f: Visit -> seq<T>, g: Visit -> seq<U>)
    requires forall v :: |f(v)| == |g(v)|
    ensures |FlatMap(vs, f)| == |FlatMap(vs, g)|
    decreases |vs|
  {
    if vs != [] {
      FlatMapSameLength(vs[..|vs| - 1], f, g);
    }
  }

  /** A part chosen visit by visit from a larger part stays a sub-multiset across the whole walk. */
  lemma {:induction false} FlatMapMultiset<T>(vs: seq<Visit>, f: Visit -> seq<T>, g: Visit -> seq<T>)
    requires forall v :: multiset(f(v)) <= multiset(g(v))
    ensures multiset(FlatMap(vs, f)) <= multiset(FlatMap(vs, g))
    decreases |vs|
  {
    if vs != [] {
      FlatMapMultiset(vs[..|vs| - 1], f, g);
      assert multiset(f(vs[|vs| - 1])) <= multiset(g(vs[|vs| - 1]));
    }
  }

  lemma VisitsSplit<T>(lv: Level, root: Handle, objects: Handle, f: Visit -> seq<T>)
    ensures FlatMap(Visits(lv, root, objects), f)
            == FlatMap(FolderVisits(lv, root, |lv.folders|), f)
               + FlatMap(ObjectVisits(lv.objects, objects, |lv.objects|), f)
               + FlatMap(VariableVisits(lv.variables, root, |lv.variables|), f)
               + FlatMap(PropertyVisits(lv.properties, root, |lv.properties|), f)
  {
    var a := FolderVisits(lv, root, |lv.folders|);
    var b := ObjectVisits(lv.objects, objects, |lv.objects|);
    var c := VariableVisits(lv.variables, root, |lv.variables|);
    var d := PropertyVisits(lv.properties, root, |lv.properties|);
    FlatMapAppend(a + b + c, d, f);
    FlatMapAppend(a + b, c, f);
    FlatMapAppend(a, b, f);
  }

  lemma ContentSplit<T>(c: ObjectContent, h: Handle, f: Visit -> seq<T>)
    ensures FlatMap(ContentVisits(c, h), f)
            == FlatMap(VariableVisits(c.variables, h, |c.variables|), f)
               + FlatMap(PropertyVisits(c.properties, h, |c.properties|), f)
  {
    FlatMapAppend(VariableVisits(c.variables, h, |c.variables|), PropertyVisits(c.properties, h, |c.properties|), f);
  }

  /** When neither the object nor its properties contribute, an object's visit yields what its variables yield. */
  lemma ContentIsVariables<T>(o: TragenObject, c: ObjectContent, h: Handle, f: Visit -> seq<T>)
    requires f(ObjectVisit(o, h)) == []
    requires forall p, ph :: f(PropertyVisit(p, ph)) == []
    ensures f(ObjectVisit(o, h)) + FlatMap(ContentVisits(c, h), f)
            == FlatMap(VariableVisits(c.variables, h, |c.variables|), f)
  {
    ContentSplit(c, h, f);
    PropertiesAddNothing(c.properties, h, |c.properties|, f);
  }

  /** One more iteration of the `for folder in start["folders"]` loop of a walk. */
  lemma FolderStep<T>(lv: Level, root: Handle, i: nat, f: Visit -> seq<T>)
    requires i < |lv.folders|
    ensures var e := lv.folders[i];
            var h := ChildOf(root, e.folder.namespace, e.folder.name);
            FlatMap(FolderVisits(lv, root, i + 1), f)
            == FlatMap(FolderVisits(lv, root, i), f) + (f(FolderVisit(e.folder, h)) + FlatMap(Visits(e.content, h, h), f))
  {
    var e := lv.folders[i];
    var h := ChildOf(root, e.folder.namespace, e.folder.name);
    FlatMapAppend(FolderVisits(lv, root, i) + [FolderVisit(e.folder, h)], Visits(e.content, h, h), f);
    FlatMapAppend(FolderVisits(lv, root, i), [FolderVisit(e.folder, h)], f);
    FlatMapSingle(FolderVisit(e.folder, h), f);
    AppendAssoc(FlatMap(FolderVisits(lv, root, i), f), f(FolderVisit(e.folder, h)), FlatMap(Visits(e.content, h, h), f));
  }

  /** One more iteration of the `for obj in start["objects"]` loop of a walk. */
  lemma ObjectStep<T>(os: seq<ObjectEntry>, objects: Handle, i: nat, f: Visit -> seq<T>)
    requires i < |os|
    ensures var e := os[i];
            var h := ChildOf(objects, e.obj.namespace, e.obj.name);
            FlatMap(ObjectVisits(os, objects, i + 1), f)
            == FlatMap(ObjectVisits(os, objects, i), f) + (f(ObjectVisit(e.obj, h)) + FlatMap(ContentVisits(e.content, h), f))
  {
    var e := os[i];
    var h := ChildOf(objects, e.obj.namespace, e.obj.name);
    FlatMapAppend(ObjectVisits(os, objects, i) + [ObjectVisit(e.obj, h)], ContentVisits(e.content, h), f);
    FlatMapAppend(ObjectVisits(os, objects, i), [ObjectVisit(e.obj, h)], f);
    FlatMapSingle(ObjectVisit(e.obj, h), f);
    AppendAssoc(FlatMap(ObjectVisits(os, objects, i), f), f(ObjectVisit(e.obj, h)), FlatMap(ContentVisits(e.content, h), f));
  }

  /** One more iteration of the `for var in start["variables"]` loop of a walk. */
  lemma VariableStep<T>(vs: seq<TragenVariable>, root: Handle, i: nat, f: Visit -> seq<T>)
    requires i < |vs|
    ensures FlatMap(VariableVisits(vs, root, i + 1), f)
            == FlatMap(VariableVisits(vs, root, i), f) + f(VariableVisit(vs[i], ChildOf(root, vs[i].namespace, vs[i].name)))
  {
    var v := VariableVisit(vs[i], ChildOf(root, vs[i].namespace, vs[i].name));
    FlatMapAppend(VariableVisits(vs, root, i), [v], f);
    FlatMapSingle(v, f);
  }

  /** One more iteration of the `for prt in start["properties"]` loop of a walk. */
  lemma PropertyStep<T>(ps: seq<TragenProperty>, root: Handle, i: nat, f: Visit -> seq<T>)
    requires i < |ps|
    ensures FlatMap(PropertyVisits(ps, root, i + 1), f)
            == FlatMap(PropertyVisits(ps, root, i), f) + f(PropertyVisit(ps[i], ChildOf(root, ps[i].namespace, ps[i].name)))
  {
    var v := PropertyVisit(ps[i], ChildOf(root, ps[i].namespace, ps[i].name));
    FlatMapAppend(PropertyVisits(ps, root, i), [v], f);
    FlatMapSingle(v, f);
  }

  /** A walk over properties adds nothing through an `f` that ignores properties. */
  lemma {:induction false} PropertiesAddNothing<T>(ps: seq<TragenProperty>, root: Handle, k: nat, f: Visit -> seq<T>)
    requires k <= |ps|
    requires forall p, h :: f(PropertyVisit(p, h)) == []
    ensures FlatMap(PropertyVisits(ps, root, k), f) == []
    decreases k
  {
    if k > 0 {
      PropertiesAddNothing(ps, root, k - 1, f);
      PropertyStep(ps, root, k - 1, f);
    }
  }

  /** A walk over variables adds nothing through an `f` that ignores variables. */
  lemma {:induction false} VariablesAddNothing<T>(vs: seq<TragenVariable>, root: Handle, k: nat, f: Visit -> seq<T>)
    requires k <= |vs|
    requires forall x, h :: f(VariableVisit(x, h)) == []
    ensures FlatMap(VariableVisits(vs, root, k), f) == []
    decreases k
  {
    if k > 0 {
      VariablesAddNothing(vs, root, k - 1, f);
      VariableStep(vs, root, k - 1, f);
    }
  }

  /** When every visit contributes exactly one element, the FlatMap is as long as the walk. */
  lemma {:induction false} FlatMapOnePerVisit<T>(vs: seq<Visit>, f: Visit -> seq<T>)
    requires forall v :: |f(v)| == 1
    ensures |FlatMap(vs, f)| == |vs|
    decreases |vs|
  {
    if vs != [] {
      FlatMapOnePerVisit(vs[..|vs| - 1], f);
    }
  }

  // A list or a dict that a walk's loop extends, one round further.

  lemma FolderExtends<T>(lv: Level, root: Handle, i: nat, s0: seq<T>, f: Visit -> seq<T>)
    requires i < |lv.folders|
    ensures var e := lv.folders[i];
            var h := ChildOf(root, e.folder.namespace, e.folder.name);
            s0 + FlatMap(FolderVisits(lv, root, i), f) + (f(FolderVisit(e.folder, h)) + FlatMap(Visits(e.content, h, h), f))
            == s0 + FlatMap(FolderVisits(lv, root, i + 1), f)
  {
    var e := lv.folders[i];
    var h := ChildOf(root, e.folder.namespace, e.folder.name);
    FolderStep(lv, root, i, f);
    AppendAssoc(s0, FlatMap(FolderVisits(lv, root, i), f), f(FolderVisit(e.folder, h)) + FlatMap(Visits(e.content, h, h), f));
  }

  /** The same, for a part the folder's own visit adds nothing to. */
  lemma FolderExtendsBy<T>(lv: Level, root: Handle, i: nat, s0: seq<T>, f: Visit -> seq<T>)
    requires i < |lv.folders|
    requires f(FolderVisit(lv.folders[i].folder, ChildOf(root, lv.folders[i].folder.namespace, lv.folders[i].folder.name))) == []
    ensures var e := lv.folders[i];
            var h := ChildOf(root, e.folder.namespace, e.folder.name);
            s0 + FlatMap(FolderVisits(lv, root, i), f) + FlatMap(Visits(e.content, h, h), f)
            == s0 + FlatMap(FolderVisits(lv, root, i + 1), f)
  {
    var e := lv.folders[i];
    var h := ChildOf(root, e.folder.namespace, e.folder.name);
    FolderExtends(lv, root, i, s0, f);
    assert f(FolderVisit(e.folder, h)) + FlatMap(Visits(e.content, h, h), f) == FlatMap(Visits(e.content, h, h), f);
  }

  lemma ObjectExtends<T>(os: seq<ObjectEntry>, objects: Handle, i: nat, s0: seq<T>, f: Visit -> seq<T>)
    requires i < |os|
    ensures var e := os[i];
            var h := ChildOf(objects, e.obj.namespace, e.obj.name);
            s0 + FlatMap(ObjectVisits(os, objects, i), f) + (f(ObjectVisit(e.obj, h)) + FlatMap(ContentVisits(e.content, h), f))
            == s0 + FlatMap(ObjectVisits(os, objects, i + 1), f)
  {
    var e := os[i];
    var h := ChildOf(objects, e.obj.namespace, e.obj.name);
    ObjectStep(os, objects, i, f);
    AppendAssoc(s0, FlatMap(ObjectVisits(os, objects, i), f), f(ObjectVisit(e.obj, h)) + FlatMap(ContentVisits(e.content, h), f));
  }

  lemma VariableExtends<T>(vs: seq<TragenVariable>, root: Handle, i: nat, s0: seq<T>, f: Visit -> seq<T>)
    requires i < |vs|
    ensures s0 + FlatMap(VariableVisits(vs, root, i), f) + f(VariableVisit(vs[i], ChildOf(root, vs[i].namespace, vs[i].name)))
            == s0 + FlatMap(VariableVisits(vs, root, i + 1), f)
  {
    VariableStep(vs, root, i, f);
    AppendAssoc(s0, FlatMap(VariableVisits(vs, root, i), f), f(VariableVisit(vs[i], ChildOf(root, vs[i].namespace, vs[i].name))));
  }

  lemma PropertyExtends<T>(ps: seq<TragenProperty>, root: Handle, i: nat, s0: seq<T>, f: Visit -> seq<T>)
    requires i < |ps|
    ensures s0 + FlatMap(PropertyVisits(ps, root, i), f) + f(PropertyVisit(ps[i], ChildOf(root, ps[i].namespace, ps[i].name)))
            == s0 + FlatMap(PropertyVisits(ps, root, i + 1), f)
  {
    PropertyStep(ps, root, i, f);
    AppendAssoc(s0, FlatMap(PropertyVisits(ps, root, i), f), f(PropertyVisit(ps[i], ChildOf(root, ps[i].namespace, ps[i].name))));
  }

  /** The variables loop, then the properties loop, extend a list by the walk of an object's content. */
  lemma ContentJoin<T>(c: ObjectContent, h: Handle, s0: seq<T>, f: Visit -> seq<T>)
    ensures s0 + FlatMap(VariableVisits(c.variables, h, |c.variables|), f) + FlatMap(PropertyVisits(c.properties, h, |c.properties|), f)
            == s0 + FlatMap(ContentVisits(c, h), f)
  {
    ContentSplit(c, h, f);
    AppendAssoc(s0, FlatMap(VariableVisits(c.variables, h, |c.variables|), f), FlatMap(PropertyVisits(c.properties, h, |c.properties|), f));
  }

  lemma FolderAssigns<K, V>(lv: Level, root: Handle, i: nat, m: map<K, V>, f: Visit -> seq<(K, V)>)
    requires i < |lv.folders|
    ensures var e := lv.folders[i];
            var h := ChildOf(root, e.folder.namespace, e.folder.name);
            Assign(Assign(m, FlatMap(FolderVisits(lv, root, i), f)), f(FolderVisit(e.folder, h)) + FlatMap(Visits(e.content, h, h), f))
            == Assign(m, FlatMap(FolderVisits(lv, root, i + 1), f))
  {
    var e := lv.folders[i];
    var h := ChildOf(root, e.folder.namespace, e.folder.name);
    FolderStep(lv, root, i, f);
    AssignAppend(m, FlatMap(FolderVisits(lv, root, i), f), f(FolderVisit(e.folder, h)) + FlatMap(Visits(e.content, h, h), f));
  }

  lemma ObjectAssigns<K, V>(os: seq<ObjectEntry>, objects: Handle, i: nat, m: map<K, V>, f: Visit -> seq<(K, V)>)
    requires i < |os|
    ensures var e := os[i];
            var h := ChildOf(objects, e.obj.namespace, e.obj.name);
            Assign(Assign(m, FlatMap(ObjectVisits(os, objects, i), f)), f(ObjectVisit(e.obj, h)) + FlatMap(ContentVisits(e.content, h), f))
            == Assign(m, FlatMap(ObjectVisits(os, objects, i + 1), f))
  {
    var e := os[i];
    var h := ChildOf(objects, e.obj.namespace, e.obj.name);
    ObjectStep(os, objects, i, f);
    AssignAppend(m, FlatMap(ObjectVisits(os, objects, i), f), f(ObjectVisit(e.obj, h)) + FlatMap(ContentVisits(e.content, h), f));
  }

  lemma VariableAssigns<K, V>(vs: seq<TragenVariable>, root: Handle, i: nat, m: map<K, V>, f: Visit -> seq<(K, V)>)
    requires i < |vs|
    ensures Assign(Assign(m, FlatMap(VariableVisits(vs, root, i), f)), f(VariableVisit(vs[i], ChildOf(root, vs[i].namespace, vs[i].name))))
            == Assign(m, FlatMap(VariableVisits(vs, root, i + 1), f))
  {
    VariableStep(vs, root, i, f);
    AssignAppend(m, FlatMap(VariableVisits(vs, root, i), f), f(VariableVisit(vs[i], ChildOf(root, vs[i].namespace, vs[i].name))));
  }

  // ---------------------------------------------------------------- what the walk reaches

  /** The full name of the graph node a visit stands for: its namespace and name. */
  function VisitName(v: Visit): QName
  {
    match v
    case FolderVisit(f, _) => QName(f.namespace, f.name)
    case ObjectVisit(o, _) => QName(o.namespace, o.name)
    case VariableVisit(x, _) => QName(x.namespace, x.name)
    case PropertyVisit(p, _) => QName(p.namespace, p.name)
  }

  /**
   * Every node the walk reaches is named after its graph node and lies strictly below `root` or
   * `objects`: the address-space counterpart of the graph's nesting.
   */
  ghost predicate WellPlaced(vs: seq<Visit>, root: Handle, objects: Handle)
  {
    forall i :: 0 <= i < |vs| ==>
      && |vs[i].node| > 0
      && vs[i].node[|vs[i].node| - 1] == VisitName(vs[i])
      && (Below(root, vs[i].node) || Below(objects, vs[i].node))
  }

  predicate Below(a: Handle, b: Handle)
  {
    |a| < |b| && b[..|a|] == a
  }

  lemma BelowTransitive(a: Handle, b: Handle, c: Handle)
    requires Below(a, b) && Below(b, c)
    ensures Below(a, c)
  {
    assert c[..|b|][..|a|] == c[..|a|];
  }

  lemma WellPlacedAppend(a: seq<Visit>, b: seq<Visit>, root: Handle, objects: Handle)
    requires WellPlaced(a, root, objects) && WellPlaced(b, root, objects)
    ensures WellPlaced(a + b, root, objects)
  {
    forall i | 0 <= i < |a + b|
      ensures |(a + b)[i].node| > 0 && (a + b)[i].node[|(a + b)[i].node| - 1] == VisitName((a + b)[i])
              && (Below(root, (a + b)[i].node) || Below(objects, (a + b)[i].node))
    {
      if i < |a| { assert (a + b)[i] == a[i]; } else { assert (a + b)[i] == b[i - |a|]; }
    }
  }

  /** Nodes placed below a child of `root` are below `root` itself. */
  lemma WellPlacedLift(vs: seq<Visit>, h: Handle, root: Handle, objects: Handle)
    requires WellPlaced(vs, h, h) && (Below(root, h) || Below(objects, h))
    ensures WellPlaced(vs, root, objects)
  {
    forall i | 0 <= i < |vs| ensures Below(root, vs[i].node) || Below(objects, vs[i].node) {
      if Below(root, h) { BelowTransitive(root, h, vs[i].node); } else { BelowTransitive(objects, h, vs[i].node); }
    }
  }

  lemma {:induction false} VariableVisitsPlaced(vs: seq<TragenVariable>, root: Handle, objects: Handle, k: nat)
    requires k <= |vs|
    ensures WellPlaced(VariableVisits(vs, root, k), root, objects)
    decreases k
  {
    if k > 0 {
      VariableVisitsPlaced(vs, root, objects, k - 1);
      WellPlacedAppend(VariableVisits(vs, root, k - 1), [VariableVisit(vs[k - 1], ChildOf(root, vs[k - 1].namespace, vs[k - 1].name))], root, objects);
    }
  }

  lemma {:induction false} PropertyVisitsPlaced(ps: seq<TragenProperty>, root: Handle, objects: Handle, k: nat)
    requires k <= |ps|
    ensures WellPlaced(PropertyVisits(ps, root, k), root, objects)
    decreases k
  {
    if k > 0 {
      PropertyVisitsPlaced(ps, root, objects, k - 1);
      WellPlacedAppend(PropertyVisits(ps, root, k - 1), [PropertyVisit(ps[k - 1], ChildOf(root, ps[k - 1].namespace, ps[k - 1].name))], root, objects);
    }
  }

  lemma {:induction false} ObjectVisitsPlaced(os: seq<ObjectEntry>, root: Handle, objects: Handle, k: nat)
    requires k <= |os|
    ensures WellPlaced(ObjectVisits(os, objects, k), root, objects)
    decreases k
  {
    if k > 0 {
      ObjectVisitsPlaced(os, root, objects, k - 1);
      var e := os[k - 1];
      var h := ChildOf(objects, e.obj.namespace, e.obj.name);
      VariableVisitsPlaced(e.content.variables, h, h, |e.content.variables|);
      PropertyVisitsPlaced(e.content.properties, h, h, |e.content.properties|);
      WellPlacedAppend(VariableVisits(e.content.variables, h, |e.content.variables|),
                       PropertyVisits(e.content.properties, h, |e.content.properties|), h, h);
      WellPlacedLift(ContentVisits(e.content, h), h, root, objects);
      WellPlacedAppend(ObjectVisits(os, objects, k - 1), [ObjectVisit(e.obj, h)], root, objects);
      WellPlacedAppend(ObjectVisits(os, objects, k - 1) + [ObjectVisit(e.obj, h)], ContentVisits(e.content, h), root, objects);
    }
  }

  lemma {:induction false} FolderVisitsPlaced(lv: Level, root: Handle, objects: Handle, k: nat)
    requires k <= |lv.folders|
    ensures WellPlaced(FolderVisits(lv, root, k), root, objects)
    decreases lv, 1, k
  {
    if k > 0 {
      FolderVisitsPlaced(lv, root, objects, k - 1);
      var e := lv.folders[k - 1];
      var h := ChildOf(root, e.folder.namespace, e.folder.name);
      VisitsPlaced(e.content, h, h);
      WellPlacedLift(Visits(e.content, h, h), h, root, objects);
      WellPlacedAppend(FolderVisits(lv, root, k - 1), [FolderVisit(e.folder, h)], root, objects);
      WellPlacedAppend(FolderVisits(lv, root, k - 1) + [FolderVisit(e.folder, h)], Visits(e.content, h, h), root, objects);
    }
  }

  /** Every node the walk reaches is named after its graph node and lies below `root` or `objects`. */
  lemma {:induction false} VisitsPlaced(lv: Level, root: Handle, objects: Handle)
    ensures WellPlaced(Visits(lv, root, objects), root, objects)
    decreases lv, 2, 0
  {
    FolderVisitsPlaced(lv, root, objects, |lv.folders|);
    ObjectVisitsPlaced(lv.objects, root, objects, |lv.objects|);
    VariableVisitsPlaced(lv.variables, root, objects, |lv.variables|);
    PropertyVisitsPlaced(lv.properties, root, objects, |lv.properties|);
    var a := FolderVisits(lv, root, |lv.folders|);
    var b := ObjectVisits(lv.objects, objects, |lv.objects|);
    var c := VariableVisits(lv.variables, root, |lv.variables|);
    var d := PropertyVisits(lv.properties, root, |lv.properties|);
    WellPlacedAppend(a, b, root, objects);
    WellPlacedAppend(a + b, c, root, objects);
    WellPlacedAppend(a + b + c, d, root, objects);
  }

  // ---------------------------------------------------------------- dict assignment in walk order

  /** The map after assigning every pair of `kvs`, in order, with `m[k] = v`. */
  function Assign<K, V>(m: map<K, V>, kvs: seq<(K, V)>): map<K, V>
    decreases |kvs|
  {
    if kvs == [] then m
    else Assign(m, kvs[..|kvs| - 1])[kvs[|kvs| - 1].0 := kvs[|kvs| - 1].1]
  }

  lemma {:induction false} AssignAppend<K, V>(m: map<K, V>, a: seq<(K, V)>, b: seq<(K, V)>)
    ensures Assign(m, a + b) == Assign(Assign(m, a), b)
    decreases |b|
  {
    if b == [] {
      assert a + b == a;
    } else {
      assert (a + b)[..|a + b| - 1] == a + b[..|b| - 1];
      AssignAppend(m, a, b[..|b| - 1]);
    }
  }

  /** A key is in the map afterwards iff it was before or some pair assigned it. */
  lemma {:induction false} AssignKeys<K, V>(m: map<K, V>, kvs: seq<(K, V)>, k: K)
    ensures k in Assign(m, kvs) <==> k in m || exists i :: 0 <= i < |kvs| && kvs[i].0 == k
    decreases |kvs|
  {
    if kvs != [] {
      var init := kvs[..|kvs| - 1];
      AssignKeys(m, init, k);
      if exists i :: 0 <= i < |kvs| && kvs[i].0 == k {
        var i :| 0 <= i < |kvs| && kvs[i].0 == k;
        if i < |init| { assert init[i].0 == k; }
      }
      if exists i :: 0 <= i < |init| && init[i].0 == k {
        var i :| 0 <= i < |init| && init[i].0 == k;
        assert kvs[i].0 == k;
      }
    }
  }

  /** The value a key ends with is the one of the last pair that assigned it. */
  lemma {:induction false} AssignLastWins<K, V>(m: map<K, V>, kvs: seq<(K, V)>, i: nat)
    requires i < |kvs|
    requires forall j :: i < j < |kvs| ==> kvs[j].0 != kvs[i].0
    ensures kvs[i].0 in Assign(m, kvs) && Assign(m, kvs)[kvs[i].0] == kvs[i].1
    decreases |kvs|
  {
    if i < |kvs| - 1 {
      AssignLastWins(m, kvs[..|kvs| - 1], i);
    }
  }

  /**
   * When every pair a visit contributes is keyed by that visit's node, the keys a walk assigns
   * are the nodes of the visits that contribute something.
   */
  lemma KeysOfVisits<V>(vs: seq<Visit>, f: Visit -> seq<(Handle, V)>, h: Handle)
    requires forall v, p :: p in f(v) ==> p.0 == v.node
    ensures h in Assign(map[], FlatMap(vs, f)) <==> exists i :: 0 <= i < |vs| && vs[i].node == h && f(vs[i]) != []
  {
    var kvs := FlatMap(vs, f);
    AssignKeys(map[], kvs, h);
    if exists j :: 0 <= j < |kvs| && kvs[j].0 == h {
      var j :| 0 <= j < |kvs| && kvs[j].0 == h;
      FlatMapMember(vs, f, kvs[j]);
      var i :| 0 <= i < |vs| && kvs[j] in f(vs[i]);
    }
    if exists i :: 0 <= i < |vs| && vs[i].node == h && f(vs[i]) != [] {
      var i :| 0 <= i < |vs| && vs[i].node == h && f(vs[i]) != [];
      var p := f(vs[i])[0];
      FlatMapMember(vs, f, p);
      var j :| 0 <= j < |kvs| && kvs[j] == p;
    }
  }

  /** Each pair adds at most one key. */
  lemma {:induction false} AssignSize<K, V>(m: map<K, V>, kvs: seq<(K, V)>)
    ensures |Assign(m, kvs)| <= |m| + |kvs|
    decreases |kvs|
  {
    if kvs != [] {
      var before := Assign(m, kvs[..|kvs| - 1]);
      AssignSize(m, kvs[..|kvs| - 1]);
      var k := kvs[|kvs| - 1].0;
      assert before[k := kvs[|kvs| - 1].1].Keys == before.Keys + {k};
      CardinalityOfKeys(before);
      CardinalityOfKeys(before[k := kvs[|kvs| - 1].1]);
    }
  }

  /** A key no pair assigns keeps its value. */
  lemma {:induction false} AssignUntouched<K, V>(m: map<K, V>, kvs: seq<(K, V)>, k: K)
    requires k in m
    requires forall i :: 0 <= i < |kvs| ==> kvs[i].0 != k
    ensures k in Assign(m, kvs) && Assign(m, kvs)[k] == m[k]
    decreases |kvs|
  {
    if kvs != [] {
      AssignUntouched(m, kvs[..|kvs| - 1], k);
    }
  }

  // ---------------------------------------------------------------- names collected on a walk

  /** The name `_rec_populate` appends to `readable_items`, and `setup_rw` to `readables`, at a visit. */
  function ReadableOf(v: Visit): seq<string>
  {
    match v
    case VariableVisit(x, _) => [x.name]
    case PropertyVisit(p, _) => [p.name]
    case _ => []
  }

  /** The name `_rec_populate` appends to `writable_variables`, and `setup_rw` to `writables`, at a visit. */
  function WritableOf(v: Visit): seq<string>
  {
    match v
    case VariableVisit(x, _) => if x.isWritable then [x.name] else []
    case _ => []
  }

  /** A name is in `readable_items` (and in `readables`) iff the walk visits a variable or a property of that name. */
  lemma ReadableNames(vs: seq<Visit>, n: string)
    ensures n in FlatMap(vs, ReadableOf) <==>
            exists i :: 0 <= i < |vs| && ((vs[i].VariableVisit? && vs[i].variable.name == n)
                                          || (vs[i].PropertyVisit? && vs[i].property.name == n))
  {
    FlatMapMember(vs, ReadableOf, n);
  }

  /** A name is in `writable_variables` (and in `writables`) iff the walk visits a writable variable of that name. */
  lemma WritableNames(vs: seq<Visit>, n: string)
    ensures n in FlatMap(vs, WritableOf) <==>
            exists i :: 0 <= i < |vs| && vs[i].VariableVisit? && vs[i].variable.isWritable && vs[i].variable.name == n
  {
    FlatMapMember(vs, WritableOf, n);
  }

  /** `writable_variables` is a sub-list of `readable_items`, counting repetitions. */
  lemma WritableAreReadable(vs: seq<Visit>)
    ensures multiset(FlatMap(vs, WritableOf)) <= multiset(FlatMap(vs, ReadableOf))
  {
    forall v
      ensures multiset(WritableOf(v)) <= multiset(ReadableOf(v))
    {
    }
    FlatMapMultiset(vs, WritableOf, ReadableOf);
  }

  // ---------------------------------------------------------------- dict iteration

  /** The keys of `m`, each once, in an order the model leaves open: a dict's iteration order. */
  method KeyOrder<K, V>(m: map<K, V>) returns (ks: seq<K>)
    ensures forall k :: k in ks <==> k in m
    ensures forall i, j :: 0 <= i < j < |ks| ==> ks[i] != ks[j]
    ensures |ks| == |m|
  {
    var remaining := m.Keys;
    var done: set<K> := {};
    ks := [];
    while remaining != {}
      invariant remaining + done == m.Keys && remaining !! done
      invariant forall k :: k in ks <==> k in done
      invariant forall i, j :: 0 <= i < j < |ks| ==> ks[i] != ks[j]
      invariant |ks| == |done|
      decreases remaining
    {
      var k :| k in remaining;
      ks := ks + [k];
      remaining := remaining - {k};
      done := done + {k};
    }
    assert done == m.Keys;
    CardinalityOfKeys(m);
  }

  lemma CardinalityOfKeys<K, V>(m: map<K, V>)
    ensures |m.Keys| == |m|
  {
  }
}
