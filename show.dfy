/**
 * `UaDataStruct.show`: the depth-first listing of a namespace graph, one line per node, with a
 * trail of `|__` markers drawn by `next_trail`. The lines are returned instead of printed.
 */
module GraphShow {
  import opened PyValues
  import opened NamespaceGraph
  import opened AddressSpace
  import opened Walk

  /** The character `next_trail` keeps for `c`: a bar stays a bar, anything else turns into a space. */
  function BlankChar(c: char): char
  {
    if c == '|' then '|' else ' '
  }

  /** The trail with every character other than `|` replaced by a space. */
  function Blanked(s: string): (r: string)
    ensures |r| == |s|
    ensures forall i :: 0 <= i < |s| ==> r[i] == BlankChar(s[i])
    decreases |s|
  {
    if s == [] then [] else Blanked(s[..|s| - 1]) + [BlankChar(s[|s| - 1])]
  }

  /**
   * `next_trail(old_trail, comp)`: builds the blanked trail character by character, then appends
   * `comp`. Every bar of the old trail survives at its position, everything else there is a space.
   */
  method NextTrail(oldTrail: string, comp: string) returns (r: string)
    ensures r == Blanked(oldTrail) + comp
    ensures |r| == |oldTrail| + |comp|
    ensures forall i :: 0 <= i < |oldTrail| ==> (r[i] == '|' <==> oldTrail[i] == '|')
    ensures r[|oldTrail|..] == comp
  {
    var newTrail := "";
    var i := 0;
    while i < |oldTrail|
      invariant 0 <= i <= |oldTrail|
      invariant newTrail == Blanked(oldTrail[..i])
    {
      if oldTrail[i] != '|' {
        newTrail := newTrail + " ";
      } else {
        newTrail := newTrail + [oldTrail[i]];
      }
      assert oldTrail[..i + 1][..i] == oldTrail[..i];
      i := i + 1;
    }
    assert oldTrail[..i] == oldTrail;
    r := newTrail + comp;
  }

  /** The trail under which a folder's or an object's contents are listed. */
  function Nested(trail: string): string
  {
    Blanked(trail) + " |__"
  }

  /** The text `show` prints after the trail for a folder, an object, a variable and a property. */
  function FolderLine(f: TragenFolder): string
  {
    "[]] " + f.name + " (ns=" + IntText(f.namespace) + ")"
  }

  function ObjectLine(o: TragenObject): string
  {
    "[+] " + o.name + " (ns=" + IntText(o.namespace) + ")"
  }

  function VariableLine(x: TragenVariable, floatText: real -> string): string
  {
    "[*] Variable: (" + x.name + ", " + ValueText(x.value, floatText) + ") (ns=" + IntText(x.namespace) + ")"
  }

  function PropertyLine(p: TragenProperty, floatText: real -> string): string
  {
    "[*] Property: (" + p.name + ", " + ValueText(p.value, floatText) + ") (ns=" + IntText(p.namespace) + ")"
  }

  function LineBody(v: Visit, floatText: real -> string): string
  {
    match v
    case FolderVisit(f, _) => FolderLine(f)
    case ObjectVisit(o, _) => ObjectLine(o)
    case VariableVisit(x, _) => VariableLine(x, floatText)
    case PropertyVisit(p, _) => PropertyLine(p, floatText)
  }

  /** The same visit with its address-space node dropped: `show` prints nothing of it. */
  function Unplaced(v: Visit): Visit
  {
    match v
    case FolderVisit(f, _) => FolderVisit(f, [])
    case ObjectVisit(o, _) => ObjectVisit(o, [])
    case VariableVisit(x, _) => VariableVisit(x, [])
    case PropertyVisit(p, _) => PropertyVisit(p, [])
  }

  function LineText(floatText: real -> string): Visit -> string
  {
    v => LineBody(v, floatText)
  }

  /** `show()`: `rec_show` always starts from the whole graph, whatever `starting_point` is given. */
  function Show(g: Level, floatText: real -> string): seq<string>
  {
    ShowLevel(g, "", LineText(floatText))
  }

  /**
   * `rec_show(start, trail)`: one line `trail + text` per node, where `text` renders a node
   * (`LineText` in `Show`); each folder's and object's contents follow under the nested trail.
   */
  function ShowLevel(lv: Level, trail: string, text: Visit -> string): seq<string>
    decreases lv, 2, 0
  {
    ShowFolders(lv, trail, |lv.folders|, text)
    + ShowObjects(lv.objects, trail, |lv.objects|, text)
    + ShowVariables(lv.variables, trail, |lv.variables|, text)
    + ShowProperties(lv.properties, trail, |lv.properties|, text)
  }

  function ShowFolders(lv: Level, trail: string, k: nat, text: Visit -> string): seq<string>
    requires k <= |lv.folders|
    decreases lv, 1, k
  {
    if k == 0 then []
    else
      ShowFolders(lv, trail, k - 1, text)
      + [trail + text(FolderVisit(lv.folders[k - 1].folder, []))]
      + ShowLevel(lv.folders[k - 1].content, Nested(trail), text)
  }

  function ShowObjects(os: seq<ObjectEntry>, trail: string, k: nat, text: Visit -> string): seq<string>
    requires k <= |os|
    decreases k
  {
    if k == 0 then []
    else
      ShowObjects(os, trail, k - 1, text)
      + [trail + text(ObjectVisit(os[k - 1].obj, []))]
      + ShowContent(os[k - 1].content, Nested(trail), text)
  }

  /** `rec_show` on an object's content: only its variables and properties are there to list. */
  function ShowContent(c: ObjectContent, trail: string, text: Visit -> string): seq<string>
  {
    ShowVariables(c.variables, trail, |c.variables|, text)
    + ShowProperties(c.properties, trail, |c.properties|, text)
  }

  function ShowVariables(vs: seq<TragenVariable>, trail: string, k: nat, text: Visit -> string): seq<string>
    requires k <= |vs|
    decreases k
  {
    if k == 0 then [] else ShowVariables(vs, trail, k - 1, text) + [trail + text(VariableVisit(vs[k - 1], []))]
  }

  function ShowProperties(ps: seq<TragenProperty>, trail: string, k: nat, text: Visit -> string): seq<string>
    requires k <= |ps|
    decreases k
  {
    if k == 0 then [] else ShowProperties(ps, trail, k - 1, text) + [trail + text(PropertyVisit(ps[k - 1], []))]
  }

  // ---------------------------------------------------------------- the listing follows the walk

  /** `lines` lists the visits `vs` one for one: the i-th line ends with the text of the i-th node. */
  ghost predicate Describes(lines: seq<string>, vs: seq<Visit>, text: Visit -> string)
  {
    && |lines| == |vs|
    && forall i :: 0 <= i < |lines| ==> EndsWith(lines[i], text(Unplaced(vs[i])))
  }

  predicate EndsWith(l: string, body: string)
  {
    |body| <= |l| && l[|l| - |body|..] == body
  }

  lemma DescribesAppend(a: seq<string>, va: seq<Visit>, b: seq<string>, vb: seq<Visit>, text: Visit -> string)
    requires Describes(a, va, text) && Describes(b, vb, text)
    ensures Describes(a + b, va + vb, text)
  {
    forall i | 0 <= i < |a + b|
      ensures EndsWith((a + b)[i], text(Unplaced((va + vb)[i])))
    {
      if i < |a| {
        assert (a + b)[i] == a[i] && (va + vb)[i] == va[i];
      } else {
        assert (a + b)[i] == b[i - |a|] && (va + vb)[i] == vb[i - |a|];
      }
    }
  }

  /** A node's line, then the lines of what lies below it. */
  lemma DescribesStep(prev: seq<string>, vprev: seq<Visit>, trail: string, v: Visit, sub: seq<string>, vsub: seq<Visit>, text: Visit -> string)
    requires Describes(prev, vprev, text) && Describes(sub, vsub, text)
    ensures Describes(prev + [trail + text(Unplaced(v))] + sub, vprev + [v] + vsub, text)
  {
    var l := trail + text(Unplaced(v));
    assert l[|l| - |text(Unplaced(v))|..] == text(Unplaced(v));
    assert Describes([l], [v], text);
    DescribesAppend(prev, vprev, [l], [v], text);
    DescribesAppend(prev + [l], vprev + [v], sub, vsub, text);
  }

  lemma {:induction false} VariablesDescribed(vs: seq<TragenVariable>, root: Handle, trail: string, k: nat, text: Visit -> string)
    requires k <= |vs|
    ensures Describes(ShowVariables(vs, trail, k, text), VariableVisits(vs, root, k), text)
    decreases k
  {
    if k > 0 {
      VariablesDescribed(vs, root, trail, k - 1, text);
      var v := VariableVisit(vs[k - 1], ChildOf(root, vs[k - 1].namespace, vs[k - 1].name));
      assert Unplaced(v) == VariableVisit(vs[k - 1], []);
      DescribesStep(ShowVariables(vs, trail, k - 1, text), VariableVisits(vs, root, k - 1), trail, v, [], [], text);
      assert ShowVariables(vs, trail, k - 1, text) + [trail + text(Unplaced(v))] + [] == ShowVariables(vs, trail, k, text);
      assert VariableVisits(vs, root, k - 1) + [v] + [] == VariableVisits(vs, root, k);
    }
  }

  lemma {:induction false} PropertiesDescribed(ps: seq<TragenProperty>, root: Handle, trail: string, k: nat, text: Visit -> string)
    requires k <= |ps|
    ensures Describes(ShowProperties(ps, trail, k, text), PropertyVisits(ps, root, k), text)
    decreases k
  {
    if k > 0 {
      PropertiesDescribed(ps, root, trail, k - 1, text);
      var v := PropertyVisit(ps[k - 1], ChildOf(root, ps[k - 1].namespace, ps[k - 1].name));
      assert Unplaced(v) == PropertyVisit(ps[k - 1], []);
      DescribesStep(ShowProperties(ps, trail, k - 1, text), PropertyVisits(ps, root, k - 1), trail, v, [], [], text);
      assert ShowProperties(ps, trail, k - 1, text) + [trail + text(Unplaced(v))] + [] == ShowProperties(ps, trail, k, text);
      assert PropertyVisits(ps, root, k - 1) + [v] + [] == PropertyVisits(ps, root, k);
    }
  }

  lemma ContentDescribed(c: ObjectContent, h: Handle, trail: string, text: Visit -> string)
    ensures Describes(ShowContent(c, trail, text), ContentVisits(c, h), text)
  {
    VariablesDescribed(c.variables, h, trail, |c.variables|, text);
    PropertiesDescribed(c.properties, h, trail, |c.properties|, text);
    DescribesAppend(ShowVariables(c.variables, trail, |c.variables|, text), VariableVisits(c.variables, h, |c.variables|),
                    ShowProperties(c.properties, trail, |c.properties|, text), PropertyVisits(c.properties, h, |c.properties|), text);
  }

  lemma {:induction false} ObjectsDescribed(os: seq<ObjectEntry>, objects: Handle, trail: string, k: nat, text: Visit -> string)
    requires k <= |os|
    ensures Describes(ShowObjects(os, trail, k, text), ObjectVisits(os, objects, k), text)
    decreases k
  {
    if k > 0 {
      ObjectsDescribed(os, objects, trail, k - 1, text);
      var v := ObjectVisit(os[k - 1].obj, ChildOf(objects, os[k - 1].obj.namespace, os[k - 1].obj.name));
      assert Unplaced(v) == ObjectVisit(os[k - 1].obj, []);
      ContentDescribed(os[k - 1].content, v.node, Nested(trail), text);
      DescribesStep(ShowObjects(os, trail, k - 1, text), ObjectVisits(os, objects, k - 1), trail, v,
                    ShowContent(os[k - 1].content, Nested(trail), text), ContentVisits(os[k - 1].content, v.node), text);
    }
  }

  lemma {:induction false} FoldersDescribed(lv: Level, root: Handle, trail: string, k: nat, text: Visit -> string)
    requires k <= |lv.folders|
    ensures Describes(ShowFolders(lv, trail, k, text), FolderVisits(lv, root, k), text)
    decreases lv, 1, k
  {
    if k > 0 {
      FoldersDescribed(lv, root, trail, k - 1, text);
      var v := FolderVisit(lv.folders[k - 1].folder, ChildOf(root, lv.folders[k - 1].folder.namespace, lv.folders[k - 1].folder.name));
      assert Unplaced(v) == FolderVisit(lv.folders[k - 1].folder, []);
      LevelDescribed(lv.folders[k - 1].content, v.node, v.node, Nested(trail), text);
      DescribesStep(ShowFolders(lv, trail, k - 1, text), FolderVisits(lv, root, k - 1), trail, v,
                    ShowLevel(lv.folders[k - 1].content, Nested(trail), text), Visits(lv.folders[k - 1].content, v.node, v.node), text);
    }
  }

  /** The listing of a level lists the walk's visits of that level, in walk order. */
  lemma {:induction false} LevelDescribed(lv: Level, root: Handle, objects: Handle, trail: string, text: Visit -> string)
    ensures Describes(ShowLevel(lv, trail, text), Visits(lv, root, objects), text)
    decreases lv, 2, 0
  {
    FoldersDescribed(lv, root, trail, |lv.folders|, text);
    ObjectsDescribed(lv.objects, objects, trail, |lv.objects|, text);
    VariablesDescribed(lv.variables, root, trail, |lv.variables|, text);
    PropertiesDescribed(lv.properties, root, trail, |lv.properties|, text);
    var a := ShowFolders(lv, trail, |lv.folders|, text);
    var b := ShowObjects(lv.objects, trail, |lv.objects|, text);
    var c := ShowVariables(lv.variables, trail, |lv.variables|, text);
    var va := FolderVisits(lv, root, |lv.folders|);
    var vb := ObjectVisits(lv.objects, objects, |lv.objects|);
    var vc := VariableVisits(lv.variables, root, |lv.variables|);
    DescribesAppend(a, va, b, vb, text);
    DescribesAppend(a + b, va + vb, c, vc, text);
    DescribesAppend(a + b + c, va + vb + vc,
                    ShowProperties(lv.properties, trail, |lv.properties|, text), PropertyVisits(lv.properties, root, |lv.properties|), text);
  }

  lemma LineBodyUnplaced(v: Visit, floatText: real -> string)
    ensures LineBody(Unplaced(v), floatText) == LineBody(v, floatText)
  {
  }

  /**
   * `show()` prints exactly one line per node of the graph, in the order the walk visits them:
   * the i-th line ends with the text of the i-th visited node.
   */
  lemma ShowListsWalk(g: Level, floatText: real -> string)
    ensures var lines := Show(g, floatText);
            var vs := Visits(g, RootNode, ObjectsNode);
            && |lines| == |vs|
            && forall i :: 0 <= i < |lines| ==> EndsWith(lines[i], LineBody(vs[i], floatText))
  {
    var lines := Show(g, floatText);
    var vs := Visits(g, RootNode, ObjectsNode);
    LevelDescribed(g, RootNode, ObjectsNode, "", LineText(floatText));
    forall i | 0 <= i < |lines| ensures EndsWith(lines[i], LineBody(vs[i], floatText)) {
      LineBodyUnplaced(vs[i], floatText);
    }
  }
}
