/**
 * `map_dependencies`: the declared dependencies of an application of a given type, as an ordered
 * list of strings: requirement lines for Python, `groupId:artifactId:version` for Maven,
 * `name@version` for Node.js and React.
 */
module Dependency {
  import opened Wrappers
  import opened Text
  import opened Xml
  import opened Project

  // ---------------------------------------------------------------------------------------
  // requirements.txt

  /** A stripped line that is kept: non-empty and not a `#` comment. */
  predicate IsRequirement(line: string) {
    line != "" && !StartsWith(line, "#")
  }

  /** Every line of the file, stripped, in file order. */
  function Stripped(lines: seq<string>): (r: seq<string>)
    ensures |r| == |lines|
    ensures forall i :: 0 <= i < |r| ==> r[i] == Strip(lines[i])
  {
    seq(|lines|, i requires 0 <= i < |lines| => Strip(lines[i]))
  }

  /** The stripped lines that are requirements, in order and with duplicates. */
  function Keep(stripped: seq<string>): (r: seq<string>)
    ensures |r| <= |stripped|
  {
    if stripped == [] then []
    else
      var line := stripped[|stripped| - 1];
      Keep(stripped[..|stripped| - 1]) + (if IsRequirement(line) then [line] else [])
  }

  /** The entries kept are exactly the lines that are requirements. */
  lemma {:induction false} KeepMembers(stripped: seq<string>, x: string)
    ensures x in Keep(stripped) <==> x in stripped && IsRequirement(x)
  {
    if stripped != [] {
      var init := stripped[..|stripped| - 1];
      KeepMembers(init, x);
      assert stripped == init + [stripped[|stripped| - 1]];
    }
  }

  /**
   * The requirement entries of a requirements.txt: each line stripped, kept when it is a
   * requirement, in file order and with duplicates; at most one entry per line.
   */
  function Requirements(lines: seq<string>): (r: seq<string>)
    ensures |r| <= |lines|
  {
    Keep(Stripped(lines))
  }

  /** Reading one more line appends its stripped form exactly when it is a requirement. */
  lemma RequirementsStep(lines: seq<string>, i: nat)
    requires i < |lines|
    ensures Requirements(lines[..i + 1]) == Requirements(lines[..i])
      + (if IsRequirement(Strip(lines[i])) then [Strip(lines[i])] else [])
  {
    var stripped := Stripped(lines[..i + 1]);
    assert stripped[..i] == Stripped(lines[..i]);
  }

  /** `line` is kept, as the entry `x`: stripped, it is `x`, and `x` is a requirement. */
  predicate Kept(line: string, x: string) {
    Strip(line) == x && IsRequirement(x)
  }

  /** Line `i` is kept as the entry `x`. */
  predicate KeptLine(lines: seq<string>, i: int, x: string) {
    0 <= i < |lines| && Kept(lines[i], x)
  }

  /** The entries are exactly the stripped lines that are requirements. */
  lemma RequirementsMembers(lines: seq<string>, x: string)
    ensures x in Requirements(lines) <==> exists i :: KeptLine(lines, i, x)
  {
    var stripped := Stripped(lines);
    KeepMembers(stripped, x);
    if x in Requirements(lines) {
      var i :| 0 <= i < |stripped| && stripped[i] == x;
      assert KeptLine(lines, i, x);
    }
    if i :| KeptLine(lines, i, x) {
      assert stripped[i] == x;
    }
  }

  /** A requirement entry: not empty, not a comment, no whitespace at either end. */
  predicate IsEntry(x: string) {
    IsRequirement(x) && !IsSpace(x[0]) && !IsSpace(x[|x| - 1])
  }

  /** Every entry is a requirement with no whitespace at either end. */
  lemma RequirementsEntries(lines: seq<string>)
    ensures forall x :: x in Requirements(lines) ==> IsEntry(x)
  {
    forall x | x in Requirements(lines)
      ensures IsEntry(x)
    {
      RequirementsMembers(lines, x);
      var i :| KeptLine(lines, i, x);
      StripEnds(lines[i]);
    }
  }

  // ---------------------------------------------------------------------------------------
  // pom.xml

  /**
   * The text of the first child of `dep` tagged `name` as it is printed into a coordinate:
   * "" when there is no such child, "None" when the child has no text.
   */
  function ChildText(dep: Element, name: string): string {
    match FindChild(dep, name)
    case None => ""
    case Some(child) => child.text.GetOr("None")
  }

  /** The coordinate of one `dependency` element: its groupId, artifactId and version, joined by colons. */
  function Coordinate(dep: Element): string {
    ChildText(dep, "groupId") + ":" + ChildText(dep, "artifactId") + ":" + ChildText(dep, "version")
  }

  /**
   * The text printed for field `name`: "" when `dep` has no child tagged `name`; otherwise the
   * text of the first such child, or "None" when that child has no text.
   */
  lemma ChildTextFirst(dep: Element, name: string)
    ensures (forall k :: 0 <= k < |dep.children| ==> dep.children[k].tag != name) ==>
      ChildText(dep, name) == ""
    ensures forall k ::
      (0 <= k < |dep.children| && dep.children[k].tag == name
       && forall j :: 0 <= j < k ==> dep.children[j].tag != name)
      ==> ChildText(dep, name) == dep.children[k].text.GetOr("None")
  {
    FindChildFirst(dep, name);
  }

  /**
   * The layout of a coordinate: the groupId, a colon, the artifactId, a colon and the version,
   * each field the text `ChildText` gives for it.
   */
  lemma CoordinateFields(dep: Element)
    ensures var g, a, v := ChildText(dep, "groupId"), ChildText(dep, "artifactId"), ChildText(dep, "version");
      var c := Coordinate(dep);
      && |c| == |g| + |a| + |v| + 2
      && c[..|g|] == g && c[|g|] == ':'
      && c[|g| + 1..|g| + 1 + |a|] == a && c[|g| + 1 + |a|] == ':'
      && c[|g| + |a| + 2..] == v
  {
  }

  /**
   * The `dependency` children of the root's first `dependencies` child, in document order.
   * Dependencies anywhere else (under `dependencyManagement`, in a profile) are not among them.
   */
  function DeclaredDependencies(root: Element): seq<Element> {
    match FindChild(root, "dependencies")
    case None => []
    case Some(deps) => FindAllChildren(deps, "dependency")
  }

  /** The Maven coordinates listed in a POM whose tags have lost their namespace. */
  function MavenDependencies(root: Element): (r: seq<string>)
    ensures |r| == |DeclaredDependencies(root)|
    ensures forall k :: 0 <= k < |r| ==> r[k] == Coordinate(DeclaredDependencies(root)[k])
  {
    var deps := DeclaredDependencies(root);
    seq(|deps|, k requires 0 <= k < |deps| => Coordinate(deps[k]))
  }

  /**
   * The coordinates follow the `dependency` children of `deps` in document order, one each:
   * the k-th coordinate is that of the child at position `p[k]`, the positions increase, and
   * every child tagged `dependency` is among them.
   */
  lemma MavenDependenciesFollowChildren(root: Element, deps: Element)
    requires FindChild(root, "dependencies") == Some(deps)
    ensures var p := FilterPositions(deps.children, "dependency");
      && |MavenDependencies(root)| == |p|
      && (forall k :: 0 <= k < |p| ==>
            deps.children[p[k]].tag == "dependency"
            && MavenDependencies(root)[k] == Coordinate(deps.children[p[k]]))
      && Increasing(p)
      && forall i :: 0 <= i < |deps.children| && deps.children[i].tag == "dependency" ==> i in p
  {
  }

  // ---------------------------------------------------------------------------------------
  // package.json

  /** One `name@version` per entry of the `dependencies` object, in its order. */
  function NodeDependencies(dependencies: Pairs): (r: seq<string>)
    ensures |r| == |dependencies|
    ensures forall k :: 0 <= k < |r| ==> r[k] == dependencies[k].0 + "@" + dependencies[k].1
  {
    seq(|dependencies|, k requires 0 <= k < |dependencies| => dependencies[k].0 + "@" + dependencies[k].1)
  }

  // ---------------------------------------------------------------------------------------
  // The procedure

  /** Lines 13-17 of dependency.py: the loop over the lines of requirements.txt. */
  method ReadRequirements(lines: seq<string>) returns (dependencies: seq<string>)
    ensures dependencies == Requirements(lines)
  {
    dependencies := [];
    for i := 0 to |lines|
      invariant dependencies == Requirements(lines[..i])
    {
      var line := Strip(lines[i]);
      if line != "" && !StartsWith(line, "#") {
        dependencies := dependencies + [line];
      }
      RequirementsStep(lines, i);
    }
    assert lines[..|lines|] == lines;
  }

  /**
   * Lines 24-32 of dependency.py: load the parsed POM and strip the namespace of every tag in
   * place; the root then reads as the parsed tree with every tag replaced by its local name.
   */
  method LoadWithoutNamespaces(parsed: Element) returns (root: Element)
    ensures root == MapTags(LocalName, parsed)
  {
    var tree := new ElementTree(parsed);
    tree.StripNamespaces();
    root := tree.Root();
  }

  /**
   * Lines 24-40 of dependency.py: strip the namespaces of the parsed POM, then one coordinate
   * per `dependency` child of the root's first `dependencies` child.
   */
  method ReadPom(parsed: Element) returns (dependencies: seq<string>)
    ensures dependencies == MavenDependencies(MapTags(LocalName, parsed))
  {
    dependencies := [];
    var root := LoadWithoutNamespaces(parsed);
    var deps := FindChild(root, "dependencies");
    if deps.Some? {
      var entries := FindAllChildren(deps.value, "dependency");
      for k := 0 to |entries|
        invariant |dependencies| == k
        invariant forall j :: 0 <= j < k ==> dependencies[j] == Coordinate(entries[j])
      {
        var dep := entries[k];
        var groupId := ChildText(dep, "groupId");
        var artifactId := ChildText(dep, "artifactId");
        var version := ChildText(dep, "version");
        dependencies := dependencies + [groupId + ":" + artifactId + ":" + version];
      }
    }
  }

  /** Lines 51-53 of dependency.py: one `name@version` per entry of `dependencies`. */
  method ReadPackageDependencies(deps: Pairs) returns (dependencies: seq<string>)
    ensures dependencies == NodeDependencies(deps)
  {
    dependencies := [];
    for k := 0 to |deps|
      invariant |dependencies| == k
      invariant forall j :: 0 <= j < k ==> dependencies[j] == deps[j].0 + "@" + deps[j].1
    {
      var (pkg, version) := deps[k];
      dependencies := dependencies + [pkg + "@" + version];
    }
  }

  /**
   * `map_dependencies(path, app_type)`. `diagnostic` is set when pom.xml or package.json
   * fails to parse; that failure is reported and gives no dependencies.
   */
  method MapDependencies(dir: Directory, appType: string) returns (dependencies: seq<string>, diagnostic: bool)
    ensures appType == "python" ==>
      !diagnostic && dependencies == (if dir.requirements.Some? then Requirements(dir.requirements.value) else [])
    ensures appType == "java-maven" ==>
      diagnostic == (dir.pom == Present(Err))
      && dependencies == (if dir.pom.Present? && dir.pom.parsed.Ok?
                          then MavenDependencies(MapTags(LocalName, dir.pom.parsed.value)) else [])
    ensures appType == "nodejs" || appType == "react" ==>
      diagnostic == (dir.packageJson == Present(Err))
      && dependencies == (if dir.packageJson.Present? && dir.packageJson.parsed.Ok?
                          then NodeDependencies(dir.packageJson.parsed.value.dependencies.GetOr([]))
                          else [])
    ensures appType !in {"python", "java-maven", "nodejs", "react"} ==> dependencies == [] && !diagnostic
  {
    dependencies, diagnostic := [], false;
    if appType == "python" {
      if dir.requirements.Some? {
        dependencies := ReadRequirements(dir.requirements.value);
      }
    } else if appType == "java-maven" {
      match dir.pom {
        case Present(Ok(parsed)) =>
          dependencies := ReadPom(parsed);
        case Present(Err) =>
          diagnostic := true;
        case Missing =>
      }
    } else if appType == "nodejs" || appType == "react" {
      match dir.packageJson {
        case Present(Ok(packageData)) =>
          dependencies := ReadPackageDependencies(packageData.dependencies.GetOr([]));
        case Present(Err) =>
          diagnostic := true;
        case Missing =>
      }
    }
  }

  // ---------------------------------------------------------------------------------------
  // Properties

  predicate IsNotColon(c: char) {
    c != ':'
  }

  /** `s.split(':')`: the pieces of `s` between its colons. */
  function SplitColons(s: string): (r: seq<string>)
    ensures |r| >= 1
    decreases |s|
  {
    var i := Span(s, IsNotColon);
    if i == |s| then [s] else [s[..i]] + SplitColons(s[i + 1..])
  }

  lemma SplitAfterField(field: string, rest: string)
    requires ':' !in field
    ensures SplitColons(field + ":" + rest) == [field] + SplitColons(rest)
  {
    var s := field + ":" + rest;
    assert s[|field|] == ':';
    assert forall k :: 0 <= k < |field| ==> s[k] == field[k];
    assert s[..|field|] == field && s[|field| + 1..] == rest;
  }

  lemma SplitWithoutColon(field: string)
    requires ':' !in field
    ensures SplitColons(field) == [field]
  {
  }

  /** `g:a:v` splits back into `g`, `a` and `v` when none of them holds a colon. */
  lemma JoinReadsBack(g: string, a: string, v: string)
    requires ':' !in g && ':' !in a && ':' !in v
    ensures SplitColons(g + ":" + a + ":" + v) == [g, a, v]
  {
    var av := a + ":" + v;
    assert g + ":" + a + ":" + v == g + ":" + av;
    SplitAfterField(a, v);
    SplitWithoutColon(v);
    assert SplitColons(av) == [a, v];
    SplitAfterField(g, av);
  }

  /**
   * A coordinate reads back into its three fields when none of them holds a colon: the
   * groupId, artifactId and version text of the `dependency` element, '' for a missing one.
   */
  lemma CoordinateReadsBack(dep: Element)
    requires ':' !in ChildText(dep, "groupId")
    requires ':' !in ChildText(dep, "artifactId")
    requires ':' !in ChildText(dep, "version")
    ensures SplitColons(Coordinate(dep)) ==
      [ChildText(dep, "groupId"), ChildText(dep, "artifactId"), ChildText(dep, "version")]
  {
    JoinReadsBack(ChildText(dep, "groupId"), ChildText(dep, "artifactId"), ChildText(dep, "version"));
  }

  /** A POM without a `dependencies` child of its root yields nothing, whatever lies deeper. */
  lemma NoTopLevelDependencies(root: Element)
    requires forall c :: c in root.children ==> c.tag != "dependencies"
    ensures MavenDependencies(root) == []
  {
  }

  /** A tag `{uri}local` loses exactly its namespace qualifier. */
  lemma QualifiedLocalName(uri: string, local: string)
    requires '}' !in uri
    ensures LocalName("{" + uri + "}" + local) == local
  {
    var tag := "{" + uri + "}" + local;
    var n := |uri| + 1;
    assert tag[n] == '}';
    assert forall k :: 1 <= k < n ==> tag[k] == uri[k - 1];
    assert Span(tag, IsNotCloseBrace) == n;
    assert tag[n + 1..] == local;
  }

  /** A line with no whitespace at either end is its own stripped form. */
  lemma StripUnpadded(s: string)
    requires s == [] || (!IsSpace(s[0]) && !IsSpace(s[|s| - 1]))
    ensures Strip(s) == s
  {
  }

  /** The requirements file of the example: a pin, a comment, a blank line and a range. */
  lemma RequirementsExample()
    ensures Requirements(["flask==2.0.1", "# comment", "", "requests>=2.25"])
         == ["flask==2.0.1", "requests>=2.25"]
  {
    var lines := ["flask==2.0.1", "# comment", "", "requests>=2.25"];
    StripUnpadded(lines[0]);
    StripUnpadded(lines[1]);
    StripUnpadded(lines[2]);
    StripUnpadded(lines[3]);
    assert Stripped(lines) == lines;
    assert Keep(lines[..1]) == ["flask==2.0.1"] by {
      assert lines[..1][..0] == [];
    }
    assert Keep(lines[..2]) == ["flask==2.0.1"] by {
      assert lines[..2][..1] == lines[..1];
    }
    assert Keep(lines[..3]) == ["flask==2.0.1"] by {
      assert lines[..3][..2] == lines[..2];
    }
    assert lines[..4][..3] == lines[..3];
    assert lines[..4] == lines;
  }

  /** The stripped POM of the example: one `dependencies` child with one `dependency`. */
  lemma PlainPomExample()
    ensures
      var dep := Element("dependency", None, [
                   Element("groupId", Some("org.a"), []),
                   Element("artifactId", Some("lib"), []),
                   Element("version", Some("1.0"), [])]);
      MavenDependencies(Element("project", None, [Element("dependencies", None, [dep])])) == ["org.a:lib:1.0"]
  {
    var g, a, v := Element("groupId", Some("org.a"), []), Element("artifactId", Some("lib"), []),
                   Element("version", Some("1.0"), []);
    var dep := Element("dependency", None, [g, a, v]);
    var deps := Element("dependencies", None, [dep]);
    var pom := Element("project", None, [deps]);
    assert FindChild(pom, "dependencies") == Some(deps);
    assert FindAllChildren(deps, "dependency") == [dep] by {
      assert Filter([dep], "dependency") == [dep] + Filter([], "dependency");
    }
    assert ChildText(dep, "groupId") == "org.a";
    assert [g, a, v][1..] == [a, v] && [a, v][1..] == [v];
    assert ChildText(dep, "artifactId") == "lib" by {
      assert IndexOfTag([a, v], "artifactId") == 0;
    }
    assert ChildText(dep, "version") == "1.0" by {
      assert IndexOfTag([v], "version") == 0;
      assert IndexOfTag([a, v], "version") == 1;
    }
    assert Coordinate(dep) == "org.a:lib:1.0";
    assert MavenDependencies(pom) == [Coordinate(dep)];
  }

  /** Stripping an element in namespace `uri` whose children strip to `stripped`. */
  lemma StripQualifiedElement(uri: string, local: string, text: Option<string>, children: seq<Element>, stripped: seq<Element>)
    requires '}' !in uri
    requires |stripped| == |children|
    requires forall k :: 0 <= k < |children| ==> MapTags(LocalName, children[k]) == stripped[k]
    ensures MapTags(LocalName, Element("{" + uri + "}" + local, text, children)) == Element(local, text, stripped)
  {
    QualifiedLocalName(uri, local);
  }

  /** The example `dependency` element in the namespace `uri` strips to the plain one. */
  lemma StripExampleDependency(uri: string)
    requires '}' !in uri
    ensures
      var ns := "{" + uri + "}";
      MapTags(LocalName, Element(ns + "dependency", None, [
          Element(ns + "groupId", Some("org.a"), []),
          Element(ns + "artifactId", Some("lib"), []),
          Element(ns + "version", Some("1.0"), [])]))
        == Element("dependency", None, [
          Element("groupId", Some("org.a"), []),
          Element("artifactId", Some("lib"), []),
          Element("version", Some("1.0"), [])])
  {
    var ns := "{" + uri + "}";
    var nsChildren := [Element(ns + "groupId", Some("org.a"), []), Element(ns + "artifactId", Some("lib"), []),
                       Element(ns + "version", Some("1.0"), [])];
    var children := [Element("groupId", Some("org.a"), []), Element("artifactId", Some("lib"), []),
                     Element("version", Some("1.0"), [])];
    forall k | 0 <= k < 3
      ensures MapTags(LocalName, nsChildren[k]) == children[k]
    {
      StripQualifiedElement(uri, children[k].tag, children[k].text, [], []);
    }
    StripQualifiedElement(uri, "dependency", None, nsChildren, children);
  }

  /** The example POM with every tag in the namespace `uri` strips to the plain example POM. */
  lemma StripExamplePom(uri: string)
    requires '}' !in uri
    ensures
      var ns := "{" + uri + "}";
      var nsDep := Element(ns + "dependency", None, [
                     Element(ns + "groupId", Some("org.a"), []),
                     Element(ns + "artifactId", Some("lib"), []),
                     Element(ns + "version", Some("1.0"), [])]);
      var dep := Element("dependency", None, [
                   Element("groupId", Some("org.a"), []),
                   Element("artifactId", Some("lib"), []),
                   Element("version", Some("1.0"), [])]);
      MapTags(LocalName, Element(ns + "project", None, [Element(ns + "dependencies", None, [nsDep])]))
        == Element("project", None, [Element("dependencies", None, [dep])])
  {
    var ns := "{" + uri + "}";
    var nsDep := Element(ns + "dependency", None, [
                   Element(ns + "groupId", Some("org.a"), []),
                   Element(ns + "artifactId", Some("lib"), []),
                   Element(ns + "version", Some("1.0"), [])]);
    var dep := Element("dependency", None, [
                 Element("groupId", Some("org.a"), []),
                 Element("artifactId", Some("lib"), []),
                 Element("version", Some("1.0"), [])]);
    StripExampleDependency(uri);
    StripQualifiedElement(uri, "dependencies", None, [nsDep], [dep]);
    StripQualifiedElement(uri, "project", None, [Element(ns + "dependencies", None, [nsDep])],
                          [Element("dependencies", None, [dep])]);
  }

  /**
   * The example POM with every tag in the namespace `uri` (the Maven POM namespace, for one),
   * one dependency (org.a, lib, 1.0): once the namespaces are stripped it yields "org.a:lib:1.0".
   */
  lemma NamespacedPomExample(uri: string)
    requires '}' !in uri
    ensures
      var ns := "{" + uri + "}";
      var dep := Element(ns + "dependency", None, [
                   Element(ns + "groupId", Some("org.a"), []),
                   Element(ns + "artifactId", Some("lib"), []),
                   Element(ns + "version", Some("1.0"), [])]);
      var pom := Element(ns + "project", None, [Element(ns + "dependencies", None, [dep])]);
      MavenDependencies(MapTags(LocalName, pom)) == ["org.a:lib:1.0"]
  {
    StripExamplePom(uri);
    PlainPomExample();
  }
}
