/**
 * `discover_app`: classify an application from its Cloud Foundry manifest and its project files,
 * and collect the type-specific metadata (Node major version, Java version and packaging).
 *
 * `Discover` states, field by field, what the application record holds afterwards; the method
 * `DiscoverApp` builds the record step by step as the source does and is proved to give it.
 */
module Discovery {
  import opened Wrappers
  import opened Text
  import opened Xml
  import opened Project

  /** The application types the classifier can assign. */
  datatype AppType = Python | JavaMaven | NodeJs | React | Unknown {
    /** The string stored under `type` in the application record. */
    function Name(): string {
      match this
      case Python => "python"
      case JavaMaven => "java-maven"
      case NodeJs => "nodejs"
      case React => "react"
      case Unknown => "unknown"
    }
  }

  /** The non-fatal errors `discover_app` reports (and otherwise swallows). */
  datatype Diagnostic = ManifestError | PackageJsonError | JavaVersionError

  /**
   * The application record. An optional key that the dictionary does not hold is `None`;
   * `type` is `None` only while classification is under way.
   */
  datatype AppInfo = AppInfo(
    name: string,
    appType: Option<AppType>,
    path: string,
    env: map<string, string>,
    services: seq<string>,
    buildpack: Option<string>,
    nodeVersion: Option<string>,
    javaVersion: Option<string>,
    packaging: Option<string>,
    diagnostics: seq<Diagnostic>)

  const DefaultNodeVersion := "18"
  const DefaultJavaVersion := "11"
  const DefaultPackaging := "jar"

  /** Python's truth test on an optional string: present and non-empty. */
  predicate Truthy(s: Option<string>) {
    s.Some? && s.value != ""
  }

  /** `value if value else default` on an optional string. */
  function OrDefault(s: Option<string>, default: string): (r: string)
    ensures Truthy(s) ==> r == s.value
    ensures !Truthy(s) ==> r == default
  {
    if Truthy(s) then s.value else default
  }

  predicate AllDigits(s: string) {
    forall k :: 0 <= k < |s| ==> IsDigit(s[k])
  }

  // ---------------------------------------------------------------------------------------
  // Manifest

  /** The first entry of `applications` in a manifest.yml that parsed and has a non-empty list. */
  function FirstApp(dir: Directory): (r: Option<AppBlock>)
    ensures r.Some? <==>
      dir.manifest.Present? && dir.manifest.parsed.Ok?
      && dir.manifest.parsed.value.applications.Some?
      && |dir.manifest.parsed.value.applications.value| > 0
    ensures r.Some? ==> r.value == dir.manifest.parsed.value.applications.value[0]
  {
    match dir.manifest
    case Present(Ok(Manifest(Some(apps)))) => if |apps| > 0 then Some(apps[0]) else None
    case _ => None
  }

  /**
   * The buildpack heuristic: the first of "python", "java", "nodejs" that occurs in the
   * buildpack names the type; no buildpack, an empty one or one naming none of them gives none.
   */
  function BuildpackType(buildpack: Option<string>): (r: Option<AppType>)
    ensures r == Some(Python) <==> buildpack.Some? && Contains(buildpack.value, "python")
    ensures r == Some(JavaMaven) <==>
      buildpack.Some? && !Contains(buildpack.value, "python") && Contains(buildpack.value, "java")
    ensures r == Some(NodeJs) <==>
      buildpack.Some? && !Contains(buildpack.value, "python") && !Contains(buildpack.value, "java")
      && Contains(buildpack.value, "nodejs")
    ensures r.None? <==>
      buildpack.None? || (!Contains(buildpack.value, "python") && !Contains(buildpack.value, "java")
                          && !Contains(buildpack.value, "nodejs"))
  {
    if !Truthy(buildpack) then None
    else if Contains(buildpack.value, "python") then Some(Python)
    else if Contains(buildpack.value, "java") then Some(JavaMaven)
    else if Contains(buildpack.value, "nodejs") then Some(NodeJs)
    else None
  }

  /** The type the manifest settles, if any. */
  function ManifestType(dir: Directory): Option<AppType> {
    match FirstApp(dir)
    case Some(app) => BuildpackType(app.buildpack)
    case None => None
  }

  // ---------------------------------------------------------------------------------------
  // package.json

  /** The `node` entry of the `engines` object, "" when either is missing. */
  function EngineNode(pkg: PackageJson): string {
    Lookup(pkg.engines.GetOr([]), "node").GetOr("")
  }

  /** React when "react" is a key of `dependencies` or of `devDependencies`, Node.js otherwise. */
  predicate UsesReact(pkg: PackageJson) {
    HasKey(pkg.dependencies.GetOr([]), "react") || HasKey(pkg.devDependencies.GetOr([]), "react")
  }

  /**
   * The `node` entry of `engines`: "" when `engines` is absent or has no `node` key, and
   * otherwise the value stored under `node`.
   */
  lemma EngineNodeEntry(pkg: PackageJson)
    ensures pkg.engines.None? ==> EngineNode(pkg) == ""
    ensures pkg.engines.Some? && !HasKey(pkg.engines.value, "node") ==> EngineNode(pkg) == ""
    ensures pkg.engines.Some? ==> forall i ::
      (0 <= i < |pkg.engines.value| && pkg.engines.value[i].0 == "node")
      ==> EngineNode(pkg) == pkg.engines.value[i].1
  {
    if pkg.engines.Some? {
      forall i | 0 <= i < |pkg.engines.value| && pkg.engines.value[i].0 == "node"
        ensures EngineNode(pkg) == pkg.engines.value[i].1
      {
        LookupUnique(pkg.engines.value, "node", i);
      }
    }
  }

  /**
   * React is detected when `get` finds "react" in `dependencies` or in `devDependencies`; a
   * package.json with neither object never uses React.
   */
  lemma UsesReactKeys(pkg: PackageJson)
    ensures UsesReact(pkg) <==>
      Lookup(pkg.dependencies.GetOr([]), "react").Some? || Lookup(pkg.devDependencies.GetOr([]), "react").Some?
    ensures pkg.dependencies.None? && pkg.devDependencies.None? ==> !UsesReact(pkg)
  {
  }

  /**
   * The Node major version read from an `engines.node` constraint: its first run of digits,
   * or "18" when the constraint is empty or has no digit.
   */
  function NodeMajor(constraint: string): (v: string)
    ensures v != "" && AllDigits(v)
    ensures (forall k :: 0 <= k < |constraint| ==> !IsDigit(constraint[k])) ==> v == DefaultNodeVersion
    ensures (exists k :: 0 <= k < |constraint| && IsDigit(constraint[k])) ==>
      FirstDigitRun(constraint) == Some(v)
  {
    if constraint != "" then
      match FirstDigitRun(constraint)
      case Some(digits) => digits
      case None => DefaultNodeVersion
    else DefaultNodeVersion
  }

  /** The classification of the package.json branch: React/Node.js, Node.js if parsing failed. */
  function PackageType(pkg: Parsed<PackageJson>): AppType {
    match pkg
    case Ok(p) => if UsesReact(p) then React else NodeJs
    case Err => NodeJs
  }

  // ---------------------------------------------------------------------------------------
  // Classification

  /** The project-file cascade: pom.xml, then requirements.txt or setup.py, then package.json. */
  function FileType(dir: Directory): (t: AppType)
    ensures t == JavaMaven <==> dir.pom.Present?
    ensures t == Python <==> dir.pom.Missing? && (dir.requirements.Some? || dir.hasSetupPy)
    ensures t == React || t == NodeJs <==>
      dir.pom.Missing? && dir.requirements.None? && !dir.hasSetupPy && dir.packageJson.Present?
    ensures t == Unknown <==>
      dir.pom.Missing? && dir.requirements.None? && !dir.hasSetupPy && dir.packageJson.Missing?
  {
    if dir.pom.Present? then JavaMaven
    else if dir.requirements.Some? || dir.hasSetupPy then Python
    else if dir.packageJson.Present? then PackageType(dir.packageJson.parsed)
    else Unknown
  }

  /** The final type: the manifest's, else the project files'. */
  function Classify(dir: Directory): AppType {
    ManifestType(dir).GetOr(FileType(dir))
  }

  /** Classification reached the package.json branch of the file cascade. */
  predicate InPackageBranch(dir: Directory) {
    ManifestType(dir).None? && dir.pom.Missing? && dir.requirements.None? && !dir.hasSetupPy
    && dir.packageJson.Present?
  }

  /** `node_version`, set only in the package.json branch. */
  function NodeVersionOf(dir: Directory): Option<string> {
    if InPackageBranch(dir) then
      match dir.packageJson.parsed
      case Ok(p) => Some(NodeMajor(EngineNode(p)))
      case Err => Some(DefaultNodeVersion)
    else None
  }

  // ---------------------------------------------------------------------------------------
  // pom.xml

  /** Position of the first element of `nodes` whose tag contains `needle`, or `|nodes|`. */
  function IndexContaining(nodes: seq<Element>, needle: string): (i: nat)
    ensures i <= |nodes|
    ensures forall k :: 0 <= k < i ==> !Contains(nodes[k].tag, needle)
    ensures i < |nodes| ==> Contains(nodes[i].tag, needle)
  {
    if nodes == [] || Contains(nodes[0].tag, needle) then 0
    else 1 + IndexContaining(nodes[1..], needle)
  }

  /** The text of the first element of `root.iter()` whose tag contains `needle`. */
  function ScanText(root: Element, needle: string): (r: Option<string>)
    ensures (forall k :: 0 <= k < |Preorder(root)| ==> !Contains(Preorder(root)[k].tag, needle)) ==> r.None?
    ensures r.Some? ==>
      exists k :: 0 <= k < |Preorder(root)| && Contains(Preorder(root)[k].tag, needle)
        && Preorder(root)[k].text == r
        && forall j :: 0 <= j < k ==> !Contains(Preorder(root)[j].tag, needle)
    ensures forall k ::
      (0 <= k < |Preorder(root)| && Contains(Preorder(root)[k].tag, needle)
       && forall j :: 0 <= j < k ==> !Contains(Preorder(root)[j].tag, needle))
      ==> r == Preorder(root)[k].text
  {
    var nodes := Preorder(root);
    var i := IndexContaining(nodes, needle);
    if i < |nodes| then nodes[i].text else None
  }

  /**
   * The Java version text in a POM: `.//mvn:properties/mvn:java.version` if that element
   * exists, else the first element in document order whose tag contains "java.version".
   */
  function PomJavaVersion(root: Element): Option<string> {
    match FindPath(root, MavenNamespace + "properties", MavenNamespace + "java.version")
    case Some(e) => e.text
    case None => ScanText(root, "java.version")
  }

  /** The packaging text: `.//mvn:packaging`, else the first tag containing "packaging". */
  function PomPackaging(root: Element): Option<string> {
    match FindDescendant(root, MavenNamespace + "packaging")
    case Some(e) => e.text
    case None => ScanText(root, "packaging")
  }

  /** No element of the document has a namespace-qualified tag. */
  predicate Unqualified(root: Element) {
    forall k :: 0 <= k < |Preorder(root)| ==> '}' !in Preorder(root)[k].tag
  }

  /** A namespace-qualified name is not the tag of any element of an unqualified document. */
  lemma QualifiedNameAbsent(root: Element, local: string)
    requires Unqualified(root)
    ensures forall k :: 0 <= k < |Preorder(root)| ==> Preorder(root)[k].tag != MavenNamespace + local
  {
    assert (MavenNamespace + local)[|MavenNamespace| - 1] == '}';
  }

  /**
   * In a POM without namespaces the qualified paths find nothing, so both values come from
   * the scan of tags.
   */
  lemma UnqualifiedPomFallsBack(root: Element)
    requires Unqualified(root)
    ensures PomJavaVersion(root) == ScanText(root, "java.version")
    ensures PomPackaging(root) == ScanText(root, "packaging")
  {
    var nodes := Preorder(root);
    QualifiedNameAbsent(root, "properties");
    QualifiedNameAbsent(root, "packaging");
    forall k | 0 <= k < |nodes[1..]|
      ensures nodes[1..][k].tag != MavenNamespace + "properties"
      ensures nodes[1..][k].tag != MavenNamespace + "packaging"
    {
      assert nodes[1..][k] == nodes[k + 1];
    }
  }

  /**
   * `java_version`: unset unless the type is java-maven; then the POM's value, "11" when it is
   * missing or empty, and "11" when pom.xml is absent or does not parse.
   */
  function JavaVersionOf(dir: Directory): Option<string> {
    if Classify(dir) != JavaMaven then None
    else
      match dir.pom
      case Present(Ok(root)) => Some(OrDefault(PomJavaVersion(root), DefaultJavaVersion))
      case _ => Some(DefaultJavaVersion)
  }

  /**
   * `packaging`: unset unless the type is java-maven and pom.xml parsed; then the POM's value,
   * "jar" when it is missing or empty. The error path sets no packaging.
   */
  function PackagingOf(dir: Directory): Option<string> {
    if Classify(dir) != JavaMaven then None
    else
      match dir.pom
      case Present(Ok(root)) => Some(OrDefault(PomPackaging(root), DefaultPackaging))
      case _ => None
  }

  function ManifestDiagnostics(dir: Directory): seq<Diagnostic> {
    if dir.manifest == Present(Err) then [ManifestError] else []
  }

  function PackageDiagnostics(dir: Directory): seq<Diagnostic> {
    if InPackageBranch(dir) && dir.packageJson.parsed.Err? then [PackageJsonError] else []
  }

  function JavaDiagnostics(dir: Directory): seq<Diagnostic> {
    if Classify(dir) == JavaMaven && !(dir.pom.Present? && dir.pom.parsed.Ok?) then [JavaVersionError]
    else []
  }

  /** The diagnostics reported, in the order the source prints them. */
  function DiagnosticsOf(dir: Directory): seq<Diagnostic> {
    ManifestDiagnostics(dir) + PackageDiagnostics(dir) + JavaDiagnostics(dir)
  }

  /** The record once the manifest has been read: defaults overridden by its first application. */
  function AfterManifest(dir: Directory): (r: AppInfo)
    ensures r.appType == ManifestType(dir)
    ensures r.nodeVersion.None? && r.javaVersion.None? && r.packaging.None?
  {
    var app := FirstApp(dir);
    AppInfo(
      name := if app.Some? then app.value.name.GetOr(dir.baseName) else dir.baseName,
      appType := ManifestType(dir),
      path := dir.path,
      env := if app.Some? then app.value.env.GetOr(map[]) else map[],
      services := if app.Some? then app.value.services.GetOr([]) else [],
      buildpack := if app.Some? then app.value.buildpack else None,
      nodeVersion := None,
      javaVersion := None,
      packaging := None,
      diagnostics := ManifestDiagnostics(dir))
  }

  /** The record `discover_app` returns for `dir`. */
  function Discover(dir: Directory): (r: AppInfo)
    ensures r.appType.Some?
    ensures r.path == dir.path
    ensures FirstApp(dir).None? ==>
      r.name == dir.baseName && r.env == map[] && r.services == [] && r.buildpack.None?
    ensures FirstApp(dir).Some? ==>
      r.name == FirstApp(dir).value.name.GetOr(dir.baseName)
      && r.env == FirstApp(dir).value.env.GetOr(map[])
      && r.services == FirstApp(dir).value.services.GetOr([])
      && r.buildpack == FirstApp(dir).value.buildpack
    ensures r.javaVersion.Some? <==> r.appType == Some(JavaMaven)
    ensures r.javaVersion.Some? ==> r.javaVersion.value != ""
    ensures r.packaging.Some? ==> r.appType == Some(JavaMaven) && r.packaging.value != ""
    ensures r.appType == Some(JavaMaven) ==>
      (r.packaging.Some? <==> dir.pom.Present? && dir.pom.parsed.Ok?)
    ensures r.nodeVersion.Some? ==>
      (r.appType == Some(NodeJs) || r.appType == Some(React))
      && r.nodeVersion.value != "" && AllDigits(r.nodeVersion.value)
    ensures r.appType == Some(React) ==> r.nodeVersion.Some?
  {
    AfterManifest(dir).(
      appType := Some(Classify(dir)),
      nodeVersion := NodeVersionOf(dir),
      javaVersion := JavaVersionOf(dir),
      packaging := PackagingOf(dir),
      diagnostics := DiagnosticsOf(dir))
  }

  // ---------------------------------------------------------------------------------------
  // The procedure

  /**
   * The scan over the document's elements that stops at the first one whose tag contains
   * `needle`: its position in `nodes`, or `|nodes|` when no tag does.
   */
  method FirstTagContaining(nodes: seq<Element>, needle: string) returns (i: nat)
    ensures i <= |nodes|
    ensures forall k :: 0 <= k < i ==> !Contains(nodes[k].tag, needle)
    ensures i < |nodes| ==> Contains(nodes[i].tag, needle)
  {
    i := 0;
    while i < |nodes|
      invariant i <= |nodes|
      invariant forall k :: 0 <= k < i ==> !Contains(nodes[k].tag, needle)
    {
      if Contains(nodes[i].tag, needle) {
        return;
      }
      i := i + 1;
    }
  }

  /**
   * `discover_app(path)`: starts from the defaults, applies the manifest, classifies with the
   * project files when the manifest settled no type, and fills in the type's metadata.
   */
  method DiscoverApp(dir: Directory) returns (app: AppInfo)
    ensures app == Discover(dir)
  {
    app := ReadManifest(dir);
    app := ClassifyByProjectFiles(dir, app);
    app := ExtractJavaMetadata(dir, app);
  }

  /** Lines 11-41 of discovery.py: the defaults, overridden by the first application of manifest.yml. */
  method ReadManifest(dir: Directory) returns (app: AppInfo)
    ensures app == AfterManifest(dir)
  {
    app := AppInfo(dir.baseName, None, dir.path, map[], [], None, None, None, None, []);
    match dir.manifest {
      case Present(Ok(manifest)) =>
        if manifest.applications.Some? && |manifest.applications.value| > 0 {
          var appData := manifest.applications.value[0];
          app := app.(name := appData.name.GetOr(app.name));
          app := app.(env := appData.env.GetOr(map[]));
          app := app.(services := appData.services.GetOr([]));
          app := app.(buildpack := appData.buildpack);
          if Truthy(app.buildpack) {
            if Contains(app.buildpack.value, "python") {
              app := app.(appType := Some(Python));
            } else if Contains(app.buildpack.value, "java") {
              app := app.(appType := Some(JavaMaven));
            } else if Contains(app.buildpack.value, "nodejs") {
              app := app.(appType := Some(NodeJs));
            }
          }
        }
      case Present(Err) =>
        app := app.(diagnostics := app.diagnostics + [ManifestError]);
      case Missing =>
    }
  }

  /**
   * Lines 43-85 of discovery.py: when no type is set yet, pom.xml, then requirements.txt or
   * setup.py, then package.json decide it, and the package.json branch also sets the Node version.
   */
  method ClassifyByProjectFiles(dir: Directory, app0: AppInfo) returns (app: AppInfo)
    requires app0 == AfterManifest(dir)
    ensures app == app0.(appType := Some(Classify(dir)), nodeVersion := NodeVersionOf(dir),
                         diagnostics := app0.diagnostics + PackageDiagnostics(dir))
  {
    app := app0;
    if app.appType.None? {
      if dir.pom.Present? {
        app := app.(appType := Some(JavaMaven));
      } else if dir.requirements.Some? || dir.hasSetupPy {
        app := app.(appType := Some(Python));
      } else if dir.packageJson.Present? {
        match dir.packageJson.parsed {
          case Ok(packageData) =>
            var dependencies := packageData.dependencies.GetOr([]);
            var devDependencies := packageData.devDependencies.GetOr([]);
            if HasKey(dependencies, "react") || HasKey(devDependencies, "react") {
              app := app.(appType := Some(React));
            } else {
              app := app.(appType := Some(NodeJs));
            }
            var engines := packageData.engines.GetOr([]);
            var nodeVersion := Lookup(engines, "node").GetOr("");
            if nodeVersion != "" {
              var digits := FirstDigitRun(nodeVersion);
              if digits.Some? {
                app := app.(nodeVersion := Some(digits.value));
              } else {
                app := app.(nodeVersion := Some(DefaultNodeVersion));
              }
            } else {
              app := app.(nodeVersion := Some(DefaultNodeVersion));
            }
          case Err =>
            app := app.(diagnostics := app.diagnostics + [PackageJsonError]);
            app := app.(appType := Some(NodeJs));
            app := app.(nodeVersion := Some(DefaultNodeVersion));
        }
      } else {
        app := app.(appType := Some(Unknown));
      }
    }
  }

  /** Lines 98-106 of discovery.py: the Java version the POM declares, before any default. */
  method FindJavaVersion(root: Element) returns (version: Option<string>)
    ensures version == PomJavaVersion(root)
  {
    version := None;
    var javaVer := FindPath(root, MavenNamespace + "properties", MavenNamespace + "java.version");
    if javaVer.None? {
      var nodes := Preorder(root);
      var i := FirstTagContaining(nodes, "java.version");
      if i < |nodes| {
        version := nodes[i].text;
      }
    } else {
      version := javaVer.value.text;
    }
  }

  /** Lines 109-117 of discovery.py: the packaging the POM declares, before any default. */
  method FindPackaging(root: Element) returns (packaging: Option<string>)
    ensures packaging == PomPackaging(root)
  {
    packaging := None;
    var found := FindDescendant(root, MavenNamespace + "packaging");
    if found.None? {
      var nodes := Preorder(root);
      var i := FirstTagContaining(nodes, "packaging");
      if i < |nodes| {
        packaging := nodes[i].text;
      }
    } else {
      packaging := found.value.text;
    }
  }

  /**
   * Lines 87-127 of discovery.py: for a java-maven application, the Java version and the
   * packaging from pom.xml with their defaults; when pom.xml is absent or unparsable, only the
   * version "11".
   */
  method ExtractJavaMetadata(dir: Directory, app0: AppInfo) returns (app: AppInfo)
    requires app0.appType == Some(Classify(dir))
    requires app0.javaVersion.None? && app0.packaging.None?
    ensures app == app0.(javaVersion := JavaVersionOf(dir), packaging := PackagingOf(dir),
                         diagnostics := app0.diagnostics + JavaDiagnostics(dir))
  {
    app := app0;
    if app.appType == Some(JavaMaven) {
      match dir.pom {
        case Present(Ok(root)) =>
          var javaVersion := FindJavaVersion(root);
          var packaging := FindPackaging(root);
          app := app.(javaVersion := javaVersion, packaging := packaging);
          if !Truthy(app.javaVersion) {
            app := app.(javaVersion := Some(DefaultJavaVersion));
          }
          if !Truthy(app.packaging) {
            app := app.(packaging := Some(DefaultPackaging));
          }
        case _ =>
          // pom.xml absent (the packaging lookup then reads an unbound `root`) or unparsable
          app := app.(diagnostics := app.diagnostics + [JavaVersionError]);
          app := app.(javaVersion := Some(DefaultJavaVersion));
      }
    }
  }

  // ---------------------------------------------------------------------------------------
  // Properties

  /** A type the manifest settles is final: the project files are not consulted for the type. */
  lemma ManifestTypeIsFinal(dir: Directory)
    requires ManifestType(dir).Some?
    ensures Discover(dir).appType == ManifestType(dir)
    ensures Discover(dir).nodeVersion.None?
  {
  }

  /** Without a manifest type, the project-file cascade decides. */
  lemma ProjectFilesDecide(dir: Directory)
    requires ManifestType(dir).None?
    ensures Discover(dir).appType == Some(FileType(dir))
  {
  }

  /** The type is react exactly when the package.json branch read "react" among the dependencies. */
  lemma ReactExactly(dir: Directory)
    ensures Discover(dir).appType == Some(React) <==>
      InPackageBranch(dir) && dir.packageJson.parsed.Ok? && UsesReact(dir.packageJson.parsed.value)
  {
  }

  /**
   * The Node version of the package.json branch: "18" when package.json does not parse (the
   * type then being nodejs) or its `engines.node` has no digit, else its first run of digits.
   */
  lemma NodeVersionOfPackage(dir: Directory)
    requires InPackageBranch(dir)
    ensures dir.packageJson.parsed.Err? ==>
      Discover(dir).appType == Some(NodeJs) && Discover(dir).nodeVersion == Some(DefaultNodeVersion)
    ensures dir.packageJson.parsed.Ok? ==>
      var constraint := EngineNode(dir.packageJson.parsed.value);
      ((forall k :: 0 <= k < |constraint| ==> !IsDigit(constraint[k])) ==>
         Discover(dir).nodeVersion == Some(DefaultNodeVersion))
      && ((exists k :: 0 <= k < |constraint| && IsDigit(constraint[k])) ==>
         Discover(dir).nodeVersion == FirstDigitRun(constraint))
  {
  }

  /** The namespaced path takes precedence over the scan of tags, for both POM lookups. */
  lemma PomLookupPrecedence(root: Element)
    ensures FindPath(root, MavenNamespace + "properties", MavenNamespace + "java.version").Some? ==>
      PomJavaVersion(root) == FindPath(root, MavenNamespace + "properties", MavenNamespace + "java.version").value.text
    ensures FindPath(root, MavenNamespace + "properties", MavenNamespace + "java.version").None? ==>
      PomJavaVersion(root) == ScanText(root, "java.version")
    ensures FindDescendant(root, MavenNamespace + "packaging").Some? ==>
      PomPackaging(root) == FindDescendant(root, MavenNamespace + "packaging").value.text
    ensures FindDescendant(root, MavenNamespace + "packaging").None? ==>
      PomPackaging(root) == ScanText(root, "packaging")
  {
  }

  /**
   * A java-maven application whose pom.xml parsed gets the POM's values or the defaults "11"
   * and "jar"; one whose pom.xml is absent or unparsable gets "11" and no packaging.
   */
  lemma JavaMetadataDefaults(dir: Directory)
    requires Discover(dir).appType == Some(JavaMaven)
    ensures dir.pom.Present? && dir.pom.parsed.Ok? ==>
      Discover(dir).javaVersion == Some(OrDefault(PomJavaVersion(dir.pom.parsed.value), DefaultJavaVersion))
      && Discover(dir).packaging == Some(OrDefault(PomPackaging(dir.pom.parsed.value), DefaultPackaging))
    ensures !(dir.pom.Present? && dir.pom.parsed.Ok?) ==>
      Discover(dir).javaVersion == Some(DefaultJavaVersion) && Discover(dir).packaging.None?
  {
  }

  /** A java buildpack without a pom.xml: the version falls back to "11" and no packaging is set. */
  lemma JavaBuildpackWithoutPom(bp: string)
    requires Contains(bp, "java") && !Contains(bp, "python")
    ensures
      var app := AppBlock(None, None, None, Some(bp));
      var dir := Directory("app", "app", Present(Ok(Manifest(Some([app])))), Missing, None, false, Missing);
      var r := Discover(dir);
      r.appType == Some(JavaMaven) && r.javaVersion == Some(DefaultJavaVersion) && r.packaging.None?
      && r.diagnostics == [JavaVersionError]
  {
  }

  /** A directory with no manifest and no project file is of unknown type, with no metadata. */
  lemma EmptyDirectoryIsUnknown(path: string, baseName: string)
    ensures
      var r := Discover(Directory(path, baseName, Missing, Missing, None, false, Missing));
      r == AppInfo(baseName, Some(Unknown), path, map[], [], None, None, None, None, [])
  {
  }

  /** package.json with `react` among the dependencies and `engines.node` ">=16.0.0": react, Node 16. */
  lemma ReactPackageExample()
    ensures
      var pkg := PackageJson(Some([("react", "^18.0.0")]), None, Some([("node", ">=16.0.0")]));
      var r := Discover(Directory("web", "web", Missing, Missing, None, false, Present(Ok(pkg))));
      r.appType == Some(React) && r.nodeVersion == Some("16")
  {
    var pkg := PackageJson(Some([("react", "^18.0.0")]), None, Some([("node", ">=16.0.0")]));
    assert UsesReact(pkg) by {
      assert pkg.dependencies.value[0].0 == "react";
    }
    assert NodeMajor(EngineNode(pkg)) == "16" by {
      assert EngineNode(pkg) == ">=16.0.0";
      RangeMajorExample();
    }
    PackageOnlyDiscovery(Directory("web", "web", Missing, Missing, None, false, Present(Ok(pkg))), pkg);
  }

  /**
   * A directory whose only project file is a package.json that parsed: react exactly when the
   * package uses React, nodejs otherwise, with the Node version taken from `engines.node`.
   */
  lemma PackageOnlyDiscovery(dir: Directory, pkg: PackageJson)
    requires dir.manifest.Missing? && dir.pom.Missing? && dir.requirements.None? && !dir.hasSetupPy
    requires dir.packageJson == Present(Ok(pkg))
    ensures Discover(dir).appType == Some(if UsesReact(pkg) then React else NodeJs)
    ensures Discover(dir).nodeVersion == Some(NodeMajor(EngineNode(pkg)))
  {
  }

  /** The first run of digits in the range ">=16.0.0" is "16". */
  lemma RangeMajorExample()
    ensures FirstDigitRun(">=16.0.0") == Some("16")
  {
    var constraint := ">=16.0.0";
    assert Span(constraint, IsNonDigit) == 2;
    assert Span(constraint[2..], IsDigit) == 2;
    assert constraint[2..2 + 2] == "16";
  }

  /** A pom.xml without namespaces: `project`, then `properties`, then the Java version element. */
  function NestedPom(projectTag: string, propertiesTag: string, versionTag: string, version: string): Element {
    Element(projectTag, None, [Element(propertiesTag, None, [Element(versionTag, Some(version), [])])])
  }

  /** The nested POM in document order. */
  lemma NestedPomPreorder(projectTag: string, propertiesTag: string, versionTag: string, version: string)
    ensures var pom := NestedPom(projectTag, propertiesTag, versionTag, version);
      Preorder(pom) == [pom, pom.children[0], pom.children[0].children[0]]
  {
    var pom := NestedPom(projectTag, propertiesTag, versionTag, version);
    var properties := pom.children[0];
    var leaf := properties.children[0];
    assert Preorder(leaf) == [leaf];
    assert Preorder(properties) == [properties, leaf] by {
      assert ChildrenPreorder(properties, 1) == Preorder(leaf);
    }
    assert ChildrenPreorder(pom, 1) == Preorder(properties);
  }

  /**
   * Without namespaces the qualified lookups miss, and the scan of tags takes the version from
   * the first tag containing "java.version"; with no tag containing "packaging" there is no
   * packaging value.
   */
  lemma NestedPomLookups(projectTag: string, propertiesTag: string, versionTag: string, version: string)
    requires '}' !in projectTag && '}' !in propertiesTag && '}' !in versionTag
    requires !Contains(projectTag, "java.version") && !Contains(propertiesTag, "java.version")
    requires Contains(versionTag, "java.version")
    requires !Contains(projectTag, "packaging") && !Contains(propertiesTag, "packaging")
    requires !Contains(versionTag, "packaging")
    ensures PomJavaVersion(NestedPom(projectTag, propertiesTag, versionTag, version)) == Some(version)
    ensures PomPackaging(NestedPom(projectTag, propertiesTag, versionTag, version)).None?
  {
    var pom := NestedPom(projectTag, propertiesTag, versionTag, version);
    var nodes := Preorder(pom);
    NestedPomPreorder(projectTag, propertiesTag, versionTag, version);
    UnqualifiedPomFallsBack(pom);
    assert nodes[1..][1..] == nodes[2..];
    assert IndexContaining(nodes, "java.version") == 2;
    assert IndexContaining(nodes, "packaging") == 3;
  }

  /**
   * A directory with no manifest whose pom.xml is such a POM with version "17": java-maven,
   * Java 17 found by the scan of tags, packaging "jar" by default.
   */
  lemma NestedPomDiscovery(dir: Directory, projectTag: string, propertiesTag: string, versionTag: string)
    requires '}' !in projectTag && '}' !in propertiesTag && '}' !in versionTag
    requires !Contains(projectTag, "java.version") && !Contains(propertiesTag, "java.version")
    requires Contains(versionTag, "java.version")
    requires !Contains(projectTag, "packaging") && !Contains(propertiesTag, "packaging")
    requires !Contains(versionTag, "packaging")
    requires dir.manifest.Missing? && dir.pom == Present(Ok(NestedPom(projectTag, propertiesTag, versionTag, "17")))
    ensures Discover(dir).appType == Some(JavaMaven)
    ensures Discover(dir).javaVersion == Some("17")
    ensures Discover(dir).packaging == Some(DefaultPackaging)
  {
    NestedPomLookups(projectTag, propertiesTag, versionTag, "17");
  }
}
