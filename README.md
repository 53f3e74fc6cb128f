# Application discovery and dependency mapping, in Dafny

This project models the two analysis steps of the PCF-to-EKS migration agent.

- `discover_app(path)` (module `Discovery`) looks at a Cloud Foundry application's source directory and builds the application record. The record has:
  - the path it was given, and the name, env, services and buildpack of the first application in `manifest.yml`; without a name there, the directory's own name;
  - the application type (`python`, `java-maven`, `nodejs`, `react` or `unknown`), from the buildpack, or else from the project files (`pom.xml`, then `requirements.txt`/`setup.py`, then `package.json`);
  - the Node major version from `engines.node`, only when the type was decided by `package.json` (a `nodejs` type that the buildpack set gets none);
  - for Java, the Java version and the packaging from `pom.xml`, with the defaults "11" and "jar".
- `map_dependencies(path, app_type)` (module `Dependency`) lists the declared dependencies as strings:
  - the requirement lines of `requirements.txt`;
  - `groupId:artifactId:version` for each `dependency` child of the first `dependencies` child of the `pom.xml` root, in document order, after the tag namespaces have been stripped in place. Dependencies anywhere else in the POM are not listed;
  - `name@version` for every entry of the `dependencies` object of `package.json`.

Supporting modules:

- `Text` models the Python string operations the code relies on:
  - `str.strip` with the full `str.isspace` set;
  - `startswith`;
  - the substring test `in`;
  - the local name of a tag, after its first `}`;
  - the first match of the regular expression `(\d+)`.
- `Xml` models the element tree of `xml.etree.ElementTree`:
  - `iter()` is the preorder walk;
  - `find` and `findall` on the paths that occur;
  - `ElementTree` is a document whose tags can be assigned in place. Its tags live in an array indexed by document order.
- `Project` is what the code can see of a directory: which files exist, and what parsing each one gave.

Both procedures are written as methods that update their state step by step, as the source does. Each method is proved equal to a declarative function: `Discover`, `Requirements`, `MavenDependencies` and `NodeDependencies`. The lemmas then state what those functions guarantee.

What the code does that a reader may not expect:

- Only `manifest.yml` is read. There is no merge of several manifests and no `JBP_CONFIG_OPEN_JDK_JRE` handling.
- `discover_app` does not strip namespaces. It tries the namespaced path and then scans tag names.
- When `pom.xml` is missing or does not parse, only the Java version gets its default "11". Packaging stays unset.
- A POM child element with no text renders as "None" in a coordinate. Only a missing element renders as "".
- Requirement lines are kept stripped.

## Model

| member | source | states |
|---|---|---|
| Discovery.DiscoverApp | Migrations_Agents/migration_agent/core/discovery.py:4-127 | the record built step by step is exactly `Discover(dir)` |
| Discovery.ReadManifest | Migrations_Agents/migration_agent/core/discovery.py:11-41 | the defaults, then the first application's name/env/services/buildpack and the buildpack's type, and a diagnostic when manifest.yml fails to parse: `AfterManifest(dir)` |
| Discovery.AfterManifest | Migrations_Agents/migration_agent/core/discovery.py:11-41 | after the manifest step the type is the buildpack's type, and no Node, Java or packaging value is set yet |
| Discovery.ClassifyByProjectFiles | Migrations_Agents/migration_agent/core/discovery.py:43-85 | the cascade sets the type to `Classify(dir)` and the Node version, and adds the package.json diagnostic; nothing else changes |
| Discovery.FindJavaVersion | Migrations_Agents/migration_agent/core/discovery.py:98-106 | the Java version read from the POM is `PomJavaVersion(root)` |
| Discovery.FindPackaging | Migrations_Agents/migration_agent/core/discovery.py:109-117 | the packaging read from the POM is `PomPackaging(root)` |
| Discovery.ExtractJavaMetadata | Migrations_Agents/migration_agent/core/discovery.py:87-127 | only the Java version, the packaging and the Java diagnostic change, to `JavaVersionOf`, `PackagingOf` and `JavaDiagnostics` |
| Discovery.FirstTagContaining | Migrations_Agents/migration_agent/core/discovery.py:101-104 | the loop with `break` stops at the first element whose tag contains the needle; every element before it lacks it |
| Discovery.Discover | Migrations_Agents/migration_agent/core/discovery.py:4-127 | a type is always set and the path is kept; the manifest's name or the directory's is used; env, services and buildpack are the first application's, or empty and unset without one; a Java version is set exactly for java-maven and is non-empty; a packaging only for java-maven, and then exactly when pom.xml parsed; a Node version only for nodejs/react, and it is all digits; react always has one |
| Discovery.FirstApp | Migrations_Agents/migration_agent/core/discovery.py:25-26 | an application block is used exactly when manifest.yml parsed and its `applications` list is non-empty, and it is the first one |
| Discovery.BuildpackType | Migrations_Agents/migration_agent/core/discovery.py:33-39 | python iff the buildpack contains "python"; java-maven iff it contains "java" but not "python"; nodejs iff it contains "nodejs" but neither; no type otherwise |
| Discovery.FileType | Migrations_Agents/migration_agent/core/discovery.py:44-85 | java-maven iff pom.xml exists; python iff not that and requirements.txt or setup.py exists; react/nodejs iff only package.json exists; unknown iff none of them |
| Discovery.NodeMajor | Migrations_Agents/migration_agent/core/discovery.py:66-78 | the Node version is a non-empty string of digits: the first digit run of `engines.node`, or "18" when it has no digit |
| Discovery.OrDefault | Migrations_Agents/migration_agent/core/discovery.py:119-123 | a truthy value is kept, an absent or empty one is replaced by the default |
| Discovery.IndexContaining | Migrations_Agents/migration_agent/core/discovery.py:101-104 | the position of the first element of `iter()` whose tag contains the needle, or the end |
| Discovery.ScanText | Migrations_Agents/migration_agent/core/discovery.py:101-104 | no element's tag contains the needle: no value; otherwise the text, possibly none, of the first element of `iter()` whose tag contains it |
| Discovery.ManifestTypeIsFinal | Migrations_Agents/migration_agent/core/discovery.py:44 | a type the buildpack settles is final, and no Node version is set |
| Discovery.ProjectFilesDecide | Migrations_Agents/migration_agent/core/discovery.py:44-85 | without a buildpack type, the project-file cascade decides the type |
| Discovery.ReactExactly | Migrations_Agents/migration_agent/core/discovery.py:56-63 | the type is react iff the package.json branch ran, package.json parsed, and "react" is a key of `dependencies` or `devDependencies` |
| Discovery.UsesReactKeys | Migrations_Agents/migration_agent/core/discovery.py:56-60 | React is detected iff "react" is found in `dependencies` or `devDependencies`; with neither object it never is |
| Discovery.EngineNodeEntry | Migrations_Agents/migration_agent/core/discovery.py:66-67 | `engines.node` is "" when `engines` is absent or lacks `node`, and otherwise the value stored under `node` |
| Discovery.NodeVersionOfPackage | Migrations_Agents/migration_agent/core/discovery.py:66-83 | in the package.json branch: "18" and nodejs when parsing fails; "18" when `engines.node` has no digit; its first digit run otherwise |
| Discovery.PomLookupPrecedence | Migrations_Agents/migration_agent/core/discovery.py:98-117 | the namespaced lookup wins when it finds an element; the scan of tags is used only when it does not |
| Discovery.QualifiedNameAbsent | Migrations_Agents/migration_agent/core/discovery.py:96-98 | a name in the Maven namespace is the tag of no element of a document without namespaces |
| Discovery.UnqualifiedPomFallsBack | Migrations_Agents/migration_agent/core/discovery.py:98-117 | in a POM without namespaces both values come from the scan of tags |
| Discovery.JavaMetadataDefaults | Migrations_Agents/migration_agent/core/discovery.py:119-127 | java-maven with a parsed POM: the POM's values or "11"/"jar"; with pom.xml absent or unparsable: "11" and no packaging |
| Discovery.JavaBuildpackWithoutPom | Migrations_Agents/migration_agent/core/discovery.py:88-127 | a java buildpack and no pom.xml: version "11", no packaging, one Java diagnostic |
| Discovery.EmptyDirectoryIsUnknown | Migrations_Agents/migration_agent/core/discovery.py:84-85 | a directory with none of the files gives type unknown and the default record |
| Discovery.PackageOnlyDiscovery | Migrations_Agents/migration_agent/core/discovery.py:43-83 | a directory whose only project file is a package.json that parsed gives react iff the package uses React, nodejs otherwise, and the Node major version of `engines.node` |
| Discovery.ReactPackageExample | Migrations_Agents/migration_agent/core/discovery.py:56-74 | react among the dependencies and `engines.node` ">=16.0.0" give react and Node "16" |
| Discovery.RangeMajorExample | Migrations_Agents/migration_agent/core/discovery.py:72-74 | the first digit run of ">=16.0.0" is "16" |
| Discovery.NestedPomPreorder | Migrations_Agents/migration_agent/core/discovery.py:101 | `iter()` over project, properties, version visits those three in that order |
| Discovery.NestedPomLookups | Migrations_Agents/migration_agent/core/discovery.py:98-117 | in such a POM without namespaces, the version comes from the scan and there is no packaging |
| Discovery.NestedPomDiscovery | Migrations_Agents/migration_agent/core/discovery.py:88-123 | such a POM with version 17 and no manifest gives java-maven, "17" and the default packaging "jar" |
| Dependency.MapDependencies | Migrations_Agents/migration_agent/core/dependency.py:4-57 | per type string: the requirement entries; the POM coordinates, or none plus a diagnostic when the POM fails to parse; the package.json entries, or none plus a diagnostic; for any other type, nothing |
| Dependency.ReadRequirements | Migrations_Agents/migration_agent/core/dependency.py:13-17 | the loop collects exactly `Requirements(lines)` |
| Dependency.Keep | Migrations_Agents/migration_agent/core/dependency.py:16-17 | at most one entry per line |
| Dependency.KeepMembers | Migrations_Agents/migration_agent/core/dependency.py:16-17 | a string is kept iff it is one of the lines and is neither empty nor a comment |
| Dependency.Requirements | Migrations_Agents/migration_agent/core/dependency.py:13-17 | there are at most as many entries as lines |
| Dependency.RequirementsStep | Migrations_Agents/migration_agent/core/dependency.py:14-17 | reading one more line appends its stripped form exactly when that is a requirement |
| Dependency.RequirementsMembers | Migrations_Agents/migration_agent/core/dependency.py:14-17 | a string is an entry iff some line strips to it and it is neither empty nor a comment |
| Dependency.RequirementsEntries | Migrations_Agents/migration_agent/core/dependency.py:15-16 | every entry is non-empty, is not a comment, and has no whitespace at either end |
| Dependency.LoadWithoutNamespaces | Migrations_Agents/migration_agent/core/dependency.py:23-32 | after the in-place pass the root reads as the parsed tree with every tag replaced by its local name |
| Dependency.ReadPom | Migrations_Agents/migration_agent/core/dependency.py:23-40 | the loop yields `MavenDependencies` of the stripped tree |
| Dependency.MavenDependencies | Migrations_Agents/migration_agent/core/dependency.py:34-40 | one coordinate per element `findall` returns under the root's first `dependencies` child, the k-th being that of the k-th element |
| Dependency.MavenDependenciesFollowChildren | Migrations_Agents/migration_agent/core/dependency.py:34-40 | the coordinates follow the `dependency` children in document order, one each: the k-th is that of the child at the k-th of an increasing list of positions that covers every `dependency` child |
| Dependency.ChildTextFirst | Migrations_Agents/migration_agent/core/dependency.py:37-39 | a field is "" when the `dependency` element has no child with its tag, otherwise the text of the first such child, or "None" when that child has no text |
| Dependency.CoordinateFields | Migrations_Agents/migration_agent/core/dependency.py:40 | a coordinate is the groupId, a colon, the artifactId, a colon and the version, each the text read for that field |
| Dependency.NodeDependencies | Migrations_Agents/migration_agent/core/dependency.py:51-53 | one `name@version` per entry of `dependencies`, in its order |
| Dependency.ReadPackageDependencies | Migrations_Agents/migration_agent/core/dependency.py:51-53 | the loop yields exactly `NodeDependencies(deps)` |
| Dependency.SplitColons | Migrations_Agents/migration_agent/core/dependency.py:40 | splitting on ':' yields at least one piece |
| Dependency.JoinReadsBack | Migrations_Agents/migration_agent/core/dependency.py:40 | `g:a:v` splits back into g, a and v when none of them holds a colon |
| Dependency.CoordinateReadsBack | Migrations_Agents/migration_agent/core/dependency.py:37-40 | a coordinate splits back into the groupId, artifactId and version texts when none holds a colon |
| Dependency.NoTopLevelDependencies | Migrations_Agents/migration_agent/core/dependency.py:34-35 | a POM with no `dependencies` child of its root yields no coordinate |
| Dependency.QualifiedLocalName | Migrations_Agents/migration_agent/core/dependency.py:31-32 | `{uri}local` strips to `local` |
| Dependency.StripUnpadded | Migrations_Agents/migration_agent/core/dependency.py:15 | a line with no whitespace at either end strips to itself |
| Dependency.RequirementsExample | Migrations_Agents/migration_agent/core/dependency.py:13-17 | a pin, a comment, a blank line and a range give the pin and the range |
| Dependency.PlainPomExample | Migrations_Agents/migration_agent/core/dependency.py:34-40 | a POM with one dependency (org.a, lib, 1.0) gives "org.a:lib:1.0" |
| Dependency.StripQualifiedElement | Migrations_Agents/migration_agent/core/dependency.py:30-32 | a namespaced element strips to its local name over its stripped children |
| Dependency.StripExampleDependency | Migrations_Agents/migration_agent/core/dependency.py:30-32 | the namespaced `dependency` element strips to the plain one |
| Dependency.StripExamplePom | Migrations_Agents/migration_agent/core/dependency.py:30-32 | the namespaced example POM strips to the plain one |
| Dependency.NamespacedPomExample | Migrations_Agents/migration_agent/core/dependency.py:23-40 | the same POM in any namespace also gives "org.a:lib:1.0" |
| Xml.ElementTree.constructor | Migrations_Agents/migration_agent/core/dependency.py:23-24 | the new document reads as the parsed tree |
| Xml.ElementTree.StripNamespaces | Migrations_Agents/migration_agent/core/dependency.py:30-32 | every tag becomes its local name; the tree is the old tree with its tags mapped, and nothing else changes |
| Xml.Preorder | Migrations_Agents/migration_agent/core/discovery.py:101 | `iter()` starts with the element itself |
| Xml.ChildSlice | Migrations_Agents/migration_agent/core/dependency.py:30 | each child's subtree is one contiguous slice of its parent's `iter()` |
| Xml.MapTagsRelabel | Migrations_Agents/migration_agent/core/dependency.py:30-32 | rewriting every tag of a relabelled tree is relabelling it with the rewritten tags |
| Xml.RelabelOwnTags | Migrations_Agents/migration_agent/core/dependency.py:23-24 | relabelling a tree with its own tags in document order gives it back |
| Xml.PreorderMapTags | Migrations_Agents/migration_agent/core/dependency.py:30-32 | rewriting tags commutes with `iter()` |
| Xml.IndexOfTag | Migrations_Agents/migration_agent/core/dependency.py:34 | the position of the first element with the tag, every earlier one differing |
| Xml.FirstTaggedFirst | Migrations_Agents/migration_agent/core/dependency.py:34 | the first element with the tag, and nothing only when no element has it |
| Xml.FindChildFirst | Migrations_Agents/migration_agent/core/dependency.py:34-39 | `find('x')` is the first child tagged `x`, and nothing only when no child is |
| Xml.FindDescendantFirst | Migrations_Agents/migration_agent/core/discovery.py:109 | `find('.//x')` is the first element of `iter()` after the element itself tagged `x`, and nothing only when none below it is |
| Xml.FindAllChildren | Migrations_Agents/migration_agent/core/dependency.py:36 | `findall` returns exactly the children with the tag, each as often as it occurs among the children |
| Xml.FilterCount | Migrations_Agents/migration_agent/core/dependency.py:36 | filtering keeps every element with the tag as often as it occurs, and no other |
| Xml.FilterAppend | Migrations_Agents/migration_agent/core/dependency.py:36 | filtering distributes over concatenation, so it keeps the children's order |
| Xml.FilterPositions | Migrations_Agents/migration_agent/core/dependency.py:36 | the positions the filtered elements come from are increasing, one per result, tagged as asked, and cover every child with the tag |
| Xml.FindUnder | Migrations_Agents/migration_agent/core/discovery.py:98 | a match is the first child with the tag of the first element tagged as the parent that has one; no match means no such element has such a child |
| Xml.FindPathFirst | Migrations_Agents/migration_agent/core/discovery.py:98 | `find('.//p/c')` is, walking `iter()` after the element itself, the first child tagged `c` of the first element tagged `p` that has one; nothing only when no such element has one |
| Text.StripSpec | Migrations_Agents/migration_agent/core/dependency.py:15 | `strip` leaves the slice after the leading whitespace, followed only by whitespace, empty iff the line is all whitespace |
| Text.StripEnds | Migrations_Agents/migration_agent/core/dependency.py:15 | a non-empty stripped line has no whitespace at either end |
| Text.ContainsIffOccurs | Migrations_Agents/migration_agent/core/discovery.py:34-39 | `t in s` holds iff `t` occurs at some position of `s` |
| Text.LocalName | Migrations_Agents/migration_agent/core/dependency.py:31-32 | a tag without '}' is kept; otherwise the result is what follows the first '}' |
| Text.FirstDigitRun | Migrations_Agents/migration_agent/core/discovery.py:72-74 | no match iff there is no digit; a match is the maximal digit run starting at the first digit |
| Project.Lookup | Migrations_Agents/migration_agent/core/discovery.py:66-67 | `get` finds a value iff the key is present, and the value is the one stored under it |
| Project.LookupUnique | Migrations_Agents/migration_agent/core/discovery.py:66-67 | keys being distinct, `get` returns the value of any entry stored under the key |

## Left out

- Reading files, `os.path.exists` and `os.path.abspath` are left out, and so are the YAML, JSON and XML parsers. A `Directory` value carries which files exist and what parsing each one gave. `Err` stands for any exception raised while reading or parsing a file.
- Printed error messages become `Diagnostic` values, or the `diagnostic` flag of `MapDependencies`. Their text is not modelled.
- YAML and JSON values of an unexpected type are left out: a null, a non-string buildpack, or an `applications` entry that is not a mapping. `AppBlock` and `PackageJson` hold only well-typed values, and an absent key and a null value are treated alike. The source may fail part-way in those cases and keep a partly updated record.
- A `manifest.yml` whose document is empty is treated as `Err`: the source fails on `'applications' in None` and reports it.
- `Pairs` is a decoded JSON object with distinct keys. Duplicate keys in the file text are resolved by the JSON parser, which is not part of this model.
- `package.json` dependency versions that are not strings are left out. The f-string would render them.
- `requirements.txt` is given as its lines after the file object has split them. Decoding errors while reading it are left out; in the source they are not caught.
- Text.FirstDigitRun: matches ASCII digits only. Python's `\d` also matches other Unicode decimal digits.
- `generator.py` and `main.py` are left out. They consume the two records and are not part of this model.
- `app_info` is a local dictionary in the source. It is modelled as a record value that the steps update, so keys that were never set are `None` fields.
