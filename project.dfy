/**
 * What the classifier and the dependency mapper can see of a source directory: which of the
 * files they look at exist, and what parsing each one gave. Reading files and running the YAML,
 * JSON and XML parsers happen outside the model; their outcomes arrive here as values.
 */
module Project {
  import opened Wrappers
  import opened Xml

  /** The Maven POM 4.0.0 namespace, as it prefixes the tags of a namespaced pom.xml. */
  const MavenNamespace := "{http://maven.apache.org/POM/4.0.0}"

  /** The outcome of reading and parsing a file: the parsed value, or the exception raised. */
  datatype Parsed<T> = Ok(value: T) | Err

  /** A file of the source directory: absent, or present with the outcome of parsing it. */
  datatype FileEntry<T> = Missing | Present(parsed: Parsed<T>)

  /** No key occurs twice: a parsed JSON object keeps one value per key. */
  predicate DistinctKeys(entries: seq<(string, string)>) {
    forall i, j :: 0 <= i < j < |entries| ==> entries[i].0 != entries[j].0
  }

  /** A JSON object whose values are strings, as its entries come in insertion order. */
  type Pairs = entries: seq<(string, string)> | DistinctKeys(entries) witness []

  /** `key in obj` for a JSON object. */
  predicate HasKey(obj: Pairs, key: string) {
    exists i :: 0 <= i < |obj| && obj[i].0 == key
  }

  /** `obj.get(key)`: the value stored under `key`, if any. */
  function Lookup(obj: Pairs, key: string): (r: Option<string>)
    ensures r.Some? <==> HasKey(obj, key)
    ensures r.Some? ==> exists i :: 0 <= i < |obj| && obj[i] == (key, r.value)
  {
    if obj == [] then None
    else if obj[0].0 == key then Some(obj[0].1)
    else
      assert forall i :: 0 <= i < |obj| - 1 ==> obj[1..][i] == obj[i + 1];
      var r := Lookup(obj[1..], key);
      r
  }

  /** Keys being distinct, the value `get` finds is the one every entry under `key` holds. */
  lemma LookupUnique(obj: Pairs, key: string, i: nat)
    requires i < |obj| && obj[i].0 == key
    ensures Lookup(obj, key) == Some(obj[i].1)
  {
    var j :| 0 <= j < |obj| && obj[j] == (key, Lookup(obj, key).value);
    assert !(i < j || j < i);
  }

  /** One entry of `applications` in manifest.yml; every key may be absent. */
  datatype AppBlock = AppBlock(
    name: Option<string>,
    env: Option<map<string, string>>,
    services: Option<seq<string>>,
    buildpack: Option<string>)

  /** manifest.yml: the `applications` list, when the document has one. */
  datatype Manifest = Manifest(applications: Option<seq<AppBlock>>)

  /** package.json: the three objects the core reads, each possibly absent. */
  datatype PackageJson = PackageJson(
    dependencies: Option<Pairs>,
    devDependencies: Option<Pairs>,
    engines: Option<Pairs>)

  /**
   * A source directory. `baseName` is the last component of the absolute form of `path`;
   * `requirements` holds the lines of requirements.txt when that file exists.
   */
  datatype Directory = Directory(
    path: string,
    baseName: string,
    manifest: FileEntry<Manifest>,
    pom: FileEntry<Element>,
    requirements: Option<seq<string>>,
    hasSetupPy: bool,
    packageJson: FileEntry<PackageJson>)
}
