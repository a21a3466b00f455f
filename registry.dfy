/** The package-manager registry of src/cache.ts: the constant list of supported
    package managers, the lookup by id, and the per-manager cache-key builders. */
module Registry {
  import opened Wrappers
  import opened Errors

  /** A registry entry: the id, the directories whose contents are cached, and
      the glob pattern given to hashFiles to build the key. */
  datatype PackageManager = PackageManager(id: string, path: seq<string>, pattern: string)

  /** `path.join` of a home directory and relative segments, without normalisation. */
  function Join(home: string, segments: seq<string>): (p: string)
    ensures home <= p
    ensures segments != [] ==> |p| > |home|
    decreases |segments|
  {
    if segments == [] then home
    else Join(home + "/" + segments[0], segments[1..])
  }

  const MavenPattern: string := "**/pom.xml"
  const GradlePattern: string := "**/*.gradle*\n**/gradle-wrapper.properties"

  /** `supportedPackageManager`, with `os.homedir()` passed in as `home`: Maven
      then Gradle, ids unique, every entry with at least one directory and a
      non-empty pattern. */
  function SupportedPackageManagers(home: string): (r: seq<PackageManager>)
    ensures |r| == 2 && r[0].id == "maven" && r[1].id == "gradle"
    ensures forall i, j :: 0 <= i < j < |r| ==> r[i].id != r[j].id
    ensures forall e :: e in r ==> e.path != [] && e.pattern != ""
  {
    [ PackageManager("maven", [Join(home, [".m2", "repository"])], MavenPattern),
      PackageManager("gradle", [Join(home, [".gradle", "caches"]), Join(home, [".gradle", "wrapper"])],
                     GradlePattern) ]
  }

  /** `Array.prototype.find` over a list of entries: the first entry with that id. */
  function Find(entries: seq<PackageManager>, id: string): (r: Option<PackageManager>)
    ensures r.Some? ==> r.value in entries && r.value.id == id
    ensures r.Some? ==> exists i :: 0 <= i < |entries| && entries[i] == r.value &&
                          forall j :: 0 <= j < i ==> entries[j].id != id
    ensures r.None? <==> forall e :: e in entries ==> e.id != id
  {
    if entries == [] then None
    else if entries[0].id == id then Some(entries[0])
    else
      var r := Find(entries[1..], id);
      assert forall e :: e in entries ==> e == entries[0] || e in entries[1..];
      if r.Some? then
        ghost var i :| 0 <= i < |entries[1..]| && entries[1..][i] == r.value &&
                       forall j :: 0 <= j < i ==> entries[1..][j].id != id;
        assert entries[i + 1] == r.value;
        r
      else r
  }

  /** The ids the registry knows. */
  predicate Supported(id: string)
  {
    id == "maven" || id == "gradle"
  }

  /** `findPackageManager`: the registry entry for `id`, or the error it throws. */
  function FindPackageManager(id: string, home: string): (r: Result<PackageManager, Failure>)
    ensures r.Success? <==> Supported(id)
    ensures r.Success? ==> r.value.id == id && r.value in SupportedPackageManagers(home)
    ensures r.Failure? ==> r.error == UnknownPackageManager(id)
  {
    match Find(SupportedPackageManagers(home), id)
    case Some(pm) => Success(pm)
    case None => Failure(UnknownPackageManager(id))
  }

  /** The `key()` builder of an entry: `<RUNNER_OS>-<id>-<hashFiles(pattern)>`. */
  function PrimaryKey(os: string, pm: PackageManager, hashFiles: string -> string): (k: string)
    ensures FallbackKey(os, pm.id) < k
  {
    os + "-" + pm.id + "-" + hashFiles(pm.pattern)
  }

  /** The single restore key handed to `restoreCache`: `<RUNNER_OS>-<id>`. */
  function FallbackKey(os: string, id: string): (k: string)
    ensures os + "-" <= k && k[|os| + 1..] == id
  {
    os + "-" + id
  }

  /** The paths each manager hands to the backend are fixed and non-empty. */
  lemma ArtifactPaths(id: string, home: string)
    requires Supported(id)
    ensures FindPackageManager(id, home).value.path ==
              if id == "maven" then [home + "/.m2/repository"]
              else [home + "/.gradle/caches", home + "/.gradle/wrapper"]
    ensures FindPackageManager(id, home).value.pattern ==
              if id == "maven" then "**/pom.xml"
              else "**/*.gradle*\n**/gradle-wrapper.properties"
  {
    assert Join(home, [".m2", "repository"]) == home + "/.m2/repository";
    assert Join(home, [".gradle", "caches"]) == home + "/.gradle/caches";
    assert Join(home, [".gradle", "wrapper"]) == home + "/.gradle/wrapper";
  }

  /** A primary key is never empty and contains `-<id>-` right after the platform. */
  lemma KeyShape(os: string, pm: PackageManager, hashFiles: string -> string)
    ensures PrimaryKey(os, pm, hashFiles) != ""
    ensures PrimaryKey(os, pm, hashFiles)[|os|..|os| + |pm.id| + 2] == "-" + pm.id + "-"
  {
  }

  /** The key is a function of the platform, the entry and the hash of its pattern,
      and it determines that hash: two keys of one manager on one platform are
      equal exactly when hashFiles returned the same digest. */
  lemma KeyDeterminesHash(os: string, pm: PackageManager, h1: string -> string, h2: string -> string)
    ensures PrimaryKey(os, pm, h1) == PrimaryKey(os, pm, h2) <==> h1(pm.pattern) == h2(pm.pattern)
  {
    var prefix := os + "-" + pm.id + "-";
    assert PrimaryKey(os, pm, h1) == prefix + h1(pm.pattern);
    assert PrimaryKey(os, pm, h2) == prefix + h2(pm.pattern);
    if PrimaryKey(os, pm, h1) == PrimaryKey(os, pm, h2) {
      assert h1(pm.pattern) == PrimaryKey(os, pm, h1)[|prefix|..];
    }
  }

  /** Maven and Gradle never share a key on one platform, whatever the hashes. */
  lemma ManagersNeverShareKey(os: string, home: string, h1: string -> string, h2: string -> string)
    ensures PrimaryKey(os, FindPackageManager("maven", home).value, h1)
         != PrimaryKey(os, FindPackageManager("gradle", home).value, h2)
    ensures FallbackKey(os, "maven") != FallbackKey(os, "gradle")
  {
    var m := PrimaryKey(os, FindPackageManager("maven", home).value, h1);
    var g := PrimaryKey(os, FindPackageManager("gradle", home).value, h2);
    assert m[|os| + 1] == 'm';
    assert g[|os| + 1] == 'g';
    assert FallbackKey(os, "maven")[|os| + 1] == 'm';
    assert FallbackKey(os, "gradle")[|os| + 1] == 'g';
  }
}
