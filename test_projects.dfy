/** TestProject and its subclass iOSTestProject: a project file path with
    build settings, the path variants for the other Apple platforms, and a
    lazily loaded project document. The runtime type (plain or iOS) is the
    `kind` field; the iOS flags are a value carried by that kind. */
module TestProjects {
  import opened Common
  import opened Text
  import opened Paths

  /** The settings iOSTestProject adds to TestProject. */
  datatype IOSFlags = IOSFlags(
    skipiOSVariation: bool,
    skipwatchOSVariation: bool,
    skipwatchOSARM64_32Variation: bool,
    skipwatchOS32Variation: bool,
    skiptvOSVariation: bool,
    buildOnly: bool)

  /** Every iOS flag is off until someone sets it. */
  const DefaultIOSFlags := IOSFlags(false, false, false, false, false, false)

  /** The runtime type of a project object. */
  datatype ProjectKind = PlainProject | IOSProject(flags: IOSFlags)

  /** What the parameterless constructor of the same runtime type produces
      (`Activator.CreateInstance(GetType())`). */
  function FreshKind(k: ProjectKind): (r: ProjectKind)
    ensures r.IOSProject? <==> k.IOSProject?
    ensures r.IOSProject? ==> r.flags == DefaultIOSFlags
  {
    match k
    case PlainProject => PlainProject
    case IOSProject(_) => IOSProject(DefaultIOSFlags)
  }

  /** What the model reads from a loaded project file: the paths of the
      extension projects it references. */
  datatype ProjectXml = ProjectXml(extensionProjectReferences: seq<string>)

  /** The document a failed load leaves behind. */
  const EmptyDocument := ProjectXml([])

  /** The `Func<Task>` a project may depend on, as an opaque handle: the
      model stores it but never invokes it. */
  datatype Dependency = Dependency(handle: nat)

  /** The value of every field of a project object. */
  datatype ProjectState = ProjectState(
    kind: ProjectKind,
    xml: Option<ProjectXml>,
    path: Option<string>,
    solutionPath: Option<string>,
    name: Option<string>,
    isExecutableProject: bool,
    isNUnitProject: bool,
    configurations: Option<seq<string>>,
    dependency: Option<Dependency>,
    failureMessage: Option<string>,
    restoreNugetsInProject: bool,
    mTouchExtraArgs: Option<string>,
    timeoutMultiplier: real,
    projectReferences: Option<seq<TestProject>>)

  /** The fields right after the parameterless constructor of a runtime type. */
  function DefaultState(kind: ProjectKind): ProjectState {
    ProjectState(kind, None, None, None, None, false, false, None, None, None, false, None, 1.0, None)
  }

  /** `Clone`: a fresh object of the same runtime type that copies Path,
      IsExecutableProject, RestoreNugetsInProject, Name, MTouchExtraArgs and
      TimeoutMultiplier, and leaves every other field at its default. */
  function CloneState(s: ProjectState): ProjectState {
    DefaultState(FreshKind(s.kind)).(
      path := s.path,
      isExecutableProject := s.isExecutableProject,
      restoreNugetsInProject := s.restoreNugetsInProject,
      name := s.name,
      mTouchExtraArgs := s.mTouchExtraArgs,
      timeoutMultiplier := s.timeoutMultiplier)
  }

  /** `System.IO.Path.Combine(GetDirectoryName(path), stem + suffix + ext)`,
      the path rewrite of AsTvOSProject and AsTodayExtensionProject. A null
      directory makes Combine throw. */
  function SuffixedPath(path: Option<string>, suffix: string): Result<string> {
    if path.None? then Err(ArgumentNull)
    else match DirectoryName(path.value)
      case None => Err(ArgumentNull)
      case Some(d) => Ok(Combine(d, Stem(path.value) + suffix + Extension(path.value)))
  }

  function TvOSPath(path: Option<string>): Result<string> { SuffixedPath(path, "-tvos") }

  function TodayExtensionPath(path: Option<string>): Result<string> { SuffixedPath(path, "-today") }

  /** The path rewrite of AsWatchOSProject: "-watchos" is added only when the
      stem does not already contain it. A null path fails on `Contains`. */
  function WatchOSPath(path: Option<string>): Result<string> {
    if path.None? then Err(NullReference)
    else
      var stem := Stem(path.value);
      match DirectoryName(path.value)
      case None => Err(ArgumentNull)
      case Some(d) => Ok(Combine(d, stem + (if Contains(stem, "-watchos") then "" else "-watchos") + Extension(path.value)))
  }

  /** The path GetTodayExtension gives the referenced project: the reference
      with '\' turned into '/', combined with the project's directory and
      made absolute by `fullPath` (Path.GetFullPath, which depends on the
      current directory). */
  function ExtensionProjectPath(path: Option<string>, reference: string, fullPath: string -> Result<string>): Result<string> {
    var dir := if path.None? then None else DirectoryName(path.value);
    if dir.None? then Err(ArgumentNull)
    else fullPath(Combine(dir.value, ReplaceChar(reference, '\\', '/')))
  }

  /** What the `Xml` getter returns, given the cached document: the cache
      when there is one, otherwise the result of loading the path. */
  function LoadedDocument(cached: Option<ProjectXml>, path: Option<string>, load: string -> Result<ProjectXml>): Result<ProjectXml> {
    if cached.Some? then Ok(cached.value)
    else if path.None? then Err(ArgumentNull)
    else load(path.value)
  }

  /** The cached document after the getter: the field is set to a new, empty
      document before loading, so a failed load leaves that empty document
      behind and is never retried. */
  function CachedDocument(cached: Option<ProjectXml>, path: Option<string>, load: string -> Result<ProjectXml>): ProjectXml {
    var loaded := LoadedDocument(cached, path, load);
    if loaded.Ok? then loaded.value else EmptyDocument
  }

  /** The outcome of GetTodayExtension for the document the getter gave:
      the path of the single referenced extension project, None (null) when
      there is none, NotImplemented when there are several. */
  function TodayExtensionOf(doc: Result<ProjectXml>, path: Option<string>, fullPath: string -> Result<string>): Result<Option<string>> {
    match doc
    case Err(e) => Err(e)
    case Ok(x) =>
      var refs := x.extensionProjectReferences;
      if |refs| == 0 then Ok(None)
      else if |refs| > 1 then Err(NotImplemented)
      else match ExtensionProjectPath(path, refs[0], fullPath)
        case Err(e) => Err(e)
        case Ok(p) => Ok(Some(p))
  }

  /** The Name an iOSTestProject takes from its path: the file name without
      extension. */
  function ProjectName(path: Option<string>): Option<string> {
    if path.None? then None else Some(Stem(path.value))
  }

  class TestProject {
    var kind: ProjectKind
    var xml: Option<ProjectXml>
    var path: Option<string>
    var solutionPath: Option<string>
    var name: Option<string>
    var isExecutableProject: bool
    var isNUnitProject: bool
    var configurations: Option<seq<string>>
    var dependency: Option<Dependency>
    var failureMessage: Option<string>
    var restoreNugetsInProject: bool
    var mTouchExtraArgs: Option<string>
    var timeoutMultiplier: real
    var projectReferences: Option<seq<TestProject>>

    function State(): ProjectState
      reads this
    {
      ProjectState(kind, xml, path, solutionPath, name, isExecutableProject, isNUnitProject,
                   configurations, dependency, failureMessage, restoreNugetsInProject, mTouchExtraArgs,
                   timeoutMultiplier, projectReferences)
    }

    /** `new TestProject()`. */
    constructor ()
      ensures State() == DefaultState(PlainProject)
    {
      kind, xml, path, solutionPath, name := PlainProject, None, None, None, None;
      isExecutableProject, isNUnitProject, configurations, failureMessage := false, false, None, None;
      dependency, restoreNugetsInProject, mTouchExtraArgs, timeoutMultiplier, projectReferences := None, false, None, 1.0, None;
    }

    /** `new iOSTestProject()`. */
    constructor IOS()
      ensures State() == DefaultState(IOSProject(DefaultIOSFlags))
    {
      kind, xml, path, solutionPath, name := IOSProject(DefaultIOSFlags), None, None, None, None;
      isExecutableProject, isNUnitProject, configurations, failureMessage := false, false, None, None;
      dependency, restoreNugetsInProject, mTouchExtraArgs, timeoutMultiplier, projectReferences := None, false, None, 1.0, None;
    }

    /** `new TestProject(path, isExecutableProject = true)`. */
    constructor WithPath(path: Option<string>, isExecutableProject: bool := true)
      ensures State() == DefaultState(PlainProject).(path := path, isExecutableProject := isExecutableProject)
    {
      this.kind, this.xml, this.path, this.solutionPath, this.name := PlainProject, None, path, None, None;
      this.isExecutableProject, this.isNUnitProject, this.configurations, this.failureMessage := isExecutableProject, false, None, None;
      this.dependency, this.restoreNugetsInProject, this.mTouchExtraArgs := None, false, None;
      this.timeoutMultiplier, this.projectReferences := 1.0, None;
    }

    /** `new iOSTestProject(path, isExecutableProject = true)`: the base
        constructor's fields, and Name is the file name without extension. */
    constructor IOSWithPath(path: Option<string>, isExecutableProject: bool := true)
      ensures State() == DefaultState(IOSProject(DefaultIOSFlags)).(
        path := path,
        isExecutableProject := isExecutableProject,
        name := ProjectName(path))
    {
      var name := ProjectName(path);
      this.kind, this.xml, this.path, this.solutionPath, this.name := IOSProject(DefaultIOSFlags), None, path, None, name;
      this.isExecutableProject, this.isNUnitProject, this.configurations, this.failureMessage := isExecutableProject, false, None, None;
      this.dependency, this.restoreNugetsInProject, this.mTouchExtraArgs := None, false, None;
      this.timeoutMultiplier, this.projectReferences := 1.0, None;
    }

    /** `Clone()`: a fresh object, this one untouched. */
    method Clone() returns (rv: TestProject)
      ensures fresh(rv)
      ensures rv.State() == CloneState(State())
    {
      rv := new TestProject();
      rv.kind := FreshKind(kind);
      rv.path := path;
      rv.isExecutableProject := isExecutableProject;
      rv.restoreNugetsInProject := restoreNugetsInProject;
      rv.name := name;
      rv.mTouchExtraArgs := mTouchExtraArgs;
      rv.timeoutMultiplier := timeoutMultiplier;
    }

    /** `AsTvOSProject()`: a clone whose path carries the "-tvos" suffix. */
    method AsTvOSProject() returns (r: Result<TestProject>)
      ensures r.Ok? <==> TvOSPath(path).Ok?
      ensures r.Ok? ==> fresh(r.value) && r.value.State() == CloneState(State()).(path := Some(TvOSPath(path).value))
      ensures r.Err? ==> r.error == TvOSPath(path).error
    {
      var clone := Clone();
      match TvOSPath(path)
      case Ok(p) =>
        clone.path := Some(p);
        r := Ok(clone);
      case Err(e) =>
        r := Err(e);
    }

    /** `AsWatchOSProject()`: a clone whose path carries the "-watchos" suffix
        once. */
    method AsWatchOSProject() returns (r: Result<TestProject>)
      ensures r.Ok? <==> WatchOSPath(path).Ok?
      ensures r.Ok? ==> fresh(r.value) && r.value.State() == CloneState(State()).(path := Some(WatchOSPath(path).value))
      ensures r.Err? ==> r.error == WatchOSPath(path).error
    {
      var clone := Clone();
      match WatchOSPath(path)
      case Ok(p) =>
        clone.path := Some(p);
        r := Ok(clone);
      case Err(e) =>
        r := Err(e);
    }

    /** `AsTodayExtensionProject()`: a clone whose path carries the "-today"
        suffix. */
    method AsTodayExtensionProject() returns (r: Result<TestProject>)
      ensures r.Ok? <==> TodayExtensionPath(path).Ok?
      ensures r.Ok? ==> fresh(r.value) && r.value.State() == CloneState(State()).(path := Some(TodayExtensionPath(path).value))
      ensures r.Err? ==> r.error == TodayExtensionPath(path).error
    {
      var clone := Clone();
      match TodayExtensionPath(path)
      case Ok(p) =>
        clone.path := Some(p);
        r := Ok(clone);
      case Err(e) =>
        r := Err(e);
    }

    /** The `Xml` getter: loads the project file on first use and returns the
        cached document afterwards. `load` reads and parses a file. */
    method Xml(load: string -> Result<ProjectXml>) returns (r: Result<ProjectXml>)
      modifies this`xml
      ensures r == LoadedDocument(old(xml), path, load)
      ensures xml == Some(CachedDocument(old(xml), path, load))
    {
      if xml.None? {
        xml := Some(EmptyDocument);
        var loaded := if path.None? then Err(ArgumentNull) else load(path.value);
        if loaded.Ok? {
          xml := Some(loaded.value);
        }
        r := loaded;
      } else {
        r := Ok(xml.value);
      }
    }

    /** `GetTodayExtension()`: null without extension references, an error
        for more than one, and otherwise a new plain project whose only field
        set is the path of the referenced project. */
    method GetTodayExtension(load: string -> Result<ProjectXml>, fullPath: string -> Result<string>)
      returns (r: Result<TestProject?>)
      modifies this`xml
      ensures xml == Some(CachedDocument(old(xml), path, load))
      ensures match TodayExtensionOf(LoadedDocument(old(xml), path, load), path, fullPath)
        case Err(e) => r == Err(e)
        case Ok(None) => r == Ok(null)
        case Ok(Some(p)) => r.Ok? && r.value != null && fresh(r.value) && r.value.State() == DefaultState(PlainProject).(path := Some(p))
    {
      var x := Xml(load);
      if x.Err? {
        return Err(x.error);
      }
      var refs := x.value.extensionProjectReferences;
      if |refs| == 0 {
        return Ok(null);
      }
      if |refs| != 1 {
        return Err(NotImplemented);
      }
      match ExtensionProjectPath(path, refs[0], fullPath)
      case Err(e) =>
        r := Err(e);
      case Ok(p) =>
        var t := new TestProject();
        t.path := Some(p);
        r := Ok(t);
    }
  }

  /** A clone keeps the runtime type but resets the iOS flags, the document,
      the solution path, the NUnit flag, the dependency and the project
      references; cloning a clone changes nothing more. */
  lemma CloneResetsFlags(s: ProjectState)
    ensures CloneState(s).kind.IOSProject? <==> s.kind.IOSProject?
    ensures CloneState(s).kind.IOSProject? ==> CloneState(s).kind.flags == DefaultIOSFlags
    ensures CloneState(s).xml.None? && CloneState(s).solutionPath.None? && !CloneState(s).isNUnitProject
    ensures CloneState(s).dependency.None? && CloneState(s).projectReferences.None?
    ensures CloneState(CloneState(s)) == CloneState(s)
  {
  }

  /** Whether the stem and extension of a path survive a suffix: they do
      unless the file name ends in '.' while its stem still holds a '.'. */
  predicate StableName(p: string) {
    Extension(p) != "" || '.' !in Stem(p)
  }

  /** The parts of a rewritten path: same directory, the new file name, and
      (for a stable name) the new stem and the old extension. */
  lemma {:induction false} SuffixedParts(p: string, d: string, insert: string)
    requires DirectoryName(p) == Some(d)
    requires '/' !in insert && '.' !in insert
    requires Stem(p) + insert + Extension(p) != ""
    ensures var q := Combine(d, Stem(p) + insert + Extension(p));
      && DirectoryName(q) == Some(d)
      && FileName(q) == Stem(p) + insert + Extension(p)
      && (StableName(p) ==> Stem(q) == Stem(p) + insert && Extension(q) == Extension(p))
  {
    var n := FileName(p);
    NameExtensionShape(n);
    DirectoryNameIsNormal(p);
    var name := Stem(p) + insert + Extension(p);
    CombineInDirectory(d, name);
    if StableName(p) {
      assert name == (Stem(p) + insert) + Extension(p);
      NameParts(Stem(p) + insert, Extension(p));
    }
  }

  /** AsTvOSProject keeps the directory and names the file stem + "-tvos" +
      extension; it fails exactly when the path is null, empty or the root. */
  lemma TvOSPathParts(path: Option<string>)
    ensures TvOSPath(path).Err? <==> path.None? || DirectoryName(path.value).None?
    ensures TvOSPath(path).Ok? ==>
      var p, q := path.value, TvOSPath(path).value;
      DirectoryName(q) == DirectoryName(p) && FileName(q) == Stem(p) + "-tvos" + Extension(p)
  {
    if TvOSPath(path).Ok? {
      SuffixedParts(path.value, DirectoryName(path.value).value, "-tvos");
    }
  }

  /** AsTodayExtensionProject keeps the directory and names the file stem +
      "-today" + extension. */
  lemma TodayExtensionPathParts(path: Option<string>)
    ensures TodayExtensionPath(path).Err? <==> path.None? || DirectoryName(path.value).None?
    ensures TodayExtensionPath(path).Ok? ==>
      var p, q := path.value, TodayExtensionPath(path).value;
      DirectoryName(q) == DirectoryName(p) && FileName(q) == Stem(p) + "-today" + Extension(p)
  {
    if TodayExtensionPath(path).Ok? {
      SuffixedParts(path.value, DirectoryName(path.value).value, "-today");
    }
  }

  /** AsWatchOSProject keeps the directory and adds "-watchos" to the stem
      only when the stem lacks it. */
  lemma WatchOSPathParts(path: Option<string>)
    ensures WatchOSPath(path).Err? <==> path.None? || DirectoryName(path.value).None?
    ensures WatchOSPath(path).Ok? ==>
      var p, q := path.value, WatchOSPath(path).value;
      && DirectoryName(q) == DirectoryName(p)
      && FileName(q) == Stem(p) + (if Contains(Stem(p), "-watchos") then "" else "-watchos") + Extension(p)
  {
    if WatchOSPath(path).Ok? {
      var p := path.value;
      var insert := if Contains(Stem(p), "-watchos") then "" else "-watchos";
      assert Stem(p) != "" || insert != "";
      SuffixedParts(p, DirectoryName(p).value, insert);
    }
  }

  /** The path AsWatchOSProject gives, in terms of the parts of the path. */
  lemma WatchOSPathIs(p: string, d: string, has: bool)
    requires DirectoryName(p) == Some(d)
    requires Contains(Stem(p), "-watchos") == has
    ensures WatchOSPath(Some(p)) == Ok(Combine(d, Stem(p) + (if has then "" else "-watchos") + Extension(p)))
  {
  }

  /** The parts of the path AsWatchOSProject gives, for a stable name. */
  lemma WatchOSRewrittenParts(p: string, d: string, insert: string, q: string)
    requires StableName(p)
    requires DirectoryName(p) == Some(d)
    requires '/' !in insert && '.' !in insert
    requires Stem(p) != "" || insert != ""
    requires q == Combine(d, Stem(p) + insert + Extension(p))
    ensures DirectoryName(q) == Some(d)
    ensures Stem(q) == Stem(p) + insert
    ensures Extension(q) == Extension(p)
  {
    SuffixedParts(p, d, insert);
  }

  /** The inserted text holds neither separator nor '.'. */
  lemma PlainSuffix(insert: string)
    requires insert == "" || insert == "-watchos"
    ensures '/' !in insert && '.' !in insert
  {
  }

  /** After the rewrite the stem always contains "-watchos". */
  lemma WatchOSStemMarked(stem: string, insert: string)
    requires insert == "" || insert == "-watchos"
    requires insert == "" ==> Contains(stem, "-watchos")
    ensures Contains(stem + insert, "-watchos")
  {
    if insert == "" {
      assert stem + insert == stem;
    } else {
      ContainsAt(stem + insert, "-watchos", |stem|);
    }
  }

  /** Applying AsWatchOSProject to its own result gives that result again,
      for every file name whose stem and extension survive the suffix. */
  lemma WatchOSPathIdempotent(p: string, q: string)
    requires StableName(p)
    requires WatchOSPath(Some(p)) == Ok(q)
    ensures WatchOSPath(Some(q)) == Ok(q)
  {
    var d := DirectoryName(p).value;
    var stem := Stem(p);
    var has := Contains(stem, "-watchos");
    var insert := if has then "" else "-watchos";
    assert stem != "" || insert != "";
    assert '/' !in insert && '.' !in insert by { PlainSuffix(insert); }
    WatchOSPathIs(p, d, has);
    WatchOSRewrittenParts(p, d, insert, q);
    WatchOSStemMarked(stem, insert);
    WatchOSPathIs(q, d, true);
    assert stem + insert + "" == stem + insert;
  }

  /** The exception to idempotence: "a.b." has stem "a.b" and an empty
      extension, so the first rewrite makes ".b-watchos" an extension and
      the second adds "-watchos" again. */
  lemma WatchOSPathNotIdempotent()
    ensures !StableName("a.b.")
    ensures WatchOSPath(Some("a.b.")) == Ok("a.b-watchos")
    ensures WatchOSPath(Some("a.b-watchos")) == Ok("a-watchos.b-watchos")
  {
    NamePartsOfDottedName();
    WatchOSPathOfDottedName();
    WatchOSPathOfRewrittenName();
  }

  lemma WatchOSPathOfDottedName()
    ensures WatchOSPath(Some("a.b.")) == Ok("a.b-watchos")
  {
    assert "a.b" + "-watchos" + "" == "a.b-watchos";
    NamePartsOfDottedName();
    ShorterNotContains("a.b", "-watchos");
    WatchOSPathIs("a.b.", "", false);
  }

  lemma WatchOSPathOfRewrittenName()
    ensures WatchOSPath(Some("a.b-watchos")) == Ok("a-watchos.b-watchos")
  {
    var n := "a-watchos.b-watchos";
    assert "a" + "-watchos" + ".b-watchos" == n;
    assert Combine("", n) == n;
    WatchOSPathOfRewrittenNameParts("a.b-watchos");
  }

  lemma WatchOSPathOfRewrittenNameParts(q: string)
    requires q == "a.b-watchos"
    ensures WatchOSPath(Some(q)) == Ok(Combine("", "a" + "-watchos" + ".b-watchos"))
  {
    NamePartsOfRewrittenName();
    ShorterNotContains("a", "-watchos");
    WatchOSPathIs(q, "", false);
  }

  lemma NamePartsOfDottedName()
    ensures DirectoryName("a.b.") == Some("")
    ensures Stem("a.b.") == "a.b" && Extension("a.b.") == ""
  {
    LastIndexOfIs("a.b.", '/', -1);
    assert FileName("a.b.") == "a.b.";
    LastIndexOfIs("a.b.", '.', 3);
  }

  lemma NamePartsOfRewrittenName()
    ensures DirectoryName("a.b-watchos") == Some("")
    ensures Stem("a.b-watchos") == "a" && Extension("a.b-watchos") == ".b-watchos"
  {
    LastIndexOfIs("a.b-watchos", '/', -1);
    assert FileName("a.b-watchos") == "a.b-watchos";
    LastIndexOfIs("a.b-watchos", '.', 1);
  }

  /** The getter loads at most once: whatever the first call returned, a
      second call returns the cached document without calling `load`, and
      after a failed load that document has no extension references, so
      GetTodayExtension then returns null. */
  lemma XmlLoadedOnce(cached: Option<ProjectXml>, path: Option<string>, load: string -> Result<ProjectXml>, fullPath: string -> Result<string>)
    ensures var after := Some(CachedDocument(cached, path, load));
      && LoadedDocument(after, path, load) == Ok(after.value)
      && (LoadedDocument(cached, path, load).Ok? ==> LoadedDocument(after, path, load) == LoadedDocument(cached, path, load))
      && (LoadedDocument(cached, path, load).Err? ==> TodayExtensionOf(LoadedDocument(after, path, load), path, fullPath) == Ok(None))
  {
  }

  /** A single reference that is a bare file name (no separator of either
      kind) names a project in the same directory as this one, when
      `fullPath` leaves the combined path as it is. */
  lemma TodayExtensionInSameDirectory(x: ProjectXml, path: string)
    requires |x.extensionProjectReferences| == 1
    requires var n := x.extensionProjectReferences[0]; n != "" && '/' !in n && '\\' !in n
    requires DirectoryName(path).Some?
    ensures var r := TodayExtensionOf(Ok(x), Some(path), s => Ok(s));
      && r.Ok? && r.value.Some?
      && DirectoryName(r.value.value) == DirectoryName(path)
      && FileName(r.value.value) == x.extensionProjectReferences[0]
  {
    var n := x.extensionProjectReferences[0];
    var d := DirectoryName(path).value;
    assert ReplaceChar(n, '\\', '/') == n;
    DirectoryNameIsNormal(path);
    CombineInDirectory(d, n);
  }
}
