/**
 * Packing a seed: the entry-point code is written into a fresh temporary
 * directory, the packer (`python -m upseto.packegg`) is run with a command
 * line and a `PYTHONPATH` built from the creator's options, and the egg it
 * writes, with the dependency manifest when dependencies were asked for,
 * becomes the seed entry. The temporary directory is removed on every way
 * out.
 *
 * The packer, `os.path.abspath` and `os.path.getmtime` are parameters: the
 * packer is a function from the command and the environment to the egg
 * and dependency-file contents it writes, or to the output of its failure.
 * The temporary names `mkdtemp` and `NamedTemporaryFile` choose are
 * parameters too.
 */
module Seedcreator {
  import opened Py
  import opened Strs
  import opened Values
  import opened SeedEntry

  const EntryPointName := "seedentrypoint.py"

  /** The characters stripped from each line of the dependency file. */
  const DepsStripChars: set<char> := {' ', '\t', '\n', '\r', '\\'}

  /** The keyword parameters of `SeedCreator.__init__` besides `code` and `generateDependencies`. */
  const Parameters: set<string> := {"takeSitePackages", "excludePackages", "joinPythonNamespaces", "callableRootPath"}

  /** A constructed `SeedCreator`: its fields, as given. */
  datatype Options = Options(
    code: string,
    generateDependencies: bool,
    takeSitePackages: PyValue,
    excludePackages: PyValue,
    joinPythonNamespaces: PyValue,
    callableRootPath: PyValue)

  /**
   * `SeedCreator(code, generateDependencies=gen, **kwargs)`: a keyword that
   * is not a parameter is a TypeError; a missing one takes its default.
   */
  function Construct(code: string, gen: bool, kwargs: Kwargs): (r: Result<Options>)
    ensures r.Ok? <==> kwargs.Keys <= Parameters
    ensures r.Raise? ==> r.exc.TypeError?
    ensures r.Ok? ==> r.value.code == code && r.value.generateDependencies == gen
    ensures r.Ok? ==> r.value.takeSitePackages == (if "takeSitePackages" in kwargs then kwargs["takeSitePackages"] else PyBool(false))
    ensures r.Ok? ==> r.value.excludePackages == (if "excludePackages" in kwargs then kwargs["excludePackages"] else PyNone)
    ensures r.Ok? ==> r.value.joinPythonNamespaces == (if "joinPythonNamespaces" in kwargs then kwargs["joinPythonNamespaces"] else PyBool(true))
    ensures r.Ok? ==> r.value.callableRootPath == (if "callableRootPath" in kwargs then kwargs["callableRootPath"] else PyNone)
  {
    if !(kwargs.Keys <= Parameters) then Raise(TypeError("__init__() got an unexpected keyword argument"))
    else Ok(Options(code, gen,
                    Get(kwargs, "takeSitePackages", PyBool(false)),
                    Get(kwargs, "excludePackages", PyNone),
                    Get(kwargs, "joinPythonNamespaces", PyBool(true)),
                    Get(kwargs, "callableRootPath", PyNone)))
  }

  // ---------------------------------------------------------------- dependency manifest

  /**
   * `_shouldManifestDependency`: every dependency but the entry point
   * itself, that is, a path whose last component is not the entry point's
   * name (`BasenameTest` shows the two readings agree).
   */
  predicate ShouldManifest(dep: string) {
    dep != EntryPointName && !EndsWith(dep, "/" + EntryPointName)
  }

  /** The entry point test is `os.path.basename(dep) != ENTRYPOINT_NAME`. */
  lemma BasenameTest(dep: string)
    ensures ShouldManifest(dep) <==> Basename(dep) != EntryPointName
  {
    if Basename(dep) == EntryPointName {
      BasenameIsEntryPoint(dep);
    }
    if !ShouldManifest(dep) {
      EntryPointBasename(dep);
    }
  }

  lemma BasenameIsEntryPoint(dep: string)
    requires Basename(dep) == EntryPointName
    ensures !ShouldManifest(dep)
  {
    var b := Basename(dep);
    if dep != b {
      assert dep[|dep| - |b| - 1] == '/';
      assert dep[|dep| - |b|..] == b;
      assert dep[|dep| - |b| - 1..] == "/" + b;
    }
  }

  lemma EntryPointBasename(dep: string)
    requires !ShouldManifest(dep)
    ensures Basename(dep) == EntryPointName
  {
    var name := EntryPointName;
    assert '/' !in name;
    if dep != name {
      var k := |dep| - |name| - 1;
      assert dep[k..] == "/" + name;
      assert dep[k] == '/';
      assert dep[k + 1..] == name;
      assert LastIndexOf(dep, '/') == Some(k);
    }
  }

  /** A stripped dependency line that names a dependency to record. */
  predicate Listed(dep: string) {
    dep != "" && ShouldManifest(dep)
  }

  /** The stripped lines of the dependency file after its first line, which names the egg. */
  function DepPaths(contents: string): (r: seq<string>)
    ensures var lines := ReadLines(contents);
      |r| == (if |lines| == 0 then 0 else |lines| - 1)
      && forall i | 0 <= i < |r| :: r[i] == Strip(lines[i + 1], DepsStripChars)
  {
    var lines := ReadLines(contents);
    if |lines| == 0 then [] else StripAll(lines[1..])
  }

  function StripAll(lines: seq<string>): (r: seq<string>)
    ensures |r| == |lines| && forall i | 0 <= i < |lines| :: r[i] == Strip(lines[i], DepsStripChars)
  {
    if lines == [] then [] else [Strip(lines[0], DepsStripChars)] + StripAll(lines[1..])
  }

  /**
   * The manifest that the listed paths `paths`, taken in order, produce:
   * each path to record maps its absolute form to that file's mtime; the
   * first such file that does not exist raises OSError.
   */
  function ManifestOf(paths: seq<string>, abspath: string -> string, mtimeOf: string -> Option<MTime>): Result<map<string, MTime>>
  {
    if paths == [] then Ok(map[])
    else
      var prev := ManifestOf(paths[..|paths| - 1], abspath, mtimeOf);
      var p := paths[|paths| - 1];
      if prev.Raise? || !Listed(p) then prev
      else
        var a := abspath(p);
        match mtimeOf(a)
        case None => Raise(OSError(a))
        case Some(t) => Ok(prev.value[a := t])
  }

  /** Every key of a manifest is the absolute form of a listed path, and maps to that file's mtime. */
  lemma {:induction false} ManifestKeys(paths: seq<string>, abspath: string -> string, mtimeOf: string -> Option<MTime>)
    requires ManifestOf(paths, abspath, mtimeOf).Ok?
    ensures var m := ManifestOf(paths, abspath, mtimeOf).value;
      forall k | k in m :: mtimeOf(k) == Some(m[k]) && exists i | 0 <= i < |paths| :: Listed(paths[i]) && abspath(paths[i]) == k
  {
    if paths != [] {
      var init := paths[..|paths| - 1];
      ManifestKeys(init, abspath, mtimeOf);
      var m := ManifestOf(paths, abspath, mtimeOf).value;
      forall k | k in m
        ensures mtimeOf(k) == Some(m[k]) && exists i | 0 <= i < |paths| :: Listed(paths[i]) && abspath(paths[i]) == k
      {
        if k in ManifestOf(init, abspath, mtimeOf).value {
          var i :| 0 <= i < |init| && Listed(init[i]) && abspath(init[i]) == k;
          assert paths[i] == init[i];
        }
      }
    }
  }

  /** Every listed path is in the manifest, under its absolute form. */
  lemma ManifestComplete(paths: seq<string>, abspath: string -> string, mtimeOf: string -> Option<MTime>)
    requires ManifestOf(paths, abspath, mtimeOf).Ok?
    ensures forall i | 0 <= i < |paths| && Listed(paths[i]) :: abspath(paths[i]) in ManifestOf(paths, abspath, mtimeOf).value
  {
    forall i | 0 <= i < |paths| && Listed(paths[i])
      ensures abspath(paths[i]) in ManifestOf(paths, abspath, mtimeOf).value
    {
      ManifestHas(paths, i, abspath, mtimeOf);
    }
  }

  lemma {:induction false} ManifestHas(paths: seq<string>, i: nat, abspath: string -> string, mtimeOf: string -> Option<MTime>)
    requires ManifestOf(paths, abspath, mtimeOf).Ok?
    requires i < |paths| && Listed(paths[i])
    ensures abspath(paths[i]) in ManifestOf(paths, abspath, mtimeOf).value
    decreases |paths|
  {
    var init := paths[..|paths| - 1];
    if i < |init| {
      assert init[i] == paths[i];
      ManifestHas(init, i, abspath, mtimeOf);
    }
  }

  /** The manifest fails exactly when a listed path's file has no mtime. */
  lemma {:induction false} ManifestFails(paths: seq<string>, abspath: string -> string, mtimeOf: string -> Option<MTime>)
    ensures ManifestOf(paths, abspath, mtimeOf).Raise? <==>
      exists i | 0 <= i < |paths| :: Listed(paths[i]) && mtimeOf(abspath(paths[i])).None?
    ensures ManifestOf(paths, abspath, mtimeOf).Raise? ==> ManifestOf(paths, abspath, mtimeOf).exc.OSError?
  {
    if paths != [] {
      var init := paths[..|paths| - 1];
      ManifestFails(init, abspath, mtimeOf);
      if exists i | 0 <= i < |init| :: Listed(init[i]) && mtimeOf(abspath(init[i])).None? {
        var i :| 0 <= i < |init| && Listed(init[i]) && mtimeOf(abspath(init[i])).None?;
        assert paths[i] == init[i];
      }
      if exists i | 0 <= i < |paths| :: Listed(paths[i]) && mtimeOf(abspath(paths[i])).None? {
        var i :| 0 <= i < |paths| && Listed(paths[i]) && mtimeOf(abspath(paths[i])).None?;
        if i < |init| {
          assert init[i] == paths[i];
        }
      }
    }
  }

  /**
   * When `abspath` keeps the last path component, as it does for paths
   * without a trailing '/', '.' or '..', the entry point never appears in
   * a manifest.
   */
  lemma EntryPointNeverManifested(paths: seq<string>, abspath: string -> string, mtimeOf: string -> Option<MTime>)
    requires ManifestOf(paths, abspath, mtimeOf).Ok?
    requires forall p :: Basename(abspath(p)) == Basename(p)
    ensures forall k | k in ManifestOf(paths, abspath, mtimeOf).value :: Basename(k) != EntryPointName
  {
    ManifestKeys(paths, abspath, mtimeOf);
    forall k | k in ManifestOf(paths, abspath, mtimeOf).value
      ensures Basename(k) != EntryPointName
    {
      var i :| 0 <= i < |paths| && Listed(paths[i]) && abspath(paths[i]) == k;
      BasenameTest(paths[i]);
    }
  }

  /** The first line is the egg name and never reaches the manifest, whatever it says. */
  lemma FirstLineDiscarded(first: string, rest: string)
    requires '\n' !in first
    ensures DepPaths(first + "\n" + rest) == StripAll(ReadLines(rest))
  {
    var t := first + "\n" + rest;
    assert t[..|first|] == first && t[|first|] == '\n';
    IndexOfAt(t, '\n', |first|);
    assert t[|first| + 1..] == rest;
    assert ReadLines(t) == [t[..|first| + 1]] + ReadLines(rest);
    assert ReadLines(t)[1..] == ReadLines(rest);
  }

  /**
   * `_parseDepsFile`: the manifest of a dependency file holding `contents`,
   * built line by line.
   */
  method ParseDepsFile(contents: string, abspath: string -> string, mtimeOf: string -> Option<MTime>)
    returns (r: Result<map<string, MTime>>)
    ensures r == ManifestOf(DepPaths(contents), abspath, mtimeOf)
  {
    var lines := ReadLines(contents);
    var deps := if |lines| == 0 then [] else lines[1..];
    r := ManifestLines(deps, abspath, mtimeOf);
  }

  /** The loop of `_parseDepsFile` over the lines after the first. */
  method ManifestLines(deps: seq<string>, abspath: string -> string, mtimeOf: string -> Option<MTime>)
    returns (r: Result<map<string, MTime>>)
    ensures r == ManifestOf(StripAll(deps), abspath, mtimeOf)
  {
    ghost var paths := StripAll(deps);
    var manifest := map[];
    var i := 0;
    while i < |deps|
      invariant 0 <= i <= |deps|
      invariant ManifestOf(paths[..i], abspath, mtimeOf) == Ok(manifest)
    {
      var depPath := Strip(deps[i], DepsStripChars);
      ManifestStep(paths, i, manifest, abspath, mtimeOf);
      if !Listed(depPath) {
        i := i + 1;
        continue;
      }
      var depAbsPath := abspath(depPath);
      var mTime := mtimeOf(depAbsPath);
      if mTime.None? {
        return Raise(OSError(depAbsPath));
      }
      manifest := manifest[depAbsPath := mTime.value];
      i := i + 1;
    }
    assert paths[..i] == paths;
    return Ok(manifest);
  }

  /** One more line of the loop of `_parseDepsFile`: skipped, recorded, or the OSError that ends it. */
  lemma ManifestStep(paths: seq<string>, i: nat, manifest: map<string, MTime>, abspath: string -> string, mtimeOf: string -> Option<MTime>)
    requires i < |paths| && ManifestOf(paths[..i], abspath, mtimeOf) == Ok(manifest)
    ensures !Listed(paths[i]) ==> ManifestOf(paths[..i + 1], abspath, mtimeOf) == Ok(manifest)
    ensures Listed(paths[i]) && mtimeOf(abspath(paths[i])).None? ==>
      ManifestOf(paths, abspath, mtimeOf) == Raise(OSError(abspath(paths[i])))
    ensures Listed(paths[i]) && mtimeOf(abspath(paths[i])).Some? ==>
      ManifestOf(paths[..i + 1], abspath, mtimeOf) == Ok(manifest[abspath(paths[i]) := mtimeOf(abspath(paths[i])).value])
  {
    ManifestSnoc(paths, i, abspath, mtimeOf);
    if Listed(paths[i]) && mtimeOf(abspath(paths[i])).None? {
      ManifestStaysRaised(paths, i + 1, abspath, mtimeOf);
    }
  }

  /** The manifest of one more path. */
  lemma ManifestSnoc(paths: seq<string>, i: nat, abspath: string -> string, mtimeOf: string -> Option<MTime>)
    requires i < |paths|
    ensures var prev := ManifestOf(paths[..i], abspath, mtimeOf);
      ManifestOf(paths[..i + 1], abspath, mtimeOf)
        == if prev.Raise? || !Listed(paths[i]) then prev
           else if mtimeOf(abspath(paths[i])).None? then Raise(OSError(abspath(paths[i])))
           else Ok(prev.value[abspath(paths[i]) := mtimeOf(abspath(paths[i])).value])
  {
    assert paths[..i + 1][..i] == paths[..i];
  }

  /** Once a prefix of the paths raises, the whole does, with the same exception. */
  lemma {:induction false} ManifestStaysRaised(paths: seq<string>, n: nat, abspath: string -> string, mtimeOf: string -> Option<MTime>)
    requires n <= |paths| && ManifestOf(paths[..n], abspath, mtimeOf).Raise?
    ensures ManifestOf(paths, abspath, mtimeOf) == ManifestOf(paths[..n], abspath, mtimeOf)
    decreases |paths| - n
  {
    if n < |paths| {
      assert paths[..n + 1][..n] == paths[..n];
      ManifestStaysRaised(paths, n + 1, abspath, mtimeOf);
    } else {
      assert paths[..n] == paths;
    }
  }

  /** The entry `_generateManifest` makes: the egg, and the manifest when there is a dependency file. */
  function ManifestEntry(egg: string, deps: Option<string>, abspath: string -> string, mtimeOf: string -> Option<MTime>): (r: Result<Entry>)
    ensures r.Ok? ==> r.value.code == egg && (r.value.deps.None? <==> deps.None?)
    ensures deps.None? ==> r.Ok?
  {
    if deps.None? then Ok(Entry(egg, None))
    else
      var m := ManifestOf(DepPaths(deps.value), abspath, mtimeOf);
      if m.Raise? then Raise(m.exc) else Ok(Entry(egg, Some(m.value)))
  }

  /** `_generateManifest(eggFile, depsFile)`. */
  method GenerateManifest(egg: string, deps: Option<string>, abspath: string -> string, mtimeOf: string -> Option<MTime>)
    returns (r: Result<Entry>)
    ensures r == ManifestEntry(egg, deps, abspath, mtimeOf)
  {
    if deps.None? {
      return Ok(Entry(egg, None));
    }
    var m := ParseDepsFile(deps.value, abspath, mtimeOf);
    if m.Raise? {
      return Raise(m.exc);
    }
    return Ok(Entry(egg, Some(m.value)));
  }

  // ---------------------------------------------------------------- command line

  /** `os.path.join(codeDir, ENTRYPOINT_NAME)`. */
  function CodeFile(codeDir: string): (r: string)
    ensures EndsWith(r, EntryPointName) && StartsWith(r, codeDir)
  {
    var sep := if codeDir == "" || EndsWith(codeDir, "/") then "" else "/";
    ConcatEnds(codeDir + sep, EntryPointName);
    assert (codeDir + sep)[..|codeDir|] == codeDir;
    codeDir + sep + EntryPointName
  }

  /** The one-character strings a text iterates to. */
  function Characters(s: string): (r: seq<string>)
    ensures |r| == |s| && forall i | 0 <= i < |s| :: r[i] == [s[i]]
  {
    if s == [] then [] else [[s[0]]] + Characters(s[1..])
  }

  /**
   * The packages `[package for package in excludePackages]` lists, or None
   * when it is None: a list gives its items, a text its characters, and any
   * other value is not iterable.
   */
  function ExcludeList(v: PyValue): (r: Result<Option<seq<string>>>)
    ensures r.Ok? <==> v.PyNone? || v.PyList? || v.PyStr?
    ensures r.Ok? ==> (r.value.None? <==> v.PyNone?)
    ensures v.PyList? ==> r == Ok(Some(v.items))
    ensures v.PyStr? ==>
      r.Ok? && r.value.Some? && |r.value.value| == |v.s| && forall i | 0 <= i < |v.s| :: r.value.value[i] == [v.s[i]]
    ensures r.Raise? ==> r.exc == TypeError("object is not iterable")
  {
    match v
    case PyNone => Ok(None)
    case PyList(xs) => Ok(Some(xs))
    case PyStr(s) => Ok(Some(Characters(s)))
    case _ => Raise(TypeError("object is not iterable"))
  }

  /** `--excludeModule` and the packages, only when `excludePackages` is not None. */
  function ExcludeArgs(v: PyValue): (r: Result<seq<string>>)
    ensures r.Ok? <==> ExcludeList(v).Ok?
    ensures r.Ok? && ExcludeList(v).value.None? ==> r.value == []
    ensures r.Ok? && ExcludeList(v).value.Some? ==> r.value == ["--excludeModule"] + ExcludeList(v).value.value
  {
    var l := ExcludeList(v);
    if l.Raise? then Raise(l.exc)
    else if l.value.None? then Ok([])
    else Ok(["--excludeModule"] + l.value.value)
  }

  function CommandPrefix(codeFile: string, eggName: string): seq<string> {
    ["python", "-m", "upseto.packegg", "--entryPoint", codeFile, "--output", eggName]
  }

  /**
   * The packer's command line for `o`, packing `codeFile` into `eggName`,
   * dependencies into `depsName`: the fixed prefix, the namespace flag right
   * after it exactly when namespaces are joined, and the deps file last when
   * dependencies are generated. Only a non-iterable exclusion list raises.
   */
  function Command(o: Options, codeFile: string, eggName: string, depsName: string): (r: Result<seq<string>>)
    ensures r.Ok? <==> ExcludeList(o.excludePackages).Ok?
    ensures r.Raise? ==> r.exc == ExcludeList(o.excludePackages).exc
    ensures r.Ok? ==> |r.value| >= 7 && r.value[..7] == CommandPrefix(codeFile, eggName)
    ensures r.Ok? ==> (Truthy(o.joinPythonNamespaces) <==> |r.value| > 7 && r.value[7] == "--joinPythonNamespaces")
    ensures r.Ok? && o.generateDependencies ==> r.value[|r.value| - 2..] == ["--createDeps", depsName]
  {
    var exclude := ExcludeArgs(o.excludePackages);
    if exclude.Raise? then Raise(exclude.exc)
    else Ok(CommandPrefix(codeFile, eggName)
            + (if Truthy(o.joinPythonNamespaces) then ["--joinPythonNamespaces"] else [])
            + (if Truthy(o.takeSitePackages) then ["--takeSitePackages"] else [])
            + exclude.value
            + (if o.generateDependencies then ["--createDeps", depsName] else []))
  }

  /** What a packer reads from its command line. */
  datatype Parsed = Parsed(entryPoint: string, output: string, join: bool, take: bool,
                           exclude: Option<seq<string>>, createDeps: Option<string>)

  /** The index of the first `t` in `xs`, or `|xs|`. */
  function TokenIndex(xs: seq<string>, t: string): (r: nat)
    ensures r <= |xs| && t !in xs[..r]
    ensures r < |xs| ==> xs[r] == t
  {
    if xs == [] then 0
    else if xs[0] == t then 0
    else
      var k := TokenIndex(xs[1..], t);
      assert xs[..k + 1] == [xs[0]] + xs[1..][..k];
      k + 1
  }

  /** A list of tokens without `t`, followed by nothing or by `t`: `t` is found right after it. */
  lemma TokenIndexAfter(xs: seq<string>, t: string, tail: seq<string>)
    requires t !in xs && (tail == [] || tail[0] == t)
    ensures TokenIndex(xs + tail, t) == |xs|
  {
    var k := TokenIndex(xs + tail, t);
    assert k <= |xs| by {
      if tail != [] {
        assert (xs + tail)[|xs|] == t;
      }
    }
  }

  /** Read the options back from a command line, the way the flags are laid out. */
  function ParseCommand(cmd: seq<string>): Option<Parsed> {
    if |cmd| < 7 || cmd[0] != "python" || cmd[1] != "-m" || cmd[2] != "upseto.packegg" || cmd[3] != "--entryPoint"
       || cmd[5] != "--output" then None
    else
      match ParseFlags(cmd[7..])
      case None => None
      case Some(f) => Some(Parsed(cmd[4], cmd[6], f.join, f.take, f.exclude, f.createDeps))
  }

  datatype Flags = Flags(join: bool, take: bool, exclude: Option<seq<string>>, createDeps: Option<string>)

  /** The flags after the fixed prefix, in their fixed order. */
  function ParseFlags(r0: seq<string>): Option<Flags> {
    var join := r0 != [] && r0[0] == "--joinPythonNamespaces";
    ParseTake(join, if join then r0[1..] else r0)
  }

  function ParseTake(join: bool, r1: seq<string>): Option<Flags> {
    var take := r1 != [] && r1[0] == "--takeSitePackages";
    ParseTail(join, take, if take then r1[1..] else r1)
  }

  function ParseTail(join: bool, take: bool, r2: seq<string>): Option<Flags> {
    match ParseExclude(r2)
    case (exclude, r3) =>
      if r3 == [] then Some(Flags(join, take, exclude, None))
      else if |r3| == 2 && r3[0] == "--createDeps" then Some(Flags(join, take, exclude, Some(r3[1])))
      else None
  }

  /** `--excludeModule` and the packages up to `--createDeps`, and what follows. */
  function ParseExclude(r2: seq<string>): (Option<seq<string>>, seq<string>) {
    if r2 != [] && r2[0] == "--excludeModule" then
      var k := TokenIndex(r2[1..], "--createDeps");
      (Some(r2[1..][..k]), r2[1..][k..])
    else (None, r2)
  }

  lemma Slices<T>(a: seq<T>, b: seq<T>)
    ensures (a + b)[..|a|] == a && (a + b)[|a|..] == b
  {
  }

  lemma ConcatAssoc4<T>(a: seq<T>, b: seq<T>, c: seq<T>, d: seq<T>, e: seq<T>)
    ensures a + b + c + d + e == a + (b + c + d + e)
  {
  }

  lemma ParseExcludeRoundTrip(l: Option<seq<string>>, d: seq<string>)
    requires l.Some? ==> "--createDeps" !in l.value
    requires d == [] || d[0] == "--createDeps"
    ensures ParseExclude((if l.Some? then ["--excludeModule"] + l.value else []) + d) == (l, d)
  {
    if l.Some? {
      var r2 := ["--excludeModule"] + l.value + d;
      assert r2 == ["--excludeModule"] + (l.value + d);
      Slices(["--excludeModule"], l.value + d);
      TokenIndexAfter(l.value, "--createDeps", d);
      Slices(l.value, d);
    } else {
      assert [] + d == d;
    }
  }

  lemma ParseFlagsRoundTrip(join: bool, take: bool, l: Option<seq<string>>, deps: Option<string>)
    requires l.Some? ==> "--createDeps" !in l.value
    ensures ParseFlags((if join then ["--joinPythonNamespaces"] else [])
                       + (if take then ["--takeSitePackages"] else [])
                       + (if l.Some? then ["--excludeModule"] + l.value else [])
                       + (if deps.Some? then ["--createDeps", deps.value] else []))
      == Some(Flags(join, take, l, deps))
  {
    var j: seq<string> := if join then ["--joinPythonNamespaces"] else [];
    var t: seq<string> := if take then ["--takeSitePackages"] else [];
    var e: seq<string> := if l.Some? then ["--excludeModule"] + l.value else [];
    var d: seq<string> := if deps.Some? then ["--createDeps", deps.value] else [];
    ConcatAssoc3(j, t, e, d);
    TailRoundTrip(join, take, l, deps);
    TakeRoundTrip(join, take, e + d);
    JoinRoundTrip(join, t + (e + d));
  }

  /** The packages and the dependency file read back after the two flags. */
  lemma TailRoundTrip(join: bool, take: bool, l: Option<seq<string>>, deps: Option<string>)
    requires l.Some? ==> "--createDeps" !in l.value
    ensures var e: seq<string> := if l.Some? then ["--excludeModule"] + l.value else [];
      var d: seq<string> := if deps.Some? then ["--createDeps", deps.value] else [];
      && ParseTail(join, take, e + d) == Some(Flags(join, take, l, deps))
      && (e + d == [] || (e + d)[0] in {"--excludeModule", "--createDeps"})
  {
    var e: seq<string> := if l.Some? then ["--excludeModule"] + l.value else [];
    var d: seq<string> := if deps.Some? then ["--createDeps", deps.value] else [];
    ParseExcludeRoundTrip(l, d);
  }

  /** `--takeSitePackages`, when present, is read before what follows it. */
  lemma TakeRoundTrip(join: bool, take: bool, rest: seq<string>)
    requires rest == [] || rest[0] in {"--excludeModule", "--createDeps"}
    ensures ParseTake(join, (if take then ["--takeSitePackages"] else []) + rest) == ParseTail(join, take, rest)
    ensures var r := (if take then ["--takeSitePackages"] else []) + rest;
      r == [] || r[0] in {"--takeSitePackages", "--excludeModule", "--createDeps"}
  {
    FlagsDistinct();
    Optional(take, "--takeSitePackages", rest);
  }

  /** `--joinPythonNamespaces`, when present, is read before what follows it. */
  lemma JoinRoundTrip(join: bool, rest: seq<string>)
    requires rest == [] || rest[0] in {"--takeSitePackages", "--excludeModule", "--createDeps"}
    ensures ParseFlags((if join then ["--joinPythonNamespaces"] else []) + rest) == ParseTake(join, rest)
  {
    FlagsDistinct();
    Optional(join, "--joinPythonNamespaces", rest);
  }

  /** The four flags are told apart by their lengths. */
  lemma FlagsDistinct()
    ensures "--joinPythonNamespaces" != "--takeSitePackages" && "--joinPythonNamespaces" != "--excludeModule"
    ensures "--joinPythonNamespaces" != "--createDeps" && "--takeSitePackages" != "--excludeModule"
    ensures "--takeSitePackages" != "--createDeps" && "--excludeModule" != "--createDeps"
  {
    assert |"--joinPythonNamespaces"| == 22 && |"--takeSitePackages"| == 18;
    assert |"--excludeModule"| == 15 && |"--createDeps"| == 12;
  }

  lemma ConcatAssoc3<T>(a: seq<T>, b: seq<T>, c: seq<T>, d: seq<T>)
    ensures a + b + c + d == a + (b + (c + d))
  {
  }

  /** An optional flag in front of `rest`: present, it comes first and is followed by `rest`. */
  lemma Optional<T>(present: bool, flag: T, rest: seq<T>)
    ensures var s := (if present then [flag] else []) + rest;
      (present ==> s != [] && s[0] == flag && s[1..] == rest) && (!present ==> s == rest)
  {
  }

  /**
   * The command line carries every option: read back, it gives the entry
   * point, the egg, each flag, the excluded packages (None when
   * `excludePackages` is None) and the dependency file only when
   * dependencies are generated. A package may not itself be spelled
   * `--createDeps`.
   */
  lemma CommandRoundTrip(o: Options, codeFile: string, eggName: string, depsName: string)
    requires ExcludeList(o.excludePackages).Ok?
    requires ExcludeList(o.excludePackages).value.Some? ==> "--createDeps" !in ExcludeList(o.excludePackages).value.value
    ensures Command(o, codeFile, eggName, depsName).Ok?
    ensures ParseCommand(Command(o, codeFile, eggName, depsName).value)
      == Some(Parsed(codeFile, eggName, Truthy(o.joinPythonNamespaces), Truthy(o.takeSitePackages),
                     ExcludeList(o.excludePackages).value, if o.generateDependencies then Some(depsName) else None))
  {
    var l := ExcludeList(o.excludePackages).value;
    var deps := if o.generateDependencies then Some(depsName) else None;
    var j: seq<string> := if Truthy(o.joinPythonNamespaces) then ["--joinPythonNamespaces"] else [];
    var t: seq<string> := if Truthy(o.takeSitePackages) then ["--takeSitePackages"] else [];
    var e: seq<string> := if l.Some? then ["--excludeModule"] + l.value else [];
    var d: seq<string> := if deps.Some? then ["--createDeps", deps.value] else [];
    var prefix := CommandPrefix(codeFile, eggName);
    assert Command(o, codeFile, eggName, depsName).value == prefix + j + t + e + d;
    ConcatAssoc4(prefix, j, t, e, d);
    ConcatAssoc3(j, t, e, d);
    ParseFlagsRoundTrip(Truthy(o.joinPythonNamespaces), Truthy(o.takeSitePackages), l, deps);
    PrefixRoundTrip(codeFile, eggName, j + t + e + d);
  }

  /** Behind the fixed prefix, the entry point and output are read back and the rest goes to the flags. */
  lemma PrefixRoundTrip(codeFile: string, eggName: string, rest: seq<string>)
    requires ParseFlags(rest).Some?
    ensures var f := ParseFlags(rest).value;
      ParseCommand(CommandPrefix(codeFile, eggName) + rest)
      == Some(Parsed(codeFile, eggName, f.join, f.take, f.exclude, f.createDeps))
  {
    var prefix := CommandPrefix(codeFile, eggName);
    Slices(prefix, rest);
    PrefixHead(prefix, rest);
  }

  lemma PrefixHead<T>(a: seq<T>, b: seq<T>)
    ensures forall i | 0 <= i < |a| :: (a + b)[i] == a[i]
  {
  }

  // ---------------------------------------------------------------- environment

  /**
   * The packer's `PYTHONPATH`: the code directory, then the inherited
   * `PYTHONPATH`, then the callable's root when there is one. An
   * environment without `PYTHONPATH` is a KeyError.
   */
  function PythonPath(codeDir: string, env: map<string, string>, callableRootPath: PyValue): (r: Result<string>)
    ensures r.Ok? <==> "PYTHONPATH" in env
    ensures r.Raise? ==> r.exc == KeyError("PYTHONPATH")
  {
    if "PYTHONPATH" !in env then Raise(KeyError("PYTHONPATH"))
    else Ok(codeDir + ":" + env["PYTHONPATH"] + (if callableRootPath != PyNone then ":" + Str(callableRootPath) else ""))
  }

  /**
   * Split at ':', the search path is the code directory, the entries of the
   * inherited path, and the callable root last when given.
   */
  lemma PythonPathEntries(codeDir: string, env: map<string, string>, callableRootPath: PyValue)
    requires "PYTHONPATH" in env && ':' !in codeDir
    requires callableRootPath != PyNone ==> ':' !in Str(callableRootPath)
    ensures Split(PythonPath(codeDir, env, callableRootPath).value, ':')
      == [codeDir] + Split(env["PYTHONPATH"], ':') + (if callableRootPath != PyNone then [Str(callableRootPath)] else [])
  {
    var inherited := env["PYTHONPATH"];
    assert IndexOf(codeDir, ':').None?;
    if callableRootPath == PyNone {
      assert PythonPath(codeDir, env, callableRootPath).value == codeDir + [':'] + inherited;
      SplitConcat(codeDir, inherited, ':');
    } else {
      var root := Str(callableRootPath);
      assert PythonPath(codeDir, env, callableRootPath).value == codeDir + [':'] + (inherited + [':'] + root);
      ColonEntries(codeDir, inherited, root);
    }
  }

  lemma ColonEntries(codeDir: string, inherited: string, root: string)
    requires ':' !in codeDir && ':' !in root
    ensures Split(codeDir + [':'] + (inherited + [':'] + root), ':') == [codeDir] + Split(inherited, ':') + [root]
  {
    assert IndexOf(codeDir, ':').None?;
    assert IndexOf(root, ':').None?;
    SplitConcat(codeDir, inherited + [':'] + root, ':');
    SplitConcat(inherited, root, ':');
    ConcatAssoc([codeDir], Split(inherited, ':'), [root]);
  }

  // ---------------------------------------------------------------- packing

  /** What the packer does: writes the egg and the dependency file, or fails with its output. */
  datatype PackOutcome = Packed(egg: string, deps: string) | Failed(output: string)

  /**
   * What calling the creator gives: the command and environment are built,
   * the packer is run, and its files become the entry. A packer failure
   * raises with the packer's output.
   */
  function Pack(o: Options, env: map<string, string>, codeDir: string, eggName: string, depsName: string,
                packer: (seq<string>, map<string, string>) -> PackOutcome,
                abspath: string -> string, mtimeOf: string -> Option<MTime>): (r: Result<Entry>)
    ensures r.Ok? ==> (r.value.deps.Some? <==> o.generateDependencies)
    ensures r.Ok? ==> (exists cmd, pp :: (Command(o, CodeFile(codeDir), eggName, depsName) == Ok(cmd)
      && PythonPath(codeDir, env, o.callableRootPath) == Ok(pp)
      && packer(cmd, env["PYTHONPATH" := pp]).Packed? && r.value.code == packer(cmd, env["PYTHONPATH" := pp]).egg))
    ensures (Command(o, CodeFile(codeDir), eggName, depsName).Ok? && PythonPath(codeDir, env, o.callableRootPath).Ok?
      && packer(Command(o, CodeFile(codeDir), eggName, depsName).value,
                env["PYTHONPATH" := PythonPath(codeDir, env, o.callableRootPath).value]).Failed?) ==>
      r == Raise(PackError(packer(Command(o, CodeFile(codeDir), eggName, depsName).value,
                                  env["PYTHONPATH" := PythonPath(codeDir, env, o.callableRootPath).value]).output))
  {
    var cmd := Command(o, CodeFile(codeDir), eggName, depsName);
    if cmd.Raise? then Raise(cmd.exc)
    else
      var pp := PythonPath(codeDir, env, o.callableRootPath);
      if pp.Raise? then Raise(pp.exc)
      else
        match packer(cmd.value, env["PYTHONPATH" := pp.value])
        case Failed(output) => Raise(PackError(output))
        case Packed(egg, deps) => ManifestEntry(egg, if o.generateDependencies then Some(deps) else None, abspath, mtimeOf)
  }

  /** The packing itself, between creating the temporary files and removing them. */
  method PackIn(o: Options, env: map<string, string>, codeDir: string, eggName: string, depsName: string,
                packer: (seq<string>, map<string, string>) -> PackOutcome,
                abspath: string -> string, mtimeOf: string -> Option<MTime>) returns (r: Result<Entry>)
    ensures r == Pack(o, env, codeDir, eggName, depsName, packer, abspath, mtimeOf)
  {
    var cmd := Command(o, CodeFile(codeDir), eggName, depsName);
    if cmd.Raise? {
      return Raise(cmd.exc);
    }
    var pp := PythonPath(codeDir, env, o.callableRootPath);
    if pp.Raise? {
      return Raise(pp.exc);
    }
    var outcome := packer(cmd.value, env["PYTHONPATH" := pp.value]);
    if outcome.Failed? {
      return Raise(PackError(outcome.output));
    }
    r := GenerateManifest(outcome.egg, if o.generateDependencies then Some(outcome.deps) else None, abspath, mtimeOf);
  }

  /** Whether `path` lies inside directory `dir`. */
  predicate Under(path: string, dir: string) {
    StartsWith(path, if EndsWith(dir, "/") then dir else dir + "/")
  }

  /** The entry point is written inside the code directory. */
  lemma CodeFileUnder(codeDir: string)
    requires codeDir != ""
    ensures Under(CodeFile(codeDir), codeDir)
  {
  }

  /** The files once the entry point is written and the temporary files are created. */
  function Staged(before: map<string, string>, codeFile: string, code: string, eggName: string, depsName: string, gen: bool)
    : map<string, string>
  {
    var staged := before[codeFile := code][eggName := ""];
    if gen then staged[depsName := ""] else staged
  }

  /** The files once the temporary files are deleted again. */
  function Closed(during: map<string, string>, eggName: string, depsName: string, gen: bool): map<string, string> {
    if gen then during - {eggName} - {depsName} else during - {eggName}
  }

  /**
   * Writing the entry point inside `codeDir` and creating the temporary
   * files, then deleting the temporary files and removing `codeDir`,
   * leaves every other file as it was.
   */
  lemma TemporariesGone(before: map<string, string>, codeDir: string, codeFile: string, code: string,
                        eggName: string, depsName: string, gen: bool)
    requires Under(codeFile, codeDir)
    ensures var closed := Closed(Staged(before, codeFile, code, eggName, depsName, gen), eggName, depsName, gen);
      (map p | p in closed && !Under(p, codeDir) :: closed[p])
        == map p | p in before && !Under(p, codeDir) && p != eggName && (gen ==> p != depsName) :: before[p]
  {
  }

  /** The temporary files and directories of the packing host. */
  class Scratch {
    var dirs: set<string>
    var files: map<string, string>

    constructor(dirs: set<string>, files: map<string, string>)
      ensures this.dirs == dirs && this.files == files
    {
      this.dirs := dirs;
      this.files := files;
    }

    /** `shutil.rmtree(dir, ignore_errors=True)`. */
    method RemoveTree(dir: string)
      modifies this
      ensures dirs == old(dirs) - {dir}
      ensures files == map p | p in old(files) && !Under(p, dir) :: old(files)[p]
    {
      dirs := dirs - {dir};
      files := map p | p in files && !Under(p, dir) :: files[p];
    }

    /** Closing a named temporary file deletes it. */
    method Close(name: string)
      modifies this
      ensures dirs == old(dirs) && files == old(files) - {name}
    {
      files := files - {name};
    }

    /**
     * `SeedCreator.__call__` in the temporary directory `codeDir` that
     * `mkdtemp` made (an absolute path, so never empty): the code is
     * written to the entry point there, the temporary egg file (and the
     * dependency file when dependencies are generated) is created, and the
     * packing runs. Whatever its outcome, the temporary files are deleted
     * and `codeDir` is removed with all it holds; nothing else changes.
     */
    method Call(o: Options, env: map<string, string>, codeDir: string, eggName: string, depsName: string,
                packer: (seq<string>, map<string, string>) -> PackOutcome,
                abspath: string -> string, mtimeOf: string -> Option<MTime>) returns (r: Result<Entry>)
      requires codeDir != ""
      modifies this
      ensures r == Pack(o, env, codeDir, eggName, depsName, packer, abspath, mtimeOf)
      ensures dirs == old(dirs) - {codeDir}
      ensures files == map p | p in old(files) && !Under(p, codeDir) && p != eggName
                               && (o.generateDependencies ==> p != depsName) :: old(files)[p]
    {
      ghost var before := files;
      dirs := dirs + {codeDir};
      var codeFile := CodeFile(codeDir);
      files := files[codeFile := o.code];
      files := files[eggName := ""];
      if o.generateDependencies {
        files := files[depsName := ""];
      }
      ghost var during := files;
      assert during == Staged(before, codeFile, o.code, eggName, depsName, o.generateDependencies);
      r := PackIn(o, env, codeDir, eggName, depsName, packer, abspath, mtimeOf);
      Close(eggName);
      if o.generateDependencies {
        Close(depsName);
      }
      assert files == Closed(during, eggName, depsName, o.generateDependencies);
      CodeFileUnder(codeDir);
      TemporariesGone(before, codeDir, codeFile, o.code, eggName, depsName, o.generateDependencies);
      RemoveTree(codeDir);
    }
  }

  /**
   * The creator as the seed cache calls it: construct with the code, the
   * dependency flag and the pack arguments, then call.
   */
  function Creator(env: map<string, string>, codeDir: string, eggName: string, depsName: string,
                   packer: (seq<string>, map<string, string>) -> PackOutcome,
                   abspath: string -> string, mtimeOf: string -> Option<MTime>): (r: (string, bool, Kwargs) -> Result<Entry>)
    ensures forall code, gen, kwargs | Construct(code, gen, kwargs).Raise? ::
      r(code, gen, kwargs) == Raise(Construct(code, gen, kwargs).exc)
    ensures forall code, gen, kwargs | Construct(code, gen, kwargs).Ok? ::
      r(code, gen, kwargs) == Pack(Construct(code, gen, kwargs).value, env, codeDir, eggName, depsName, packer, abspath, mtimeOf)
  {
    (code: string, gen: bool, kwargs: Kwargs) =>
      var o := Construct(code, gen, kwargs);
      if o.Raise? then Raise(o.exc) else Pack(o.value, env, codeDir, eggName, depsName, packer, abspath, mtimeOf)
  }

  /**
   * Pack arguments the creator does not take make every build raise a
   * TypeError; `noCache`, which the seed cache reads and passes on, is one.
   */
  lemma CreatorRejectsNoCache(env: map<string, string>, codeDir: string, eggName: string, depsName: string,
                              packer: (seq<string>, map<string, string>) -> PackOutcome,
                              abspath: string -> string, mtimeOf: string -> Option<MTime>,
                              code: string, gen: bool, kwargs: Kwargs)
    requires "noCache" in kwargs
    ensures var r := Creator(env, codeDir, eggName, depsName, packer, abspath, mtimeOf)(code, gen, kwargs);
      r.Raise? && r.exc.TypeError?
  {
    assert "noCache" !in Parameters;
  }
}
