/**
 * The wire contract between the test process and a seed running on a host:
 * the entry-point source text packed into the seed, the `/tmp` paths that
 * one invocation's unique token names, and the shell commands that start
 * the seed synchronously or in the background.
 */
module Invocation {
  import opened Py
  import opened Strs
  import opened Values
  import opened SeedEntry
  import opened Remote

  // ---------------------------------------------------------------- entry-point source

  /** Lines of source text, each followed by '\n', as adjacent string literals write them. */
  function Unlines(lines: seq<string>): string {
    if |lines| == 0 then "" else lines[0] + "\n" + Unlines(lines[1..])
  }

  predicate OneLineEach(lines: seq<string>) {
    forall i | 0 <= i < |lines| :: '\n' !in lines[i]
  }

  lemma OneLineEachConcat(a: seq<string>, b: seq<string>)
    requires OneLineEach(a) && OneLineEach(b)
    ensures OneLineEach(a + b)
  {
    forall i | 0 <= i < |a + b| ensures '\n' !in (a + b)[i] {
      if i >= |a| {
        assert (a + b)[i] == b[i - |a|];
      }
    }
  }

  /** Text written as lines reads back as those lines, then whatever followed it. */
  lemma {:induction false} UnlinesSplit(lines: seq<string>, rest: string)
    requires OneLineEach(lines)
    ensures Split(Unlines(lines) + rest, '\n') == lines + Split(rest, '\n')
  {
    if |lines| > 0 {
      UnlinesCons(lines, rest);
      SplitStep(lines[0], Unlines(lines[1..]) + rest, '\n');
      OneLineEachTail(lines);
      UnlinesSplit(lines[1..], rest);
      ConsTail(lines, Split(rest, '\n'));
    } else {
      assert Unlines(lines) + rest == rest;
    }
  }

  lemma UnlinesCons(lines: seq<string>, rest: string)
    requires |lines| > 0
    ensures Unlines(lines) + rest == lines[0] + ['\n'] + (Unlines(lines[1..]) + rest)
  {
  }

  lemma OneLineEachTail(lines: seq<string>)
    requires |lines| > 0 && OneLineEach(lines)
    ensures '\n' !in lines[0] && OneLineEach(lines[1..])
  {
    forall i | 0 <= i < |lines| - 1 ensures '\n' !in lines[1..][i] {
      assert lines[1..][i] == lines[i + 1];
    }
  }

  lemma ConsTail<T>(xs: seq<T>, ys: seq<T>)
    requires |xs| > 0
    ensures xs + ys == [xs[0]] + (xs[1..] + ys)
  {
  }

  /** The entry point's imports, and the lines that load `(args, kwargs)` from the file named by `argv[1]`. */
  const Imports: seq<string> := ["import cPickle", "import sys"]
  const ArgvLines: seq<string> := ["inputFile=sys.argv[1]", "outputFile=sys.argv[2]"]
  const LoadLines: seq<string> := ["with open(inputFile, 'rb') as f:", " args, kwargs = cPickle.load(f)"]
  /** The lines that pickle `result` into the file named by `outputFile`. */
  const DumpLines: seq<string> := ["with open(outputFile, 'wb') as f:", " cPickle.dump(result, f, " + "cPickle.HIGHEST_PROTOCOL)"]

  lemma ImportsOneLine()
    ensures OneLineEach(Imports) && OneLineEach(ArgvLines)
  {
  }

  lemma LoadLinesOneLine()
    ensures OneLineEach(LoadLines)
  {
  }

  lemma DumpLinesOneLine()
    ensures OneLineEach(DumpLines)
  {
  }

  /** The line that imports the callable's module, and the line that calls it. */
  function ImportLine(moduleName: string): string { "import " + moduleName }
  function CallLine(moduleName: string, name: string): string { "result = " + moduleName + "." + name + "(*args, **kwargs)" }

  /** The lines of the entry point that calls `module.name(*args, **kwargs)` and pickles what it returns. */
  function CallableLines(moduleName: string, name: string): seq<string> {
    [ImportLine(moduleName)] + Imports + ArgvLines + LoadLines + [CallLine(moduleName, name)] + DumpLines
  }

  /**
   * The entry point for a callable, as source text: for names on one line
   * each, reading it back line by line gives exactly `CallableLines`, and the
   * text ends with a newline.
   */
  function CallableCode(moduleName: string, name: string): (r: string)
    ensures '\n' !in moduleName && '\n' !in name ==> Split(r, '\n') == CallableLines(moduleName, name) + [""]
  {
    var lines := CallableLines(moduleName, name);
    var text := Unlines(lines);
    if '\n' in moduleName || '\n' in name then text
    else
      CallableLinesOneLine(moduleName, name);
      UnlinesSplit(lines, "");
      assert text + "" == text;
      text
  }

  /**
   * For a module name and a callable name on one line each, the entry
   * point's lines are: import the module, read `(args, kwargs)` from the
   * file named by `argv[1]`, call the callable with them, and dump the result
   * into the file named by `argv[2]`; the text ends with a newline.
   */
  lemma CallableCodeLines(moduleName: string, name: string)
    requires '\n' !in moduleName && '\n' !in name
    ensures var lines := Split(CallableCode(moduleName, name), '\n');
      && lines == CallableLines(moduleName, name) + [""]
      && lines[0] == "import " + moduleName
      && lines[3] == "inputFile=sys.argv[1]"
      && lines[4] == "outputFile=sys.argv[2]"
      && lines[7] == "result = " + moduleName + "." + name + "(*args, **kwargs)"
  {
    CallableLinesAt(moduleName, name);
  }

  lemma CallableLinesAt(moduleName: string, name: string)
    ensures var lines := CallableLines(moduleName, name) + [""];
      && lines[0] == "import " + moduleName
      && lines[3] == "inputFile=sys.argv[1]"
      && lines[4] == "outputFile=sys.argv[2]"
      && lines[7] == "result = " + moduleName + "." + name + "(*args, **kwargs)"
  {
  }

  lemma CallableLinesOneLine(moduleName: string, name: string)
    requires '\n' !in moduleName && '\n' !in name
    ensures OneLineEach(CallableLines(moduleName, name))
  {
    ImportsOneLine();
    LoadLinesOneLine();
    DumpLinesOneLine();
    var first, call := [ImportLine(moduleName)], [CallLine(moduleName, name)];
    assert '\n' !in "import " && '\n' !in "result = " && '\n' !in "." && '\n' !in "(*args, **kwargs)";
    assert OneLineEach(first) && OneLineEach(call);
    OneLineEachConcat(first, Imports);
    OneLineEachConcat(first + Imports, ArgvLines);
    OneLineEachConcat(first + Imports + ArgvLines, LoadLines);
    OneLineEachConcat(first + Imports + ArgvLines + LoadLines, call);
    OneLineEachConcat(first + Imports + ArgvLines + LoadLines + call, DumpLines);
  }

  /** The fixed lines before and after the snippet in the entry point that runs a code snippet. */
  const SnippetHead: seq<string> := ["import sys", "outputFile=sys.argv[1]", "result = None"]
  const SnippetFoot: seq<string> := ["import cPickle"] + DumpLines

  lemma SnippetLinesOneLine()
    ensures OneLineEach(SnippetHead) && OneLineEach(SnippetFoot)
  {
    DumpLinesOneLine();
    OneLineEachConcat(["import cPickle"], DumpLines);
  }

  /**
   * The entry point that runs `code` verbatim and pickles whatever it left in
   * `result`: three fixed lines, the snippet's own lines, then the lines that
   * dump `result` into the file named by `argv[1]`.
   */
  function SnippetCode(code: string): (r: string)
    ensures Split(r, '\n') == SnippetHead + Split(code, '\n') + SnippetFoot + [""]
  {
    SnippetLinesOneLine();
    Framed(SnippetHead, code, SnippetFoot);
    Unlines(SnippetHead) + code + "\n" + Unlines(SnippetFoot)
  }

  /** The snippet an entry point carries, if it has the snippet form. */
  function SnippetOf(text: string): (r: Option<string>)
    ensures r.Some? ==> SnippetCode(r.value) == text
  {
    var head, tail := Unlines(SnippetHead), "\n" + Unlines(SnippetFoot);
    if |text| >= |head| + |tail| && StartsWith(text, head) && EndsWith(text, tail) then
      var body := text[|head|..|text| - |tail|];
      assert text == text[..|head|] + body + text[|text| - |tail|..];
      Some(body)
    else None
  }

  /** The snippet is carried verbatim: it can be read back from the entry point, so distinct snippets give distinct entry points. */
  lemma SnippetRoundTrip(code: string)
    ensures SnippetOf(SnippetCode(code)) == Some(code)
  {
    SnippetCodeFramed(code);
    FramedReadBack(code);
  }

  lemma SnippetCodeFramed(code: string)
    ensures SnippetCode(code) == Unlines(SnippetHead) + code + ("\n" + Unlines(SnippetFoot))
  {
  }

  lemma FramedReadBack(code: string)
    ensures SnippetOf(Unlines(SnippetHead) + code + ("\n" + Unlines(SnippetFoot))) == Some(code)
  {
    Between(Unlines(SnippetHead), code, "\n" + Unlines(SnippetFoot));
  }

  /** The three parts of `head + middle + tail` are read back by slicing. */
  lemma Between<T>(head: seq<T>, middle: seq<T>, tail: seq<T>)
    ensures var t := head + middle + tail;
      t[..|head|] == head && t[|t| - |tail|..] == tail && t[|head|..|t| - |tail|] == middle
  {
  }

  /** Lines, then a text and a newline, then lines: the text's own lines sit between the two. */
  lemma Framed(head: seq<string>, code: string, foot: seq<string>)
    requires OneLineEach(head) && OneLineEach(foot)
    ensures Split(Unlines(head) + code + "\n" + Unlines(foot), '\n') == head + Split(code, '\n') + foot + [""]
  {
    var f := Unlines(foot);
    var middle := code + ['\n'] + f;
    Regroup(Unlines(head), code, '\n', f);
    UnlinesSplit(head, middle);
    SplitConcat(code, f, '\n');
    UnlinesSplit(foot, "");
    assert f + "" == f;
    assert Split("", '\n') == [""];
    SnippetAssoc(head, Split(code, '\n'), foot, "");
  }

  lemma Regroup<T>(a: seq<T>, b: seq<T>, s: T, c: seq<T>)
    ensures a + b + [s] + c == a + (b + [s] + c)
  {
  }

  lemma SnippetAssoc<T>(a: seq<T>, b: seq<T>, c: seq<T>, d: T)
    ensures a + (b + (c + [d])) == a + b + c + [d]
  {
  }

  // ---------------------------------------------------------------- paths

  function ArgsPath(unique: string): string { "/tmp/args" + unique + ".pickle" }
  function ResultPath(unique: string): string { "/tmp/result" + unique + ".pickle" }
  function EggPath(unique: string): string { "/tmp/seed" + unique + ".egg" }
  function PidPath(unique: string): string { "/tmp/pid" + unique + ".txt" }
  function OutputPath(unique: string): string { "/tmp/output" + unique + ".txt" }

  /** The five files of an invocation never coincide, whatever the two tokens are. */
  lemma PathsApart(u: string, v: string)
    ensures ArgsPath(u) != ResultPath(v) && ArgsPath(u) != EggPath(v) && ArgsPath(u) != PidPath(v) && ArgsPath(u) != OutputPath(v)
    ensures ResultPath(u) != EggPath(v) && ResultPath(u) != PidPath(v) && ResultPath(u) != OutputPath(v)
    ensures EggPath(u) != PidPath(v) && EggPath(u) != OutputPath(v)
    ensures PidPath(u) != OutputPath(v)
  {
    assert ArgsPath(u)[5] == 'a' && ResultPath(u)[5] == 'r' && EggPath(u)[5] == 's';
    assert PidPath(u)[5] == 'p' && OutputPath(u)[5] == 'o';
    assert ResultPath(v)[5] == 'r' && EggPath(v)[5] == 's' && PidPath(v)[5] == 'p' && OutputPath(v)[5] == 'o';
  }

  /** Each kind of path names its token: distinct tokens never share a file. */
  lemma PathsInjective(u: string, v: string)
    requires u != v
    ensures ArgsPath(u) != ArgsPath(v) && ResultPath(u) != ResultPath(v) && EggPath(u) != EggPath(v)
    ensures PidPath(u) != PidPath(v) && OutputPath(u) != OutputPath(v)
  {
    Unwrap("/tmp/args", u, v, ".pickle");
    Unwrap("/tmp/result", u, v, ".pickle");
    Unwrap("/tmp/seed", u, v, ".egg");
    Unwrap("/tmp/pid", u, v, ".txt");
    Unwrap("/tmp/output", u, v, ".txt");
  }

  lemma Unwrap(p: string, u: string, v: string, s: string)
    ensures p + u + s == p + v + s ==> u == v
  {
    if p + u + s == p + v + s {
      var w := p + u + s;
      assert w[|p|..|w| - |s|] == u;
      assert (p + v + s)[|p|..|w| - |s|] == v;
    }
  }

  // ---------------------------------------------------------------- commands

  /** The arguments the entry point is started with: the args file when there is input, then the result file. */
  function ModuleArgs(unique: string, hasInput: bool): string {
    if hasInput then ArgsPath(unique) + " " + ResultPath(unique) else ResultPath(unique)
  }

  /** Words on one line: the args file is the first argument exactly when there is input, and the result file is the last. */
  lemma ModuleArgsWords(unique: string, hasInput: bool)
    requires ' ' !in unique
    ensures Split(ModuleArgs(unique, hasInput), ' ') == if hasInput then [ArgsPath(unique), ResultPath(unique)] else [ResultPath(unique)]
  {
    var a, r := ArgsPath(unique), ResultPath(unique);
    assert ' ' !in a && ' ' !in r;
    if hasInput {
      assert ModuleArgs(unique, hasInput) == Join([a, r], " ");
      SplitJoin([a, r], ' ');
    } else {
      SplitJoin([r], ' ');
    }
  }

  /** The `outputTimeout` keyword passed to the script run: present only when the timeout is not None. */
  function TimeoutKwargs(outputTimeout: PyValue): (r: Kwargs)
    ensures "outputTimeout" in r <==> outputTimeout != PyNone
    ensures r.Keys <= {"outputTimeout"}
    ensures "outputTimeout" in r ==> r["outputTimeout"] == outputTimeout
  {
    if outputTimeout != PyNone then map["outputTimeout" := outputTimeout] else map[]
  }

  /**
   * The command a synchronous run executes: for a token without blanks, its
   * words set `PYTHONPATH` to the uploaded egg, run the module
   * `seedentrypoint`, and hand it the module arguments.
   */
  function RunCommand(unique: string, hasInput: bool): (r: string)
    ensures ' ' !in unique ==>
      Split(r, ' ') == ["PYTHONPATH=" + EggPath(unique), "python", "-m", "seedentrypoint"] + Split(ModuleArgs(unique, hasInput), ' ')
  {
    var env := "PYTHONPATH=" + EggPath(unique);
    var args := ModuleArgs(unique, hasInput);
    var text := env + " " + "python" + " " + "-m" + " " + "seedentrypoint" + " " + args;
    if ' ' in unique then text
    else
      Words(env, "python", "-m", "seedentrypoint", args, ' ');
      assert ' ' !in env && ' ' !in "python" && ' ' !in "-m" && ' ' !in "seedentrypoint";
      SplitStep("seedentrypoint", args, ' ');
      SplitStep("-m", "seedentrypoint" + [' '] + args, ' ');
      SplitStep("python", "-m" + [' '] + ("seedentrypoint" + [' '] + args), ' ');
      SplitStep(env, "python" + [' '] + ("-m" + [' '] + ("seedentrypoint" + [' '] + args)), ' ');
      Conses(env, "python", "-m", "seedentrypoint", Split(args, ' '));
      text
  }

  lemma Words<T>(a: seq<T>, b: seq<T>, c: seq<T>, d: seq<T>, e: seq<T>, s: T)
    ensures a + [s] + b + [s] + c + [s] + d + [s] + e == a + [s] + (b + [s] + (c + [s] + (d + [s] + e)))
  {
  }

  lemma Conses<T>(a: T, b: T, c: T, d: T, rest: seq<T>)
    ensures [a] + ([b] + ([c] + ([d] + rest))) == [a, b, c, d] + rest
  {
  }

  /**
   * What the two sides agree on: the command's `PYTHONPATH` is the file the
   * seed was uploaded to, its first module argument is the file `InstallArgs`
   * writes when there is input, and its last is the file `DownloadResult` reads.
   */
  lemma RunCommandAgrees(unique: string, hasInput: bool)
    requires ' ' !in unique
    ensures var w := Split(RunCommand(unique, hasInput), ' ');
      && w[0] == "PYTHONPATH=" + EggPath(unique)
      && (hasInput <==> |w| == 6)
      && (hasInput ==> w[4] == ArgsPath(unique))
      && w[|w| - 1] == ResultPath(unique)
  {
    ModuleArgsWords(unique, hasInput);
  }

  lemma ScriptPiecesOneLine()
    ensures '\n' !in "echo $$ > " && '\n' !in "export PYTHONPATH=" && '\n' !in "exec python -m seedentrypoint " && '\n' !in " >& "
  {
  }

  lemma ThreeLines<T>(l1: seq<T>, a: seq<T>, b: seq<T>, c: seq<T>, d: seq<T>, e: seq<T>, f: seq<T>, nl: T)
    ensures l1 + [nl] + a + b + [nl] + c + d + e + f == l1 + [nl] + ((a + b) + [nl] + (c + d + e + f))
  {
  }

  /**
   * The script a background run executes. For a token on one line it has
   * three lines: the shell first writes its pid to the pid file, then sets
   * `PYTHONPATH` to the egg, and only then replaces itself with the entry
   * point, all of whose output goes to the output file.
   */
  function BackgroundCommand(unique: string, hasInput: bool): (r: string)
    ensures '\n' !in unique ==>
      Split(r, '\n') ==
        ["echo $$ > " + PidPath(unique),
         "export PYTHONPATH=" + EggPath(unique),
         "exec python -m seedentrypoint " + ModuleArgs(unique, hasInput) + " >& " + OutputPath(unique)]
  {
    var l1 := "echo $$ > " + PidPath(unique);
    var l2 := "export PYTHONPATH=" + EggPath(unique);
    var l3 := "exec python -m seedentrypoint " + ModuleArgs(unique, hasInput) + " >& " + OutputPath(unique);
    var text := l1 + "\n" + "export PYTHONPATH=" + EggPath(unique) + "\n" +
      "exec python -m seedentrypoint " + ModuleArgs(unique, hasInput) + " >& " + OutputPath(unique);
    if '\n' in unique then text
    else
      ThreeLines(l1, "export PYTHONPATH=", EggPath(unique), "exec python -m seedentrypoint ",
                 ModuleArgs(unique, hasInput), " >& ", OutputPath(unique), '\n');
      BackgroundLinesOneLine(unique, hasInput);
      SplitStep(l1, l2 + ['\n'] + l3, '\n');
      SplitStep(l2, l3, '\n');
      assert Split(l3, '\n') == [l3];
      text
  }

  lemma BackgroundLinesOneLine(unique: string, hasInput: bool)
    requires '\n' !in unique
    ensures '\n' !in "echo $$ > " + PidPath(unique) && '\n' !in "export PYTHONPATH=" + EggPath(unique)
    ensures '\n' !in "exec python -m seedentrypoint " + ModuleArgs(unique, hasInput) + " >& " + OutputPath(unique)
  {
    ScriptPiecesOneLine();
  }

  // ---------------------------------------------------------------- remote calls

  /** Upload the seed to its egg file and run the entry point, returning the script's output. */
  method ExecuteWithResult(host: Host, seed: Entry, unique: string, hasInput: bool, outputTimeout: PyValue)
    returns (r: Result<string>)
    modifies host
    ensures host.files == old(host.files)[EggPath(unique) := seed.code]
    ensures host.runs == old(host.runs) + [Script(RunCommand(unique, hasInput), TimeoutKwargs(outputTimeout))]
    ensures host.fetches == old(host.fetches)
    ensures r == host.answer(RunCommand(unique, hasInput))
  {
    host.PutContents(EggPath(unique), seed.code);
    var kwargs := TimeoutKwargs(outputTimeout);
    r := host.RunScript(RunCommand(unique, hasInput), kwargs);
  }

  /** Upload the seed to its egg file and start the entry point in the background. */
  method ExecuteInBackground(host: Host, seed: Entry, unique: string, hasInput: bool)
    modifies host
    ensures host.files == old(host.files)[EggPath(unique) := seed.code]
    ensures host.runs == old(host.runs) + [Background(BackgroundCommand(unique, hasInput))]
    ensures host.fetches == old(host.fetches)
  {
    host.PutContents(EggPath(unique), seed.code);
    host.BackgroundScript(BackgroundCommand(unique, hasInput));
  }

  /** Fetch the pickled result of an invocation (unpickling is not modelled). */
  method DownloadResult(host: Host, unique: string) returns (r: Result<string>)
    modifies host
    ensures r == old(host.ReadAt(ResultPath(unique), host.fetches))
    ensures host.fetches == old(host.fetches) + 1
    ensures host.files == old(host.files) && host.runs == old(host.runs)
  {
    r := host.GetContents(ResultPath(unique));
  }

  /** Upload the pickled `(args, kwargs)` of a call to the args file. */
  method InstallArgs(host: Host, unique: string, args: seq<PyValue>, kwargs: Kwargs, pickle: (seq<PyValue>, Kwargs) -> string)
    modifies host
    ensures host.files == old(host.files)[ArgsPath(unique) := pickle(args, kwargs)]
    ensures host.runs == old(host.runs) && host.fetches == old(host.fetches)
  {
    host.PutContents(ArgsPath(unique), pickle(args, kwargs));
  }

  /**
   * One synchronous call with input on a fresh host whose entry point leaves
   * `result` in the result file: the host then holds exactly the arguments
   * and the egg, ran exactly one command, and the result read back is the
   * one the entry point wrote.
   */
  method CallOnFreshHost(unique: string, seed: Entry, args: seq<PyValue>, kwargs: Kwargs,
                         pickle: (seq<PyValue>, Kwargs) -> string, output: string, result: string)
    returns (files: map<string, string>, runs: seq<Run>, got: Result<string>, out: Result<string>)
    ensures files == map[ArgsPath(unique) := pickle(args, kwargs), EggPath(unique) := seed.code]
    ensures runs == [Script(RunCommand(unique, true), map[])]
    ensures out == Ok(output) && got == Ok(result)
  {
    var host := new Host((path: string, n: nat) => if path == ResultPath(unique) then Ok(result) else Raise(IOError(path)),
                         (text: string) => Ok(output));
    InstallArgs(host, unique, args, kwargs, pickle);
    out := ExecuteWithResult(host, seed, unique, true, PyNone);
    PathsApart(unique, unique);
    got := DownloadResult(host, unique);
    files, runs := host.files, host.runs;
  }
}
