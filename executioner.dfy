/**
 * The executioner of one racktest scenario: the stack of cleanup callbacks,
 * the hosts the test holds and their release, the decision to free the
 * allocation when the scenario ends, the existing allocation named by the
 * environment, and the test file's name. Timers, signals, connecting to
 * hosts and running the test's own methods are not modelled.
 */
module Executioner {
  import opened Py
  import opened Strs
  import opened Values
  import opened Rackattack

  const AbortTestTimeoutDefault: int := 10 * 60
  const OnTimeoutCallbackTimeoutDefault: int := 5 * 60
  const ExistingAllocationFilename: string := "allocation.ID"

  // ---------------------------------------------------------------- environment

  /** `os.getenv(name, 'false').lower() in ['true']`. */
  function EnvFlag(env: map<string, string>, name: string): bool {
    Lower(if name in env then env[name] else "false") == "true"
  }

  /** A flag is set exactly when the variable is present and reads 'true' in any case. */
  lemma EnvFlagSet(env: map<string, string>, name: string)
    ensures EnvFlag(env, name) <==> name in env && Lower(env[name]) == "true"
  {
    if name !in env {
      assert Lower("false")[0] == 'f';
    }
  }

  /** `_readAllocationFromFile`: the int of the first line of `allocation.ID`, given the file's text if it exists. */
  function ReadAllocationFromFile(contents: Option<string>): (r: Result<int>)
    ensures contents.None? ==> r == Raise(IOError(ExistingAllocationFilename))
    ensures contents == Some("") ==> r == Raise(IndexError)
  {
    match contents
    case None => Raise(IOError(ExistingAllocationFilename))
    case Some(text) =>
      var lines := ReadLines(text);
      if |lines| == 0 then Raise(IndexError)
      else
        match ParseInt(lines[0])
        case None => Raise(ValueError(lines[0]))
        case Some(id) => Ok(id)
  }

  /**
   * `_setupExistingAllocation`: no `ALLOCATION_ID` asks for a new
   * allocation; 'allocation.ID' reads the id from that file; any other value
   * is the id itself, and a ValueError when it is not an integer.
   */
  function SetupExistingAllocation(env: map<string, string>, allocationFile: Option<string>): (r: Result<Option<int>>)
    ensures "ALLOCATION_ID" !in env ==> r == Ok(None)
    ensures r.Ok? && "ALLOCATION_ID" in env ==> r.value.Some?
  {
    if "ALLOCATION_ID" !in env then Ok(None)
    else if env["ALLOCATION_ID"] == ExistingAllocationFilename then
      match ReadAllocationFromFile(allocationFile)
      case Raise(e) => Raise(e)
      case Ok(id) => Ok(Some(id))
    else
      match ParseInt(env["ALLOCATION_ID"])
      case None => Raise(ValueError(env["ALLOCATION_ID"]))
      case Some(id) => Ok(Some(id))
  }

  /** An id written in the environment is the id given, whatever the file holds. */
  lemma AllocationIdFromEnv(id: int, allocationFile: Option<string>)
    ensures SetupExistingAllocation(map["ALLOCATION_ID" := IntToDecimal(id)], allocationFile) == Ok(Some(id))
  {
    var s := IntToDecimal(id);
    assert s[0] == '-' || IsDigit(s[0]);
    assert s != ExistingAllocationFilename by {
      assert ExistingAllocationFilename[0] == 'a';
    }
    ParseIntRoundTrip(id, "");
    assert s + "" == s;
  }

  /** An id written on the first line of `allocation.ID` is the id given, whatever follows it. */
  lemma AllocationIdFromFile(id: int, rest: string)
    ensures SetupExistingAllocation(map["ALLOCATION_ID" := ExistingAllocationFilename], Some(IntToDecimal(id) + "\n" + rest)) == Ok(Some(id))
  {
    var s := IntToDecimal(id);
    assert forall i | 0 <= i < |s| :: s[i] == '-' || IsDigit(s[i]);
    FirstLine(s, rest);
    ParseIntRoundTrip(id, "\n");
  }

  /** `ALLOCATION_ID=allocation.ID` with no such file fails with IOError. */
  lemma AllocationFileMissing(env: map<string, string>)
    requires "ALLOCATION_ID" in env && env["ALLOCATION_ID"] == ExistingAllocationFilename
    ensures SetupExistingAllocation(env, None) == Raise(IOError(ExistingAllocationFilename))
  {
  }

  /** `ALLOCATION_ID=allocation.ID` with an empty file fails with IndexError. */
  lemma AllocationFileEmpty(env: map<string, string>)
    requires "ALLOCATION_ID" in env && env["ALLOCATION_ID"] == ExistingAllocationFilename
    ensures SetupExistingAllocation(env, Some("")) == Raise(IndexError)
  {
  }

  /** An `ALLOCATION_ID` that is a word and not a number fails with ValueError. */
  lemma AllocationIdNotANumber(allocationFile: Option<string>)
    ensures SetupExistingAllocation(map["ALLOCATION_ID" := "new"], allocationFile) == Raise(ValueError("new"))
  {
    assert |"new"| != |ExistingAllocationFilename|;
    WordNotANumber("new");
  }

  /** A word of lower-case letters is not a number. */
  lemma WordNotANumber(s: string)
    requires |s| >= 1 && 'a' <= s[0] <= 'z' && 'a' <= s[|s| - 1] <= 'z'
    ensures ParseInt(s) == None
  {
    StripSolid(s);
    assert !IsDigit(s[0]);
  }

  // ---------------------------------------------------------------- test file

  /** `_filename`: the compiled module's `.pyc` name is turned back into its `.py` source. */
  function Filename(file: string): (r: string)
    ensures EndsWith(file, ".pyc") ==> r + "c" == file
    ensures !EndsWith(file, ".pyc") ==> r == file
  {
    if EndsWith(file, ".pyc") then file[..|file| - 1] else file
  }

  /** `x.pyc` names the source `x.py`. */
  lemma FilenameOfCompiled(x: string)
    ensures Filename(x + ".pyc") == x + ".py"
  {
    ConcatEnds(x, ".pyc");
    assert (x + ".pyc")[..|x| + 3] == x + ".py";
  }

  /** A file name is mapped once: the name it gives is left as it is. */
  lemma FilenameIdempotent(file: string)
    ensures Filename(Filename(file)) == Filename(file)
  {
    var r := Filename(file);
    if EndsWith(file, ".pyc") {
      assert r[|r| - 1] == file[|file| - 2] == 'y';
    }
  }

  // ---------------------------------------------------------------- cleanup stack

  /** A cleanup callback with the arguments it was registered with. */
  datatype Cleanup = Cleanup(callback: string, args: seq<PyValue>, kwargs: Kwargs)

  /** `s` last element first. */
  function Reversed<T>(s: seq<T>): (r: seq<T>)
    ensures |r| == |s|
  {
    if |s| == 0 then [] else [s[|s| - 1]] + Reversed(s[..|s| - 1])
  }

  /** What comes last is reversed first. */
  lemma {:induction false} ReversedConcat<T>(a: seq<T>, b: seq<T>)
    ensures Reversed(a + b) == Reversed(b) + Reversed(a)
    decreases |b|
  {
    if |b| == 0 {
      assert a + b == a;
    } else {
      var front := b[..|b| - 1];
      assert (a + b)[..|a + b| - 1] == a + front;
      ReversedConcat(a, front);
    }
  }

  /** The elements of `s` in `keep`, in order. */
  function Filter<T>(s: seq<T>, keep: set<T>): seq<T> {
    if |s| == 0 then [] else (if s[0] in keep then [s[0]] else []) + Filter(s[1..], keep)
  }

  // ---------------------------------------------------------------- free decision

  /** As written: free unless no host is left or the allocation is to be kept. */
  predicate ShouldFree(hosts: set<string>, keep: bool) {
    !(hosts == {} || keep)
  }

  /** As evidently intended: free unless the allocation holds no node any more or is to be kept. */
  predicate ShouldFreeIntended(nodes: map<string, string>, keep: bool) {
    !(nodes == map[] || keep)
  }

  /**
   * The decision as written frees exactly when some host is left and
   * `KEEP_ALLOCATION` does not read 'true'.
   */
  lemma FreeDecision(hosts: set<string>, env: map<string, string>)
    ensures ShouldFree(hosts, EnvFlag(env, "KEEP_ALLOCATION")) <==>
      hosts != {} && !("KEEP_ALLOCATION" in env && Lower(env["KEEP_ALLOCATION"]) == "true")
  {
    EnvFlagSet(env, "KEEP_ALLOCATION");
  }

  /** When every node the allocation holds was set up as a host, the two decisions agree. */
  lemma FreeDecisionsAgree(hosts: set<string>, nodes: map<string, string>, keep: bool)
    requires hosts == nodes.Keys
    ensures ShouldFree(hosts, keep) <==> ShouldFreeIntended(nodes, keep)
  {
    if hosts == {} {
      assert nodes == map[];
    } else {
      var h :| h in hosts;
      assert h in nodes;
    }
  }

  // ---------------------------------------------------------------- executioner

  class Executioner {
    /** The allocation of the scenario's hosts. */
    const allocation: RackAttackAllocation
    const testTimeout: int
    const onTimeoutCallbackTimeout: int
    /** `KEEP_ALLOCATION` read 'true'. */
    const doNotReleaseAllocation: bool
    const existingAllocationID: Option<int>
    /** The cleanup callbacks that raise when invoked. */
    const failing: set<Cleanup>
    /** The registered cleanups, the latest last. */
    var cleanUpMethods: seq<Cleanup>
    /** The names of the hosts set up and not released. */
    var hosts: set<string>
    /** Every cleanup invoked so far, in order. */
    var invoked: seq<Cleanup>
    /** The invoked cleanups that raised, in order; each was logged and skipped. */
    var failed: seq<Cleanup>
    /** Whether the test's `tearDown` was called. */
    var tornDown: bool

    /** Every host held is a node of the allocation. */
    ghost predicate Valid()
      reads this, allocation
    {
      hosts <= allocation.nodes.Keys
    }

    /**
     * The test class may override both timeouts; `KEEP_ALLOCATION` is read
     * from the environment, and the existing allocation's id is what
     * `_setupExistingAllocation` gives for the environment and the contents
     * of `allocation.ID` (None when there is no such file). When that raises,
     * so does `__init__`, and no executioner exists.
     */
    constructor(allocation: RackAttackAllocation, abortTestTimeout: Option<int>, onTimeoutCallbackTimeout: Option<int>,
                env: map<string, string>, allocationFile: Option<string>, failing: set<Cleanup>)
      requires SetupExistingAllocation(env, allocationFile).Ok?
      ensures this.allocation == allocation && this.failing == failing
      ensures testTimeout == (if abortTestTimeout.Some? then abortTestTimeout.value else AbortTestTimeoutDefault)
      ensures this.onTimeoutCallbackTimeout ==
        (if onTimeoutCallbackTimeout.Some? then onTimeoutCallbackTimeout.value else OnTimeoutCallbackTimeoutDefault)
      ensures doNotReleaseAllocation == EnvFlag(env, "KEEP_ALLOCATION")
      ensures existingAllocationID == SetupExistingAllocation(env, allocationFile).value
      ensures cleanUpMethods == [] && hosts == {} && invoked == [] && failed == [] && !tornDown
      ensures Valid()
    {
      this.allocation := allocation;
      testTimeout := if abortTestTimeout.Some? then abortTestTimeout.value else AbortTestTimeoutDefault;
      this.onTimeoutCallbackTimeout :=
        if onTimeoutCallbackTimeout.Some? then onTimeoutCallbackTimeout.value else OnTimeoutCallbackTimeoutDefault;
      doNotReleaseAllocation := EnvFlag(env, "KEEP_ALLOCATION");
      existingAllocationID := SetupExistingAllocation(env, allocationFile).value;
      this.failing := failing;
      cleanUpMethods := [];
      hosts := {};
      invoked := [];
      failed := [];
      tornDown := false;
    }

    /** `_addCleanup`: push a callback with its arguments. */
    method AddCleanup(callback: string, args: seq<PyValue>, kwargs: Kwargs)
      modifies this
      ensures cleanUpMethods == old(cleanUpMethods) + [Cleanup(callback, args, kwargs)]
      ensures hosts == old(hosts) && invoked == old(invoked) && failed == old(failed) && tornDown == old(tornDown)
    {
      cleanUpMethods := cleanUpMethods + [Cleanup(callback, args, kwargs)];
    }

    /**
     * `_cleanUp`: pop and invoke every callback, the latest first; one that
     * raises is logged and the rest still run, so the stack ends empty.
     */
    method CleanUp()
      modifies this
      ensures cleanUpMethods == []
      ensures invoked == old(invoked) + Reversed(old(cleanUpMethods))
      ensures failed == old(failed) + Filter(Reversed(old(cleanUpMethods)), failing)
      ensures hosts == old(hosts) && tornDown == old(tornDown)
    {
      ghost var o, invoked0, failed0 := cleanUpMethods, invoked, failed;
      ghost var i: nat := |o|;
      while cleanUpMethods != []
        invariant i <= |o| && cleanUpMethods == o[..i]
        invariant invoked == invoked0 + Reversed(o[i..])
        invariant failed == failed0 + Filter(Reversed(o[i..]), failing)
        invariant hosts == old(hosts) && tornDown == old(tornDown)
        decreases i
      {
        var callback := cleanUpMethods[|cleanUpMethods| - 1];
        cleanUpMethods := cleanUpMethods[..|cleanUpMethods| - 1];
        i := i - 1;
        PopStep(o, i, failing);
        ConcatAssoc(invoked0, Reversed(o[i + 1..]), [callback]);
        ConcatAssoc(failed0, Filter(Reversed(o[i + 1..]), failing), if callback in failing then [callback] else []);
        invoked := invoked + [callback];
        if callback in failing {
          failed := failed + [callback];
        }
      }
      assert o[0..] == o;
    }

    /**
     * `_setUpHost`, once the host is connected: a name the allocation does
     * not hold raises KeyError; otherwise it becomes a host of the test.
     */
    method SetUpHost(name: string) returns (r: Result<()>)
      requires Valid()
      modifies this
      ensures name !in allocation.nodes ==> r == Raise(KeyError(name)) && hosts == old(hosts)
      ensures name in allocation.nodes ==> r.Ok? && hosts == old(hosts) + {name}
      ensures cleanUpMethods == old(cleanUpMethods) && invoked == old(invoked) && failed == old(failed)
      ensures tornDown == old(tornDown)
      ensures Valid()
    {
      if name !in allocation.nodes {
        return Raise(KeyError(name));
      }
      hosts := hosts + {name};
      r := Ok(());
    }

    /**
     * `_releaseHost`: a name that is not a host raises ValueError and changes
     * nothing; otherwise the allocation releases it and it stops being a host.
     */
    method ReleaseHost(name: string) returns (r: Result<()>)
      requires Valid()
      modifies this, allocation
      ensures name !in old(hosts) ==> r == Raise(ValueError(name)) && unchanged(this, allocation)
      ensures name in old(hosts) ==> r.Ok? && hosts == old(hosts) - {name}
      ensures name in old(hosts) ==> allocation.nodes == old(allocation.nodes) - {name}
      ensures name in old(hosts) ==>
        allocation.calls == old(allocation.calls) + [if |old(allocation.nodes)| == 1 then FreeCall else ReleaseCall(name)]
      ensures cleanUpMethods == old(cleanUpMethods) && invoked == old(invoked) && failed == old(failed)
      ensures tornDown == old(tornDown)
      ensures Valid()
    {
      if name !in hosts {
        return Raise(ValueError(name));
      }
      var released := allocation.ReleaseHost(name);
      hosts := hosts - {name};
      r := Ok(());
    }

    /**
     * `_tearDown`: with no host left nothing happens; otherwise the test's
     * `tearDown` runs and what it raises escapes.
     */
    method TearDown(testTearDown: Result<()>) returns (r: Result<()>)
      modifies this
      ensures old(hosts) == {} ==> r == Ok(()) && unchanged(this)
      ensures old(hosts) != {} ==> r == testTearDown && tornDown
      ensures cleanUpMethods == old(cleanUpMethods) && hosts == old(hosts)
      ensures invoked == old(invoked) && failed == old(failed)
    {
      if hosts == {} {
        return Ok(());
      }
      tornDown := true;
      r := testTearDown;
    }

    /**
     * The end of `executeTestScenario` as written: clean up, then free the
     * allocation unless no host is left or it is to be kept.
     */
    method FinishAsWritten()
      requires Valid()
      modifies this, allocation
      ensures cleanUpMethods == [] && invoked == old(invoked) + Reversed(old(cleanUpMethods))
      ensures failed == old(failed) + Filter(Reversed(old(cleanUpMethods)), failing)
      ensures allocation.calls == old(allocation.calls) + (if ShouldFree(hosts, doNotReleaseAllocation) then [FreeCall] else [])
      ensures allocation.nodes == old(allocation.nodes) && hosts == old(hosts) && tornDown == old(tornDown)
    {
      CleanUp();
      if ShouldFree(hosts, doNotReleaseAllocation) {
        allocation.Free();
      }
    }

    /**
     * The end of `executeTestScenario` as evidently intended: clean up, then
     * free the allocation whenever it still holds nodes, unless it is to be
     * kept; an allocation whose last node was released is not freed twice.
     */
    method Finish()
      requires Valid()
      modifies this, allocation
      ensures cleanUpMethods == [] && invoked == old(invoked) + Reversed(old(cleanUpMethods))
      ensures failed == old(failed) + Filter(Reversed(old(cleanUpMethods)), failing)
      ensures allocation.calls == old(allocation.calls) +
        (if ShouldFreeIntended(allocation.nodes, doNotReleaseAllocation) then [FreeCall] else [])
      ensures allocation.nodes == old(allocation.nodes) && hosts == old(hosts) && tornDown == old(tornDown)
    {
      CleanUp();
      if ShouldFreeIntended(allocation.nodes, doNotReleaseAllocation) {
        allocation.Free();
      }
    }
  }

  /** Popping element `k` puts it after the ones popped before it. */
  lemma PopStep(o: seq<Cleanup>, k: nat, failing: set<Cleanup>)
    requires k < |o|
    ensures Reversed(o[k..]) == Reversed(o[k + 1..]) + [o[k]]
    ensures Filter(Reversed(o[k..]), failing) == Filter(Reversed(o[k + 1..]), failing) + (if o[k] in failing then [o[k]] else [])
  {
    assert o[k..] == [o[k]] + o[k + 1..];
    ReversedConcat([o[k]], o[k + 1..]);
    FilterSnoc(Reversed(o[k + 1..]), o[k], failing);
  }

  lemma {:induction false} FilterSnoc<T>(s: seq<T>, x: T, keep: set<T>)
    ensures Filter(s + [x], keep) == Filter(s, keep) + (if x in keep then [x] else [])
    decreases |s|
  {
    if |s| == 0 {
      assert s + [x] == [x];
      assert [x][1..] == [];
    } else {
      var head: seq<T> := if s[0] in keep then [s[0]] else [];
      assert (s + [x])[0] == s[0];
      assert (s + [x])[1..] == s[1..] + [x];
      FilterSnoc(s[1..], x, keep);
      ConcatAssoc(head, Filter(s[1..], keep), if x in keep then [x] else []);
    }
  }

  lemma ThreeReversed(a: Cleanup, b: Cleanup, c: Cleanup)
    requires a != b && b != c
    ensures Reversed([a, b, c]) == [c, b, a]
    ensures Filter([c, b, a], {b}) == [b]
  {
    assert [a, b, c][..2] == [a, b] && [a, b][..1] == [a] && [a][..0] == [];
    assert Reversed([a]) == [a];
    assert Reversed([a, b]) == [b, a];
    assert [a][1..] == [];
    assert Filter([a], {b}) == [];
    assert [b, a][1..] == [a];
    assert Filter([b, a], {b}) == [b];
    assert [c, b, a][1..] == [b, a];
  }

  /**
   * Cleanups registered as a, b, c are invoked c, b, a, and one that raises
   * does not stop the ones registered before it.
   */
  method CleanUpOrder(a: Cleanup, b: Cleanup, c: Cleanup) returns (invoked: seq<Cleanup>, failed: seq<Cleanup>, left: seq<Cleanup>)
    requires a != b && b != c && a != c
    ensures invoked == [c, b, a] && failed == [b] && left == []
  {
    var allocation := new RackAttackAllocation(map[], map[]);
    var executioner := new Executioner(allocation, None, None, map[], None, {b});
    executioner.AddCleanup(a.callback, a.args, a.kwargs);
    executioner.AddCleanup(b.callback, b.args, b.kwargs);
    executioner.AddCleanup(c.callback, c.args, c.kwargs);
    assert executioner.cleanUpMethods == [a, b, c];
    executioner.CleanUp();
    ThreeReversed(a, b, c);
    invoked := executioner.invoked;
    failed := executioner.failed;
    left := executioner.cleanUpMethods;
  }

  /**
   * A scenario whose hosts all fail to come up: as written the allocation is
   * never freed, although it still holds its node; the intended end frees it.
   */
  method NoHostCameUp(node: string) returns (asWritten: seq<Call>, intended: seq<Call>)
    ensures asWritten == [] && intended == [FreeCall]
  {
    EnvFlagSet(map[], "KEEP_ALLOCATION");
    var first := new RackAttackAllocation(map[], map[node := "server"]);
    var leaky := new Executioner(first, None, None, map[], None, {});
    leaky.FinishAsWritten();
    asWritten := first.calls;
    var second := new RackAttackAllocation(map[], map[node := "server"]);
    var fixed := new Executioner(second, None, None, map[], None, {});
    assert node in second.nodes;
    fixed.Finish();
    intended := second.calls;
  }

  /**
   * Both hosts set up, then both released by the test: the first is released
   * alone, the second frees the allocation, and the end of the scenario does
   * not free it again.
   */
  method ReleaseAllThenFinish(a: string, b: string) returns (calls: seq<Call>)
    requires a != b
    ensures calls == [ReleaseCall(a), FreeCall]
  {
    var allocation, executioner := TwoHostsUp(a, b);
    LastNode(allocation.nodes, a);
    assert allocation.nodes - {a} == map[b := "server-b"];
    var relA := executioner.ReleaseHost(a);
    assert allocation.calls == [ReleaseCall(a)];
    LastNode(allocation.nodes, b);
    var relB := executioner.ReleaseHost(b);
    assert allocation.nodes == map[];
    executioner.Finish();
    calls := allocation.calls;
  }

  /** A fresh executioner over an allocation of the two nodes `a` and `b`, both set up. */
  method TwoHostsUp(a: string, b: string) returns (allocation: RackAttackAllocation, executioner: Executioner)
    ensures fresh(allocation) && fresh(executioner) && executioner.allocation == allocation
    ensures allocation.nodes == map[a := "server-a", b := "server-b"] && allocation.calls == []
    ensures executioner.hosts == {a, b} && !executioner.doNotReleaseAllocation && executioner.Valid()
  {
    EnvFlagSet(map[], "KEEP_ALLOCATION");
    allocation := new RackAttackAllocation(map[], map[a := "server-a", b := "server-b"]);
    executioner := new Executioner(allocation, None, None, map[], None, {});
    var upA := executioner.SetUpHost(a);
    var upB := executioner.SetUpHost(b);
  }
}
