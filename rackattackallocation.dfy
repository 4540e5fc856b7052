/**
 * The allocation of test hosts from a rackattack provider: the requirements
 * sent for each host, and the bookkeeping of the nodes the allocation still
 * holds. The provider's client and the rootfs label are not modelled: a
 * requirement keeps the arguments the label was built from, and what the
 * allocation asks of the provider is recorded as a log of calls.
 */
module Rackattack {
  import opened Py
  import opened Values

  /**
   * `api.Requirement` for one host. `rootfs` and `product` are the two
   * arguments of `RootfsLabel`, whose label and image hint are not modelled.
   */
  datatype Requirement = Requirement(
    rootfs: PyValue,
    product: PyValue,
    hardwareConstraints: Kwargs,
    pool: PyValue,
    serverIDWildcard: PyValue)

  /** The requirement for one host's entry of `HOSTS`; a KeyError when it names no rootfs. */
  function RequirementOf(requirements: Kwargs): (r: Result<Requirement>)
    ensures r.Raise? <==> "rootfs" !in requirements
    ensures r.Raise? ==> r.exc == KeyError("rootfs")
  {
    if "rootfs" !in requirements then Raise(KeyError("rootfs"))
    else
      var pool := if "pool" in requirements then requirements["pool"] else PyNone;
      Ok(Requirement(
        requirements["rootfs"],
        Get(requirements, "product", PyStr("rootfs")),
        requirements - {"rootfs"},
        pool,
        Get(requirements, "serverIDWildcard", PyStr(""))))
  }

  /**
   * The fields of a requirement: `pool` is the host's own or None,
   * `serverIDWildcard` defaults to "" and `product` to 'rootfs', and the
   * hardware constraints are the host's entry with only 'rootfs' taken out,
   * so that putting it back gives the entry again.
   */
  lemma RequirementFields(requirements: Kwargs)
    requires "rootfs" in requirements
    ensures var r := RequirementOf(requirements).value;
      && r.rootfs == requirements["rootfs"]
      && r.pool == (if "pool" in requirements then requirements["pool"] else PyNone)
      && r.serverIDWildcard == (if "serverIDWildcard" in requirements then requirements["serverIDWildcard"] else PyStr(""))
      && r.product == (if "product" in requirements then requirements["product"] else PyStr("rootfs"))
      && "rootfs" !in r.hardwareConstraints
      && r.hardwareConstraints.Keys == requirements.Keys - {"rootfs"}
      && r.hardwareConstraints["rootfs" := r.rootfs] == requirements
  {
    var r := RequirementOf(requirements).value;
    assert r.hardwareConstraints["rootfs" := r.rootfs].Keys == requirements.Keys;
  }

  /** The requirements of all hosts, by name; a KeyError when some host names no rootfs. */
  ghost function Requirements(hosts: map<string, Kwargs>): (r: Result<map<string, Requirement>>)
  {
    if exists name :: name in hosts && "rootfs" !in hosts[name] then Raise(KeyError("rootfs"))
    else Ok(map name | name in hosts :: RequirementOf(hosts[name]).value)
  }

  /**
   * The requirements name exactly the hosts given, each with its own
   * requirement, and fail exactly when some host names no rootfs.
   */
  lemma RequirementsPerHost(hosts: map<string, Kwargs>)
    ensures Requirements(hosts).Raise? <==> exists name :: name in hosts && "rootfs" !in hosts[name]
    ensures Requirements(hosts).Ok? ==> Requirements(hosts).value.Keys == hosts.Keys
    ensures Requirements(hosts).Ok? ==> forall name | name in hosts :: Ok(Requirements(hosts).value[name]) == RequirementOf(hosts[name])
  {
  }

  /** What the allocation asked of the provider. */
  datatype Call = ReleaseCall(name: string) | FreeCall

  class RackAttackAllocation {
    /** `HOSTS` of the test: each host's requirements by name. */
    const hosts: map<string, Kwargs>
    /** The nodes the allocation still holds, by host name, as the provider's node ids. */
    var nodes: map<string, string>
    /** The latest overall percent the provider reported. */
    var overallPercent: int
    /** The release and free calls made on the provider's allocation, in order. */
    var calls: seq<Call>

    /**
     * The allocation once the provider granted `nodes`. Asking for them and
     * waiting for them are not modelled.
     */
    constructor(hosts: map<string, Kwargs>, nodes: map<string, string>)
      ensures this.hosts == hosts && this.nodes == nodes
      ensures overallPercent == 0 && calls == []
    {
      this.hosts := hosts;
      this.nodes := nodes;
      overallPercent := 0;
      calls := [];
    }

    /** `_rackattackRequirements`: fill the result one host at a time. */
    method RackattackRequirements() returns (r: Result<map<string, Requirement>>)
      ensures r == Requirements(hosts)
    {
      var result: map<string, Requirement> := map[];
      var remaining := hosts.Keys;
      while remaining != {}
        invariant remaining <= hosts.Keys
        invariant result.Keys == hosts.Keys - remaining
        invariant forall name | name in result :: Ok(result[name]) == RequirementOf(hosts[name])
        decreases remaining
      {
        var name :| name in remaining;
        var requirement := RequirementOf(hosts[name]);
        if requirement.Raise? {
          return Raise(requirement.exc);
        }
        result := result[name := requirement.value];
        remaining := remaining - {name};
      }
      assert result == map name | name in hosts :: RequirementOf(hosts[name]).value;
      r := Ok(result);
    }

    /** `free`: give the whole allocation back. */
    method Free()
      modifies this
      ensures calls == old(calls) + [FreeCall]
      ensures nodes == old(nodes) && overallPercent == old(overallPercent)
    {
      calls := calls + [FreeCall];
    }

    /**
     * `releaseHost`: an unknown name raises ValueError and changes nothing;
     * otherwise the last node frees the whole allocation, any other node is
     * released alone, and the name leaves the nodes.
     */
    method ReleaseHost(name: string) returns (r: Result<()>)
      modifies this
      ensures name !in old(nodes) ==> r == Raise(ValueError(name)) && unchanged(this)
      ensures name in old(nodes) ==> r.Ok? && nodes == old(nodes) - {name}
      ensures name in old(nodes) ==>
        calls == old(calls) + [if |old(nodes)| == 1 then FreeCall else ReleaseCall(name)]
      ensures overallPercent == old(overallPercent)
    {
      if name !in nodes {
        return Raise(ValueError(name));
      }
      if |nodes| == 1 {
        Free();
      } else {
        calls := calls + [ReleaseCall(name)];
      }
      nodes := nodes - {name};
      r := Ok(());
    }

    /** `_progress`: keep the latest overall percent; the event is ignored. */
    method Progress(overallPercent: int, event: PyValue)
      modifies this
      ensures this.overallPercent == overallPercent
      ensures nodes == old(nodes) && calls == old(calls)
    {
      this.overallPercent := overallPercent;
    }
  }

  /** The last node of an allocation is the one whose release frees it. */
  lemma LastNode(nodes: map<string, string>, name: string)
    requires name in nodes
    ensures |nodes| == 1 <==> nodes - {name} == map[]
  {
    if nodes - {name} == map[] {
      assert forall k | k in nodes && k != name :: k in nodes - {name};
      assert nodes.Keys == {name};
    } else {
      var other :| other in nodes - {name};
      assert {name, other} <= nodes.Keys;
      assert |{name, other}| == 2;
      SubsetSize({name, other}, nodes.Keys);
    }
  }

  lemma SubsetSize<T>(a: set<T>, b: set<T>)
    requires a <= b
    ensures |a| <= |b|
  {
    assert b == a + (b - a);
  }

  /**
   * Releasing both nodes of a two-node allocation, one at a time, releases
   * the first alone and frees the allocation with the second; releasing a
   * name that is gone then raises ValueError and asks nothing more.
   */
  method ReleaseBoth(a: string, b: string) returns (calls: seq<Call>, left: map<string, string>, again: Result<()>)
    requires a != b
    ensures calls == [ReleaseCall(a), FreeCall] && left == map[]
    ensures again == Raise(ValueError(a))
  {
    var allocation := new RackAttackAllocation(map[], map[a := "node-a", b := "node-b"]);
    var first := allocation.ReleaseHost(a);
    assert allocation.nodes == map[b := "node-b"];
    var second := allocation.ReleaseHost(b);
    again := allocation.ReleaseHost(a);
    calls := allocation.calls;
    left := allocation.nodes;
  }
}
