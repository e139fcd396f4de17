// cgroups v2: creating a group with limits, its unwinding on failure, and its removal.

module Cgroups {
  import CpuQuota

  datatype Limits = Limits(memoryBytes: int, cpuQuota: real, pidsMax: int)

  /** A value of 0 in a limit file stands for the kernel's "max". */
  datatype Group = Group(memoryMax: int, cpuMax: int, pidsMax: int, procs: set<nat>)

  const FRESH := Group(0, 0, 0, {})

  /** The limit files of a group once every requested limit is written. */
  function Limited(g: Group, fl: real -> real, l: Limits): Group {
    Group(if l.memoryBytes > 0 then l.memoryBytes else g.memoryMax,
          if l.cpuQuota > 0.0 then CpuQuota.Quota(fl, l.cpuQuota) else g.cpuMax,
          if l.pidsMax > 0 then l.pidsMax else g.pidsMax,
          g.procs)
  }

  /** Field by field: a limit above zero is in its file as asked for, the others are left alone. */
  lemma {:induction false} LimitedIs(g: Group, fl: real -> real, l: Limits)
    ensures Limited(g, fl, l).procs == g.procs
    ensures if l.memoryBytes > 0
      then Limited(g, fl, l).memoryMax == l.memoryBytes else Limited(g, fl, l).memoryMax == g.memoryMax
    ensures if l.pidsMax > 0 then Limited(g, fl, l).pidsMax == l.pidsMax else Limited(g, fl, l).pidsMax == g.pidsMax
    ensures l.cpuQuota <= 0.0 ==> Limited(g, fl, l).cpuMax == g.cpuMax
    ensures l.cpuQuota > 0.0 && CpuQuota.Rounding(fl) && l.cpuQuota * 100000.0 < 2251799813685248.0 ==>
      CpuQuota.Max(1000, (l.cpuQuota * 100000.0).Floor) - 1 <= Limited(g, fl, l).cpuMax
        <= CpuQuota.Max(1000, (l.cpuQuota * 100000.0).Floor) + 1
  {
    if l.cpuQuota > 0.0 && CpuQuota.Rounding(fl) && l.cpuQuota * 100000.0 < 2251799813685248.0 {
      CpuQuota.OneRounding(fl, l.cpuQuota);
    }
  }

  ghost predicate SameElsewhere(a: map<nat, Group>, b: map<nat, Group>, pid: nat) {
    forall p :: p != pid ==> (p in a <==> p in b) && (p in a ==> a[p] == b[p])
  }

  /** The groups "myrun-<pid>" under the hierarchy's root, by pid. */
  class Hierarchy {
    var groups: map<nat, Group>
    ghost var refusals: nat  // how many operations have failed that could have been done

    constructor ()
      ensures groups == map[] && refusals == 0
    {
      refusals := 0;
      groups := map[];
    }

    /** os.Remove on a cgroup directory: refused while a process is in it. */
    method Close(pid: nat) returns (ok: bool, ghost trouble: bool)
      modifies this
      ensures trouble ==> groups == old(groups)
      ensures !trouble ==>
        groups == if pid in old(groups) && old(groups)[pid].procs != {} then old(groups) else old(groups) - {pid}
      ensures !trouble ==> ok == (pid !in old(groups) || old(groups)[pid].procs == {})
      ensures refusals == old(refusals) + if trouble then 1 else 0
    {
      ok, trouble := true, false;
      if pid in groups {
        ok := *;
        trouble := !ok && groups[pid].procs == {};
        refusals := refusals + if trouble then 1 else 0;
        ok := ok && groups[pid].procs == {};
        if ok {
          groups := groups - {pid};
        }
      } else {
        assert groups - {pid} == groups;
      }
    }

    method Write() returns (ok: bool)
      modifies this`refusals
      ensures refusals == old(refusals) + if ok then 0 else 1
    {
      ok := *;
      refusals := refusals + if ok then 0 else 1;
    }

    /** Writes one limit file of an existing group; on failure the group is closed. */
    method SetLimit(pid: nat, g: Group) returns (ok: bool, ghost trouble: bool)
      requires pid in groups && groups[pid].procs == g.procs
      modifies this
      ensures ok ==> !trouble && groups == old(groups)[pid := g]
      ensures !ok ==> groups == if trouble || g.procs != {} then old(groups) else old(groups) - {pid}
      ensures refusals == old(refusals) + (if ok then 0 else 1) + (if trouble then 1 else 0)
    {
      trouble := false;
      ok := Write();
      if ok {
        groups := groups[pid := g];
      } else {
        var _, t := Close(pid);
        trouble := t;
      }
    }

    /** The float is truncated, and too small a quota is raised to the least the kernel takes. */
    method QuotaFor(cpus: real, fl: real -> real) returns (quota: int)
      ensures quota == CpuQuota.Quota(fl, cpus)
    {
      quota := CpuQuota.Truncate(fl(cpus * CpuQuota.PERIOD as real));
      if quota < CpuQuota.LEAST {
        quota := CpuQuota.LEAST;
      }
    }

    /**
     Success sets exactly the requested limits on the group of this pid and touches no
     other group. Failure unwinds: the group is gone unless it held processes already or
     the removal itself failed.
     */
    method Create(pid: nat, lim: Limits, fl: real -> real) returns (ok: bool, ghost trouble: bool)
      modifies this
      ensures ok ==>
        groups == old(groups)[pid := Limited(if pid in old(groups) then old(groups)[pid] else FRESH, fl, lim)]
      ensures !ok && !trouble && pid !in old(groups) ==> groups == old(groups)
      ensures !ok && !trouble && pid in old(groups) && old(groups)[pid].procs == {} ==>
        groups == old(groups) || groups == old(groups) - {pid}
      ensures SameElsewhere(groups, old(groups), pid)
      ensures refusals == old(refusals) + (if ok then 0 else 1) + (if trouble then 1 else 0)
    {
      trouble := false;
      ok := Write();
      if !ok {
        return;
      }
      var g := if pid in groups then groups[pid] else FRESH;
      groups := groups[pid := g];
      ok, trouble := SetLimits(pid, g, lim, fl);
    }

    /** The limit files that are asked for, one after the other, up to the first that cannot be written. */
    method SetLimits(pid: nat, before: Group, lim: Limits, fl: real -> real) returns (ok: bool, ghost trouble: bool)
      requires pid in groups && groups[pid] == before
      modifies this
      ensures ok ==> !trouble && groups == old(groups)[pid := Limited(before, fl, lim)]
      ensures !ok && !trouble && before.procs == {} ==> groups == old(groups) - {pid}
      ensures SameElsewhere(groups, old(groups), pid)
      ensures refusals == old(refusals) + (if ok then 0 else 1) + (if trouble then 1 else 0)
    {
      ok, trouble := true, false;
      var g := before;
      if lim.memoryBytes > 0 {
        g := g.(memoryMax := lim.memoryBytes);
        ok, trouble := SetLimit(pid, g);
        if !ok { return; }
      }
      assert groups == old(groups)[pid := g];
      if lim.cpuQuota > 0.0 {
        var quota := QuotaFor(lim.cpuQuota, fl);
        g := g.(cpuMax := quota);
        ok, trouble := SetLimit(pid, g);
        if !ok { return; }
      }
      assert groups == old(groups)[pid := g];
      if lim.pidsMax > 0 {
        g := g.(pidsMax := lim.pidsMax);
        ok, trouble := SetLimit(pid, g);
      }
    }

    /** Writing the pid to cgroup.procs moves the process out of every other group. */
    method AddPid(pid: nat) returns (ok: bool)
      requires pid in groups
      modifies this
      ensures !ok ==> groups == old(groups)
      ensures refusals == old(refusals) + if ok then 0 else 1
      ensures ok ==> groups.Keys == old(groups).Keys && forall p :: p in groups ==>
        groups[p] == old(groups)[p].(procs := if p == pid
          then old(groups)[p].procs + {pid} else old(groups)[p].procs - {pid})
    {
      ok := Write();
      if ok {
        groups := map p | p in groups ::
          groups[p].(procs := if p == pid then groups[p].procs + {pid} else groups[p].procs - {pid});
      }
    }
  }
}
