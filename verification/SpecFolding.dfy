// applySpec: an OCI runtime spec fills the holes of a configuration, field by field.

module SpecFolding {
  import opened Wrappers
  import CpuQuota

  datatype IdMapping = IdMapping(hostId: nat, size: nat)

  /** The parts of config.json that are read; every block may be missing. */
  datatype Spec = Spec(args: Option<seq<string>>, root: Option<string>, linux: Option<Linux>)

  datatype Linux = Linux(memory: Option<int>, cpu: Option<Cpu>, pids: Option<int>, namespaces: seq<string>,
                         uids: seq<IdMapping>, gids: seq<IdMapping>, seccomp: bool)

  datatype Cpu = Cpu(quota: int, period: nat)

  datatype Rootless = Rootless(enabled: bool, hostUid: nat, hostGid: nat, size: nat)

  datatype Settings = Settings(rootfs: string, cmd: string, args: seq<string>, memory: int, cores: real, pids: int,
                               rootless: Rootless, seccomp: bool)

  /** A user namespace is asked for, with both mappings. */
  predicate WantsUserNamespace(l: Linux) { "user" in l.namespaces && l.uids != [] && l.gids != [] }

  function FillCommand(c: Settings, args: Option<seq<string>>): Settings {
    if args.None? || args.value == [] || c.cmd != "" then c
    else c.(cmd := args.value[0], args := if |args.value| > 1 then args.value[1..] else c.args)
  }

  function FillLimits(c: Settings, l: Linux, fl: real -> real): Settings {
    c.(memory := if l.memory.Some? && c.memory == 0 then l.memory.value else c.memory,
       cores := if l.cpu.Some? && c.cores == 0.0 && l.cpu.value.quota > 0
                then CpuQuota.Cores(fl, l.cpu.value.quota, l.cpu.value.period) else c.cores,
       pids := if l.pids.Some? && c.pids == 0 then l.pids.value else c.pids)
  }

  function FillLinux(c: Settings, l: Linux, fl: real -> real): Settings {
    FillLimits(c, l, fl).(
      rootless := if !c.rootless.enabled && WantsUserNamespace(l)
                  then Rootless(true, l.uids[0].hostId, l.gids[0].hostId, l.uids[0].size) else c.rootless,
      seccomp := c.seccomp || l.seccomp)
  }

  function Fill(c: Settings, s: Spec, fl: real -> real): Settings {
    var command := FillCommand(c, s.args);
    var rooted := if s.root.Some? && c.rootfs == "" then command.(rootfs := s.root.value) else command;
    if s.linux.Some? then FillLinux(rooted, s.linux.value, fl) else rooted
  }

  /** Folding the same spec in again changes nothing. */
  lemma {:induction false} FillIdempotent(c: Settings, s: Spec, fl: real -> real)
    ensures Fill(Fill(c, s, fl), s, fl) == Fill(c, s, fl)
  {
    if s.args.Some? && s.args.value != [] && c.cmd == "" && s.args.value[0] == "" {
      var once := FillCommand(c, s.args);
      assert FillCommand(once, s.args) == once;
    }
  }

  /** What the caller set wins over the spec, whatever the spec says. */
  lemma {:induction false} CallerWins(c: Settings, s: Spec, fl: real -> real)
    ensures var f := Fill(c, s, fl);
            && (c.rootfs != "" ==> f.rootfs == c.rootfs)
            && (c.cmd != "" ==> f.cmd == c.cmd && f.args == c.args)
            && (c.memory != 0 ==> f.memory == c.memory)
            && (c.cores != 0.0 ==> f.cores == c.cores)
            && (c.pids != 0 ==> f.pids == c.pids)
            && (c.rootless.enabled ==> f.rootless == c.rootless)
            && (c.seccomp ==> f.seccomp)
  {
  }

  /** The other half: where the caller set nothing the spec fills in, and where it does not, nothing changes. */
  lemma {:induction false} SpecFillsHoles(c: Settings, s: Spec, fl: real -> real)
    ensures c.rootfs == "" ==> Fill(c, s, fl).rootfs == if s.root.Some? then s.root.value else ""
    ensures c.cmd == "" && s.args.Some? && s.args.value != [] ==>
      Fill(c, s, fl).cmd == s.args.value[0] && (|s.args.value| > 1 ==> Fill(c, s, fl).args == s.args.value[1..])
    ensures c.cmd == "" && (s.args.None? || s.args.value == []) ==>
      Fill(c, s, fl).cmd == "" && Fill(c, s, fl).args == c.args
    ensures c.memory == 0 ==>
      Fill(c, s, fl).memory == if s.linux.Some? && s.linux.value.memory.Some? then s.linux.value.memory.value else 0
    ensures c.pids == 0 ==>
      Fill(c, s, fl).pids == if s.linux.Some? && s.linux.value.pids.Some? then s.linux.value.pids.value else 0
    ensures Fill(c, s, fl).seccomp == (c.seccomp || (s.linux.Some? && s.linux.value.seccomp))
  {
    if s.args.Some? && s.args.value != [] {
      assert Fill(c, s, fl).cmd == FillCommand(c, s.args).cmd;
    }
  }

  /** The cores are the spec's quota by its period, 100 ms if it gives none, up to one rounding. */
  lemma {:induction false} SpecFillsCores(c: Settings, s: Spec, fl: real -> real)
    requires CpuQuota.Rounding(fl) && c.cores == 0.0
    ensures
      if s.linux.Some? && s.linux.value.cpu.Some? && s.linux.value.cpu.value.quota > 0 then
        var cpu := s.linux.value.cpu.value;
        var exact := cpu.quota as real / (if cpu.period == 0 then 100000 else cpu.period) as real;
        CpuQuota.Abs(Fill(c, s, fl).cores - exact) <= exact / 9007199254740992.0
      else Fill(c, s, fl).cores == 0.0
  {
    if s.linux.Some? && s.linux.value.cpu.Some? && s.linux.value.cpu.value.quota > 0 {
      var cpu := s.linux.value.cpu.value;
      var period := if cpu.period == 0 then 100000 else cpu.period;
      CpuQuota.Positive(cpu.quota, period);
      Nearby(fl, cpu.quota as real / period as real);
    }
  }

  lemma Nearby(fl: real -> real, x: real)
    requires CpuQuota.Rounding(fl) && x > 0.0
    ensures CpuQuota.Abs(fl(x) - x) <= x / 9007199254740992.0
  {
    assert CpuQuota.UNIT * CpuQuota.Abs(x) == x / 9007199254740992.0;
  }

  /** A user namespace is wanted with the namespace and at least one mapping of each kind. */
  lemma {:induction false} WantedIff(l: Linux)
    ensures WantsUserNamespace(l) <==>
      (exists i :: 0 <= i < |l.namespaces| && l.namespaces[i] == "user") && |l.uids| > 0 && |l.gids| > 0
  {
  }

  /** A user namespace with both mappings makes the container rootless, with the first mapping of each. */
  lemma {:induction false} SpecFillsUserNamespace(c: Settings, s: Spec, fl: real -> real)
    requires !c.rootless.enabled
    ensures
      if s.linux.Some? && WantsUserNamespace(s.linux.value) then
        var l := s.linux.value;
        Fill(c, s, fl).rootless == Rootless(true, l.uids[0].hostId, l.gids[0].hostId, l.uids[0].size)
      else Fill(c, s, fl).rootless == c.rootless
  {
  }

  /** Arguments set without a command are the exception: exactly when the caller's arguments survive. */
  lemma {:induction false} ArgsKeptIff(c: Settings, s: Spec, fl: real -> real)
    ensures Fill(c, s, fl).args == c.args <==>
      c.cmd != "" || s.args.None? || |s.args.value| <= 1 || s.args.value[1..] == c.args
  {
    var command := FillCommand(c, s.args);
    assert Fill(c, s, fl).args == command.args;
  }

  class Config {
    var rootfs: string
    var cmd: string
    var args: seq<string>
    var memory: int
    var cores: real
    var pids: int
    var rootless: Rootless
    var seccomp: bool

    function Contents(): Settings
      reads this
    {
      Settings(rootfs, cmd, args, memory, cores, pids, rootless, seccomp)
    }

    constructor (c: Settings)
      ensures Contents() == c
    {
      rootfs, cmd, args, memory := c.rootfs, c.cmd, c.args, c.memory;
      cores, pids, rootless, seccomp := c.cores, c.pids, c.rootless, c.seccomp;
    }

    /** The statements of applySpec, in their order. */
    method ApplySpec(s: Spec, fl: real -> real)
      modifies this
      ensures Contents() == Fill(old(Contents()), s, fl)
    {
      if s.args.Some? && |s.args.value| > 0 {
        if cmd == "" {
          cmd := s.args.value[0];
          if |s.args.value| > 1 {
            args := s.args.value[1..];
          }
        }
      }
      if s.root.Some? && rootfs == "" {
        rootfs := s.root.value;
      }
      if s.linux.Some? {
        ApplyLimits(s.linux.value, fl);
        if !rootless.enabled {
          ApplyUserNamespace(s.linux.value);
        }
        if s.linux.value.seccomp {
          seccomp := true;
        }
      }
    }

    method ApplyLimits(l: Linux, fl: real -> real)
      modifies this`memory, this`cores, this`pids
      ensures Contents() == FillLimits(old(Contents()), l, fl)
    {
      if l.memory.Some? && memory == 0 {
        memory := l.memory.value;
      }
      if l.cpu.Some? && cores == 0.0 && l.cpu.value.quota > 0 {
        cores := CpuQuota.Cores(fl, l.cpu.value.quota, l.cpu.value.period);
      }
      if l.pids.Some? && pids == 0 {
        pids := l.pids.value;
      }
    }

    /** The loop over the namespaces, left at the first user namespace that can be honoured. */
    method ApplyUserNamespace(l: Linux)
      requires !rootless.enabled
      modifies this`rootless
      ensures rootless == if WantsUserNamespace(l)
                          then Rootless(true, l.uids[0].hostId, l.gids[0].hostId, l.uids[0].size) else old(rootless)
    {
      for i := 0 to |l.namespaces|
        invariant rootless == old(rootless)
        invariant WantsUserNamespace(l) ==> "user" !in l.namespaces[..i]
      {
        if l.namespaces[i] == "user" && |l.uids| > 0 && |l.gids| > 0 {
          rootless := Rootless(true, l.uids[0].hostId, l.gids[0].hostId, l.uids[0].size);
          return;
        }
      }
      assert l.namespaces[..|l.namespaces|] == l.namespaces;
    }
  }
}
