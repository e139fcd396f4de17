// The parent/child start protocol of Run and Child as a transition system: every
// fallible step may fail, the two processes interleave freely, and between any two of
// their steps other programs change the host and its chains, one command at a time.

module HostWorld {
  import opened IptablesChains
  import opened PublishRules
  import opened RuleCommands

  datatype Kind = Cgroup | Link | Mounted | Dir | Helper

  /** The part of the host that Run touches: names of each kind, and the shared chains. */
  datatype World = World(cgroups: set<string>, links: set<string>, mounts: set<string>, dirs: set<string>,
                         helpers: set<string>, tables: Tables) {
    function Names(kind: Kind): set<string> {
      match kind
      case Cgroup => cgroups
      case Link => links
      case Mounted => mounts
      case Dir => dirs
      case Helper => helpers
    }

    function With(kind: Kind, names: set<string>): World {
      match kind
      case Cgroup => this.(cgroups := names)
      case Link => this.(links := names)
      case Mounted => this.(mounts := names)
      case Dir => this.(dirs := names)
      case Helper => this.(helpers := names)
    }
  }

  /** One change by anyone. */
  datatype Act = Make(kind: Kind, name: string) | Drop(kind: Kind, name: string) | Rule(cmd: Command)

  function Perform(w: World, act: Act): World {
    match act
    case Make(kind, name) => w.With(kind, w.Names(kind) + {name})
    case Drop(kind, name) => w.With(kind, w.Names(kind) - {name})
    case Rule(cmd) => w.(tables := Do(w.tables, cmd))
  }

  function PerformAll(w: World, acts: seq<Act>): World {
    if acts == [] then w else Perform(PerformAll(w, acts[..|acts| - 1]), acts[|acts| - 1])
  }

  /** What Run decided before its first step, and the names it will use. */
  datatype Setting = Setting(rootless: bool, limits: bool, image: bool, c: Container, cgroup: string, scratch: string)

  function Name(k: Setting, kind: Kind): string {
    match kind
    case Cgroup => k.cgroup
    case Link => HostVeth(k.c.id)
    case Mounted => k.scratch
    case Dir => k.scratch
    case Helper => k.c.id
  }

  /** The act concerns something that belongs to this Run alone. */
  predicate Ours(k: Setting, act: Act) {
    match act
    case Make(kind, name) => name == Name(k, kind)
    case Drop(kind, name) => name == Name(k, kind)
    case Rule(cmd) => Concerns(cmd, k.c.id)
  }

  /** What this Run did to a thing of its own last. */
  datatype Phase = Untouched | Present | Removed

  datatype Held = Held(cgroup: Phase, link: Phase, mount: Phase, dir: Phase, helper: Phase) {
    function Of(kind: Kind): Phase {
      match kind
      case Cgroup => cgroup
      case Link => link
      case Mounted => mount
      case Dir => dir
      case Helper => helper
    }

    function With(kind: Kind, phase: Phase): Held {
      match kind
      case Cgroup => this.(cgroup := phase)
      case Link => this.(link := phase)
      case Mounted => this.(mount := phase)
      case Dir => this.(dir := phase)
      case Helper => this.(helper := phase)
    }
  }

  function Hold(k: Setting, h: Held, act: Act): Held {
    if !Ours(k, act) || act.Rule? then h else h.With(act.kind, if act.Make? then Present else Removed)
  }

  function HoldAll(k: Setting, h: Held, acts: seq<Act>): Held {
    if acts == [] then h else Hold(k, HoldAll(k, h, acts[..|acts| - 1]), acts[|acts| - 1])
  }

  function NotOurs(k: Setting, acts: seq<Act>): seq<Act> {
    if acts == [] then []
    else
      var init, last := NotOurs(k, acts[..|acts| - 1]), acts[|acts| - 1];
      if Ours(k, last) then init else init + [last]
  }

  // ---- this Run and the rest of the host do not mix

  /** Things of this Run are as it left them. */
  ghost predicate Mirror(k: Setting, start: World, h: Held, w: World) {
    forall kind :: MirrorOf(k, start, h.Of(kind), w, kind)
  }

  predicate MirrorOf(k: Setting, start: World, phase: Phase, w: World, kind: Kind) {
    match phase
    case Present => Name(k, kind) in w.Names(kind)
    case Removed => Name(k, kind) !in w.Names(kind)
    case Untouched => Name(k, kind) in w.Names(kind) <==> Name(k, kind) in start.Names(kind)
  }

  /** Everything else is as in a host on which this Run's own acts never happened. */
  ghost predicate Elsewhere(k: Setting, w: World, apart: World) {
    && (forall kind, name :: name != Name(k, kind) ==> (name in w.Names(kind) <==> name in apart.Names(kind)))
    && RuleCommands.Rest(w.tables, k.c.id) == apart.tables
  }

  lemma NamesAfter(w: World, act: Act, kind: Kind)
    ensures Perform(w, act).Names(kind) ==
      match act
      case Make(other, name) => if other == kind then w.Names(kind) + {name} else w.Names(kind)
      case Drop(other, name) => if other == kind then w.Names(kind) - {name} else w.Names(kind)
      case Rule(_) => w.Names(kind)
  {
  }

  lemma HeldAfter(k: Setting, h: Held, act: Act, kind: Kind)
    ensures Hold(k, h, act).Of(kind) ==
      if act.Rule? || act.kind != kind || act.name != Name(k, kind) then h.Of(kind)
      else if act.Make? then Present else Removed
  {
  }

  lemma ActMirrors(k: Setting, start: World, h: Held, w: World, act: Act)
    requires Mirror(k, start, h, w)
    ensures Mirror(k, start, Hold(k, h, act), Perform(w, act))
  {
    hide Perform, Hold;
    forall kind
      ensures MirrorOf(k, start, Hold(k, h, act).Of(kind), Perform(w, act), kind)
    {
      assert MirrorOf(k, start, h.Of(kind), w, kind);
      NamesAfter(w, act, kind);
      HeldAfter(k, h, act, kind);
    }
  }

  lemma ActElsewhere(k: Setting, w: World, apart: World, act: Act)
    requires Elsewhere(k, w, apart)
    ensures Elsewhere(k, Perform(w, act), if Ours(k, act) then apart else Perform(apart, act))
  {
    var other := if Ours(k, act) then apart else Perform(apart, act);
    forall kind, name | name != Name(k, kind)
      ensures name in Perform(w, act).Names(kind) <==> name in other.Names(kind)
    {
      assert name in w.Names(kind) <==> name in apart.Names(kind);
      NamesAfter(w, act, kind);
      NamesAfter(apart, act, kind);
    }
    if act.Rule? {
      PartDo(w.tables, act.cmd, k.c.id, false);
    } else {
      TablesAfter(w, act);
      TablesAfter(apart, act);
    }
  }

  lemma TablesAfter(w: World, act: Act)
    ensures Perform(w, act).tables == if act.Rule? then Do(w.tables, act.cmd) else w.tables
  {
  }

  lemma {:induction false} ActsMirror(k: Setting, start: World, h: Held, w: World, acts: seq<Act>)
    requires Mirror(k, start, h, w)
    ensures Mirror(k, start, HoldAll(k, h, acts), PerformAll(w, acts))
  {
    if acts != [] {
      ActsMirror(k, start, h, w, acts[..|acts| - 1]);
      ActMirrors(k, start, HoldAll(k, h, acts[..|acts| - 1]), PerformAll(w, acts[..|acts| - 1]), acts[|acts| - 1]);
    }
  }

  lemma {:induction false} ActsElsewhere(k: Setting, w: World, apart: World, acts: seq<Act>)
    requires Elsewhere(k, w, apart)
    ensures Elsewhere(k, PerformAll(w, acts), PerformAll(apart, NotOurs(k, acts)))
  {
    if acts != [] {
      var init, last := acts[..|acts| - 1], acts[|acts| - 1];
      ActsElsewhere(k, w, apart, init);
      ActElsewhere(k, PerformAll(w, init), PerformAll(apart, NotOurs(k, init)), last);
      var kept := NotOurs(k, init);
      assert (kept + [last])[..|kept|] == kept;
    }
  }

  lemma {:induction false} PerformAllConcat(w: World, a: seq<Act>, b: seq<Act>)
    ensures PerformAll(w, a + b) == PerformAll(PerformAll(w, a), b)
  {
    if b == [] {
      assert a + b == a;
    } else {
      PerformAllConcat(w, a, b[..|b| - 1]);
      assert (a + b)[..|a + b| - 1] == a + b[..|b| - 1];
    }
  }

  /** Acts that touch none of our rules leave them alone. */
  lemma {:induction false} OwnRulesUntouched(k: Setting, w: World, acts: seq<Act>)
    requires forall i :: 0 <= i < |acts| && acts[i].Rule? ==> !Concerns(acts[i].cmd, k.c.id)
    ensures Own(PerformAll(w, acts).tables, k.c.id) == Own(w.tables, k.c.id)
  {
    if acts != [] {
      var last := acts[|acts| - 1];
      OwnRulesUntouched(k, w, acts[..|acts| - 1]);
      if last.Rule? {
        PartDo(PerformAll(w, acts[..|acts| - 1]).tables, last.cmd, k.c.id, true);
      }
    }
  }
}

module StartProtocol {
  import opened Wrappers
  import opened IptablesChains
  import opened PublishRules
  import opened RuleCommands
  import opened HostWorld

  /** The parent's next statement. */
  datatype Pc =
    | AtPreflight | AtResolve | AtPipe | AtStart | AtCloseRead | AtCreate | AtAddPid
    | AtBridge | AtMasquerade | AtFromBridge | AtToBridge | AtStaleLink | AtAddLink | AtConfigure | AtPublish
    | AtSlirp | AtRelease | AtWait | AtCgClose | AtUnpublish | AtUnlinkLast | AtSlirpDown
    | AtUnlink | AtKill | AtReapKilled | AtCgAfterKill
    | AtDeferredClose | AtUnmount | AtRemoveScratch | Done

  datatype Child = Unborn | Paused | Running | Zombie | Reaped

  /**
   The two processes, the pipe, the parent's handles, how many rules went in and out again,
   and what became of this Run's own things.
   */
  datatype Core = Core(
    pc: Pc, child: Child, doomed: bool, readEnd: bool, writeEnd: bool, released: bool, member: bool,
    cg: bool, net: bool, slirp: bool, added: nat, deleted: nat, held: Held)

  datatype Sys = Sys(core: Core, world: World)

  /** How the parent's next step turns out. */
  datatype Choice =
    | Ok
    | Fail
    | FailAfterMaking                  // the directory was made and is removed again
    | Shared(act: Act, fails: bool)    // the bridge or a base rule was missing and was put there

  datatype Action =
    | Parent(choice: Choice)
    | Read              // the child's read of fd 3 returns at end of file
    | Exit              // the user command (or the child's set-up code) ends
    | Die               // a SIGKILL from the parent takes effect
    | Struck            // the child is killed from outside
    | Others(act: Act)  // another program changes something that is not this Run's

  const BRIDGE := "myrun0"

  predicate Alive(ch: Child) { ch == Paused || ch == Running }

  const NOTHING_HELD := Held(Untouched, Untouched, Untouched, Untouched, Untouched)

  function Init(w: World): Sys {
    Sys(Core(AtPreflight, Unborn, false, false, false, false, false, false, false, false, 0, 0, NOTHING_HELD), w)
  }

  /** A step of the parent: where it goes and what it does to the host. */
  datatype Move = Stuck | To(core: Core, acts: seq<Act>)

  function RuleCount(k: Setting): nat { 3 * |k.c.ports| }

  /** rmdir of the cgroup: the kernel refuses while the child lives in it. */
  function CloseCgroup(k: Setting, s: Core): seq<Act> {
    if s.cg && !(s.member && Alive(s.child)) then [Drop(Cgroup, k.cgroup)] else []
  }

  function ParentStep(k: Setting, s: Core, ch: Choice): Move {
    match s.pc
    case AtPreflight | AtResolve | AtPipe | AtStart | AtCloseRead => OpeningStep(k, s, ch)
    case AtCreate | AtAddPid => CgroupStep(k, s, ch)
    case AtBridge | AtMasquerade | AtFromBridge | AtToBridge => BridgeStep(s, ch)
    case AtStaleLink | AtAddLink | AtConfigure | AtPublish | AtUnlink => LinkStep(k, s, ch)
    case AtSlirp => SlirpStep(k, s, ch)
    case AtRelease | AtWait | AtKill | AtReapKilled => DecideStep(s, ch)
    case AtCgClose | AtCgAfterKill | AtUnpublish | AtUnlinkLast | AtSlirpDown => GiveBackStep(k, s, ch)
    case AtDeferredClose | AtUnmount | AtRemoveScratch => DeferredStep(k, s, ch)
    case Done => Stuck
  }

  /** Up to the paused child. */
  function OpeningStep(k: Setting, s: Core, ch: Choice): Move {
    match s.pc
    case AtPreflight =>
      if ch.Ok? then To(s.(pc := AtResolve), [])
      else if ch.Fail? && k.rootless then To(s.(pc := Done), []) else Stuck
    case AtResolve =>
      if !k.image then (if ch.Ok? then To(s.(pc := AtPipe), []) else Stuck)
      else if ch.Ok? then To(s.(pc := AtPipe), [Make(Dir, k.scratch), Make(Mounted, k.scratch)])
      else if ch.Fail? then To(s.(pc := Done), [])
      else if ch.FailAfterMaking? then To(s.(pc := Done), [Make(Dir, k.scratch), Drop(Dir, k.scratch)])
      else Stuck
    case AtPipe =>
      if ch.Ok? then To(s.(pc := AtStart, readEnd := true, writeEnd := true), [])
      else if ch.Fail? then To(s.(pc := AtUnmount), []) else Stuck
    case AtStart =>
      if ch.Ok? then To(s.(pc := AtCloseRead, child := Paused), [])
      else if ch.Fail? then To(s.(pc := AtDeferredClose, readEnd := false), []) else Stuck
    case AtCloseRead =>
      if ch.Ok? then
        To(s.(pc := if k.rootless then AtSlirp else if k.limits then AtCreate else AtBridge, readEnd := false), [])
      else Stuck
    case _ => Stuck
  }

  /** cgroups.Create and AddPID. */
  function CgroupStep(k: Setting, s: Core, ch: Choice): Move {
    match s.pc
    case AtCreate =>
      if ch.Ok? then To(s.(pc := AtAddPid, cg := true), [Make(Cgroup, k.cgroup)])
      else if ch.Fail? then To(s.(pc := AtKill), [])
      else if ch.FailAfterMaking? then To(s.(pc := AtKill), [Make(Cgroup, k.cgroup), Drop(Cgroup, k.cgroup)])
      else Stuck
    case AtAddPid =>
      if ch.Ok? then To(s.(pc := AtBridge, member := true), [])
      else if ch.Fail? then To(s.(pc := AtKill), []) else Stuck
    case _ => Stuck
  }

  /** A base rule is there, or it is missing and appended. */
  function BaseStep(s: Core, ch: Choice, base: Placement, next: Pc): Move {
    if ch.Ok? then To(s.(pc := next), [])
    else if ch == Shared(Rule(Add(base)), false) then To(s.(pc := next), [ch.act])
    else Stuck
  }

  /** EnsureBridge. */
  function BridgeStep(s: Core, ch: Choice): Move {
    match s.pc
    case AtBridge =>
      if ch.Ok? then To(s.(pc := AtMasquerade), [])
      else if ch.Fail? then To(s.(pc := AtKill), [])
      else if ch.Shared? && ch.act == Make(Link, BRIDGE)
        then To(s.(pc := if ch.fails then AtKill else AtMasquerade), [ch.act])
      else Stuck
    case AtMasquerade =>
      if ch.Fail? then To(s.(pc := AtKill), []) else BaseStep(s, ch, Placement(Postrouting, Masquerade), AtFromBridge)
    case AtFromBridge => BaseStep(s, ch, Placement(Forward, FromBridge), AtToBridge)
    case AtToBridge => BaseStep(s, ch, Placement(Forward, ToBridge), AtStaleLink)
    case _ => Stuck
  }

  /** The rest of network.Setup, command by command. */
  function LinkStep(k: Setting, s: Core, ch: Choice): Move {
    match s.pc
    case AtStaleLink => if ch.Ok? then To(s.(pc := AtAddLink), [Drop(Link, HostVeth(k.c.id))]) else Stuck
    case AtAddLink =>
      if ch.Ok? then To(s.(pc := AtConfigure), [Make(Link, HostVeth(k.c.id))])
      else if ch.Fail? then To(s.(pc := AtKill), []) else Stuck
    case AtConfigure =>
      if ch.Ok? then To(s.(pc := AtPublish), []) else if ch.Fail? then To(s.(pc := AtUnlink), []) else Stuck
    case AtPublish =>
      if s.added >= RuleCount(k) then (if ch.Ok? then To(s.(pc := AtRelease, net := true), []) else Stuck)
      else if ch.Ok? then To(s.(added := s.added + 1), [Rule(Add(AllRules(k.c)[s.added]))])
      else if ch.Fail? then To(s.(pc := AtUnlink), []) else Stuck
    case AtUnlink => if ch.Ok? then To(s.(pc := AtKill), [Drop(Link, HostVeth(k.c.id))]) else Stuck
    case _ => Stuck
  }

  /** slirp.Setup; its failure is not fatal. */
  function SlirpStep(k: Setting, s: Core, ch: Choice): Move {
    if ch.Ok? then To(s.(pc := AtRelease, slirp := true), [Make(Helper, k.c.id)])
    else if ch.Fail? then To(s.(pc := AtRelease), []) else Stuck
  }

  /** The release and the wait, or the kill and the wait. */
  function DecideStep(s: Core, ch: Choice): Move {
    match s.pc
    case AtRelease => if ch.Ok? then To(s.(pc := AtWait, writeEnd := false, released := true), []) else Stuck
    case AtWait => if ch.Ok? && s.child.Zombie? then To(s.(pc := AtCgClose, child := Reaped), []) else Stuck
    case AtKill => if ch.Ok? then To(s.(pc := AtReapKilled, doomed := true), []) else Stuck
    case AtReapKilled => if ch.Ok? && s.child.Zombie? then To(s.(pc := AtCgAfterKill, child := Reaped), []) else Stuck
    case _ => Stuck
  }

  /** What is given back once the child is reaped. */
  function GiveBackStep(k: Setting, s: Core, ch: Choice): Move {
    if !ch.Ok? then Stuck
    else
      match s.pc
      case AtCgClose => To(s.(pc := if s.net then AtUnpublish else AtSlirpDown), CloseCgroup(k, s))
      case AtCgAfterKill => To(s.(pc := AtDeferredClose), CloseCgroup(k, s))
      case AtUnpublish =>
        if s.deleted >= RuleCount(k) then To(s.(pc := AtUnlinkLast), [])
        else To(s.(deleted := s.deleted + 1), [Rule(Del(AllRules(k.c)[s.deleted]))])
      case AtUnlinkLast => To(s.(pc := AtSlirpDown), [Drop(Link, HostVeth(k.c.id))])
      case AtSlirpDown => To(s.(pc := AtDeferredClose), if s.slirp then [Drop(Helper, k.c.id)] else [])
      case _ => Stuck
  }

  /** The deferred calls. */
  function DeferredStep(k: Setting, s: Core, ch: Choice): Move {
    if !ch.Ok? then Stuck
    else
      match s.pc
      case AtDeferredClose => To(s.(pc := AtUnmount, writeEnd := false), [])
      case AtUnmount => To(s.(pc := AtRemoveScratch), if k.image then [Drop(Mounted, k.scratch)] else [])
      case AtRemoveScratch => To(s.(pc := Done), if k.image then [Drop(Dir, k.scratch)] else [])
      case _ => Stuck
  }

  function CoreStep(k: Setting, s: Core, a: Action): Move {
    match a
    case Parent(ch) => ParentStep(k, s, ch)
    case Read => if s.child == Paused && !s.writeEnd && !s.doomed then To(s.(child := Running), []) else Stuck
    case Exit => if s.child == Running then To(s.(child := Zombie), []) else Stuck
    case Die => if Alive(s.child) && s.doomed then To(s.(child := Zombie), []) else Stuck
    case Struck => if Alive(s.child) then To(s.(child := Zombie), []) else Stuck
    case Others(act) => if Ours(k, act) then Stuck else To(s, [act])
  }

  /** One action of anyone; None when it is not possible in this state. */
  function Step(k: Setting, s: Sys, a: Action): Option<Sys> {
    match CoreStep(k, s.core, a)
    case Stuck => None
    case To(core, acts) => Some(Sys(core.(held := HoldAll(k, s.core.held, acts)), PerformAll(s.world, acts)))
  }

  /** The state after a whole run of actions, if the run is possible. */
  function Run(k: Setting, s: Sys, acts: seq<Action>): Option<Sys> {
    if acts == [] then Some(s)
    else
      match Run(k, s, acts[..|acts| - 1])
      case None => None
      case Some(before) => Step(k, before, acts[|acts| - 1])
  }

  /** What an action does that does not belong to this Run alone. */
  function SharedBy(a: Action): seq<Act> {
    match a
    case Others(act) => [act]
    case Parent(Shared(act, _)) => [act]
    case _ => []
  }

  /** The host as the other programs, the bridge and the base rules make it. */
  function WithoutUs(w: World, acts: seq<Action>): World {
    if acts == [] then w else PerformAll(WithoutUs(w, acts[..|acts| - 1]), SharedBy(acts[|acts| - 1]))
  }

  /** The names of this Run are new on the host, but for a cgroup or a link that an earlier crash left. */
  ghost predicate GoodStart(k: Setting, w: World) {
    k.scratch !in w.dirs && k.scratch !in w.mounts && k.c.id !in w.helpers && Empty(Own(w.tables, k.c.id))
  }

  // ---- the invariant

  /** Before there is a child, or after it is reaped. */
  predicate NoChild(s: Core) { s.child.Unborn? || s.child.Reaped? }

  /** The child waits for the parent, unless something killed it. */
  predicate Halted(s: Core) { (s.child.Paused? || s.child.Zombie?) && s.writeEnd && !s.released }

  /** Who is where: the child's life and the pipe follow the parent's position. */
  predicate Control(s: Core) {
    match s.pc
    case AtPreflight | AtResolve | AtPipe => s.child.Unborn? && !s.readEnd && !s.writeEnd && !s.released && !s.doomed
    case AtStart => s.child.Unborn? && s.readEnd && s.writeEnd && !s.released && !s.doomed
    case AtCloseRead => Halted(s) && s.readEnd && !s.doomed
    case AtReapKilled => Halted(s) && !s.readEnd && s.doomed
    case AtWait =>
      (s.child.Paused? || s.child.Running? || s.child.Zombie?) && !s.writeEnd && !s.readEnd && s.released && !s.doomed
    case AtCgClose | AtUnpublish | AtUnlinkLast | AtSlirpDown =>
      s.child.Reaped? && !s.writeEnd && !s.readEnd && s.released && !s.doomed
    case AtCgAfterKill => s.child.Reaped? && s.writeEnd && !s.readEnd && !s.released && s.doomed
    case AtDeferredClose => NoChild(s) && !s.readEnd && !(s.doomed && s.released)
    case AtUnmount | AtRemoveScratch | Done => NoChild(s) && !s.readEnd && !s.writeEnd && !(s.doomed && s.released)
    case _ => Halted(s) && !s.readEnd && !s.doomed
  }

  predicate Given(phase: Phase) { phase.Untouched? || phase.Removed? }

  predicate Limited(k: Setting) { !k.rootless && k.limits }

  /** The cgroup and the child's membership, by position. */
  predicate CgroupHeld(k: Setting, s: Core) {
    match s.pc
    case AtPreflight | AtResolve | AtPipe | AtStart | AtCloseRead => !s.cg && !s.member && s.held.cgroup.Untouched?
    case AtCreate => Limited(k) && !s.cg && !s.member && s.held.cgroup.Untouched?
    case AtAddPid => Limited(k) && s.cg && !s.member && s.held.cgroup.Present?
    case AtKill | AtReapKilled | AtCgAfterKill =>
      (s.member ==> s.cg) && if s.cg then s.held.cgroup.Present? else Given(s.held.cgroup)
    case AtUnpublish | AtUnlinkLast | AtSlirpDown | AtDeferredClose | AtUnmount | AtRemoveScratch | Done =>
      Given(s.held.cgroup)
    case _ => s.cg == s.member == Limited(k) && if Limited(k) then s.held.cgroup.Present? else s.held.cgroup.Untouched?
  }

  predicate NoHelper(s: Core) { !s.slirp && s.held.helper.Untouched? }

  predicate HelperKnown(s: Core) { if s.slirp then s.held.helper.Present? else s.held.helper.Untouched? }

  /** The link, by position. */
  predicate LinkHeld(k: Setting, s: Core) {
    match s.pc
    case AtAddLink => s.held.link.Removed?
    case AtConfigure | AtPublish | AtUnlink | AtUnpublish | AtUnlinkLast => s.held.link.Present?
    case AtRelease | AtWait | AtCgClose =>
      s.net == !k.rootless && if k.rootless then s.held.link.Untouched? else s.held.link.Present?
    case AtKill | AtReapKilled | AtCgAfterKill | AtSlirpDown | AtDeferredClose | AtUnmount | AtRemoveScratch | Done =>
      Given(s.held.link)
    case _ => s.held.link.Untouched?
  }

  /** The helper process, by position. */
  predicate HelperHeld(k: Setting, s: Core) {
    match s.pc
    case AtSlirp => k.rootless && NoHelper(s)
    case AtBridge | AtMasquerade | AtFromBridge | AtToBridge
      | AtStaleLink | AtAddLink | AtConfigure | AtPublish | AtUnlink =>
      !k.rootless && NoHelper(s)
    case AtRelease | AtWait | AtCgClose | AtUnpublish | AtUnlinkLast | AtSlirpDown => HelperKnown(s)
    case AtDeferredClose | AtUnmount | AtRemoveScratch | Done => Given(s.held.helper)
    case _ => NoHelper(s)
  }

  /** The scratch directory and its mount, by position. */
  predicate ScratchHeld(k: Setting, s: Core) {
    if !k.image then s.held.mount.Untouched? && s.held.dir.Untouched?
    else
      match s.pc
      case AtPreflight | AtResolve => s.held.mount.Untouched? && s.held.dir.Untouched?
      case AtRemoveScratch => Given(s.held.mount) && s.held.dir.Present?
      case Done => Given(s.held.mount) && Given(s.held.dir)
      case _ => s.held.mount.Present? && s.held.dir.Present?
  }

  /** How many of the container's rules are in, by position. */
  predicate RulesHeld(k: Setting, s: Core) {
    match s.pc
    case AtPublish => s.deleted == 0 && s.added <= RuleCount(k) && !s.net
    case AtUnlink | AtKill | AtReapKilled | AtCgAfterKill =>
      s.deleted == 0 && (s.added == 0 || s.added < RuleCount(k)) && !s.net
    case AtRelease | AtWait | AtCgClose => s.deleted == 0 && s.added == if s.net then RuleCount(k) else 0
    case AtUnpublish => s.deleted <= s.added == RuleCount(k)
    case AtUnlinkLast | AtSlirpDown => s.added == s.deleted <= RuleCount(k)
    case AtDeferredClose | AtUnmount | AtRemoveScratch | Done =>
      s.deleted <= s.added <= RuleCount(k) && (s.added == s.deleted || (s.deleted == 0 && s.added < RuleCount(k)))
    case _ => s.deleted == 0 && s.added == 0 && !s.net
  }

  ghost predicate Good(k: Setting, s: Core) {
    Control(s) && CgroupHeld(k, s) && LinkHeld(k, s) && HelperHeld(k, s) && ScratchHeld(k, s) && RulesHeld(k, s)
  }

  /** The core after a step, with what became of this Run's things. */
  function After(k: Setting, s: Core, m: Move): Core
    requires m.To?
  {
    m.core.(held := HoldAll(k, s.held, m.acts))
  }

  // ---- every step keeps it

  lemma HoldShort(k: Setting, h: Held, acts: seq<Act>)
    ensures |acts| == 0 ==> HoldAll(k, h, acts) == h
    ensures |acts| == 1 ==> HoldAll(k, h, acts) == Hold(k, h, acts[0])
    ensures |acts| == 2 ==> HoldAll(k, h, acts) == Hold(k, Hold(k, h, acts[0]), acts[1])
  {
    if |acts| == 2 {
      assert acts[..1][..0] == [];
    }
  }

  /** The bridge's name and the base rules are nobody's own. */
  lemma SharedIsNotOurs(k: Setting)
    ensures !Ours(k, Make(Link, BRIDGE))
    ensures forall base :: IsBase(base) ==> !Ours(k, Rule(Add(base)))
  {
    assert HostVeth(k.c.id)[1] == 'm' && BRIDGE[1] == 'y';
  }

  lemma PreflightKeeps(k: Setting, s: Core, ch: Choice)
    requires s.pc.AtPreflight? && Good(k, s) && OpeningStep(k, s, ch).To?
    ensures Good(k, After(k, s, OpeningStep(k, s, ch)))
  {
    hide HoldAll;
    HoldShort(k, s.held, OpeningStep(k, s, ch).acts);
  }

  lemma ResolveKeeps(k: Setting, s: Core, ch: Choice)
    requires s.pc.AtResolve? && Good(k, s) && OpeningStep(k, s, ch).To?
    ensures Good(k, After(k, s, OpeningStep(k, s, ch)))
  {
    hide HoldAll;
    HoldShort(k, s.held, OpeningStep(k, s, ch).acts);
  }

  lemma PipeKeeps(k: Setting, s: Core, ch: Choice)
    requires s.pc.AtPipe? && Good(k, s) && OpeningStep(k, s, ch).To?
    ensures Good(k, After(k, s, OpeningStep(k, s, ch)))
  {
    hide HoldAll;
    HoldShort(k, s.held, OpeningStep(k, s, ch).acts);
  }

  lemma StartKeeps(k: Setting, s: Core, ch: Choice)
    requires s.pc.AtStart? && Good(k, s) && OpeningStep(k, s, ch).To?
    ensures Good(k, After(k, s, OpeningStep(k, s, ch)))
  {
    hide HoldAll;
    HoldShort(k, s.held, OpeningStep(k, s, ch).acts);
  }

  lemma CloseReadKeeps(k: Setting, s: Core, ch: Choice)
    requires s.pc.AtCloseRead? && Good(k, s) && OpeningStep(k, s, ch).To?
    ensures Good(k, After(k, s, OpeningStep(k, s, ch)))
  {
    hide HoldAll;
    HoldShort(k, s.held, OpeningStep(k, s, ch).acts);
  }

  lemma CgroupKeeps(k: Setting, s: Core, ch: Choice)
    requires Good(k, s) && CgroupStep(k, s, ch).To?
    ensures Good(k, After(k, s, CgroupStep(k, s, ch)))
  {
    hide HoldAll;
    HoldShort(k, s.held, CgroupStep(k, s, ch).acts);
    match s.pc
    case AtCreate => assert Good(k, After(k, s, CgroupStep(k, s, ch)));
    case AtAddPid => assert Good(k, After(k, s, CgroupStep(k, s, ch)));
    case _ =>
  }

  lemma BridgeKeeps(k: Setting, s: Core, ch: Choice)
    requires s.pc.AtBridge? && Good(k, s) && BridgeStep(s, ch).To?
    ensures Good(k, After(k, s, BridgeStep(s, ch)))
  {
    hide HoldAll, AllRules;
    SharedIsNotOurs(k);
    HoldShort(k, s.held, BridgeStep(s, ch).acts);
  }

  lemma MasqueradeKeeps(k: Setting, s: Core, ch: Choice)
    requires s.pc.AtMasquerade? && Good(k, s) && BridgeStep(s, ch).To?
    ensures Good(k, After(k, s, BridgeStep(s, ch)))
  {
    hide HoldAll, AllRules;
    SharedIsNotOurs(k);
    HoldShort(k, s.held, BridgeStep(s, ch).acts);
  }

  lemma FromBridgeKeeps(k: Setting, s: Core, ch: Choice)
    requires s.pc.AtFromBridge? && Good(k, s) && BridgeStep(s, ch).To?
    ensures Good(k, After(k, s, BridgeStep(s, ch)))
  {
    hide HoldAll, AllRules;
    SharedIsNotOurs(k);
    HoldShort(k, s.held, BridgeStep(s, ch).acts);
  }

  lemma ToBridgeKeeps(k: Setting, s: Core, ch: Choice)
    requires s.pc.AtToBridge? && Good(k, s) && BridgeStep(s, ch).To?
    ensures Good(k, After(k, s, BridgeStep(s, ch)))
  {
    hide HoldAll, AllRules;
    SharedIsNotOurs(k);
    HoldShort(k, s.held, BridgeStep(s, ch).acts);
  }

  lemma StaleLinkKeeps(k: Setting, s: Core, ch: Choice)
    requires s.pc.AtStaleLink? && Good(k, s) && LinkStep(k, s, ch).To?
    ensures Good(k, After(k, s, LinkStep(k, s, ch)))
  {
    hide HoldAll, AllRules;
    HoldShort(k, s.held, LinkStep(k, s, ch).acts);
  }

  lemma AddLinkKeeps(k: Setting, s: Core, ch: Choice)
    requires s.pc.AtAddLink? && Good(k, s) && LinkStep(k, s, ch).To?
    ensures Good(k, After(k, s, LinkStep(k, s, ch)))
  {
    hide HoldAll, AllRules;
    HoldShort(k, s.held, LinkStep(k, s, ch).acts);
  }

  lemma ConfigureKeeps(k: Setting, s: Core, ch: Choice)
    requires s.pc.AtConfigure? && Good(k, s) && LinkStep(k, s, ch).To?
    ensures Good(k, After(k, s, LinkStep(k, s, ch)))
  {
    hide HoldAll, AllRules;
    HoldShort(k, s.held, LinkStep(k, s, ch).acts);
  }

  lemma PublishKeeps(k: Setting, s: Core, ch: Choice)
    requires s.pc.AtPublish? && Good(k, s) && LinkStep(k, s, ch).To?
    ensures Good(k, After(k, s, LinkStep(k, s, ch)))
  {
    hide HoldAll, AllRules;
    HoldShort(k, s.held, LinkStep(k, s, ch).acts);
  }

  lemma UnlinkKeeps(k: Setting, s: Core, ch: Choice)
    requires s.pc.AtUnlink? && Good(k, s) && LinkStep(k, s, ch).To?
    ensures Good(k, After(k, s, LinkStep(k, s, ch)))
  {
    hide HoldAll, AllRules;
    HoldShort(k, s.held, LinkStep(k, s, ch).acts);
  }

  lemma SlirpKeeps(k: Setting, s: Core, ch: Choice)
    requires s.pc.AtSlirp? && Good(k, s) && SlirpStep(k, s, ch).To?
    ensures Good(k, After(k, s, SlirpStep(k, s, ch)))
  {
    hide HoldAll;
    HoldShort(k, s.held, SlirpStep(k, s, ch).acts);
  }

  lemma ReleaseKeeps(k: Setting, s: Core, ch: Choice)
    requires s.pc.AtRelease? && Good(k, s) && DecideStep(s, ch).To?
    ensures Good(k, After(k, s, DecideStep(s, ch)))
  {
    hide HoldAll;
    HoldShort(k, s.held, DecideStep(s, ch).acts);
  }

  lemma WaitKeeps(k: Setting, s: Core, ch: Choice)
    requires s.pc.AtWait? && Good(k, s) && DecideStep(s, ch).To?
    ensures Good(k, After(k, s, DecideStep(s, ch)))
  {
    hide HoldAll;
    HoldShort(k, s.held, DecideStep(s, ch).acts);
  }

  lemma KillKeeps(k: Setting, s: Core, ch: Choice)
    requires s.pc.AtKill? && Good(k, s) && DecideStep(s, ch).To?
    ensures Good(k, After(k, s, DecideStep(s, ch)))
  {
    hide HoldAll;
    HoldShort(k, s.held, DecideStep(s, ch).acts);
  }

  lemma ReapKilledKeeps(k: Setting, s: Core, ch: Choice)
    requires s.pc.AtReapKilled? && Good(k, s) && DecideStep(s, ch).To?
    ensures Good(k, After(k, s, DecideStep(s, ch)))
  {
    hide HoldAll;
    HoldShort(k, s.held, DecideStep(s, ch).acts);
  }

  lemma CgCloseKeeps(k: Setting, s: Core, ch: Choice)
    requires s.pc.AtCgClose? && Good(k, s) && GiveBackStep(k, s, ch).To?
    ensures Good(k, After(k, s, GiveBackStep(k, s, ch)))
  {
    hide HoldAll;
    HoldShort(k, s.held, GiveBackStep(k, s, ch).acts);
  }

  lemma CgAfterKillKeeps(k: Setting, s: Core, ch: Choice)
    requires s.pc.AtCgAfterKill? && Good(k, s) && GiveBackStep(k, s, ch).To?
    ensures Good(k, After(k, s, GiveBackStep(k, s, ch)))
  {
    hide HoldAll;
    HoldShort(k, s.held, GiveBackStep(k, s, ch).acts);
  }

  /** Our own rules are no things that are held. */
  lemma RuleHolds(k: Setting, h: Held, cmd: Command)
    ensures HoldAll(k, h, [Rule(cmd)]) == h
  {
    HoldShort(k, h, [Rule(cmd)]);
  }

  lemma UnpublishAfter(k: Setting, s: Core, ch: Choice)
    requires s.pc.AtUnpublish? && GiveBackStep(k, s, ch).To?
    ensures After(k, s, GiveBackStep(k, s, ch)) ==
      if s.deleted >= RuleCount(k) then s.(pc := AtUnlinkLast) else s.(deleted := s.deleted + 1)
  {
    hide HoldAll, AllRules;
    HoldShort(k, s.held, []);
    AllRulesCount(k.c);
    if s.deleted < RuleCount(k) {
      RuleHolds(k, s.held, Del(AllRules(k.c)[s.deleted]));
    }
  }

  lemma UnpublishKeeps(k: Setting, s: Core, ch: Choice)
    requires s.pc.AtUnpublish? && Good(k, s) && GiveBackStep(k, s, ch).To?
    ensures Good(k, After(k, s, GiveBackStep(k, s, ch)))
  {
    hide After, GiveBackStep, RuleCount;
    UnpublishAfter(k, s, ch);
    if s.deleted >= RuleCount(k) {
      assert Good(k, s.(pc := AtUnlinkLast));
    } else {
      assert Good(k, s.(deleted := s.deleted + 1));
    }
  }

  lemma UnlinkLastKeeps(k: Setting, s: Core, ch: Choice)
    requires s.pc.AtUnlinkLast? && Good(k, s) && GiveBackStep(k, s, ch).To?
    ensures Good(k, After(k, s, GiveBackStep(k, s, ch)))
  {
    hide HoldAll;
    HoldShort(k, s.held, GiveBackStep(k, s, ch).acts);
  }

  lemma SlirpDownKeeps(k: Setting, s: Core, ch: Choice)
    requires s.pc.AtSlirpDown? && Good(k, s) && GiveBackStep(k, s, ch).To?
    ensures Good(k, After(k, s, GiveBackStep(k, s, ch)))
  {
    hide HoldAll;
    HoldShort(k, s.held, GiveBackStep(k, s, ch).acts);
  }

  lemma DeferredCloseKeeps(k: Setting, s: Core, ch: Choice)
    requires s.pc.AtDeferredClose? && Good(k, s) && DeferredStep(k, s, ch).To?
    ensures Good(k, After(k, s, DeferredStep(k, s, ch)))
  {
    hide HoldAll;
    HoldShort(k, s.held, DeferredStep(k, s, ch).acts);
  }

  lemma UnmountKeeps(k: Setting, s: Core, ch: Choice)
    requires s.pc.AtUnmount? && Good(k, s) && DeferredStep(k, s, ch).To?
    ensures Good(k, After(k, s, DeferredStep(k, s, ch)))
  {
    hide HoldAll;
    HoldShort(k, s.held, DeferredStep(k, s, ch).acts);
  }

  lemma RemoveScratchKeeps(k: Setting, s: Core, ch: Choice)
    requires s.pc.AtRemoveScratch? && Good(k, s) && DeferredStep(k, s, ch).To?
    ensures Good(k, After(k, s, DeferredStep(k, s, ch)))
  {
    hide HoldAll;
    HoldShort(k, s.held, DeferredStep(k, s, ch).acts);
  }

  lemma ChildKeeps(k: Setting, s: Core, a: Action)
    requires Good(k, s) && !a.Parent? && !a.Others? && CoreStep(k, s, a).To?
    ensures Good(k, After(k, s, CoreStep(k, s, a)))
  {
    hide HoldAll, ParentStep, Ours;
    HoldShort(k, s.held, []);
  }

  lemma OthersKeep(k: Setting, s: Core, act: Act)
    requires Good(k, s) && !Ours(k, act)
    ensures Good(k, After(k, s, To(s, [act])))
  {
    hide HoldAll, Good, Ours;
    HoldShort(k, s.held, [act]);
    assert After(k, s, To(s, [act])) == s;
  }

  /** Every possible step of parent, child and others keeps the invariant. */
  lemma {:induction false} CoreKept(k: Setting, s: Core, a: Action)
    requires Good(k, s) && CoreStep(k, s, a).To?
    ensures Good(k, After(k, s, CoreStep(k, s, a)))
  {
    hide Good, After, OpeningStep, CgroupStep, BridgeStep, LinkStep, SlirpStep, DecideStep, GiveBackStep, DeferredStep;
    if a.Others? {
      OthersKeep(k, s, a.act);
    } else if !a.Parent? {
      ChildKeeps(k, s, a);
    } else {
      match s.pc
      case AtPreflight => PreflightKeeps(k, s, a.choice);
      case AtResolve => ResolveKeeps(k, s, a.choice);
      case AtPipe => PipeKeeps(k, s, a.choice);
      case AtStart => StartKeeps(k, s, a.choice);
      case AtCloseRead => CloseReadKeeps(k, s, a.choice);
      case AtCreate | AtAddPid => CgroupKeeps(k, s, a.choice);
      case AtBridge => BridgeKeeps(k, s, a.choice);
      case AtMasquerade => MasqueradeKeeps(k, s, a.choice);
      case AtFromBridge => FromBridgeKeeps(k, s, a.choice);
      case AtToBridge => ToBridgeKeeps(k, s, a.choice);
      case AtStaleLink => StaleLinkKeeps(k, s, a.choice);
      case AtAddLink => AddLinkKeeps(k, s, a.choice);
      case AtConfigure => ConfigureKeeps(k, s, a.choice);
      case AtPublish => PublishKeeps(k, s, a.choice);
      case AtUnlink => UnlinkKeeps(k, s, a.choice);
      case AtSlirp => SlirpKeeps(k, s, a.choice);
      case AtRelease => ReleaseKeeps(k, s, a.choice);
      case AtWait => WaitKeeps(k, s, a.choice);
      case AtKill => KillKeeps(k, s, a.choice);
      case AtReapKilled => ReapKilledKeeps(k, s, a.choice);
      case AtCgClose => CgCloseKeeps(k, s, a.choice);
      case AtCgAfterKill => CgAfterKillKeeps(k, s, a.choice);
      case AtUnpublish => UnpublishKeeps(k, s, a.choice);
      case AtUnlinkLast => UnlinkLastKeeps(k, s, a.choice);
      case AtSlirpDown => SlirpDownKeeps(k, s, a.choice);
      case AtDeferredClose => DeferredCloseKeeps(k, s, a.choice);
      case AtUnmount => UnmountKeeps(k, s, a.choice);
      case AtRemoveScratch => RemoveScratchKeeps(k, s, a.choice);
      case Done =>
    }
  }

  // ---- the acts of a step

  /** A step appends our next rule, deletes our next rule, or leaves our rules alone. */
  predicate RuleMove(k: Setting, s: Core, m: Move)
    requires m.To?
  {
    || (s.added < RuleCount(k) && m.acts == [Rule(Add(AllRules(k.c)[s.added]))]
        && m.core.added == s.added + 1 && m.core.deleted == s.deleted == 0)
    || (s.deleted < RuleCount(k) == s.added && m.acts == [Rule(Del(AllRules(k.c)[s.deleted]))]
        && m.core.deleted == s.deleted + 1 && m.core.added == s.added)
    || ((forall i :: 0 <= i < |m.acts| && m.acts[i].Rule? ==> !Concerns(m.acts[i].cmd, k.c.id))
        && m.core.added == s.added && m.core.deleted == s.deleted)
  }

  lemma LinkRules(k: Setting, s: Core, ch: Choice)
    requires Good(k, s) && LinkStep(k, s, ch).To?
    ensures RuleMove(k, s, LinkStep(k, s, ch))
  {
    hide AllRules;
  }

  lemma GiveBackRules(k: Setting, s: Core, ch: Choice)
    requires Good(k, s) && GiveBackStep(k, s, ch).To?
    ensures RuleMove(k, s, GiveBackStep(k, s, ch))
  {
    hide AllRules;
    match s.pc
    case AtUnpublish => assert RuleMove(k, s, GiveBackStep(k, s, ch));
    case _ =>
  }

  /** Only our own things are touched, and no rules. */
  predicate Quiet(k: Setting, s: Core, m: Move)
    requires m.To?
  {
    (forall i :: 0 <= i < |m.acts| ==> !m.acts[i].Rule? && Ours(k, m.acts[i])) && m.core.added == s.added &&
      m.core.deleted == s.deleted
  }

  lemma OwnThings(k: Setting)
    ensures Ours(k, Make(Dir, k.scratch)) && Ours(k, Drop(Dir, k.scratch))
    ensures Ours(k, Make(Mounted, k.scratch)) && Ours(k, Drop(Mounted, k.scratch))
  {
  }

  lemma ResolveQuiet(k: Setting, s: Core, ch: Choice)
    requires s.pc.AtResolve? && OpeningStep(k, s, ch).To?
    ensures Quiet(k, s, OpeningStep(k, s, ch))
  {
    hide Ours;
    OwnThings(k);
  }

  lemma PipeQuiet(k: Setting, s: Core, ch: Choice)
    requires (s.pc.AtPreflight? || s.pc.AtPipe?) && OpeningStep(k, s, ch).To?
    ensures Quiet(k, s, OpeningStep(k, s, ch))
  {
    hide Ours;
  }

  lemma SpawnQuiet(k: Setting, s: Core, ch: Choice)
    requires (s.pc.AtStart? || s.pc.AtCloseRead?) && OpeningStep(k, s, ch).To?
    ensures Quiet(k, s, OpeningStep(k, s, ch))
  {
    hide Ours;
  }

  lemma OpeningQuiet(k: Setting, s: Core, ch: Choice)
    requires OpeningStep(k, s, ch).To?
    ensures Quiet(k, s, OpeningStep(k, s, ch))
  {
    hide Quiet;
    if s.pc.AtResolve? {
      ResolveQuiet(k, s, ch);
    } else if s.pc.AtPreflight? || s.pc.AtPipe? {
      PipeQuiet(k, s, ch);
    } else {
      SpawnQuiet(k, s, ch);
    }
  }

  lemma CgroupQuiet(k: Setting, s: Core, ch: Choice)
    requires CgroupStep(k, s, ch).To?
    ensures Quiet(k, s, CgroupStep(k, s, ch))
  {
  }

  lemma SlirpQuiet(k: Setting, s: Core, ch: Choice)
    requires SlirpStep(k, s, ch).To?
    ensures Quiet(k, s, SlirpStep(k, s, ch))
  {
  }

  lemma DecideQuiet(k: Setting, s: Core, ch: Choice)
    requires DecideStep(s, ch).To?
    ensures Quiet(k, s, DecideStep(s, ch))
  {
    match s.pc
    case AtRelease => assert Quiet(k, s, DecideStep(s, ch));
    case AtWait => assert Quiet(k, s, DecideStep(s, ch));
    case AtKill => assert Quiet(k, s, DecideStep(s, ch));
    case AtReapKilled => assert Quiet(k, s, DecideStep(s, ch));
    case _ =>
  }

  lemma DeferredQuiet(k: Setting, s: Core, ch: Choice)
    requires DeferredStep(k, s, ch).To?
    ensures Quiet(k, s, DeferredStep(k, s, ch))
  {
    hide Ours;
    OwnThings(k);
    match s.pc
    case AtDeferredClose => assert Quiet(k, s, DeferredStep(k, s, ch));
    case AtUnmount => assert Quiet(k, s, DeferredStep(k, s, ch));
    case AtRemoveScratch => assert Quiet(k, s, DeferredStep(k, s, ch));
    case _ =>
  }

  lemma BaseShares(s: Core, ch: Choice, base: Placement, next: Pc)
    requires BaseStep(s, ch, base, next).To?
    ensures BaseStep(s, ch, base, next).acts == if ch.Shared? then [ch.act] else []
    ensures ch.Shared? ==> ch.act == Rule(Add(base))
    ensures BaseStep(s, ch, base, next).core.added == s.added && BaseStep(s, ch, base, next).core.deleted == s.deleted
  {
  }

  /** EnsureBridge's step does what its choice says, and that is nobody's own. */
  lemma BridgeShares(k: Setting, s: Core, ch: Choice)
    requires BridgeStep(s, ch).To?
    ensures BridgeStep(s, ch).acts == if ch.Shared? then [ch.act] else []
    ensures ch.Shared? ==> !Ours(k, ch.act)
    ensures BridgeStep(s, ch).core.added == s.added && BridgeStep(s, ch).core.deleted == s.deleted
  {
    hide Ours, BaseStep;
    SharedIsNotOurs(k);
    match s.pc
    case AtMasquerade =>
      if !ch.Fail? {
        BaseShares(s, ch, Placement(Postrouting, Masquerade), AtFromBridge);
      }
    case AtFromBridge => BaseShares(s, ch, Placement(Forward, FromBridge), AtToBridge);
    case AtToBridge => BaseShares(s, ch, Placement(Forward, ToBridge), AtStaleLink);
    case _ =>
  }

  lemma StepRules(k: Setting, s: Core, a: Action)
    requires Good(k, s) && CoreStep(k, s, a).To?
    ensures RuleMove(k, s, CoreStep(k, s, a))
  {
    hide Good, AllRules, OpeningStep, CgroupStep, BridgeStep, LinkStep, SlirpStep, DecideStep, GiveBackStep,
         DeferredStep;
    if a.Parent? {
      match s.pc
      case AtPreflight | AtResolve | AtPipe | AtStart | AtCloseRead => OpeningQuiet(k, s, a.choice);
      case AtCreate | AtAddPid => CgroupQuiet(k, s, a.choice);
      case AtBridge | AtMasquerade | AtFromBridge | AtToBridge => BridgeShares(k, s, a.choice);
      case AtStaleLink | AtAddLink | AtConfigure | AtPublish | AtUnlink => LinkRules(k, s, a.choice);
      case AtSlirp => SlirpQuiet(k, s, a.choice);
      case AtRelease | AtWait | AtKill | AtReapKilled => DecideQuiet(k, s, a.choice);
      case AtCgClose | AtCgAfterKill | AtUnpublish | AtUnlinkLast | AtSlirpDown => GiveBackRules(k, s, a.choice);
      case AtDeferredClose | AtUnmount | AtRemoveScratch => DeferredQuiet(k, s, a.choice);
      case Done =>
    }
  }

  lemma {:induction false} AllOurs(k: Setting, acts: seq<Act>)
    requires forall i :: 0 <= i < |acts| ==> Ours(k, acts[i])
    ensures NotOurs(k, acts) == []
  {
    if acts != [] {
      AllOurs(k, acts[..|acts| - 1]);
    }
  }

  lemma OneNotOurs(k: Setting, act: Act)
    requires !Ours(k, act)
    ensures NotOurs(k, [act]) == [act]
  {
    assert [act][..0] == [];
  }

  /** Every rule that Publish makes carries the tag. */
  lemma OurRulesConcern(c: Container, i: nat)
    requires i < |AllRules(c)|
    ensures Tagged(AllRules(c)[i].rule, c.id)
  {
    PublishedAreTagged(c, |c.ports|);
  }

  lemma LinkOurs(k: Setting, s: Core, ch: Choice)
    requires LinkStep(k, s, ch).To?
    ensures !ch.Shared? && forall i :: 0 <= i < |LinkStep(k, s, ch).acts| ==> Ours(k, LinkStep(k, s, ch).acts[i])
  {
    hide AllRules;
    if s.added < |AllRules(k.c)| {
      OurRulesConcern(k.c, s.added);
    }
    AllRulesCount(k.c);
  }

  lemma GiveBackOurs(k: Setting, s: Core, ch: Choice)
    requires GiveBackStep(k, s, ch).To?
    ensures !ch.Shared? && forall i :: 0 <= i < |GiveBackStep(k, s, ch).acts| ==>
      Ours(k, GiveBackStep(k, s, ch).acts[i])
  {
    hide AllRules;
    if s.deleted < |AllRules(k.c)| {
      OurRulesConcern(k.c, s.deleted);
    }
    AllRulesCount(k.c);
  }

  lemma NotShared(k: Setting, s: Core, ch: Choice)
    requires ch.Shared?
    ensures OpeningStep(k, s, ch).Stuck? && CgroupStep(k, s, ch).Stuck? && SlirpStep(k, s, ch).Stuck?
    ensures DecideStep(s, ch).Stuck? && DeferredStep(k, s, ch).Stuck?
  {
  }

  /** What a step does to things that are not this Run's is what SharedBy says of its action. */
  lemma StepShares(k: Setting, s: Core, a: Action)
    requires CoreStep(k, s, a).To?
    ensures NotOurs(k, CoreStep(k, s, a).acts) == SharedBy(a)
  {
    hide Ours, NotOurs, OpeningStep, CgroupStep, BridgeStep, LinkStep, SlirpStep, DecideStep, GiveBackStep,
         DeferredStep;
    if a.Parent? {
      var m := CoreStep(k, s, a);
      if a.choice.Shared? {
        NotShared(k, s, a.choice);
      }
      match s.pc
      case AtPreflight | AtResolve | AtPipe | AtStart | AtCloseRead => OpeningQuiet(k, s, a.choice); AllOurs(k, m.acts);
      case AtCreate | AtAddPid => CgroupQuiet(k, s, a.choice); AllOurs(k, m.acts);
      case AtBridge | AtMasquerade | AtFromBridge | AtToBridge =>
        BridgeShares(k, s, a.choice);
        if a.choice.Shared? {
          OneNotOurs(k, a.choice.act);
        } else {
          AllOurs(k, m.acts);
        }
      case AtStaleLink | AtAddLink | AtConfigure | AtPublish | AtUnlink => LinkOurs(k, s, a.choice); AllOurs(k, m.acts);
      case AtSlirp => SlirpQuiet(k, s, a.choice); AllOurs(k, m.acts);
      case AtRelease | AtWait | AtKill | AtReapKilled => DecideQuiet(k, s, a.choice); AllOurs(k, m.acts);
      case AtCgClose | AtCgAfterKill | AtUnpublish | AtUnlinkLast | AtSlirpDown =>
        GiveBackOurs(k, s, a.choice);
        AllOurs(k, m.acts);
      case AtDeferredClose | AtUnmount | AtRemoveScratch => DeferredQuiet(k, s, a.choice); AllOurs(k, m.acts);
      case Done =>
    } else if a.Others? {
      OneNotOurs(k, a.act);
    } else {
      AllOurs(k, []);
    }
  }
}
