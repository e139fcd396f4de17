// What the start protocol guarantees, for every interleaving and every failure.

module StartTheorems {
  import opened Wrappers
  import opened IptablesChains
  import opened PublishRules
  import opened RuleCommands
  import opened HostWorld
  import opened StartProtocol

  /** This Run's rules that are in the chains. */
  function InPlace(k: Setting, s: Core): seq<Placement>
    requires RulesHeld(k, s)
  {
    AllRules(k.c)[s.deleted..s.added]
  }

  ghost predicate Inv(k: Setting, start: World, apart: World, s: Sys) {
    && Good(k, s.core)
    && Mirror(k, start, s.core.held, s.world)
    && Elsewhere(k, s.world, apart)
    && Shows(Own(s.world.tables, k.c.id), InPlace(k, s.core))
  }

  /** A state that some interleaving of steps, failures and other programs' commands reaches. */
  ghost predicate Reaches(k: Setting, start: World, acts: seq<Action>, s: Sys) {
    GoodStart(k, start) && Run(k, Init(start), acts) == Some(s)
  }

  lemma InitInv(k: Setting, start: World)
    requires GoodStart(k, start)
    ensures Inv(k, start, start, Init(start))
  {
    NoOwnIsRest(start.tables, k.c.id);
    assert InPlace(k, Init(start).core) == [];
  }

  lemma OwnRulesFollow(k: Setting, s: Sys, m: Move)
    requires m.To? && RulesHeld(k, s.core) && RulesHeld(k, m.core) && RuleMove(k, s.core, m)
    requires Shows(Own(s.world.tables, k.c.id), InPlace(k, s.core))
    ensures Shows(Own(PerformAll(s.world, m.acts).tables, k.c.id), InPlace(k, m.core))
  {
    hide RulesHeld, AllRules, Shows, Own, Concerns, Do;
    var c, w := s.core, s.world;
    AllRulesCount(k.c);
    if m.core.added == c.added + 1 {
      var p := AllRules(k.c)[c.added];
      OneRule(k, w, Add(p), c.added);
      AddShows(Own(w.tables, k.c.id), InPlace(k, c), p);
      assert InPlace(k, m.core) == InPlace(k, c) + [p];
    } else if m.core.deleted == c.deleted + 1 {
      var p := AllRules(k.c)[c.deleted];
      OneRule(k, w, Del(p), c.deleted);
      assert InPlace(k, c) == [p] + InPlace(k, m.core);
      DelShows(Own(w.tables, k.c.id), p, InPlace(k, m.core));
    } else {
      OwnRulesUntouched(k, w, m.acts);
    }
  }

  lemma OneRule(k: Setting, w: World, cmd: Command, i: nat)
    requires i < |AllRules(k.c)| && cmd.p == AllRules(k.c)[i]
    ensures Own(PerformAll(w, [Rule(cmd)]).tables, k.c.id) == Do(Own(w.tables, k.c.id), cmd)
  {
    OurRulesConcern(k.c, i);
    PartDo(w.tables, cmd, k.c.id, true);
    assert [Rule(cmd)][..0] == [];
    assert PerformAll(w, [Rule(cmd)]) == Perform(PerformAll(w, []), Rule(cmd));
  }

  lemma {:induction false} StepInv(k: Setting, start: World, apart: World, s: Sys, a: Action, s': Sys)
    requires Inv(k, start, apart, s) && Step(k, s, a) == Some(s')
    ensures Inv(k, start, PerformAll(apart, SharedBy(a)), s')
  {
    hide CoreStep, Mirror, Elsewhere, Shows, Own, AllRules, HoldAll, PerformAll, SharedBy, NotOurs, RuleMove,
         Control, CgroupHeld, LinkHeld, HelperHeld, ScratchHeld;
    var m := CoreStep(k, s.core, a);
    CoreKept(k, s.core, a);
    StepRules(k, s.core, a);
    StepShares(k, s.core, a);
    ActsMirror(k, start, s.core.held, s.world, m.acts);
    ActsElsewhere(k, s.world, apart, m.acts);
    SameRules(k, m.core, s'.core);
    OwnRulesFollow(k, s, m);
  }

  lemma SameRules(k: Setting, a: Core, b: Core)
    requires b == a.(held := b.held)
    ensures RulesHeld(k, a) == RulesHeld(k, b)
    ensures RulesHeld(k, a) ==> InPlace(k, a) == InPlace(k, b)
  {
  }

  lemma {:induction false} ReachedInv(k: Setting, start: World, acts: seq<Action>, s: Sys)
    requires Reaches(k, start, acts, s)
    ensures Inv(k, start, WithoutUs(start, acts), s)
  {
    hide Inv, Step, GoodStart;
    if acts == [] {
      InitInv(k, start);
    } else {
      var init, last := acts[..|acts| - 1], acts[|acts| - 1];
      var before := Run(k, Init(start), init).value;
      ReachedInv(k, start, init, before);
      StepInv(k, start, WithoutUs(start, init), before, last, s);
    }
  }

  /**
   The child is past its read of the pipe only after the parent closed the write end on
   the success path; and while it runs it is in its cgroup if limits were asked for, and
   unless rootless its link is there and its rules are exactly those of all its mappings,
   whatever other programs did in between.
   */
  lemma {:induction false} ChildRunsReady(k: Setting, start: World, acts: seq<Action>, s: Sys)
    requires Reaches(k, start, acts, s) && s.core.child == Running
    ensures s.core.released && s.core.pc == AtWait
    ensures !k.rootless && k.limits ==> s.core.member && k.cgroup in s.world.cgroups
    ensures !k.rootless ==> HostVeth(k.c.id) in s.world.links
    ensures !k.rootless ==> Shows(Own(s.world.tables, k.c.id), AllRules(k.c))
    ensures k.image ==> k.scratch in s.world.dirs && k.scratch in s.world.mounts
  {
    hide Run, GoodStart, WithoutUs, Elsewhere, Shows, AllRules;
    ReachedInv(k, start, acts, s);
    assert MirrorOf(k, start, s.core.held.Of(Cgroup), s.world, Cgroup);
    assert MirrorOf(k, start, s.core.held.Of(Link), s.world, Link);
    assert MirrorOf(k, start, s.core.held.Of(Dir), s.world, Dir);
    assert MirrorOf(k, start, s.core.held.Of(Mounted), s.world, Mounted);
    AllRulesCount(k.c);
    if !k.rootless {
      assert InPlace(k, s.core) == AllRules(k.c);
    }
  }

  lemma ReleaseHelper(s: Core, ch: Choice)
    requires s.pc.AtRelease? && DecideStep(s, ch).To?
    ensures DecideStep(s, ch).core.slirp == s.slirp
  {
  }

  lemma WaitHelper(s: Core, ch: Choice)
    requires s.pc.AtWait? && DecideStep(s, ch).To?
    ensures DecideStep(s, ch).core.slirp == s.slirp
  {
  }

  /** Between the helper's step and the wait nothing changes whether there is a helper. */
  lemma HelperDecided(k: Setting, s: Core, a: Action)
    requires AboutToWait(s.pc) && CoreStep(k, s, a).To?
    ensures CoreStep(k, s, a).core.slirp == s.slirp
  {
    hide DecideStep, GiveBackStep, DeferredStep, OpeningStep, CgroupStep, BridgeStep, LinkStep, SlirpStep, Ours;
    if a.Parent? {
      if s.pc.AtRelease? {
        ReleaseHelper(s, a.choice);
      } else {
        WaitHelper(s, a.choice);
      }
    }
  }

  /** The step itself: whether it succeeds is whether there is a helper from then on. */
  lemma SlirpStepDecides(k: Setting, s: Sys, outcome: Choice)
    requires s.core.pc == AtSlirp && Step(k, s, Parent(outcome)).Some?
    ensures Step(k, s, Parent(outcome)).value.core.slirp == (outcome == Ok || s.core.slirp)
  {
    hide HoldAll, PerformAll;
  }

  lemma NoHelperYet(k: Setting, s: Core)
    requires HelperHeld(k, s) && s.pc == AtSlirp
    ensures !s.slirp
  {
  }

  lemma HelperThere(k: Setting, start: World, s: Sys)
    requires HelperHeld(k, s.core) && s.core.pc == AtWait && Mirror(k, start, s.core.held, s.world) &&
      GoodStart(k, start)
    ensures k.c.id in s.world.helpers <==> s.core.slirp
  {
    assert MirrorOf(k, start, s.core.held.Of(Helper), s.world, Helper);
  }

  /** The n-th action is the parent's step at AtSlirp, with this outcome. */
  ghost predicate Decides(k: Setting, start: World, acts: seq<Action>, n: nat, outcome: Choice)
    requires n < |acts|
  {
    && acts[n] == Parent(outcome)
    && Run(k, Init(start), acts[..n]).Some? && Run(k, Init(start), acts[..n]).value.core.pc == AtSlirp
  }

  lemma DecidesLater(k: Setting, start: World, acts: seq<Action>, n: nat, outcome: Choice)
    requires n < |acts| - 1 && Decides(k, start, acts[..|acts| - 1], n, outcome)
    ensures Decides(k, start, acts, n, outcome)
  {
    hide Run;
    assert acts[..|acts| - 1][..n] == acts[..n];
  }

  lemma DecidedNow(k: Setting, start: World, acts: seq<Action>, before: Sys)
    requires acts != [] && Run(k, Init(start), acts[..|acts| - 1]) == Some(before)
    requires before.core.pc == AtSlirp && acts[|acts| - 1].Parent?
    ensures Decides(k, start, acts, |acts| - 1, acts[|acts| - 1].choice)
  {
    hide Run;
  }

  predicate AboutToWait(pc: Pc) { pc.AtRelease? || pc.AtWait? }

  /** The release is reached from the end of the publishing or from the helper's step. */
  lemma WaitReachedFrom(k: Setting, s: Core, a: Action)
    requires CoreStep(k, s, a).To? && AboutToWait(CoreStep(k, s, a).core.pc)
    ensures AboutToWait(s.pc) || s.pc.AtPublish? || s.pc.AtSlirp?
    ensures s.pc.AtSlirp? && !AboutToWait(s.pc) ==> a.Parent?
  {
    hide ParentStep, Ours;
    if a.Parent? {
      ParentLeads(k, s, a.choice);
    }
  }

  lemma StaysSlirp(k: Setting, s: Core, a: Action)
    requires AboutToWait(s.pc) && CoreStep(k, s, a).To?
    ensures CoreStep(k, s, a).core.slirp == s.slirp
  {
    HelperDecided(k, s, a);
  }

  lemma PublishIsRootful(k: Setting, s: Core)
    requires HelperHeld(k, s) && s.pc == AtPublish
    ensures !k.rootless
  {
  }

  /** Before its release a rootless child has been through the helper's step, and the outcome is remembered. */
  lemma {:induction false} HelperWasDecided(k: Setting, start: World, acts: seq<Action>, s: Sys)
    returns (n: nat, outcome: Choice)
    requires Reaches(k, start, acts, s) && k.rootless && AboutToWait(s.core.pc)
    ensures n < |acts| && Decides(k, start, acts, n, outcome) && (s.core.slirp <==> outcome == Ok)
  {
    hide Step, Inv, GoodStart, AboutToWait, Decides, CoreStep, Control, CgroupHeld, LinkHeld, HelperHeld, ScratchHeld,
         RulesHeld, Mirror, Elsewhere, Shows, WithoutUs;
    if acts == [] {
      NotAtStart(start);
    } else {
      var init, last := acts[..|acts| - 1], acts[|acts| - 1];
      var before := Run(k, Init(start), init).value;
      StepIsCore(k, before, last, s);
      WaitReachedFrom(k, before.core, last);
      InvParts(k, start, init, before);
      if AboutToWait(before.core.pc) {
        n, outcome := HelperWasDecided(k, start, init, before);
        DecidesLater(k, start, acts, n, outcome);
        StaysSlirp(k, before.core, last);
      } else if before.core.pc.AtPublish? {
        PublishIsRootful(k, before.core);
      } else {
        n, outcome := |acts| - 1, last.choice;
        NoHelperYet(k, before.core);
        SlirpStepDecides(k, before, outcome);
        DecidedNow(k, start, acts, before);
      }
    }
  }

  lemma NotAtStart(start: World)
    ensures !AboutToWait(Init(start).core.pc)
  {
  }

  lemma StepIsCore(k: Setting, s: Sys, a: Action, t: Sys)
    requires Step(k, s, a) == Some(t)
    ensures CoreStep(k, s.core, a).To? && t.core.pc == CoreStep(k, s.core, a).core.pc
    ensures t.core.slirp == CoreStep(k, s.core, a).core.slirp
  {
    hide CoreStep, HoldAll, PerformAll;
  }

  lemma InvParts(k: Setting, start: World, acts: seq<Action>, s: Sys)
    requires Reaches(k, start, acts, s)
    ensures Control(s.core) && HelperHeld(k, s.core) && Mirror(k, start, s.core.held, s.world) && GoodStart(k, start)
  {
    hide Run, GoodStart, WithoutUs, Elsewhere, Shows, Mirror, Control, CgroupHeld, LinkHeld, HelperHeld, ScratchHeld,
         RulesHeld;
    ReachedInv(k, start, acts, s);
  }

  /**
   Whenever a rootless child runs, the parent has taken the step that starts its network
   helper, and the helper is there exactly if that step succeeded.
   */
  lemma {:induction false} RootlessChildHasHelperIff(k: Setting, start: World, acts: seq<Action>, s: Sys)
    returns (n: nat, outcome: Choice)
    requires Reaches(k, start, acts, s) && k.rootless && s.core.child == Running
    ensures n < |acts| && Decides(k, start, acts, n, outcome)
    ensures k.c.id in s.world.helpers <==> outcome == Ok
  {
    hide Run, Decides, Control, HelperHeld, Mirror, GoodStart;
    InvParts(k, start, acts, s);
    RunningIsWaiting(s.core);
    n, outcome := HelperWasDecided(k, start, acts, s);
    HelperThere(k, start, s);
  }

  lemma RunningIsWaiting(s: Core)
    requires Control(s) && s.child == Running
    ensures s.pc == AtWait
  {
  }

  /**
   The write end is closed only by the release, or when the child was never started or is
   already reaped: no failing path lets a paused child through.
   */
  lemma {:induction false} WriteEndClosesLate(k: Setting, start: World, acts: seq<Action>, s: Sys)
    requires Reaches(k, start, acts, s)
    ensures !s.core.writeEnd ==> s.core.released || s.core.child == Unborn || s.core.child == Reaped
    ensures !s.core.released ==> s.core.child != Running
    ensures s.core.doomed ==> !s.core.released
  {
    hide Run, GoodStart, WithoutUs, Mirror, Elsewhere, Shows, CgroupHeld, LinkHeld, HelperHeld, ScratchHeld;
    ReachedInv(k, start, acts, s);
  }

  predicate GivesBack(pc: Pc) {
    pc.AtCgClose? || pc.AtCgAfterKill? || pc.AtUnpublish? || pc.AtUnlinkLast? || pc.AtSlirpDown? || pc.AtUnmount? ||
      pc.AtRemoveScratch?
  }

  lemma NoChildThere(s: Core)
    requires Control(s) && GivesBack(s.pc)
    ensures NoChild(s)
  {
  }

  lemma NotYetMember(k: Setting, s: Core)
    requires CgroupHeld(k, s) && s.pc == AtCreate
    ensures !s.member
  {
  }

  /** Cgroup removal and rootfs clean-up are attempted only once the child is reaped (or never existed). */
  lemma {:induction false} CleanupAfterReaping(k: Setting, start: World, acts: seq<Action>, s: Sys)
    requires Reaches(k, start, acts, s)
    ensures GivesBack(s.core.pc) ==> NoChild(s.core)
    ensures s.core.pc == AtCreate ==> !s.core.member
  {
    hide Run, GoodStart, Mirror, Elsewhere, Shows, Control, CgroupHeld, LinkHeld, HelperHeld, ScratchHeld, RulesHeld,
         GivesBack, NoChild;
    ReachedInv(k, start, acts, s);
    if GivesBack(s.core.pc) {
      NoChildThere(s.core);
    }
    if s.core.pc == AtCreate {
      NotYetMember(k, s.core);
    }
  }

  /**
   When Run returns, on every path and whatever ran beside it: no child and no pipe end;
   its mount, scratch directory, helper process, cgroup and link are gone, unless it never
   touched a stale one; everything else on the host is what the other programs, the bridge
   and the base rules make of it; and of its own rules there are left exactly the first
   `added` ones of a port set-up that failed there, or none.
   */
  lemma {:induction false} NothingLeft(k: Setting, start: World, acts: seq<Action>, s: Sys)
    requires Reaches(k, start, acts, s) && s.core.pc == Done
    ensures (s.core.child == Unborn || s.core.child == Reaped) && !s.core.readEnd && !s.core.writeEnd
    ensures forall kind :: Name(k, kind) in s.world.Names(kind) ==> Name(k, kind) in start.Names(kind)
    ensures k.scratch !in s.world.mounts && k.scratch !in s.world.dirs && k.c.id !in s.world.helpers
    ensures forall kind, name :: name != Name(k, kind) ==>
      (name in s.world.Names(kind) <==> name in WithoutUs(start, acts).Names(kind))
    ensures RuleCommands.Rest(s.world.tables, k.c.id) == WithoutUs(start, acts).tables
    ensures Shows(Own(s.world.tables, k.c.id),
                  if s.core.deleted == 0 && s.core.added < RuleCount(k) then AllRules(k.c)[..s.core.added] else [])
  {
    ReachedInv(k, start, acts, s);
    OwnThingsGone(k, start, s);
    RulesAtEnd(k, start, WithoutUs(start, acts), s);
  }

  lemma OwnThingsGone(k: Setting, start: World, s: Sys)
    requires GoodStart(k, start) && Good(k, s.core) && s.core.pc == Done && Mirror(k, start, s.core.held, s.world)
    ensures forall kind :: Name(k, kind) in s.world.Names(kind) ==> Name(k, kind) in start.Names(kind)
    ensures k.scratch !in s.world.mounts && k.scratch !in s.world.dirs && k.c.id !in s.world.helpers
  {
    forall kind
      ensures Name(k, kind) in s.world.Names(kind) ==> Name(k, kind) in start.Names(kind)
    {
      assert MirrorOf(k, start, s.core.held.Of(kind), s.world, kind);
      match kind
      case Cgroup =>
      case Link =>
      case Mounted =>
      case Dir =>
      case Helper =>
    }
    assert Name(k, Mounted) in s.world.Names(Mounted) ==> Name(k, Mounted) in start.Names(Mounted);
    assert Name(k, Dir) in s.world.Names(Dir) ==> Name(k, Dir) in start.Names(Dir);
    assert Name(k, Helper) in s.world.Names(Helper) ==> Name(k, Helper) in start.Names(Helper);
  }

  lemma RulesAtEnd(k: Setting, start: World, apart: World, s: Sys)
    requires Inv(k, start, apart, s) && s.core.pc == Done
    ensures Shows(Own(s.world.tables, k.c.id),
                  if s.core.deleted == 0 && s.core.added < RuleCount(k) then AllRules(k.c)[..s.core.added] else [])
  {
    hide Shows, Mirror, Elsewhere, AllRules, CgroupHeld, LinkHeld, HelperHeld, ScratchHeld, Control;
    AllRulesCount(k.c);
    var c := s.core;
    if c.deleted == 0 && c.added < RuleCount(k) {
      assert InPlace(k, c) == AllRules(k.c)[..c.added];
    } else {
      assert InPlace(k, c) == [];
    }
  }

  /** And the chains are exactly what the others made of them, unless a port set-up failed after its first rule. */
  lemma {:induction false} ChainsLeftIff(k: Setting, start: World, acts: seq<Action>, s: Sys)
    requires Reaches(k, start, acts, s) && s.core.pc == Done
    ensures s.world.tables == WithoutUs(start, acts).tables <==>
      !(s.core.deleted == 0 && 0 < s.core.added < RuleCount(k))
  {
    hide Run, GoodStart, WithoutUs, AllRules, Good;
    NothingLeft(k, start, acts, s);
    AllRulesCount(k.c);
    var left := if s.core.deleted == 0 && s.core.added < RuleCount(k) then AllRules(k.c)[..s.core.added] else [];
    EmptyShowsNothing(Own(s.world.tables, k.c.id), left);
    if left == [] {
      NoOwnIsRest(s.world.tables, k.c.id);
    } else {
      RestHasNoOwn(s.world.tables, k.c.id);
    }
  }

  lemma {:induction false} SelectTwice(rules: seq<Rule>, id: string)
    ensures Select(Select(rules, id, false), id, true) == []
  {
    if rules != [] {
      SelectTwice(rules[1..], id);
      if !Tagged(rules[0], id) {
        SelectCons(rules[0], Select(rules[1..], id, false), id, true);
      }
    }
  }

  lemma RestHasNoOwn(t: Tables, id: string)
    ensures Empty(Own(RuleCommands.Rest(t, id), id))
  {
    SelectTwice(t.prerouting, id);
    SelectTwice(t.output, id);
    SelectTwice(t.forward, id);
    SelectTwice(t.postrouting, id);
  }

  // ---- failures

  predicate LeadsTo(k: Setting, s: Core, ch: Choice, pc: Pc) {
    ParentStep(k, s, ch).To? && ParentStep(k, s, ch).core.pc == pc
  }

  lemma PreflightMayFail(k: Setting, s: Core)
    requires s.pc.AtPreflight? && k.rootless
    ensures LeadsTo(k, s, Fail, Done)
  {
  }

  lemma ResolveMayFail(k: Setting, s: Core)
    requires s.pc.AtResolve? && k.image
    ensures LeadsTo(k, s, Fail, Done) && LeadsTo(k, s, FailAfterMaking, Done)
  {
  }

  lemma PipeMayFail(k: Setting, s: Core)
    requires s.pc.AtPipe?
    ensures LeadsTo(k, s, Fail, AtUnmount)
  {
  }

  lemma StartMayFail(k: Setting, s: Core)
    requires s.pc.AtStart?
    ensures LeadsTo(k, s, Fail, AtDeferredClose)
  {
  }

  lemma CreateMayFail(k: Setting, s: Core)
    requires s.pc.AtCreate?
    ensures LeadsTo(k, s, Fail, AtKill) && LeadsTo(k, s, FailAfterMaking, AtKill)
  {
  }

  lemma AddPidMayFail(k: Setting, s: Core)
    requires s.pc.AtAddPid?
    ensures LeadsTo(k, s, Fail, AtKill)
  {
    hide AllRules, OpeningStep, BridgeStep, LinkStep, SlirpStep, DecideStep, GiveBackStep, DeferredStep;
  }

  lemma BridgeMayFail(k: Setting, s: Core)
    requires s.pc.AtBridge?
    ensures LeadsTo(k, s, Fail, AtKill)
  {
    hide AllRules, OpeningStep, CgroupStep, LinkStep, SlirpStep, DecideStep, GiveBackStep, DeferredStep;
  }

  lemma MasqueradeMayFail(k: Setting, s: Core)
    requires s.pc.AtMasquerade?
    ensures LeadsTo(k, s, Fail, AtKill)
  {
    hide AllRules, OpeningStep, CgroupStep, LinkStep, SlirpStep, DecideStep, GiveBackStep, DeferredStep;
  }

  lemma AddLinkMayFail(k: Setting, s: Core)
    requires s.pc.AtAddLink?
    ensures LeadsTo(k, s, Fail, AtKill)
  {
    hide AllRules, OpeningStep, CgroupStep, BridgeStep, SlirpStep, DecideStep, GiveBackStep, DeferredStep;
  }

  lemma ConfigureMayFail(k: Setting, s: Core)
    requires s.pc.AtConfigure?
    ensures LeadsTo(k, s, Fail, AtUnlink)
  {
    hide AllRules, OpeningStep, CgroupStep, BridgeStep, SlirpStep, DecideStep, GiveBackStep, DeferredStep;
  }

  lemma PublishMayFail(k: Setting, s: Core)
    requires s.pc.AtPublish? && s.added < RuleCount(k)
    ensures LeadsTo(k, s, Fail, AtUnlink)
  {
    hide AllRules, OpeningStep, CgroupStep, BridgeStep, SlirpStep, DecideStep, GiveBackStep, DeferredStep;
  }

  lemma SlirpMayFail(k: Setting, s: Core)
    requires s.pc.AtSlirp?
    ensures LeadsTo(k, s, Fail, AtRelease)
  {
    hide AllRules, OpeningStep, CgroupStep, BridgeStep, LinkStep, DecideStep, GiveBackStep, DeferredStep;
  }

  lemma AddressMayFail(k: Setting, s: Core)
    requires s.pc.AtBridge?
    ensures LeadsTo(k, s, Shared(Make(Link, "myrun0"), true), AtKill)
  {
    hide AllRules, OpeningStep, CgroupStep, LinkStep, SlirpStep, DecideStep, GiveBackStep, DeferredStep;
  }

  lemma BaseGoesOn(s: Core, ch: Choice, base: Placement, next: Pc)
    ensures BaseStep(s, ch, base, next).To? ==> BaseStep(s, ch, base, next).core.pc == next
  {
  }

  lemma FromBridgeGoesOn(k: Setting, s: Core, ch: Choice)
    requires s.pc.AtFromBridge? && ParentStep(k, s, ch).To?
    ensures ParentStep(k, s, ch).core.pc == AtToBridge
  {
    hide AllRules, BaseStep, OpeningStep, CgroupStep, LinkStep, SlirpStep, DecideStep, GiveBackStep, DeferredStep;
    BaseGoesOn(s, ch, Placement(Forward, FromBridge), AtToBridge);
  }

  lemma ToBridgeGoesOn(k: Setting, s: Core, ch: Choice)
    requires s.pc.AtToBridge? && ParentStep(k, s, ch).To?
    ensures ParentStep(k, s, ch).core.pc == AtStaleLink
  {
    hide AllRules, BaseStep, OpeningStep, CgroupStep, LinkStep, SlirpStep, DecideStep, GiveBackStep, DeferredStep;
    BaseGoesOn(s, ch, Placement(Forward, ToBridge), AtStaleLink);
  }

  lemma StaleLinkGoesOn(k: Setting, s: Core, ch: Choice)
    requires s.pc.AtStaleLink? && ParentStep(k, s, ch).To?
    ensures ParentStep(k, s, ch).core.pc == AtAddLink
  {
    hide AllRules, OpeningStep, CgroupStep, BridgeStep, SlirpStep, DecideStep, GiveBackStep, DeferredStep;
  }

  /** Every step before there is a child that can fail in the source can fail here, too. */
  lemma {:induction false} OpeningMayFail(k: Setting, s: Core)
    ensures s.pc.AtPreflight? && k.rootless ==> LeadsTo(k, s, Fail, Done)
    ensures s.pc.AtResolve? && k.image ==> LeadsTo(k, s, Fail, Done) && LeadsTo(k, s, FailAfterMaking, Done)
    ensures s.pc.AtPipe? ==> LeadsTo(k, s, Fail, AtUnmount)
    ensures s.pc.AtStart? ==> LeadsTo(k, s, Fail, AtDeferredClose)
  {
    hide LeadsTo;
    if s.pc.AtPreflight? && k.rootless {
      PreflightMayFail(k, s);
    } else if s.pc.AtResolve? && k.image {
      ResolveMayFail(k, s);
    } else if s.pc.AtPipe? {
      PipeMayFail(k, s);
    } else if s.pc.AtStart? {
      StartMayFail(k, s);
    }
  }

  /**
   The bridge's address can fail to be assigned. The rules for forwarding are only tried,
   and so is the removal of a stale link.
   */
  lemma {:induction false} BestEffort(k: Setting, s: Core, ch: Choice)
    ensures s.pc.AtBridge? ==> LeadsTo(k, s, Shared(Make(Link, "myrun0"), true), AtKill)
    ensures s.pc.AtFromBridge? && ParentStep(k, s, ch).To? ==> ParentStep(k, s, ch).core.pc == AtToBridge
    ensures s.pc.AtToBridge? && ParentStep(k, s, ch).To? ==> ParentStep(k, s, ch).core.pc == AtStaleLink
    ensures s.pc.AtStaleLink? && ParentStep(k, s, ch).To? ==> ParentStep(k, s, ch).core.pc == AtAddLink
  {
    hide LeadsTo, ParentStep;
    if s.pc.AtBridge? {
      AddressMayFail(k, s);
    } else if ParentStep(k, s, ch).To? {
      match s.pc
      case AtFromBridge => FromBridgeGoesOn(k, s, ch);
      case AtToBridge => ToBridgeGoesOn(k, s, ch);
      case AtStaleLink => StaleLinkGoesOn(k, s, ch);
      case _ =>
    }
  }

  /**
   Every step of the set-up that can fail in the source can fail here, and leads to the
   kill, but for the helper's.
   */
  lemma {:induction false} SetupMayFail(k: Setting, s: Core)
    ensures s.pc.AtCreate? || s.pc.AtAddPid? || s.pc.AtBridge? || s.pc.AtMasquerade? || s.pc.AtAddLink? ==>
      LeadsTo(k, s, Fail, AtKill)
    ensures s.pc.AtConfigure? || (s.pc.AtPublish? && s.added < RuleCount(k)) ==> LeadsTo(k, s, Fail, AtUnlink)
    ensures s.pc.AtSlirp? ==> LeadsTo(k, s, Fail, AtRelease)
  {
    hide LeadsTo, RuleCount;
    match s.pc
    case AtCreate => CreateMayFail(k, s);
    case AtAddPid => AddPidMayFail(k, s);
    case AtBridge => BridgeMayFail(k, s);
    case AtMasquerade => MasqueradeMayFail(k, s);
    case AtAddLink => AddLinkMayFail(k, s);
    case AtConfigure => ConfigureMayFail(k, s);
    case AtPublish =>
      if s.added < RuleCount(k) {
        PublishMayFail(k, s);
      }
    case AtSlirp => SlirpMayFail(k, s);
    case _ =>
  }

  /** Where a step can fail. */
  predicate Fallible(k: Setting, s: Core) {
    || (s.pc.AtPreflight? && k.rootless) || (s.pc.AtResolve? && k.image) || s.pc.AtPipe? || s.pc.AtStart?
    || s.pc.AtCreate? || s.pc.AtAddPid? || s.pc.AtBridge? || s.pc.AtMasquerade? || s.pc.AtAddLink?
    || s.pc.AtConfigure? || (s.pc.AtPublish? && s.added < RuleCount(k)) || s.pc.AtSlirp?
  }

  lemma OpeningFails(k: Setting, s: Core)
    requires OpeningStep(k, s, Fail).To? || OpeningStep(k, s, FailAfterMaking).To?
    ensures Fallible(k, s)
    ensures OpeningStep(k, s, FailAfterMaking).To? ==> s.pc.AtResolve?
  {
  }

  lemma CgroupFails(k: Setting, s: Core)
    requires CgroupStep(k, s, Fail).To? || CgroupStep(k, s, FailAfterMaking).To?
    ensures Fallible(k, s)
    ensures CgroupStep(k, s, FailAfterMaking).To? ==> s.pc.AtCreate?
  {
  }

  lemma NetworkFails(k: Setting, s: Core)
    ensures BridgeStep(s, Fail).To? || LinkStep(k, s, Fail).To? ==> Fallible(k, s)
    ensures BridgeStep(s, FailAfterMaking).Stuck? && LinkStep(k, s, FailAfterMaking).Stuck?
  {
    hide AllRules;
  }

  lemma NothingElseFails(k: Setting, s: Core)
    ensures DecideStep(s, Fail).Stuck? && DecideStep(s, FailAfterMaking).Stuck?
    ensures GiveBackStep(k, s, Fail).Stuck? && GiveBackStep(k, s, FailAfterMaking).Stuck?
    ensures DeferredStep(k, s, Fail).Stuck? && DeferredStep(k, s, FailAfterMaking).Stuck?
    ensures SlirpStep(k, s, FailAfterMaking).Stuck?
  {
  }

  /** And no other step can. */
  lemma {:induction false} FailsOnlyThere(k: Setting, s: Core)
    ensures ParentStep(k, s, Fail).To? ==> Fallible(k, s)
    ensures ParentStep(k, s, FailAfterMaking).To? ==> (s.pc.AtResolve? && k.image) || s.pc.AtCreate?
  {
    hide OpeningStep, CgroupStep, BridgeStep, LinkStep, SlirpStep, DecideStep, GiveBackStep, DeferredStep, RuleCount;
    NetworkFails(k, s);
    NothingElseFails(k, s);
    if OpeningStep(k, s, Fail).To? || OpeningStep(k, s, FailAfterMaking).To? {
      OpeningFails(k, s);
    }
    if CgroupStep(k, s, Fail).To? || CgroupStep(k, s, FailAfterMaking).To? {
      CgroupFails(k, s);
    }
  }

  lemma ScratchOrder(k: Setting, s: Core)
    requires ScratchHeld(k, s)
    ensures s.held.dir.Removed? ==> !s.held.mount.Present?
  {
  }

  /** The scratch directory is never removed with the image still mounted on it. */
  lemma {:induction false} UnmountedFirst(k: Setting, start: World, acts: seq<Action>, s: Sys)
    requires Reaches(k, start, acts, s)
    ensures s.core.held.dir.Removed? ==> k.scratch !in s.world.mounts
  {
    hide Good, Elsewhere, Shows, Run;
    ReachedInv(k, start, acts, s);
    GoodScratch(k, s.core);
    ScratchOrder(k, s.core);
    assert MirrorOf(k, start, s.core.held.Of(Mounted), s.world, Mounted);
  }

  lemma GoodScratch(k: Setting, s: Core)
    requires Good(k, s)
    ensures ScratchHeld(k, s)
  {
  }

  // ---- progress

  /** An upper bound on the steps the parent has still to take. */
  function Left(k: Setting, s: Core): int {
    var n := RuleCount(k);
    match s.pc
    case Done => 0
    case AtRemoveScratch => 1
    case AtUnmount => 2
    case AtDeferredClose => 3
    case AtSlirpDown => 4
    case AtUnlinkLast => 5
    case AtUnpublish => 6 + n - s.deleted
    case AtCgClose => 7 + n
    case AtWait => 8 + n
    case AtRelease => 9 + n
    case AtCgAfterKill => 4
    case AtReapKilled => 5
    case AtKill => 6
    case AtUnlink => 7
    case AtSlirp => 10 + n
    case AtPublish => 10 + n + n - s.added
    case AtConfigure => 11 + 2 * n
    case AtAddLink => 12 + 2 * n
    case AtStaleLink => 13 + 2 * n
    case AtToBridge => 14 + 2 * n
    case AtFromBridge => 15 + 2 * n
    case AtMasquerade => 16 + 2 * n
    case AtBridge => 17 + 2 * n
    case AtAddPid => 18 + 2 * n
    case AtCreate => 19 + 2 * n
    case AtCloseRead => 20 + 2 * n
    case AtStart => 21 + 2 * n
    case AtPipe => 22 + 2 * n
    case AtResolve => 23 + 2 * n
    case AtPreflight => 24 + 2 * n
  }

  function ChildRank(ch: Child): nat {
    match ch case Paused => 3 case Running => 2 case Zombie => 1 case _ => 0
  }

  function Measure(k: Setting, s: Core): int { 4 * Left(k, s) + ChildRank(s.child) }

  /** Where a step of the parent can lead. */
  predicate Leads(k: Setting, a: Core, b: Core) {
    match a.pc
    case AtPreflight => b.pc.AtResolve? || b.pc.Done?
    case AtResolve => b.pc.AtPipe? || b.pc.Done?
    case AtPipe => b.pc.AtStart? || b.pc.AtUnmount?
    case AtStart => b.pc.AtCloseRead? || b.pc.AtDeferredClose?
    case AtCloseRead => b.pc.AtCreate? || b.pc.AtBridge? || b.pc.AtSlirp?
    case AtCreate => b.pc.AtAddPid? || b.pc.AtKill?
    case AtAddPid => b.pc.AtBridge? || b.pc.AtKill?
    case AtBridge => b.pc.AtMasquerade? || b.pc.AtKill?
    case AtMasquerade => b.pc.AtFromBridge? || b.pc.AtKill?
    case AtFromBridge => b.pc.AtToBridge?
    case AtToBridge => b.pc.AtStaleLink?
    case AtStaleLink => b.pc.AtAddLink?
    case AtAddLink => b.pc.AtConfigure? || b.pc.AtKill?
    case AtConfigure => (b.pc.AtPublish? && b.added == a.added) || b.pc.AtUnlink?
    case AtPublish => (b.pc.AtPublish? && a.added < b.added <= RuleCount(k)) || b.pc.AtRelease? || b.pc.AtUnlink?
    case AtUnlink => b.pc.AtKill?
    case AtSlirp => b.pc.AtRelease?
    case AtRelease => b.pc.AtWait?
    case AtWait => b.pc.AtCgClose?
    case AtCgClose => (b.pc.AtUnpublish? && b.deleted == a.deleted) || b.pc.AtSlirpDown?
    case AtUnpublish => (b.pc.AtUnpublish? && a.deleted < b.deleted <= RuleCount(k)) || b.pc.AtUnlinkLast?
    case AtUnlinkLast => b.pc.AtSlirpDown?
    case AtSlirpDown => b.pc.AtDeferredClose?
    case AtKill => b.pc.AtReapKilled?
    case AtReapKilled => b.pc.AtCgAfterKill?
    case AtCgAfterKill => b.pc.AtDeferredClose?
    case AtDeferredClose => b.pc.AtUnmount?
    case AtUnmount => b.pc.AtRemoveScratch?
    case AtRemoveScratch => b.pc.Done?
    case Done => false
  }

  lemma OpeningLeads(k: Setting, s: Core, ch: Choice)
    requires OpeningStep(k, s, ch).To?
    ensures Leads(k, s, OpeningStep(k, s, ch).core)
  {
  }

  lemma CgroupLeads(k: Setting, s: Core, ch: Choice)
    requires CgroupStep(k, s, ch).To?
    ensures Leads(k, s, CgroupStep(k, s, ch).core)
  {
  }

  lemma BridgeLeads(k: Setting, s: Core, ch: Choice)
    requires s.pc.AtBridge? && BridgeStep(s, ch).To?
    ensures Leads(k, s, BridgeStep(s, ch).core)
  {
  }

  lemma MasqueradeLeads(k: Setting, s: Core, ch: Choice)
    requires s.pc.AtMasquerade? && BridgeStep(s, ch).To?
    ensures Leads(k, s, BridgeStep(s, ch).core)
  {
  }

  lemma FromBridgeLeads(k: Setting, s: Core, ch: Choice)
    requires s.pc.AtFromBridge? && BridgeStep(s, ch).To?
    ensures Leads(k, s, BridgeStep(s, ch).core)
  {
  }

  lemma ToBridgeLeads(k: Setting, s: Core, ch: Choice)
    requires s.pc.AtToBridge? && BridgeStep(s, ch).To?
    ensures Leads(k, s, BridgeStep(s, ch).core)
  {
  }

  lemma StaleLinkLeads(k: Setting, s: Core, ch: Choice)
    requires s.pc.AtStaleLink? && LinkStep(k, s, ch).To?
    ensures Leads(k, s, LinkStep(k, s, ch).core)
  {
    hide AllRules;
  }

  lemma AddLinkLeads(k: Setting, s: Core, ch: Choice)
    requires s.pc.AtAddLink? && LinkStep(k, s, ch).To?
    ensures Leads(k, s, LinkStep(k, s, ch).core)
  {
    hide AllRules;
  }

  lemma ConfigureLeads(k: Setting, s: Core, ch: Choice)
    requires s.pc.AtConfigure? && LinkStep(k, s, ch).To?
    ensures Leads(k, s, LinkStep(k, s, ch).core)
  {
    hide AllRules;
  }

  lemma PublishLeads(k: Setting, s: Core, ch: Choice)
    requires s.pc.AtPublish? && LinkStep(k, s, ch).To?
    ensures Leads(k, s, LinkStep(k, s, ch).core)
  {
    hide AllRules;
  }

  lemma UnlinkLeads(k: Setting, s: Core, ch: Choice)
    requires s.pc.AtUnlink? && LinkStep(k, s, ch).To?
    ensures Leads(k, s, LinkStep(k, s, ch).core)
  {
    hide AllRules;
  }

  lemma SlirpLeads(k: Setting, s: Core, ch: Choice)
    requires s.pc.AtSlirp? && SlirpStep(k, s, ch).To?
    ensures Leads(k, s, SlirpStep(k, s, ch).core)
  {
  }

  lemma DecideLeads(k: Setting, s: Core, ch: Choice)
    requires DecideStep(s, ch).To?
    ensures Leads(k, s, DecideStep(s, ch).core)
  {
    hide RuleCount;
  }

  lemma CgCloseLeads(k: Setting, s: Core, ch: Choice)
    requires s.pc.AtCgClose? && GiveBackStep(k, s, ch).To?
    ensures Leads(k, s, GiveBackStep(k, s, ch).core)
  {
    hide AllRules, CloseCgroup;
  }

  lemma CgAfterKillLeads(k: Setting, s: Core, ch: Choice)
    requires s.pc.AtCgAfterKill? && GiveBackStep(k, s, ch).To?
    ensures Leads(k, s, GiveBackStep(k, s, ch).core)
  {
    hide AllRules, CloseCgroup;
  }

  lemma UnpublishLeads(k: Setting, s: Core, ch: Choice)
    requires s.pc.AtUnpublish? && GiveBackStep(k, s, ch).To?
    ensures Leads(k, s, GiveBackStep(k, s, ch).core)
  {
    hide AllRules, CloseCgroup, RuleCount;
    if s.deleted < RuleCount(k) {
      assert GiveBackStep(k, s, ch).core == s.(deleted := s.deleted + 1);
    } else {
      assert GiveBackStep(k, s, ch).core == s.(pc := AtUnlinkLast);
    }
  }

  lemma UnlinkLastLeads(k: Setting, s: Core, ch: Choice)
    requires s.pc.AtUnlinkLast? && GiveBackStep(k, s, ch).To?
    ensures Leads(k, s, GiveBackStep(k, s, ch).core)
  {
    hide AllRules, CloseCgroup;
  }

  lemma SlirpDownLeads(k: Setting, s: Core, ch: Choice)
    requires s.pc.AtSlirpDown? && GiveBackStep(k, s, ch).To?
    ensures Leads(k, s, GiveBackStep(k, s, ch).core)
  {
    hide AllRules, CloseCgroup;
  }

  lemma DeferredLeads(k: Setting, s: Core, ch: Choice)
    requires DeferredStep(k, s, ch).To?
    ensures Leads(k, s, DeferredStep(k, s, ch).core)
  {
  }

  lemma ParentLeads(k: Setting, s: Core, ch: Choice)
    requires ParentStep(k, s, ch).To?
    ensures Leads(k, s, ParentStep(k, s, ch).core)
  {
    hide Leads, OpeningStep, CgroupStep, BridgeStep, LinkStep, SlirpStep, DecideStep, GiveBackStep, DeferredStep;
    match s.pc
    case AtPreflight | AtResolve | AtPipe | AtStart | AtCloseRead => OpeningLeads(k, s, ch);
    case AtCreate | AtAddPid => CgroupLeads(k, s, ch);
    case AtBridge => BridgeLeads(k, s, ch);
    case AtMasquerade => MasqueradeLeads(k, s, ch);
    case AtFromBridge => FromBridgeLeads(k, s, ch);
    case AtToBridge => ToBridgeLeads(k, s, ch);
    case AtStaleLink => StaleLinkLeads(k, s, ch);
    case AtAddLink => AddLinkLeads(k, s, ch);
    case AtConfigure => ConfigureLeads(k, s, ch);
    case AtPublish => PublishLeads(k, s, ch);
    case AtUnlink => UnlinkLeads(k, s, ch);
    case AtSlirp => SlirpLeads(k, s, ch);
    case AtRelease | AtWait | AtKill | AtReapKilled => DecideLeads(k, s, ch);
    case AtCgClose => CgCloseLeads(k, s, ch);
    case AtCgAfterKill => CgAfterKillLeads(k, s, ch);
    case AtUnpublish => UnpublishLeads(k, s, ch);
    case AtUnlinkLast => UnlinkLastLeads(k, s, ch);
    case AtSlirpDown => SlirpDownLeads(k, s, ch);
    case AtDeferredClose | AtUnmount | AtRemoveScratch => DeferredLeads(k, s, ch);
    case Done =>
  }

  lemma LeadsDown(k: Setting, a: Core, b: Core)
    requires Leads(k, a, b) && RulesHeld(k, a) && RulesHeld(k, b)
    ensures Left(k, b) < Left(k, a)
  {
  }

  lemma LeftSkipsChild(k: Setting, s: Core, ch: Child)
    ensures Left(k, s.(child := ch)) == Left(k, s)
  {
  }

  lemma ParentGoesDown(k: Setting, s: Core, ch: Choice)
    requires Good(k, s) && ParentStep(k, s, ch).To?
    ensures Left(k, ParentStep(k, s, ch).core) < Left(k, s)
  {
    hide ParentStep, Left, Leads, Control, CgroupHeld, LinkHeld, HelperHeld, ScratchHeld, RulesHeld, HoldAll;
    var m := ParentStep(k, s, ch);
    CoreKept(k, s, Parent(ch));
    SameRules(k, m.core, After(k, s, m));
    ParentLeads(k, s, ch);
    LeadsDown(k, s, m.core);
  }

  lemma ChildGoesDown(k: Setting, s: Core, a: Action)
    requires !a.Parent? && !a.Others? && CoreStep(k, s, a).To?
    ensures CoreStep(k, s, a).core == s.(child := CoreStep(k, s, a).core.child)
    ensures ChildRank(CoreStep(k, s, a).core.child) < ChildRank(s.child)
  {
    hide ParentStep, Ours;
    match a
    case Read => assert CoreStep(k, s, a).core == s.(child := Running);
    case Exit => assert CoreStep(k, s, a).core == s.(child := Zombie);
    case Die => assert CoreStep(k, s, a).core == s.(child := Zombie);
    case Struck => assert CoreStep(k, s, a).core == s.(child := Zombie);
  }

  /** Every step of the two processes uses up some of a finite budget; other programs do not touch it. */
  lemma {:induction false} StepDecreases(k: Setting, s: Core, a: Action)
    requires Good(k, s) && CoreStep(k, s, a).To?
    ensures if a.Others? then Measure(k, CoreStep(k, s, a).core) == Measure(k, s)
            else Measure(k, CoreStep(k, s, a).core) < Measure(k, s)
  {
    hide ParentStep, Left, Good;
    if a.Parent? {
      ParentGoesDown(k, s, a.choice);
    } else if !a.Others? {
      ChildGoesDown(k, s, a);
      LeftSkipsChild(k, s, CoreStep(k, s, a).core.child);
    }
  }

  lemma LeftSkipsHeld(k: Setting, s: Core, h: Held)
    ensures Measure(k, s.(held := h)) == Measure(k, s)
  {
  }

  function OwnSteps(acts: seq<Action>): nat {
    if acts == [] then 0 else OwnSteps(acts[..|acts| - 1]) + if acts[|acts| - 1].Others? then 0 else 1
  }

  lemma LeftNotNegative(k: Setting, s: Core)
    requires RulesHeld(k, s)
    ensures Left(k, s) >= 0
  {
  }

  /**
   However the run goes, the two processes together take at most 24 + 6 * ports steps, four
   times over for the child's own, and are done.
   */
  lemma {:induction false} RunsAreBounded(k: Setting, start: World, acts: seq<Action>, s: Sys)
    requires Reaches(k, start, acts, s)
    ensures OwnSteps(acts) + Measure(k, s.core) <= 96 + 24 * |k.c.ports|
    ensures Measure(k, s.core) >= 0
  {
    hide GoodStart, Measure, Good, CoreStep, HoldAll, PerformAll, Mirror, Elsewhere, Shows;
    ReachedInv(k, start, acts, s);
    MeasureNotNegative(k, s.core);
    if acts == [] {
      InitialMeasure(k, start);
    } else {
      var init, last := acts[..|acts| - 1], acts[|acts| - 1];
      var before := Run(k, Init(start), init).value;
      RunsAreBounded(k, start, init, before);
      ReachedInv(k, start, init, before);
      StepDecreases(k, before.core, last);
      LeftSkipsHeld(k, CoreStep(k, before.core, last).core, s.core.held);
    }
  }

  lemma MeasureNotNegative(k: Setting, s: Core)
    requires Good(k, s)
    ensures Measure(k, s) >= 0
  {
    hide Left, RulesHeld, Control, CgroupHeld, LinkHeld, HelperHeld, ScratchHeld;
    LeftNotNegative(k, s);
  }

  lemma InitialMeasure(k: Setting, start: World)
    ensures Measure(k, Init(start).core) == 96 + 24 * |k.c.ports|
  {
  }

  /** The step that is possible next, without help from outside. */
  function Next(k: Setting, s: Core): Action {
    if s.pc == AtWait && s.child == Paused then Read
    else if s.pc == AtWait && s.child == Running then Exit
    else if s.pc == AtReapKilled && Alive(s.child) then Die
    else Parent(Ok)
  }

  /** No reachable state is stuck: until Run has returned, the parent or the child can move. */
  lemma {:induction false} NeverStuck(k: Setting, start: World, acts: seq<Action>, s: Sys)
    requires Reaches(k, start, acts, s) && s.core.pc != Done
    ensures Step(k, s, Next(k, s.core)).Some?
    ensures !Next(k, s.core).Others? && !Next(k, s.core).Struck?
  {
    hide Run, GoodStart, Mirror, Elsewhere, Shows, CgroupHeld, LinkHeld, HelperHeld, ScratchHeld, RulesHeld, Control,
         CoreStep;
    ReachedInv(k, start, acts, s);
    CanMove(k, s.core);
  }

  lemma CanMove(k: Setting, s: Core)
    requires Control(s) && s.pc != Done
    ensures CoreStep(k, s, Next(k, s)).To?
  {
    hide AllRules, CloseCgroup;
  }
}
