// What the shared chains look like from outside: without the bridge's own rules, and to
// a packet for a published host port.

module PublishLookup {
  import opened IptablesChains
  import opened PublishRules

  /** A chain without the bridge's own rules. */
  function NonBase(rules: seq<Rule>): seq<Rule> {
    if rules == [] then [] else (if IsBaseRule(rules[0]) then [] else [rules[0]]) + NonBase(rules[1..])
  }

  predicate IsBaseRule(r: Rule) { r.Masquerade? || r.FromBridge? || r.ToBridge? }

  function DropBase(log: seq<Entry>): seq<Entry> {
    if log == [] then []
    else
      (if log[0].Lone? && IsBaseRule(log[0].p.rule) then [] else [log[0]]) + DropBase(log[1..])
  }

  lemma {:induction false} NonBaseConcat(a: seq<Rule>, b: seq<Rule>)
    ensures NonBase(a + b) == NonBase(a) + NonBase(b)
  {
    if a == [] {
      assert a + b == b;
    } else {
      var head, x, y := if IsBaseRule(a[0]) then [] else [a[0]], NonBase(a[1..]), NonBase(b);
      NonBaseConcat(a[1..], b);
      assert (a + b)[1..] == a[1..] + b;
      assert head + (x + y) == (head + x) + y;
    }
  }

  lemma {:induction false} NonBaseOfTagged(ps: seq<Placement>, ch: Chain)
    requires forall i :: 0 <= i < |ps| ==> ps[i].rule.Dnat? || ps[i].rule.AcceptTo?
    ensures NonBase(Project(ps, ch)) == Project(ps, ch)
  {
    if ps != [] {
      NonBaseOfTagged(ps[1..], ch);
      if ps[0].chain == ch {
        NonBaseConcat([ps[0].rule], Project(ps[1..], ch));
        assert [ps[0].rule][1..] == [];
      } else {
        assert [] + Project(ps[1..], ch) == Project(ps[1..], ch);
      }
    }
  }

  /**
   With the base rules filtered out, each chain is the other people's rules and the
   containers' rules, in the order of the tracked list.
   */
  lemma {:induction false} ChainWithoutBase(log: seq<Entry>, ch: Chain)
    ensures NonBase(Project(Flat(log), ch)) == Project(Flat(DropBase(log)), ch)
  {
    if log != [] {
      var e, rest := log[0], log[1..];
      ChainWithoutBase(rest, ch);
      ProjectConcat(Rules(e), Flat(rest), ch);
      NonBaseConcat(Project(Rules(e), ch), Project(Flat(rest), ch));
      match e {
        case Lone(p) =>
          ProjectOne(p, ch);
          assert [p.rule][1..] == [];
          FlatConcat([e], DropBase(rest));
          FlatOne(e);
          ProjectConcat([p], Flat(DropBase(rest)), ch);
          if DropBase(log) == [] + DropBase(rest) {
            assert DropBase(log) == DropBase(rest);
          }
        case Owned(c, count) =>
          PublishedAreTagged(c, |c.ports|);
          NonBaseOfTagged(Rules(e), ch);
          FlatConcat([e], DropBase(rest));
          FlatOne(e);
          ProjectConcat(Rules(e), Flat(DropBase(rest)), ch);
      }
    }
  }

  datatype Target = Nowhere | To(host: int, port: int)

  /** The kernel's use of a nat chain: the first matching DNAT rule decides. */
  function FirstDnat(rules: seq<Rule>, proto: string, dport: int): Target {
    if rules == [] then Nowhere
    else if rules[0].Dnat? && rules[0].proto == proto && rules[0].dport == dport
      then To(rules[0].toHost, rules[0].toPort)
    else FirstDnat(rules[1..], proto, dport)
  }

  /** The first of a container's first n mappings that publishes the port. */
  function FirstMapping(c: Container, n: nat, proto: string, dport: int): Target
    requires n <= |c.ports|
  {
    if n == 0 then Nowhere
    else if FirstMapping(c, n - 1, proto, dport).To? then FirstMapping(c, n - 1, proto, dport)
    else if Proto(c.ports[n - 1]) == proto && c.ports[n - 1].hostPort == dport
      then To(c.host, c.ports[n - 1].containerPort)
    else Nowhere
  }

  /** The first entry of the list that publishes the port (its DNAT rule comes first of each three). */
  function FirstPublisher(log: seq<Entry>, proto: string, dport: int): Target {
    if log == [] then Nowhere
    else
      var here := match log[0]
        case Lone(p) => if p.chain == Prerouting then FirstDnat([p.rule], proto, dport) else Nowhere
        case Owned(c, count) => if count <= |AllRules(c)|
          then FirstMapping(c, (count + 2) / 3, proto, dport) else Nowhere;
      if here.To? then here else FirstPublisher(log[1..], proto, dport)
  }

  lemma {:induction false} FirstDnatConcat(a: seq<Rule>, b: seq<Rule>, proto: string, dport: int)
    ensures FirstDnat(a + b, proto, dport)
      == if FirstDnat(a, proto, dport).To? then FirstDnat(a, proto, dport) else FirstDnat(b, proto, dport)
  {
    if a == [] {
      assert a + b == b;
    } else {
      FirstDnatConcat(a[1..], b, proto, dport);
      assert (a + b)[1..] == a[1..] + b;
    }
  }

  lemma RulesUpTo(c: Container, n: nat, k: nat)
    requires 1 <= n <= |c.ports| && k < 3
    ensures AllRules(c)[..3 * (n - 1) + k + 1] == PublishAll(c, n - 1) + Publish(c, c.ports[n - 1])[..k + 1]
    ensures AllRules(c)[..3 * (n - 1)] == PublishAll(c, n - 1)
  {
    PublishPrefix(c, n, |c.ports|);
    PublishPrefix(c, n - 1, |c.ports|);
    var count := 3 * (n - 1) + k + 1;
    assert AllRules(c)[..count] == AllRules(c)[..3 * n][..count];
  }

  lemma {:induction false} FirstDnatOfContainer(c: Container, count: nat, proto: string, dport: int)
    requires count <= |AllRules(c)|
    ensures FirstDnat(Project(AllRules(c)[..count], Prerouting), proto, dport) ==
      FirstMapping(c, (count + 2) / 3, proto, dport)
    decreases count
  {
    hide FirstMapping, AllRules;
    AllRulesLength(c);
    if count == 0 {
      NothingMapped(c, proto, dport);
      assert AllRules(c)[..0] == [];
    } else {
      var n, k := (count + 2) / 3, (count - 1) % 3;
      var before, pm := PublishAll(c, n - 1), c.ports[n - 1];
      var part := Publish(c, pm)[..k + 1];
      RulesUpTo(c, n, k);
      FirstDnatOfContainer(c, 3 * (n - 1), proto, dport);
      ProjectConcat(before, part, Prerouting);
      FirstDnatConcat(Project(before, Prerouting), Project(part, Prerouting), proto, dport);
      PartialPublish(c, pm, k + 1);
      OneDnat(c, pm, proto, dport);
      MappedNext(c, n, proto, dport);
    }
  }

  lemma PartialPublish(c: Container, pm: PortMapping, k: nat)
    requires 1 <= k <= 3
    ensures Project(Publish(c, pm)[..k], Prerouting) == [DnatRule(c, pm)]
  {
    var dnat, ps := Placement(Prerouting, DnatRule(c, pm)), Publish(c, pm)[..k];
    assert ps == [dnat] + ps[1..];
    ProjectConcat([dnat], ps[1..], Prerouting);
    ProjectOne(dnat, Prerouting);
    if 0 < |Project(ps[1..], Prerouting)| {
      ProjectMember(ps[1..], Prerouting, Project(ps[1..], Prerouting)[0]);
    }
  }

  // ---- the other chains of a container

  lemma PartialOutput(c: Container, pm: PortMapping, k: nat)
    requires k <= 3
    ensures Project(Publish(c, pm)[..k], Output) == if k >= 2 then [DnatRule(c, pm)] else []
    ensures Project(Publish(c, pm)[..k], Forward) == if k >= 3 then [AcceptRule(c, pm)] else []
  {
    var ps := Publish(c, pm);
    ProjectOne(ps[0], Output);
    ProjectOne(ps[0], Forward);
    ProjectOne(ps[1], Output);
    ProjectOne(ps[1], Forward);
    ProjectOne(ps[2], Output);
    ProjectOne(ps[2], Forward);
    if k >= 1 {
      assert ps[..1] == [ps[0]];
    }
    if k >= 2 {
      assert ps[..2] == [ps[0]] + [ps[1]];
      ProjectConcat([ps[0]], [ps[1]], Output);
      ProjectConcat([ps[0]], [ps[1]], Forward);
    }
    if k >= 3 {
      assert ps[..3] == ps[..2] + [ps[2]];
      ProjectConcat(ps[..2], [ps[2]], Output);
      ProjectConcat(ps[..2], [ps[2]], Forward);
    }
  }

  /** The host's own packets are looked up in Output, where a mapping's rule goes in second. */
  lemma {:induction false} OutputOfContainer(c: Container, count: nat, proto: string, dport: int)
    requires count <= |AllRules(c)|
    ensures FirstDnat(Project(AllRules(c)[..count], Output), proto, dport) ==
      FirstMapping(c, (count + 1) / 3, proto, dport)
    decreases count
  {
    hide FirstMapping, AllRules;
    AllRulesLength(c);
    if count == 0 {
      NothingMapped(c, proto, dport);
      assert AllRules(c)[..0] == [];
    } else {
      var n, k := (count + 2) / 3, (count - 1) % 3;
      var before, pm := PublishAll(c, n - 1), c.ports[n - 1];
      var part := Publish(c, pm)[..k + 1];
      RulesUpTo(c, n, k);
      OutputOfContainer(c, 3 * (n - 1), proto, dport);
      ProjectConcat(before, part, Output);
      FirstDnatConcat(Project(before, Output), Project(part, Output), proto, dport);
      PartialOutput(c, pm, k + 1);
      OneDnat(c, pm, proto, dport);
      MappedNext(c, n, proto, dport);
    }
  }

  lemma AllRulesLength(c: Container)
    ensures |AllRules(c)| == 3 * |c.ports|
  {
  }

  lemma NothingMapped(c: Container, proto: string, dport: int)
    ensures FirstMapping(c, 0, proto, dport) == Nowhere
  {
  }

  lemma OneDnat(c: Container, pm: PortMapping, proto: string, dport: int)
    ensures FirstDnat([DnatRule(c, pm)], proto, dport) ==
      if Proto(pm) == proto && pm.hostPort == dport then To(c.host, pm.containerPort) else Nowhere
    ensures FirstDnat([], proto, dport) == Nowhere
  {
    assert [DnatRule(c, pm)][1..] == [];
  }

  lemma MappedNext(c: Container, n: nat, proto: string, dport: int)
    requires 0 < n <= |c.ports|
    ensures FirstMapping(c, n, proto, dport) ==
      if FirstMapping(c, n - 1, proto, dport).To? then FirstMapping(c, n - 1, proto, dport)
      else if Proto(c.ports[n - 1]) == proto && c.ports[n - 1].hostPort == dport
      then To(c.host, c.ports[n - 1].containerPort) else Nowhere
  {
  }

  /** Some rule of the chain lets packets of the protocol through to the host and port. */
  predicate LetsThrough(rules: seq<Rule>, proto: string, host: int, port: int) {
    exists i :: 0 <= i < |rules| && rules[i].AcceptTo? && rules[i].proto == proto && rules[i].host == host
                && rules[i].dport == port
  }

  lemma LetsThroughConcat(a: seq<Rule>, b: seq<Rule>, proto: string, host: int, port: int)
    ensures LetsThrough(a + b, proto, host, port) <==>
      LetsThrough(a, proto, host, port) || LetsThrough(b, proto, host, port)
  {
    if i :| 0 <= i < |a| && a[i].AcceptTo? && a[i].proto == proto && a[i].host == host && a[i].dport == port {
      assert (a + b)[i] == a[i];
    }
    if i :| 0 <= i < |b| && b[i].AcceptTo? && b[i].proto == proto && b[i].host == host && b[i].dport == port {
      assert (a + b)[|a| + i] == b[i];
    }
  }

  /** Whatever one of a container's first n mappings redirects is let through to where it goes. */
  lemma {:induction false} MappedIsLetThrough(c: Container, n: nat, proto: string, dport: int)
    requires n <= |c.ports| && FirstMapping(c, n, proto, dport).To?
    ensures var target := FirstMapping(c, n, proto, dport);
            LetsThrough(Project(PublishAll(c, n), Forward), proto, target.host, target.port)
  {
    hide FirstMapping;
    if n == 0 {
      NothingMapped(c, proto, dport);
    } else {
      var pm := c.ports[n - 1];
      var target := FirstMapping(c, n, proto, dport);
      MappedNext(c, n, proto, dport);
      var before, part := Project(PublishAll(c, n - 1), Forward), Project(Publish(c, pm), Forward);
      ProjectConcat(PublishAll(c, n - 1), Publish(c, pm), Forward);
      LetsThroughConcat(before, part, proto, target.host, target.port);
      PartialOutput(c, pm, 3);
      assert Publish(c, pm)[..3] == Publish(c, pm);
      if FirstMapping(c, n - 1, proto, dport).To? {
        MappedIsLetThrough(c, n - 1, proto, dport);
      } else {
        assert part[0] == AcceptRule(c, pm);
      }
    }
  }

  /** First-match lookup of a host port gives the earliest entry that publishes it. */
  lemma {:induction false} LookupIsFirstPublisher(log: seq<Entry>, proto: string, dport: int)
    requires LogOk(log)
    ensures FirstDnat(Project(Flat(log), Prerouting), proto, dport) == FirstPublisher(log, proto, dport)
  {
    if log != [] {
      var e := log[0];
      assert EntryOk(e);
      LookupIsFirstPublisher(log[1..], proto, dport);
      ProjectConcat(Rules(e), Flat(log[1..]), Prerouting);
      FirstDnatConcat(Project(Rules(e), Prerouting), Project(Flat(log[1..]), Prerouting), proto, dport);
      match e
      case Lone(p) => ProjectOne(p, Prerouting);
      case Owned(c, count) => FirstDnatOfContainer(c, count, proto, dport);
    }
  }

  /** The entry that decides about the port; the list's length if none does. */
  function Decider(log: seq<Entry>, proto: string, dport: int): (i: nat)
    ensures i <= |log|
  {
    if log == [] then 0
    else if FirstPublisher([log[0]], proto, dport).To? then 0
    else 1 + Decider(log[1..], proto, dport)
  }

  lemma {:induction false} DeciderDecides(log: seq<Entry>, proto: string, dport: int)
    ensures var i := Decider(log, proto, dport);
            FirstPublisher(log, proto, dport) == if i == |log| then Nowhere else FirstPublisher([log[i]], proto, dport)
  {
    if log != [] {
      FirstPublisherConcat([log[0]], log[1..], proto, dport);
      assert log == [log[0]] + log[1..];
      DeciderDecides(log[1..], proto, dport);
    }
  }

  lemma {:induction false} EntryLetsThrough(log: seq<Entry>, i: nat, proto: string, host: int, port: int)
    requires i < |log| && LetsThrough(Project(Rules(log[i]), Forward), proto, host, port)
    ensures LetsThrough(Project(Flat(log), Forward), proto, host, port)
  {
    hide LetsThrough, Rules;
    var a, b := log[..i], log[i + 1..];
    assert log == a + ([log[i]] + b);
    FlatConcat(a, [log[i]] + b);
    FlatConcat([log[i]], b);
    FlatOne(log[i]);
    ProjectConcat(Flat(a), Rules(log[i]) + Flat(b), Forward);
    ProjectConcat(Rules(log[i]), Flat(b), Forward);
    LetsThroughConcat(Project(Rules(log[i]), Forward), Project(Flat(b), Forward), proto, host, port);
    LetsThroughConcat(Project(Flat(a), Forward), Project(Rules(log[i]) + Flat(b), Forward), proto, host, port);
  }

  /**
   A published port works end to end: where the first match sends a packet on behalf of a
   container whose rules are all in, the forward chain lets it through.
   */
  lemma {:induction false} RedirectedIsLetThrough(log: seq<Entry>, proto: string, dport: int)
    requires LogOk(log) && FirstDnat(Project(Flat(log), Prerouting), proto, dport).To?
    ensures Decider(log, proto, dport) < |log|
    ensures
      var target, e := FirstDnat(Project(Flat(log), Prerouting), proto, dport), log[Decider(log, proto, dport)];
      e.Owned? && e.count == |AllRules(e.c)| ==>
        LetsThrough(Project(Flat(log), Forward), proto, target.host, target.port)
  {
    hide LetsThrough, FirstMapping, LogOk;
    LookupIsFirstPublisher(log, proto, dport);
    DeciderDecides(log, proto, dport);
    var i := Decider(log, proto, dport);
    if log[i].Owned? && log[i].count == |AllRules(log[i].c)| {
      var c := log[i].c;
      AllRulesLength(c);
      FirstPublisherOne(c, log[i].count, proto, dport);
      MappedIsLetThrough(c, |c.ports|, proto, dport);
      var target := FirstMapping(c, |c.ports|, proto, dport);
      assert Rules(log[i]) == AllRules(c) by {
        assert AllRules(c)[..|AllRules(c)|] == AllRules(c);
      }
      EntryLetsThrough(log, i, proto, target.host, target.port);
    }
  }

  /** All containers' rules are all in, and nobody else redirects packets. */
  ghost predicate Settled(log: seq<Entry>) {
    forall i :: 0 <= i < |log| ==>
      match log[i]
      case Lone(p) => !p.rule.Dnat?
      case Owned(c, count) => count == |AllRules(c)|
  }

  lemma EntryLookups(e: Entry, proto: string, dport: int)
    requires Settled([e])
    ensures FirstDnat(Project(Rules(e), Output), proto, dport) == FirstDnat(Project(Rules(e), Prerouting), proto, dport)
  {
    assert Settled([e]) ==> match [e][0] case Lone(p) => !p.rule.Dnat? case Owned(c, count) => count == |AllRules(c)|;
    match e
    case Lone(p) =>
      ProjectOne(p, Output);
      ProjectOne(p, Prerouting);
      assert [p.rule][1..] == [];
    case Owned(c, count) =>
      AllRulesLength(c);
      OutputOfContainer(c, count, proto, dport);
      FirstDnatOfContainer(c, count, proto, dport);
  }

  /** Then the host itself reaches a published port exactly where others do. */
  lemma {:induction false} HostReachesTheSame(log: seq<Entry>, proto: string, dport: int)
    requires Settled(log)
    ensures FirstDnat(Project(Flat(log), Output), proto, dport) ==
      FirstDnat(Project(Flat(log), Prerouting), proto, dport)
  {
    if log != [] {
      var e, rest := log[0], log[1..];
      HostReachesTheSame(rest, proto, dport);
      EntryLookups(e, proto, dport);
      ProjectConcat(Rules(e), Flat(rest), Output);
      ProjectConcat(Rules(e), Flat(rest), Prerouting);
      FirstDnatConcat(Project(Rules(e), Output), Project(Flat(rest), Output), proto, dport);
      FirstDnatConcat(Project(Rules(e), Prerouting), Project(Flat(rest), Prerouting), proto, dport);
    }
  }

  /** One mapping on a fresh host: where it leads, and that without a protocol it is tcp. */
  lemma {:induction false} OneMapping(id: string, host: int, hostPort: int, port: int, proto: string)
    ensures var log := [Owned(Container(id, host, [PortMapping(hostPort, port, proto)]), 3)];
            var used := if proto == "" then "tcp" else proto;
            && FirstDnat(Project(Flat(log), Prerouting), used, hostPort) == To(host, port)
            && FirstDnat(Project(Flat(log), Output), used, hostPort) == To(host, port)
            && Project(Flat(log), Forward) == [AcceptTo(used, host, port, "myrun:" + id)]
  {
    var c := Container(id, host, [PortMapping(hostPort, port, proto)]);
    var log := [Owned(c, 3)];
    var pm := c.ports[0];
    FlatOne(log[0]);
    assert PublishAll(c, 0) == [];
    assert AllRules(c) == Publish(c, pm);
    assert Rules(log[0]) == Publish(c, pm)[..3];
    PartialPublish(c, pm, 3);
    PartialOutput(c, pm, 3);
    OneDnat(c, pm, if proto == "" then "tcp" else proto, hostPort);
  }

  /**
   What a failed set-up leaves behind is used: exactly if one of its first rules of a
   mapping went in for the port, no later entry of the list, wherever it stands, is reached
   through that port.
   */
  lemma {:induction false} ResidueShadows(before: seq<Entry>, failed: Container, kept: nat, later: seq<Entry>,
                                          proto: string, dport: int)
    requires kept <= |AllRules(failed)| && LogOk(before + [Owned(failed, kept)] + later)
    requires FirstPublisher(before, proto, dport) == Nowhere
    ensures
      var residue := FirstMapping(failed, (kept + 2) / 3, proto, dport);
      FirstDnat(Project(Flat(before + [Owned(failed, kept)] + later), Prerouting), proto, dport)
        == if residue.To? then residue else FirstPublisher(later, proto, dport)
  {
    LookupIsFirstPublisher(before + [Owned(failed, kept)] + later, proto, dport);
    FirstPublisherConcat(before + [Owned(failed, kept)], later, proto, dport);
    FirstPublisherConcat(before, [Owned(failed, kept)], proto, dport);
    FirstPublisherOne(failed, kept, proto, dport);
  }

  lemma FirstPublisherOne(c: Container, count: nat, proto: string, dport: int)
    requires count <= |AllRules(c)|
    ensures FirstPublisher([Owned(c, count)], proto, dport) == FirstMapping(c, (count + 2) / 3, proto, dport)
  {
    assert [Owned(c, count)][1..] == [];
  }

  lemma {:induction false} FirstPublisherConcat(a: seq<Entry>, b: seq<Entry>, proto: string, dport: int)
    ensures FirstPublisher(a + b, proto, dport)
      == if FirstPublisher(a, proto, dport).To?
        then FirstPublisher(a, proto, dport) else FirstPublisher(b, proto, dport)
  {
    if a == [] {
      assert a + b == b;
    } else {
      FirstPublisherConcat(a[1..], b, proto, dport);
      assert (a + b)[1..] == a[1..] + b;
    }
  }
}
