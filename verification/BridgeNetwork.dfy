// The host-side commands of the network package: EnsureBridge, Setup and Teardown, each
// command able to fail at any time, tied to the operations of PublishRules.

module BridgeNetwork {
  import opened Wrappers
  import opened IptablesChains
  import opened PublishRules

  /** `hash` stands for the first four bytes of the SHA-1 of the id. */
  datatype Config = Config(id: string, hash: nat, ports: seq<PortMapping>)

  datatype Network = Network(host: int, hostVeth: string, ports: seq<PortMapping>)

  function IpFromId(hash: nat): (host: int)
    ensures 2 <= host <= 254
  {
    hash % 253 + 2
  }

  /** Every host part from 2 to 254 is given, and two ids share an address exactly if their hashes agree modulo 253. */
  lemma {:induction false} IpSharedIff(a: nat, b: nat, host: int)
    ensures IpFromId(a) == IpFromId(b) <==> a % 253 == b % 253
    ensures 2 <= host <= 254 ==> IpFromId((host - 2) as nat) == host
  {
  }

  function ContainerOf(cfg: Config): Container {
    Container(cfg.id, IpFromId(cfg.hash), cfg.ports)
  }

  const BASE: seq<Placement> := [Placement(Postrouting, Masquerade), Placement(Forward, FromBridge),
    Placement(Forward, ToBridge)]

  /** The rules are base rules, and were missing unless a check failed without reason. */
  ghost predicate Needed(start: Tables, added: seq<Placement>, misled: bool) {
    && (forall i :: 0 <= i < |added| ==> IsBase(added[i]))
    && (!misled ==> forall i :: 0 <= i < |added| ==> added[i].rule !in start.Rules(added[i].chain))
  }

  class Host {
    var bridge: bool
    var links: set<string>
    var tables: Tables
    ghost var refusals: nat  // how many commands have failed that had something to do and could have done it

    constructor ()
      ensures !bridge && links == {} && tables == Tables([], [], [], []) && refusals == 0
    {
      refusals := 0;
      bridge := false;
      links := {};
      tables := Tables([], [], [], []);
    }

    // ---- single commands: `ok` is the exit status; a failed command changes nothing

    method Try() returns (ok: bool)
      modifies this`refusals
      ensures refusals == old(refusals) + if ok then 0 else 1
    {
      ok := *;
      refusals := refusals + if ok then 0 else 1;
    }

    /** iptables -C: can fail although the rule is there. */
    method Check(p: Placement) returns (ok: bool)
      modifies this`refusals
      ensures ok ==> p.rule in tables.Rules(p.chain)
      ensures refusals == old(refusals) + if !ok && p.rule in tables.Rules(p.chain) then 1 else 0
    {
      ok := *;
      ok := ok && p.rule in tables.Rules(p.chain);
      refusals := refusals + if !ok && p.rule in tables.Rules(p.chain) then 1 else 0;
    }

    /** iptables -A */
    method AppendRule(p: Placement) returns (ok: bool)
      modifies this`tables, this`refusals
      ensures tables == if ok then Append(old(tables), p) else old(tables)
      ensures refusals == old(refusals) + if ok then 0 else 1
    {
      ok := Try();
      if ok {
        tables := Append(tables, p);
      }
    }

    /** iptables -D: fails when no rule is equal; `trouble` when it fails for another reason. */
    method DeleteRule(p: Placement) returns (ok: bool, ghost trouble: bool)
      modifies this`tables, this`refusals
      ensures !trouble ==> tables == Delete(old(tables), p)
      ensures trouble ==> tables == old(tables)
      ensures refusals == old(refusals) + if trouble then 1 else 0
    {
      ok := *;
      ok := ok && p.rule in tables.Rules(p.chain);
      trouble := !ok && p.rule in tables.Rules(p.chain);
      refusals := refusals + if trouble then 1 else 0;
      if ok {
        tables := Delete(tables, p);
      } else if p.rule !in tables.Rules(p.chain) {
        DeleteFirstAbsent(tables.Rules(p.chain), p.rule);
      }
    }

    method AddVeth(name: string) returns (ok: bool)
      modifies this`links, this`refusals
      ensures links == if ok then old(links) + {name} else old(links)
      ensures ok ==> name !in old(links)
      ensures refusals == old(refusals) + if !ok && name !in old(links) then 1 else 0
    {
      ok := *;
      ok := ok && name !in links;
      refusals := refusals + if !ok && name !in links then 1 else 0;
      if ok {
        links := links + {name};
      }
    }

    method DelLink(name: string) returns (ok: bool, ghost trouble: bool)
      modifies this`links, this`refusals
      ensures links == if trouble then old(links) else old(links) - {name}
      ensures refusals == old(refusals) + if trouble then 1 else 0
    {
      ok := *;
      ok := ok && name in links;
      trouble := !ok && name in links;
      refusals := refusals + if trouble then 1 else 0;
      if ok {
        links := links - {name};
      }
    }

    // ---- the package's functions

    /** ip link show of the bridge: can fail although it is there. */
    method ShowBridge() returns (ok: bool)
      modifies this`refusals
      ensures ok ==> bridge
      ensures refusals == old(refusals) + if !ok && bridge then 1 else 0
    {
      ok := *;
      ok := ok && bridge;
      refusals := refusals + if !ok && bridge then 1 else 0;
    }

    /** ip link add of the bridge: fails when it is there. */
    method AddBridge() returns (ok: bool)
      modifies this`bridge, this`refusals
      ensures bridge == (old(bridge) || ok) && (ok ==> !old(bridge))
      ensures refusals == old(refusals) + if !ok && !old(bridge) then 1 else 0
    {
      ok := *;
      ok := ok && !bridge;
      refusals := refusals + if !ok && !bridge then 1 else 0;
      if ok {
        bridge := true;
      }
    }

    /** The link, its address and its being up. */
    method EnsureLink() returns (ok: bool)
      modifies this`bridge, this`refusals
      ensures ok ==> bridge
      ensures refusals >= old(refusals) && (refusals == old(refusals) ==> ok)
    {
      ok := ShowBridge();
      if !ok {
        ok := AddBridge();
        if !ok { return; }
        ok := Try();
        if !ok { return; }
      }
      ok := Try();
      if !ok { return; }
      ok := Try();
    }

    /** Appends a rule if its check fails; `installed` unless the append fails. */
    method EnsureRule(p: Placement, ghost start: Tables, ghost before: seq<Placement>, ghost wasMisled: bool)
      returns (installed: bool, ghost added: seq<Placement>, ghost misled: bool)
      requires IsBase(p) && tables == AppendAll(start, before) && Needed(start, before, wasMisled)
      modifies this`tables, this`refusals
      ensures refusals >= old(refusals) && (refusals == old(refusals) ==> installed)
      ensures forall r :: r in old(tables).forward ==> r in tables.forward
      ensures tables == AppendAll(start, added) && Needed(start, added, misled)
      ensures installed ==> p.rule in tables.Rules(p.chain)
      ensures p.chain != Postrouting ==> tables.postrouting == old(tables).postrouting
    {
      added, misled := before, wasMisled;
      installed := Check(p);
      if !installed {
        installed := AppendRule(p);
        if installed {
          misled := misled || p.rule in start.Rules(p.chain);
          AppendOne(start, added, p);
          added := added + [p];
        }
      }
    }

    /**
     Appends a base rule only when its check fails. `added` is what was appended; it holds
     only base rules, and only missing ones as long as no check failed without reason.
     */
    method EnsureBridge() returns (ok: bool, ghost added: seq<Placement>, ghost misled: bool)
      modifies this`bridge, this`tables, this`refusals
      ensures tables == AppendAll(old(tables), added) && Needed(old(tables), added, misled)
      ensures ok ==> bridge && Masquerade in tables.postrouting
      ensures refusals >= old(refusals)
      ensures refusals == old(refusals) ==> ok && FromBridge in tables.forward && ToBridge in tables.forward
    {
      added, misled := [], false;
      ok := EnsureLink();
      if !ok { return; }
      ok, added, misled := EnsureRule(BASE[0], old(tables), added, misled);
      if !ok { return; }
      var i := 1;
      while i < 3
        invariant 1 <= i <= 3
        invariant ok && bridge && Masquerade in tables.postrouting
        invariant tables == AppendAll(old(tables), added) && Needed(old(tables), added, misled)
        invariant refusals >= old(refusals)
        invariant refusals == old(refusals) && i > 1 ==> FromBridge in tables.forward
        invariant refusals == old(refusals) && i > 2 ==> ToBridge in tables.forward
      {
        var installed;
        installed, added, misled := EnsureRule(BASE[i], old(tables), added, misled);
        i := i + 1;
      }
    }

    method AddPublishRules(c: Container, pm: PortMapping) returns (ok: bool, ghost kept: nat)
      modifies this`tables, this`refusals
      ensures kept <= 3 && (ok <==> kept == 3)
      ensures refusals == old(refusals) + if ok then 0 else 1
      ensures tables == AppendAll(old(tables), Publish(c, pm)[..kept])
    {
      ghost var start, ps := tables, Publish(c, pm);
      kept := 0;
      ok := AppendRule(Placement(Prerouting, DnatRule(c, pm)));
      if !ok { return; }
      AppendNext(start, ps, 0);
      kept := 1;
      ok := AppendRule(Placement(Output, DnatRule(c, pm)));
      if !ok { return; }
      AppendNext(start, ps, 1);
      kept := 2;
      ok := AppendRule(Placement(Forward, AcceptRule(c, pm)));
      if !ok { return; }
      AppendNext(start, ps, 2);
      kept := 3;
    }

    /** Command failures are ignored; `trouble` says whether one failed that had a rule to delete. */
    method DelPublishRules(c: Container, pm: PortMapping) returns (ghost trouble: bool)
      modifies this`tables, this`refusals
      ensures refusals >= old(refusals) && (trouble <==> refusals > old(refusals))
      ensures !trouble ==> tables == DeleteAll(old(tables), Publish(c, pm))
    {
      ghost var start, ps := tables, Publish(c, pm);
      var _, t0 := DeleteRule(Placement(Prerouting, DnatRule(c, pm)));
      DeleteNext(start, ps, 0);
      var _, t1 := DeleteRule(Placement(Output, DnatRule(c, pm)));
      DeleteNext(start, ps, 1);
      var _, t2 := DeleteRule(Placement(Forward, AcceptRule(c, pm)));
      DeleteNext(start, ps, 2);
      assert ps[..3] == ps;
      trouble := t0 || t1 || t2;
    }

    /**
     Success is the operation SetUp of PublishRules, failure SetUpFails: the first `kept`
     rules of the container stay behind, and nothing else but base rules. `stuck` says
     that a `link del` failed with the link there.
     */
    method Setup(cfg: Config) returns (net: Option<Network>, ghost added: seq<Placement>, ghost kept: nat,
                 ghost stuck: bool)
      modifies this
      ensures forall i :: 0 <= i < |added| ==> IsBase(added[i])
      ensures net.Some? ==>
        && tables == Exec(old(tables), SetUp(ContainerOf(cfg), added))
        && links == old(links) + {HostVeth(cfg.id)}
        && bridge
        && net.value == Network(IpFromId(cfg.hash), HostVeth(cfg.id), cfg.ports)
      ensures net.None? ==>
        && (kept == 0 || kept < |AllRules(ContainerOf(cfg))|)
        && tables == Exec(old(tables), SetUpFails(ContainerOf(cfg), added, kept))
        && (!stuck ==> links == old(links) || links == old(links) - {HostVeth(cfg.id)})
      ensures refusals >= old(refusals) && (net.None? || stuck ==> refusals > old(refusals))
    {
      net, kept, stuck := None, 0, false;
      var c, hostVeth := ContainerOf(cfg), HostVeth(cfg.id);
      ghost var misled;
      var ok;
      ok, added, misled := EnsureBridge();
      if !ok { NoRulesYet(tables, c); return; }
      NoRulesYet(tables, c);
      ok, stuck := AddLink(hostVeth);
      if !ok { return; }
      ok, kept := PublishPorts(c);
      if !ok {
        var _, t := DelLink(hostVeth);
        stuck := t;
        return;
      }
      assert AllRules(c)[..kept] == AllRules(c);
      net := Some(Network(c.host, hostVeth, cfg.ports));
    }

    /** A stale link goes, the new one comes, and eight commands configure it; if one fails it goes again. */
    method AddLink(hostVeth: string) returns (ok: bool, ghost stuck: bool)
      modifies this`links, this`refusals
      ensures refusals >= old(refusals) && (!ok || stuck ==> refusals > old(refusals))
      ensures ok ==> links == old(links) + {hostVeth}
      ensures !ok && !stuck ==> links == old(links) - {hostVeth}
    {
      stuck := false;
      var _, stale := DelLink(hostVeth);
      ok := AddVeth(hostVeth);
      if !ok { stuck := stale; return; }
      // attach, bring up, move the peer, then five commands in the child's namespace
      var step := 0;
      while step < 8
        invariant 0 <= step <= 8 && links == old(links) + {hostVeth} && refusals >= old(refusals) && !stuck
      {
        ok := Try();
        if !ok {
          var _, t := DelLink(hostVeth);
          stuck := t;
          return;
        }
        step := step + 1;
      }
      ok := true;
    }

    /** The port loop of Setup, up to the first rule that cannot be appended. */
    method PublishPorts(c: Container) returns (ok: bool, ghost kept: nat)
      modifies this`tables, this`refusals
      ensures kept <= |AllRules(c)| && (ok <==> kept == |AllRules(c)|)
      ensures refusals == old(refusals) + if ok then 0 else 1
      ensures tables == AppendAll(old(tables), AllRules(c)[..kept])
    {
      var i := 0;
      while i < |c.ports|
        invariant 0 <= i <= |c.ports| && refusals == old(refusals)
        invariant tables == AppendAll(old(tables), PublishAll(c, i))
      {
        ghost var k;
        ok, k := AddPublishRules(c, c.ports[i]);
        AppendAllConcat(old(tables), PublishAll(c, i), Publish(c, c.ports[i])[..k]);
        PartOfAll(c, i, k);
        if !ok {
          kept := 3 * i + k;
          return;
        }
        assert Publish(c, c.ports[i])[..3] == Publish(c, c.ports[i]);
        i := i + 1;
      }
      ok, kept := true, |AllRules(c)|;
      assert AllRules(c)[..kept] == AllRules(c);
    }

    /** With every command able to run, Teardown is the operation TearDown and removes the link. */
    method Teardown(net: Network, cfg: Config) returns (ghost trouble: bool)
      requires net == Network(IpFromId(cfg.hash), HostVeth(cfg.id), cfg.ports)
      modifies this`links, this`tables, this`refusals
      ensures refusals >= old(refusals) && (trouble <==> refusals > old(refusals))
      ensures !trouble ==> tables == Exec(old(tables), TearDown(ContainerOf(cfg)))
      ensures !trouble ==> links == old(links) - {HostVeth(cfg.id)}
    {
      trouble := DelAllPublishRules(Container(cfg.id, net.host, net.ports));
      if net.hostVeth != "" {
        var _, t := DelLink(net.hostVeth);
        trouble := trouble || t;
      }
    }

    method DelAllPublishRules(c: Container) returns (ghost trouble: bool)
      modifies this`tables, this`refusals
      ensures refusals >= old(refusals) && (trouble <==> refusals > old(refusals))
      ensures !trouble ==> tables == DeleteAll(old(tables), AllRules(c))
    {
      hide Publish, Delete;
      ghost var start := tables;
      trouble := false;
      var i := 0;
      while i < |c.ports|
        invariant 0 <= i <= |c.ports|
        invariant !trouble ==> tables == DeleteAll(start, PublishAll(c, i))
        invariant refusals >= old(refusals) && (trouble <==> refusals > old(refusals))
      {
        ghost var t := DelPublishRules(c, c.ports[i]);
        DeleteAllConcat(start, PublishAll(c, i), Publish(c, c.ports[i]));
        trouble := trouble || t;
        i := i + 1;
      }
    }
  }

  lemma AppendOne(t: Tables, ps: seq<Placement>, p: Placement)
    ensures AppendAll(t, ps + [p]) == Append(AppendAll(t, ps), p)
  {
    assert (ps + [p])[..|ps|] == ps;
  }

  lemma AppendNext(t: Tables, ps: seq<Placement>, k: nat)
    requires k < |ps|
    ensures AppendAll(t, ps[..k + 1]) == Append(AppendAll(t, ps[..k]), ps[k])
  {
    assert ps[..k + 1] == ps[..k] + [ps[k]];
    AppendOne(t, ps[..k], ps[k]);
  }

  lemma DeleteNext(t: Tables, ps: seq<Placement>, k: nat)
    requires k < |ps|
    ensures DeleteAll(t, ps[..k + 1]) == Delete(DeleteAll(t, ps[..k]), ps[k])
  {
    assert ps[..k + 1][..k] == ps[..k];
  }

  lemma NoRulesYet(t: Tables, c: Container)
    ensures AppendAll(t, AllRules(c)[..0]) == t
  {
    assert AllRules(c)[..0] == [];
  }

  lemma {:induction false} PartOfAll(c: Container, i: nat, k: nat)
    requires i < |c.ports| && k <= 3
    ensures AllRules(c)[..3 * i + k] == PublishAll(c, i) + Publish(c, c.ports[i])[..k]
  {
    PublishPrefix(c, i + 1, |c.ports|);
    assert AllRules(c)[..3 * i + k] == AllRules(c)[..3 * (i + 1)][..3 * i + k];
  }
}
