// The chains under single commands in any order: containers that set up and tear down at
// the same time, and programs that know nothing of them.

module RuleCommands {
  import opened IptablesChains
  import opened PublishRules

  /** One run of iptables -A or -D. */
  datatype Command = Add(p: Placement) | Del(p: Placement)

  function Do(t: Tables, cmd: Command): Tables {
    match cmd
    case Add(p) => Append(t, p)
    case Del(p) => Delete(t, p)
  }

  function DoAll(t: Tables, cmds: seq<Command>): Tables {
    if cmds == [] then t else Do(DoAll(t, cmds[..|cmds| - 1]), cmds[|cmds| - 1])
  }

  /** The command concerns a rule with the container's tag. */
  predicate Concerns(cmd: Command, id: string) { Tagged(cmd.p.rule, id) }

  /** The rules that carry the container's tag, or those that do not. */
  function Select(rules: seq<Rule>, id: string, own: bool): seq<Rule> {
    if rules == [] then []
    else if Tagged(rules[0], id) == own then [rules[0]] + Select(rules[1..], id, own)
    else Select(rules[1..], id, own)
  }

  function Part(t: Tables, id: string, own: bool): Tables {
    Tables(Select(t.prerouting, id, own), Select(t.output, id, own), Select(t.forward, id, own),
      Select(t.postrouting, id, own))
  }

  function Own(t: Tables, id: string): Tables { Part(t, id, true) }

  function Rest(t: Tables, id: string): Tables { Part(t, id, false) }

  /** The commands that concern the container, or those that do not. */
  function Of(cmds: seq<Command>, id: string, own: bool): seq<Command> {
    if cmds == [] then []
    else
      var init, last := Of(cmds[..|cmds| - 1], id, own), cmds[|cmds| - 1];
      if Concerns(last, id) == own then init + [last] else init
  }

  lemma SelectCons(r: Rule, rules: seq<Rule>, id: string, own: bool)
    ensures Select([r] + rules, id, own) == if Tagged(r, id) == own
      then [r] + Select(rules, id, own) else Select(rules, id, own)
  {
    assert ([r] + rules)[1..] == rules;
  }

  lemma {:induction false} SelectAppend(rules: seq<Rule>, r: Rule, id: string, own: bool)
    ensures Select(rules + [r], id, own) == if Tagged(r, id) == own
      then Select(rules, id, own) + [r] else Select(rules, id, own)
  {
    if rules == [] {
      assert rules + [r] == [r] && [r][1..] == [];
    } else {
      SelectAppend(rules[1..], r, id, own);
      SelectCons(rules[0], rules[1..] + [r], id, own);
      assert rules + [r] == [rules[0]] + (rules[1..] + [r]);
    }
  }

  /** Deleting the first equal rule deletes it among the rules of its kind and leaves the others in order. */
  lemma {:induction false} SelectDelete(rules: seq<Rule>, r: Rule, id: string, own: bool)
    ensures Select(DeleteFirst(rules, r), id, own) ==
      if Tagged(r, id) == own then DeleteFirst(Select(rules, id, own), r) else Select(rules, id, own)
  {
    if rules != [] && rules[0] != r {
      SelectDelete(rules[1..], r, id, own);
      SelectCons(rules[0], DeleteFirst(rules[1..], r), id, own);
      if Tagged(rules[0], id) == own {
        assert ([rules[0]] + Select(rules[1..], id, own))[1..] == Select(rules[1..], id, own);
      }
    } else if rules != [] && Tagged(r, id) == own {
      assert ([rules[0]] + Select(rules[1..], id, own))[1..] == Select(rules[1..], id, own);
    }
  }

  /** A command changes only the part it concerns, and that part as if it were alone. */
  lemma PartDo(t: Tables, cmd: Command, id: string, own: bool)
    ensures Part(Do(t, cmd), id, own) == if Concerns(cmd, id) == own
      then Do(Part(t, id, own), cmd) else Part(t, id, own)
  {
    hide Select, DeleteFirst, Tagged;
    match cmd
    case Add(p) => SelectAppend(t.Rules(p.chain), p.rule, id, own);
    case Del(p) => SelectDelete(t.Rules(p.chain), p.rule, id, own);
  }

  /** Any interleaving splits: each part is what its own commands alone make of it. */
  lemma {:induction false} PartDoAll(t: Tables, cmds: seq<Command>, id: string, own: bool)
    ensures Part(DoAll(t, cmds), id, own) == DoAll(Part(t, id, own), Of(cmds, id, own))
  {
    if cmds != [] {
      var init, last := cmds[..|cmds| - 1], cmds[|cmds| - 1];
      PartDoAll(t, init, id, own);
      PartDo(DoAll(t, init), last, id, own);
      var kept := Of(init, id, own);
      assert (kept + [last])[..|kept|] == kept;
    }
  }

  // ---- one container's commands

  /** Its rules in the order of addPublishRules, then the deletions in the order of delPublishRules. */
  function Program(c: Container): (cmds: seq<Command>)
    ensures |cmds| == 6 * |c.ports|
  {
    var n := 3 * |c.ports|;
    seq(2 * n, i requires 0 <= i < 2 * n => if i < n then Add(AllRules(c)[i]) else Del(AllRules(c)[i - n]))
  }

  /** The rules in place after n commands of the program. */
  function Standing(c: Container, n: nat): seq<Placement>
    requires n <= 6 * |c.ports|
  {
    if n <= 3 * |c.ports| then AllRules(c)[..n] else AllRules(c)[n - 3 * |c.ports|..]
  }

  predicate Empty(t: Tables) { t == Tables([], [], [], []) }

  lemma AddShows(t: Tables, ps: seq<Placement>, p: Placement)
    requires Shows(t, ps)
    ensures Shows(Do(t, Add(p)), ps + [p])
  {
    AppendAllShows(t, ps, [p]);
    assert [p][..0] == [];
    assert AppendAll(t, [p]) == Append(AppendAll(t, []), p);
  }

  lemma DelShows(t: Tables, p: Placement, ps: seq<Placement>)
    requires Shows(t, [p] + ps)
    ensures Shows(Do(t, Del(p)), ps)
  {
    var none: seq<Placement> := [];
    assert none + [p] + ps == [p] + ps && none + ps == ps;
    DeleteShows(t, none, p, ps);
  }

  lemma NextStands(c: Container, n: nat, t: Tables)
    requires 0 < n <= 6 * |c.ports| && Shows(t, Standing(c, n - 1))
    ensures Shows(Do(t, Program(c)[n - 1]), Standing(c, n))
  {
    hide AllRules, Do, Shows;
    var m, all := 3 * |c.ports|, AllRules(c);
    assert |all| == m by {
      AllRulesCount(c);
    }
    if n <= m {
      assert Standing(c, n) == Standing(c, n - 1) + [all[n - 1]];
      AddShows(t, Standing(c, n - 1), all[n - 1]);
    } else {
      assert n - 1 == m ==> all[..m] == all[0..];
      assert Standing(c, n - 1) == [all[n - 1 - m]] + Standing(c, n);
      DelShows(t, all[n - 1 - m], Standing(c, n));
    }
  }

  lemma AllRulesCount(c: Container)
    ensures |AllRules(c)| == 3 * |c.ports|
  {
  }

  lemma {:induction false} ProgramStands(c: Container, n: nat, none: Tables)
    requires n <= 6 * |c.ports| && Empty(none)
    ensures Shows(DoAll(none, Program(c)[..n]), Standing(c, n))
  {
    hide AllRules, Do, Program;
    if n == 0 {
      NothingStands(c, none);
    } else {
      ProgramStands(c, n - 1, none);
      assert Program(c)[..n][..n - 1] == Program(c)[..n - 1];
      NextStands(c, n, DoAll(none, Program(c)[..n - 1]));
    }
  }

  lemma NothingStands(c: Container, none: Tables)
    requires Empty(none)
    ensures Shows(DoAll(none, Program(c)[..0]), Standing(c, 0))
  {
    assert Program(c)[..0] == [] && Standing(c, 0) == [];
  }

  /**
   In any interleaving of any commands: if this container's are the first n of its program,
   its rules are exactly those still standing, in order, and everything else is what the
   other commands alone make of it. Rules of others may lie anywhere between its own.
   */
  lemma {:induction false} Interleaved(t: Tables, cmds: seq<Command>, c: Container, n: nat)
    requires n <= 6 * |c.ports| && Of(cmds, c.id, true) == Program(c)[..n]
    requires Empty(Own(t, c.id))
    ensures Shows(Own(DoAll(t, cmds), c.id), Standing(c, n))
    ensures Rest(DoAll(t, cmds), c.id) == DoAll(Rest(t, c.id), Of(cmds, c.id, false))
  {
    PartDoAll(t, cmds, c.id, true);
    PartDoAll(t, cmds, c.id, false);
    ProgramStands(c, n, Own(t, c.id));
  }

  lemma {:induction false} AllRest(rules: seq<Rule>, id: string)
    requires Select(rules, id, true) == []
    ensures Select(rules, id, false) == rules
  {
    if rules != [] {
      AllRest(rules[1..], id);
      assert rules == [rules[0]] + rules[1..];
    }
  }

  lemma NoOwnIsRest(t: Tables, id: string)
    requires Empty(Own(t, id))
    ensures Rest(t, id) == t
  {
    AllRest(t.prerouting, id);
    AllRest(t.output, id);
    AllRest(t.forward, id);
    AllRest(t.postrouting, id);
  }

  lemma EmptyShowsNothing(t: Tables, ps: seq<Placement>)
    requires Shows(t, ps)
    ensures Empty(t) <==> ps == []
  {
    assert t.prerouting == t.Rules(Prerouting) && t.output == t.Rules(Output);
    assert t.forward == t.Rules(Forward) && t.postrouting == t.Rules(Postrouting);
    if ps != [] {
      var ch := ps[0].chain;
      assert t.Rules(ch) == Project(ps, ch) && Project(ps, ch) != [];
    }
  }

  /**
   The chains are as if the container had never been there exactly if it got no rule in,
   or took all of them out again, whatever ran in between.
   */
  lemma {:induction false} AsIfNeverThereIff(t: Tables, cmds: seq<Command>, c: Container, n: nat)
    requires n <= 6 * |c.ports| && Of(cmds, c.id, true) == Program(c)[..n]
    requires Empty(Own(t, c.id))
    ensures DoAll(t, cmds) == DoAll(t, Of(cmds, c.id, false)) <==> n == 0 || n == 6 * |c.ports|
  {
    var now := DoAll(t, cmds);
    Interleaved(t, cmds, c, n);
    NoOwnIsRest(t, c.id);
    EmptyShowsNothing(Own(now, c.id), Standing(c, n));
    assert Standing(c, n) == [] <==> n == 0 || n == 6 * |c.ports|;
    if Empty(Own(now, c.id)) {
      NoOwnIsRest(now, c.id);
    } else {
      PartDoAll(t, Of(cmds, c.id, false), c.id, true);
      OfOf(cmds, c.id);
    }
  }

  lemma {:induction false} OfOf(cmds: seq<Command>, id: string)
    ensures Of(Of(cmds, id, false), id, true) == []
  {
    if cmds != [] {
      var init, last := cmds[..|cmds| - 1], cmds[|cmds| - 1];
      OfOf(init, id);
      var kept := Of(init, id, false);
      assert (kept + [last])[..|kept|] == kept;
    }
  }

  // ---- all containers at once

  function RemoveFirst(ps: seq<Placement>, p: Placement): seq<Placement> {
    if ps == [] then []
    else if ps[0] == p then ps[1..]
    else [ps[0]] + RemoveFirst(ps[1..], p)
  }

  /** The placements still standing, oldest first. */
  function Ledger(log: seq<Placement>, cmds: seq<Command>): seq<Placement> {
    if cmds == [] then log
    else
      var before, last := Ledger(log, cmds[..|cmds| - 1]), cmds[|cmds| - 1];
      match last
      case Add(p) => before + [p]
      case Del(p) => RemoveFirst(before, p)
  }

  lemma RemoveCons(x: Placement, ps: seq<Placement>, p: Placement)
    ensures RemoveFirst([x] + ps, p) == if x == p then ps else [x] + RemoveFirst(ps, p)
  {
    assert ([x] + ps)[1..] == ps;
  }

  lemma {:induction false} RemoveAfter(a: seq<Placement>, p: Placement, b: seq<Placement>)
    requires p !in a
    ensures RemoveFirst(a + [p] + b, p) == a + b
  {
    if a == [] {
      assert a + [p] + b == [p] + b && a + b == b;
      RemoveCons(p, b, p);
    } else {
      RemoveAfter(a[1..], p, b);
      RemoveCons(a[0], a[1..] + [p] + b, p);
      assert a + [p] + b == [a[0]] + (a[1..] + [p] + b);
      assert a + b == [a[0]] + (a[1..] + b);
    }
  }

  lemma {:induction false} FirstOccurrence(ps: seq<Placement>, p: Placement) returns (k: nat)
    requires p in ps
    ensures k < |ps| && ps[k] == p && p !in ps[..k]
  {
    if ps[0] == p {
      k := 0;
    } else {
      k := FirstOccurrence(ps[1..], p);
      assert ps[..k + 1] == [ps[0]] + ps[1..][..k];
      k := k + 1;
    }
  }

  lemma {:induction false} RemoveAbsent(ps: seq<Placement>, p: Placement)
    requires p !in ps
    ensures RemoveFirst(ps, p) == ps
  {
    if ps != [] {
      RemoveAbsent(ps[1..], p);
      assert ps == [ps[0]] + ps[1..];
    }
  }

  /** After any interleaving, every chain holds the standing placements in the order in which they went in. */
  lemma {:induction false} ChainsAreLedger(t: Tables, log: seq<Placement>, cmds: seq<Command>)
    requires Shows(t, log)
    ensures Shows(DoAll(t, cmds), Ledger(log, cmds))
  {
    if cmds != [] {
      var before, last := cmds[..|cmds| - 1], cmds[|cmds| - 1];
      ChainsAreLedger(t, log, before);
      var ps := Ledger(log, before);
      match last
      case Add(p) => AddShows(DoAll(t, before), ps, p);
      case Del(p) =>
        if p in ps {
          var k := FirstOccurrence(ps, p);
          assert ps == ps[..k] + [p] + ps[k + 1..];
          RemoveAfter(ps[..k], p, ps[k + 1..]);
          DeleteShows(DoAll(t, before), ps[..k], p, ps[k + 1..]);
        } else {
          RemoveAbsent(ps, p);
          DeleteAbsentShows(DoAll(t, before), ps, p);
        }
    }
  }
}
