// Ordered iptables chains: append, and delete of the first equal rule. The chains of
// all tables are the projections of one placement log.

module IptablesChains {
  datatype Chain = Prerouting | Output | Forward | Postrouting

  /** A rule by its full specification: `-D` finds a rule by comparing all of it. */
  datatype Rule =
    | Dnat(proto: string, dport: int, tag: string, toHost: int, toPort: int)
    | AcceptTo(proto: string, host: int, dport: int, tag: string)
    | Masquerade
    | FromBridge
    | ToBridge
    | Foreign(text: string)

  datatype Placement = Placement(chain: Chain, rule: Rule)

  datatype Tables = Tables(prerouting: seq<Rule>, output: seq<Rule>, forward: seq<Rule>, postrouting: seq<Rule>) {
    function Rules(ch: Chain): seq<Rule> {
      match ch
      case Prerouting => prerouting
      case Output => output
      case Forward => forward
      case Postrouting => postrouting
    }

    function With(ch: Chain, rules: seq<Rule>): Tables {
      match ch
      case Prerouting => this.(prerouting := rules)
      case Output => this.(output := rules)
      case Forward => this.(forward := rules)
      case Postrouting => this.(postrouting := rules)
    }
  }

  function Append(t: Tables, p: Placement): Tables {
    t.With(p.chain, t.Rules(p.chain) + [p.rule])
  }

  function DeleteFirst(rules: seq<Rule>, r: Rule): seq<Rule> {
    if rules == [] then []
    else if rules[0] == r then rules[1..]
    else [rules[0]] + DeleteFirst(rules[1..], r)
  }

  function Delete(t: Tables, p: Placement): Tables {
    t.With(p.chain, DeleteFirst(t.Rules(p.chain), p.rule))
  }

  function AppendAll(t: Tables, ps: seq<Placement>): Tables {
    if ps == [] then t else Append(AppendAll(t, ps[..|ps| - 1]), ps[|ps| - 1])
  }

  function DeleteAll(t: Tables, ps: seq<Placement>): Tables {
    if ps == [] then t else Delete(DeleteAll(t, ps[..|ps| - 1]), ps[|ps| - 1])
  }

  /** The rules a placement log puts into one chain. */
  function Project(ps: seq<Placement>, ch: Chain): seq<Rule> {
    if ps == [] then []
    else if ps[0].chain == ch then [ps[0].rule] + Project(ps[1..], ch)
    else Project(ps[1..], ch)
  }

  /** The tables hold exactly what the log says, chain by chain and in order. */
  ghost predicate Shows(t: Tables, ps: seq<Placement>) {
    forall ch :: t.Rules(ch) == Project(ps, ch)
  }

  lemma Reassociate<T>(x: seq<T>, y: seq<T>, z: seq<T>)
    ensures (x + y) + z == x + (y + z)
  {
  }

  lemma ProjectCons(p: Placement, rest: seq<Placement>, ch: Chain)
    ensures Project([p] + rest, ch) == if p.chain == ch then [p.rule] + Project(rest, ch) else Project(rest, ch)
  {
    assert ([p] + rest)[1..] == rest;
  }

  lemma {:induction false} ProjectConcat(a: seq<Placement>, b: seq<Placement>, ch: Chain)
    ensures Project(a + b, ch) == Project(a, ch) + Project(b, ch)
  {
    if a == [] {
      assert a + b == b;
    } else {
      ProjectConcat(a[1..], b, ch);
      ProjectCons(a[0], a[1..] + b, ch);
      assert a + b == [a[0]] + (a[1..] + b);
      if a[0].chain == ch {
        Reassociate([a[0].rule], Project(a[1..], ch), Project(b, ch));
      }
    }
  }

  lemma ProjectOne(p: Placement, ch: Chain)
    ensures Project([p], ch) == if p.chain == ch then [p.rule] else []
  {
    assert [p][1..] == [];
  }

  lemma {:induction false} ProjectMember(ps: seq<Placement>, ch: Chain, r: Rule)
    ensures r in Project(ps, ch) <==> Placement(ch, r) in ps
  {
    if ps != [] {
      ProjectMember(ps[1..], ch, r);
      assert ps == [ps[0]] + ps[1..];
    }
  }

  lemma {:induction false} DeleteFirstPast(a: seq<Rule>, b: seq<Rule>, r: Rule)
    requires r !in a
    ensures DeleteFirst(a + b, r) == a + DeleteFirst(b, r)
  {
    if a == [] {
      assert a + b == b;
    } else {
      DeleteFirstPast(a[1..], b, r);
      assert (a + b)[1..] == a[1..] + b;
    }
  }

  lemma DeleteFirstAbsent(a: seq<Rule>, r: Rule)
    requires r !in a
    ensures DeleteFirst(a, r) == a
  {
    DeleteFirstPast(a, [], r);
    assert a + [] == a;
  }

  lemma {:induction false} AppendAllConcat(t: Tables, a: seq<Placement>, b: seq<Placement>)
    ensures AppendAll(t, a + b) == AppendAll(AppendAll(t, a), b)
  {
    if b == [] {
      assert a + b == a;
    } else {
      AppendAllConcat(t, a, b[..|b| - 1]);
      assert (a + b)[..|a + b| - 1] == a + b[..|b| - 1];
    }
  }

  lemma {:induction false} DeleteAllConcat(t: Tables, a: seq<Placement>, b: seq<Placement>)
    ensures DeleteAll(t, a + b) == DeleteAll(DeleteAll(t, a), b)
  {
    if b == [] {
      assert a + b == a;
    } else {
      DeleteAllConcat(t, a, b[..|b| - 1]);
      assert (a + b)[..|a + b| - 1] == a + b[..|b| - 1];
    }
  }

  lemma {:induction false} AppendAllShows(t: Tables, ps: seq<Placement>, more: seq<Placement>)
    requires Shows(t, ps)
    ensures Shows(AppendAll(t, more), ps + more)
  {
    if more == [] {
      assert ps + more == ps;
    } else {
      var init, last := more[..|more| - 1], more[|more| - 1];
      AppendAllShows(t, ps, init);
      assert ps + more == (ps + init) + [last];
      forall ch ensures AppendAll(t, more).Rules(ch) == Project(ps + more, ch) {
        ProjectConcat(ps + init, [last], ch);
      }
    }
  }

  lemma ProjectAround(a: seq<Placement>, p: Placement, b: seq<Placement>, ch: Chain)
    ensures Project(a + [p] + b, ch)
      == Project(a, ch) + (if p.chain == ch then [p.rule] + Project(b, ch) else Project(b, ch))
  {
    ProjectConcat(a + [p], b, ch);
    ProjectConcat(a, [p], ch);
    ProjectOne(p, ch);
    if p.chain == ch {
      assert (Project(a, ch) + [p.rule]) + Project(b, ch) == Project(a, ch) + ([p.rule] + Project(b, ch));
    } else {
      assert (Project(a, ch) + []) + Project(b, ch) == Project(a, ch) + Project(b, ch);
    }
  }

  lemma DeleteFirstAt(a: seq<Rule>, r: Rule, b: seq<Rule>)
    requires r !in a
    ensures DeleteFirst(a + ([r] + b), r) == a + b
  {
    DeleteFirstPast(a, [r] + b, r);
    assert ([r] + b)[1..] == b;
  }

  /** Deleting the rule of a logged placement removes that placement, when no earlier one equals it. */
  lemma {:induction false} DeleteShows(t: Tables, a: seq<Placement>, p: Placement, b: seq<Placement>)
    requires Shows(t, a + [p] + b)
    requires p !in a
    ensures Shows(Delete(t, p), a + b)
  {
    forall ch ensures Delete(t, p).Rules(ch) == Project(a + b, ch) {
      ProjectAround(a, p, b, ch);
      ProjectConcat(a, b, ch);
      if ch == p.chain {
        ProjectMember(a, ch, p.rule);
        DeleteFirstAt(Project(a, ch), p.rule, Project(b, ch));
      }
    }
  }

  lemma DeleteAbsentShows(t: Tables, ps: seq<Placement>, p: Placement)
    requires Shows(t, ps)
    requires p !in ps
    ensures Shows(Delete(t, p), ps)
  {
    ProjectMember(ps, p.chain, p.rule);
    DeleteFirstAbsent(t.Rules(p.chain), p.rule);
  }

  ghost predicate Apart(ps: seq<Placement>, others: seq<Placement>) {
    forall i, j :: 0 <= i < |ps| && 0 <= j < |others| ==> ps[i] != others[j]
  }

  /**
   Deleting a whole list of placements, one first-equal rule at a time, removes exactly
   the logged prefix of that list and keeps everyone else's order, whatever repeats it holds.
   */
  lemma {:induction false} DeleteOwnShows(t: Tables, a: seq<Placement>, full: seq<Placement>, k: nat, b: seq<Placement>)
    requires k <= |full|
    requires Shows(t, a + full[..k] + b)
    requires Apart(full, a) && Apart(full, b)
    ensures Shows(DeleteAll(t, full), a + b)
    decreases |full|
  {
    if full == [] {
      assert a + full[..k] + b == a + b;
    } else {
      DeleteAllHead(t, full);
      DeleteNextShows(t, a, full, k, b);
      ApartTail(full, a);
      ApartTail(full, b);
      DeleteOwnShows(Delete(t, full[0]), a, full[1..], if k == 0 then 0 else k - 1, b);
    }
  }

  lemma ApartTail(ps: seq<Placement>, others: seq<Placement>)
    requires ps != [] && Apart(ps, others)
    ensures Apart(ps[1..], others)
    ensures ps[0] !in others
  {
    assert forall j :: 0 <= j < |others| ==> ps[0] != others[j];
  }

  lemma DeleteNextShows(t: Tables, a: seq<Placement>, full: seq<Placement>, k: nat, b: seq<Placement>)
    requires full != [] && k <= |full|
    requires Shows(t, a + full[..k] + b)
    requires Apart(full, a) && Apart(full, b)
    ensures Shows(Delete(t, full[0]), a + full[1..][..if k == 0 then 0 else k - 1] + b)
  {
    ApartTail(full, a);
    ApartTail(full, b);
    if k == 0 {
      assert a + full[..0] + b == a + b;
      DeleteAbsentShows(t, a + b, full[0]);
      assert a + full[1..][..0] + b == a + b;
    } else {
      DeleteHeadShows(t, a, full[..k], b);
      assert full[..k][1..] == full[1..][..k - 1];
    }
  }

  lemma DeleteHeadShows(t: Tables, a: seq<Placement>, mine: seq<Placement>, b: seq<Placement>)
    requires mine != [] && mine[0] !in a
    requires Shows(t, a + mine + b)
    ensures Shows(Delete(t, mine[0]), a + mine[1..] + b)
  {
    var left := mine[1..];
    assert mine == [mine[0]] + left;
    assert a + mine + b == a + [mine[0]] + (left + b);
    assert a + left + b == a + (left + b);
    DeleteShows(t, a, mine[0], left + b);
  }

  lemma DeleteAllHead(t: Tables, ps: seq<Placement>)
    requires ps != []
    ensures DeleteAll(t, ps) == DeleteAll(Delete(t, ps[0]), ps[1..])
  {
    var first := [ps[0]];
    assert ps == first + ps[1..];
    DeleteAllConcat(t, first, ps[1..]);
    assert first[..0] == [];
    assert DeleteAll(t, first) == Delete(DeleteAll(t, []), ps[0]);
  }
}
