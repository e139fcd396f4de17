// The rules a container publishes, and what any run of set-ups and teardowns of any
// number of containers does to the chains they share.

module PublishRules {
  import opened IptablesChains

  datatype PortMapping = PortMapping(hostPort: int, containerPort: int, protocol: string)

  /** What the rules of a container depend on: its id, the last byte of its address, its ports. */
  datatype Container = Container(id: string, host: int, ports: seq<PortMapping>)

  /** The host side's link: the interface name has room for ten characters of the id. */
  function HostVeth(id: string): string {
    "vm" + if |id| > 10 then id[..10] else id
  }

  /** Exactly when two ids share a link name: ids of at least ten characters that begin alike. */
  lemma {:induction false} HostVethSharedIff(a: string, b: string)
    ensures HostVeth(a) == HostVeth(b) <==> a == b || (|a| >= 10 && |b| >= 10 && a[..10] == b[..10])
  {
    var x, y := if |a| > 10 then a[..10] else a, if |b| > 10 then b[..10] else b;
    assert HostVeth(a)[2..] == x && HostVeth(b)[2..] == y;
    assert |a| == 10 ==> a[..10] == a;
    assert |b| == 10 ==> b[..10] == b;
  }

  /** The name is short enough for an interface, and begins with "vm" and the id. */
  lemma {:induction false} HostVethFits(id: string)
    ensures |HostVeth(id)| <= 15 && HostVeth(id) <= "vm" + id
    ensures |id| <= 10 ==> HostVeth(id) == "vm" + id
  {
    assert |id| > 10 ==> id == id[..10] + id[10..];
    assert "vm" + id == if |id| > 10 then ("vm" + id[..10]) + id[10..] else HostVeth(id);
  }

  function Tag(id: string): string { "myrun:" + id }

  function Proto(pm: PortMapping): string {
    if pm.protocol == "" then "tcp" else pm.protocol
  }

  function DnatRule(c: Container, pm: PortMapping): Rule {
    Dnat(Proto(pm), pm.hostPort, Tag(c.id), c.host, pm.containerPort)
  }

  function AcceptRule(c: Container, pm: PortMapping): Rule {
    AcceptTo(Proto(pm), c.host, pm.containerPort, Tag(c.id))
  }

  /** The three rules of one mapping, in the order addPublishRules appends them. */
  function Publish(c: Container, pm: PortMapping): seq<Placement> {
    [Placement(Prerouting, DnatRule(c, pm)), Placement(Output, DnatRule(c, pm)), Placement(Forward, AcceptRule(c, pm))]
  }

  /** The rules of the first n mappings. */
  function PublishAll(c: Container, n: nat): (ps: seq<Placement>)
    requires n <= |c.ports|
    ensures |ps| == 3 * n
  {
    if n == 0 then [] else PublishAll(c, n - 1) + Publish(c, c.ports[n - 1])
  }

  function AllRules(c: Container): seq<Placement> { PublishAll(c, |c.ports|) }

  predicate Tagged(r: Rule, id: string) {
    (r.Dnat? || r.AcceptTo?) && r.tag == Tag(id)
  }

  predicate IsBase(p: Placement) {
    || p == Placement(Postrouting, Masquerade)
    || p == Placement(Forward, FromBridge)
    || p == Placement(Forward, ToBridge)
  }

  lemma {:induction false} PublishedAreTagged(c: Container, n: nat)
    requires n <= |c.ports|
    ensures forall i :: 0 <= i < 3 * n ==> Tagged(PublishAll(c, n)[i].rule, c.id)
  {
    if n > 0 {
      PublishedAreTagged(c, n - 1);
    }
  }

  lemma {:induction false} PublishPrefix(c: Container, n: nat, m: nat)
    requires n <= m <= |c.ports|
    ensures PublishAll(c, m)[..3 * n] == PublishAll(c, n)
    decreases m - n
  {
    if n < m {
      PublishPrefix(c, n, m - 1);
      assert PublishAll(c, m)[..3 * n] == PublishAll(c, m - 1)[..3 * n];
    } else {
      assert PublishAll(c, n)[..3 * n] == PublishAll(c, n);
    }
  }

  /** Tags name their container: two ids never produce the same tagged rule. */
  lemma TagInjective(a: string, b: string)
    requires Tag(a) == Tag(b)
    ensures a == b
  {
    assert a == Tag(a)[6..];
    assert b == Tag(b)[6..];
  }

  /**
   An entry of the abstract history: a rule someone else (or EnsureBridge) appended, or
   a container with the first `count` of its rules in place.
   */
  datatype Entry = Lone(p: Placement) | Owned(c: Container, count: nat)

  ghost predicate EntryOk(e: Entry) {
    match e
    case Lone(p) => p.rule.Dnat? || p.rule.AcceptTo? ==> forall id :: p.rule.tag != Tag(id)
    case Owned(c, count) => count <= |AllRules(c)|
  }

  function Rules(e: Entry): seq<Placement> {
    match e
    case Lone(p) => [p]
    case Owned(c, count) => if count <= |AllRules(c)| then AllRules(c)[..count] else []
  }

  function Flat(log: seq<Entry>): seq<Placement> {
    if log == [] then [] else Rules(log[0]) + Flat(log[1..])
  }

  function Lones(ps: seq<Placement>): seq<Entry> {
    seq(|ps|, i requires 0 <= i < |ps| => Lone(ps[i]))
  }

  ghost predicate LogOk(log: seq<Entry>) {
    && (forall i :: 0 <= i < |log| ==> EntryOk(log[i]))
    && (forall i, j :: 0 <= i < j < |log| && log[i].Owned? && log[j].Owned? ==> log[i].c.id != log[j].c.id)
  }

  ghost predicate IdUnused(log: seq<Entry>, id: string) {
    forall i :: 0 <= i < |log| && log[i].Owned? ==> log[i].c.id != id
  }

  /** What a caller of the package can make happen to the tables. */
  datatype Op =
    | OtherAppends(p: Placement)
    | SetUp(c: Container, base: seq<Placement>)
    | SetUpFails(c: Container, base: seq<Placement>, kept: nat)
    | TearDown(c: Container)

  /** The effect on the kernel's tables. */
  function Exec(t: Tables, op: Op): Tables {
    match op
    case OtherAppends(p) => Append(t, p)
    case SetUp(c, base) => AppendAll(AppendAll(t, base), AllRules(c))
    case SetUpFails(c, base, kept) =>
      AppendAll(AppendAll(t, base), if kept <= |AllRules(c)| then AllRules(c)[..kept] else [])
    case TearDown(c) => DeleteAll(t, AllRules(c))
  }

  /** The effect on the list of containers. */
  function Track(log: seq<Entry>, op: Op): seq<Entry> {
    match op
    case OtherAppends(p) => log + [Lone(p)]
    case SetUp(c, base) => log + Lones(base) + [Owned(c, |AllRules(c)|)]
    case SetUpFails(c, base, kept) => log + Lones(base) + [Owned(c, kept)]
    case TearDown(c) => Without(log, c)
  }

  function Without(log: seq<Entry>, c: Container): seq<Entry> {
    if log == [] then []
    else if log[0].Owned? && log[0].c == c then log[1..]
    else [log[0]] + Without(log[1..], c)
  }

  ghost predicate Allowed(log: seq<Entry>, op: Op) {
    match op
    case OtherAppends(p) => EntryOk(Lone(p))
    case SetUp(c, base) => IdUnused(log, c.id) && forall i :: 0 <= i < |base| ==> IsBase(base[i])
    case SetUpFails(c, base, kept) =>
      && IdUnused(log, c.id) && (kept == 0 || kept < |AllRules(c)|)
      && forall i :: 0 <= i < |base| ==> IsBase(base[i])
    case TearDown(c) => exists i :: 0 <= i < |log| && log[i].Owned? && log[i].c == c
  }

  function ExecAll(t: Tables, ops: seq<Op>): Tables
    decreases |ops|
  {
    if ops == [] then t else ExecAll(Exec(t, ops[0]), ops[1..])
  }

  function TrackAll(log: seq<Entry>, ops: seq<Op>): seq<Entry>
    decreases |ops|
  {
    if ops == [] then log else TrackAll(Track(log, ops[0]), ops[1..])
  }

  ghost predicate AllAllowed(log: seq<Entry>, ops: seq<Op>)
    decreases |ops|
  {
    ops == [] || (Allowed(log, ops[0]) && AllAllowed(Track(log, ops[0]), ops[1..]))
  }

  lemma {:induction false} FlatConcat(a: seq<Entry>, b: seq<Entry>)
    ensures Flat(a + b) == Flat(a) + Flat(b)
  {
    if a == [] {
      assert a + b == b;
    } else {
      FlatConcat(a[1..], b);
      FlatHead(a, b);
    }
  }

  lemma FlatHead(a: seq<Entry>, b: seq<Entry>)
    requires a != []
    requires Flat(a[1..] + b) == Flat(a[1..]) + Flat(b)
    ensures Flat(a + b) == Flat(a) + Flat(b)
  {
    hide Flat, Rules;
    FlatCons(a[0], a[1..]);
    FlatCons(a[0], a[1..] + b);
    assert a == [a[0]] + a[1..];
    assert a + b == [a[0]] + (a[1..] + b);
    Associative(Rules(a[0]), Flat(a[1..]), Flat(b));
  }

  lemma FlatCons(e: Entry, rest: seq<Entry>)
    ensures Flat([e] + rest) == Rules(e) + Flat(rest)
  {
    assert ([e] + rest)[1..] == rest;
  }

  lemma Associative<T>(x: seq<T>, y: seq<T>, z: seq<T>)
    ensures (x + y) + z == x + (y + z)
  {
  }

  lemma FlatOne(e: Entry)
    ensures Flat([e]) == Rules(e)
  {
    assert [e][1..] == [];
  }

  lemma {:induction false} FlatLones(ps: seq<Placement>)
    ensures Flat(Lones(ps)) == ps
  {
    if ps != [] {
      assert Lones(ps)[1..] == Lones(ps[1..]);
      FlatLones(ps[1..]);
      assert ps == [ps[0]] + ps[1..];
    }
  }

  /** Every rule of a log without container id carries another tag. */
  lemma {:induction false} FlatApart(log: seq<Entry>, c: Container)
    requires LogOk(log) && IdUnused(log, c.id)
    ensures Apart(AllRules(c), Flat(log))
  {
    PublishedAreTagged(c, |c.ports|);
    if log != [] {
      FlatApart(log[1..], c);
      var e := log[0];
      assert EntryOk(e);
      if e.Owned? {
        PublishedAreTagged(e.c, |e.c.ports|);
        if Tag(e.c.id) == Tag(c.id) {
          TagInjective(e.c.id, c.id);
        }
      }
    }
  }

  lemma {:induction false} WithoutSplits(log: seq<Entry>, c: Container) returns (a: seq<Entry>, e: Entry, b: seq<Entry>)
    requires exists i :: 0 <= i < |log| && log[i].Owned? && log[i].c == c
    ensures e.Owned? && e.c == c && log == a + [e] + b && Without(log, c) == a + b
  {
    hide EntryOk, Rules;
    if log[0].Owned? && log[0].c == c {
      a, e, b := [], log[0], log[1..];
      assert a + b == b;
      assert log == a + [e] + b;
    } else {
      var i :| 0 <= i < |log| && log[i].Owned? && log[i].c == c;
      assert log[1..][i - 1] == log[i];
      a, e, b := WithoutSplits(log[1..], c);
      assert log == [log[0]] + log[1..];
      InFront(log[0], a, e, b);
      a := [log[0]] + a;
    }
  }

  lemma InFront<T>(x: T, a: seq<T>, e: T, b: seq<T>)
    ensures [x] + (a + [e] + b) == ([x] + a) + [e] + b
    ensures [x] + (a + b) == ([x] + a) + b
  {
  }

  lemma TearDownRefines(t: Tables, log: seq<Entry>, c: Container)
    requires Shows(t, Flat(log)) && LogOk(log) && Allowed(log, TearDown(c))
    ensures Shows(DeleteAll(t, AllRules(c)), Flat(Without(log, c)))
    ensures LogOk(Without(log, c)) && IdUnused(Without(log, c), c.id)
  {
    var a, e, b := WithoutSplits(log, c);
    WithoutKeepsOk(a, e, b);
    FlatConcat(a + [e], b);
    FlatConcat(a, [e]);
    FlatOne(e);
    FlatConcat(a, b);
    FlatApart(a, c);
    FlatApart(b, c);
    DeleteOwnShows(t, Flat(a), AllRules(c), e.count, Flat(b));
  }

  lemma PartOk(log: seq<Entry>, part: seq<Entry>, shift: nat)
    requires LogOk(log) && shift + |part| <= |log|
    requires forall i :: 0 <= i < |part| ==> part[i] == log[shift + i]
    ensures LogOk(part)
  {
  }

  lemma PartsUnused(log: seq<Entry>, a: seq<Entry>, e: Entry, b: seq<Entry>)
    requires LogOk(log) && log == a + [e] + b && e.Owned?
    ensures IdUnused(a, e.c.id) && IdUnused(b, e.c.id) && EntryOk(e)
  {
    assert log[|a|] == e;
    assert forall i :: 0 <= i < |a| ==> a[i] == log[i];
    assert forall i :: 0 <= i < |b| ==> b[i] == log[|a| + 1 + i];
  }

  lemma JoinOk(log: seq<Entry>, a: seq<Entry>, e: Entry, b: seq<Entry>)
    requires LogOk(log) && log == a + [e] + b
    ensures LogOk(a + b)
  {
    assert forall i :: 0 <= i < |a| ==> (a + b)[i] == log[i];
    assert forall i :: |a| <= i < |a + b| ==> (a + b)[i] == log[i + 1];
  }

  lemma WithoutKeepsOk(a: seq<Entry>, e: Entry, b: seq<Entry>)
    requires e.Owned? && LogOk(a + [e] + b)
    ensures LogOk(a + b) && LogOk(a) && LogOk(b) && EntryOk(e)
    ensures IdUnused(a, e.c.id) && IdUnused(b, e.c.id) && IdUnused(a + b, e.c.id)
  {
    var log := a + [e] + b;
    PartsUnused(log, a, e, b);
    PartOk(log, a, 0);
    PartOk(log, b, |a| + 1);
    JoinOk(log, a, e, b);
  }

  lemma AppendKeepsOk(log: seq<Entry>, base: seq<Placement>, c: Container, count: nat)
    requires LogOk(log) && IdUnused(log, c.id) && count <= |AllRules(c)|
    requires forall i :: 0 <= i < |base| ==> IsBase(base[i])
    ensures LogOk(log + Lones(base) + [Owned(c, count)])
  {
  }

  lemma AppendRefines(t: Tables, log: seq<Entry>, base: seq<Placement>, c: Container, count: nat)
    requires Shows(t, Flat(log)) && count <= |AllRules(c)|
    ensures Shows(AppendAll(AppendAll(t, base), AllRules(c)[..count]), Flat(log + Lones(base) + [Owned(c, count)]))
  {
    AppendAllShows(t, Flat(log), base);
    AppendAllShows(AppendAll(t, base), Flat(log) + base, AllRules(c)[..count]);
    FlatConcat(log + Lones(base), [Owned(c, count)]);
    FlatConcat(log, Lones(base));
    FlatLones(base);
    FlatOne(Owned(c, count));
  }

  /** One operation on the tables is the same operation on the list of containers. */
  lemma StepRefines(t: Tables, log: seq<Entry>, op: Op)
    requires Shows(t, Flat(log)) && LogOk(log) && Allowed(log, op)
    ensures Shows(Exec(t, op), Flat(Track(log, op)))
    ensures LogOk(Track(log, op))
  {
    match op
    case OtherAppends(p) =>
      AppendAllShows(t, Flat(log), [p]);
      assert [p][..0] == [];
      assert AppendAll(t, [p]) == Append(AppendAll(t, []), p);
      FlatConcat(log, [Lone(p)]);
      FlatOne(Lone(p));
    case SetUp(c, base) =>
      assert AllRules(c)[..|AllRules(c)|] == AllRules(c);
      AppendRefines(t, log, base, c, |AllRules(c)|);
      AppendKeepsOk(log, base, c, |AllRules(c)|);
    case SetUpFails(c, base, kept) =>
      AppendRefines(t, log, base, c, kept);
      AppendKeepsOk(log, base, c, kept);
    case TearDown(c) =>
      TearDownRefines(t, log, c);
  }

  /**
   Over any run of set-ups, failed set-ups, teardowns and other people's appends, every
   chain holds the rules of the tracked list, entry by entry in set-up order.
   */
  lemma {:induction false} RunRefines(t: Tables, log: seq<Entry>, ops: seq<Op>)
    requires Shows(t, Flat(log)) && LogOk(log) && AllAllowed(log, ops)
    ensures Shows(ExecAll(t, ops), Flat(TrackAll(log, ops)))
    ensures LogOk(TrackAll(log, ops))
    decreases |ops|
  {
    if ops != [] {
      StepRefines(t, log, ops[0]);
      RunRefines(Exec(t, ops[0]), Track(log, ops[0]), ops[1..]);
    }
  }
}
