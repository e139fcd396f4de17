// The --publish flag: printing a list of mappings, and reading it back value by value.

module PublishFlag {
  import opened Wrappers
  import opened Strings
  import opened PublishRules

  // ---- decimal numbers

  predicate IsDigit(c: char) { '0' <= c <= '9' }

  function Digit(c: char): (d: nat)
    requires IsDigit(c)
    ensures d < 10
  {
    c as int - '0' as int
  }

  /** fmt's %d for a number that is not negative. */
  function Decimal(n: nat): (s: string)
    ensures s != "" && forall i :: 0 <= i < |s| ==> IsDigit(s[i])
  {
    var last := [('0' as int + n % 10) as char];
    if n < 10 then last else Decimal(n / 10) + last
  }

  /** The value of a run of digits; None when something else is in it. */
  function Digits(s: string): Option<int> {
    if s == "" then Some(0)
    else if !IsDigit(s[|s| - 1]) then None
    else
      match Digits(s[..|s| - 1])
      case None => None
      case Some(n) => Some(10 * n + Digit(s[|s| - 1]))
  }

  const MAX_INT: int := 0x7fff_ffff_ffff_ffff

  /** strconv.Atoi on a 64-bit machine. */
  function Atoi(s: string): Option<int> {
    var signed := s != "" && (s[0] == '+' || s[0] == '-');
    var digits := if signed then s[1..] else s;
    if digits == "" then None
    else
      match Digits(digits)
      case None => None
      case Some(n) =>
        var value := if signed && s[0] == '-' then -n else n;
        if -MAX_INT - 1 <= value <= MAX_INT then Some(value) else None
  }

  lemma {:induction false} DigitsOfDecimal(n: nat)
    ensures Digits(Decimal(n)) == Some(n)
  {
    var s := Decimal(n);
    var last := [('0' as int + n % 10) as char];
    if n < 10 {
      assert s[..0] == "";
    } else {
      DigitsOfDecimal(n / 10);
      assert s[..|s| - 1] == Decimal(n / 10);
      assert s[|s| - 1] == last[0];
    }
  }

  /** Printing and reading a port gives it back. */
  lemma AtoiOfDecimal(n: nat)
    requires n <= MAX_INT
    ensures Atoi(Decimal(n)) == Some(n)
  {
    DigitsOfDecimal(n);
  }

  lemma {:induction false} DigitsOnly(s: string)
    ensures Digits(s).Some? <==> forall i :: 0 <= i < |s| ==> IsDigit(s[i])
    ensures Digits(s).Some? ==> Digits(s).value >= 0
  {
    if s != "" {
      DigitsOnly(s[..|s| - 1]);
      assert s == s[..|s| - 1] + [s[|s| - 1]];
    }
  }

  /** Exactly what reads as a number: digits behind at most one sign, in range. */
  lemma {:induction false} AtoiIff(s: string)
    ensures Atoi(s).Some? ==> s != "" && forall i :: 1 <= i < |s| ==> IsDigit(s[i])
    ensures s != "" && !IsDigit(s[0]) && s[0] != '+' && s[0] != '-' ==> Atoi(s) == None
    ensures s != "" && (forall i :: 0 <= i < |s| ==> IsDigit(s[i])) ==>
      Atoi("+" + s) == Atoi(s) && (Atoi(s).Some? ==> Atoi("-" + s) == Some(-Atoi(s).value))
  {
    DigitsOnly(s);
    if s != "" {
      DigitsOnly(s[1..]);
    }
    assert ("+" + s)[1..] == s && ("-" + s)[1..] == s;
  }

  lemma {:induction false} AtoiInRange(n: nat)
    ensures Atoi(Decimal(n)) == if n <= 0x7fff_ffff_ffff_ffff then Some(n) else None
  {
    DigitsOfDecimal(n);
  }

  // ---- one mapping

  function Lower(c: char): char {
    if 'A' <= c <= 'Z' then (c as int + 32) as char else c
  }

  function ToLower(s: string): string {
    if s == "" then "" else [Lower(s[0])] + ToLower(s[1..])
  }

  /** What parsePublish accepts. */
  predicate Accepted(pm: PortMapping) {
    && 0 < pm.hostPort <= 65535 && 0 < pm.containerPort <= 65535
    && (pm.protocol == "tcp" || pm.protocol == "udp")
  }

  function ParsePublish(s: string): (r: Option<PortMapping>)
    ensures r.Some? ==> Accepted(r.value)
  {
    var i := IndexOf(s, '/');
    ParseSpec(s[..i], if i < |s| then ToLower(s[i + 1..]) else "tcp")
  }

  function ParseSpec(spec: string, proto: string): (r: Option<PortMapping>)
    ensures r.Some? ==> Accepted(r.value)
  {
    if proto != "tcp" && proto != "udp" then None
    else
      var j := IndexOf(spec, ':');
      if j == |spec| then None else CheckPorts(Atoi(spec[..j]), Atoi(spec[j + 1..]), proto)
  }

  function CheckPorts(host: Option<int>, cont: Option<int>, proto: string): Option<PortMapping> {
    if host.None? || cont.None? || host.value <= 0 || host.value > 65535 || cont.value <= 0 || cont.value > 65535
    then None
    else Some(PortMapping(host.value, cont.value, proto))
  }

  function Render(pm: PortMapping): string
    requires Accepted(pm)
  {
    Decimal(pm.hostPort) + ":" + Decimal(pm.containerPort) + "/" + pm.protocol
  }

  lemma {:induction false} IndexOfAfter(a: string, c: char, b: string)
    requires c !in a
    ensures IndexOf(a + [c] + b, c) == |a|
  {
    var s := a + [c] + b;
    if a != "" {
      assert s[1..] == a[1..] + [c] + b;
      IndexOfAfter(a[1..], c, b);
    }
  }

  lemma NotInDigits(s: string, c: char)
    requires forall i :: 0 <= i < |s| ==> IsDigit(s[i])
    requires !IsDigit(c)
    ensures c !in s
  {
  }

  lemma LowerProtocols()
    ensures ToLower("tcp") == "tcp" && ToLower("udp") == "udp"
  {
    assert "tcp"[1..] == "cp" && "cp"[1..] == "p" && "p"[1..] == "";
    assert "udp"[1..] == "dp" && "dp"[1..] == "p";
  }

  lemma ParseParts(spec: string, proto: string)
    requires '/' !in spec
    ensures ParsePublish(spec + ['/'] + proto) == ParseSpec(spec, ToLower(proto))
  {
    hide ParseSpec;
    var s := spec + ['/'] + proto;
    IndexOfAfter(spec, '/', proto);
    assert s[..|spec|] == spec && s[|spec| + 1..] == proto;
  }

  lemma SpecParts(host: string, cont: string, proto: string)
    requires ':' !in host && (proto == "tcp" || proto == "udp")
    ensures ParseSpec(host + [':'] + cont, proto) == CheckPorts(Atoi(host), Atoi(cont), proto)
  {
    hide Atoi, CheckPorts;
    var spec := host + [':'] + cont;
    IndexOfAfter(host, ':', cont);
    assert spec[..|host|] == host && spec[|host| + 1..] == cont;
  }

  lemma ParseRender(pm: PortMapping)
    requires Accepted(pm)
    ensures ParsePublish(Render(pm)) == Some(pm)
    ensures ',' !in Render(pm) && Render(pm) != ""
  {
    hide ParsePublish, ParseSpec, Atoi;
    var host, cont := Decimal(pm.hostPort), Decimal(pm.containerPort);
    var spec := host + [':'] + cont;
    NotInDigits(host, ':');
    NotInDigits(host, '/');
    NotInDigits(host, ',');
    NotInDigits(cont, '/');
    NotInDigits(cont, ',');
    assert Render(pm) == spec + ['/'] + pm.protocol;
    ParseParts(spec, pm.protocol);
    SpecParts(host, cont, pm.protocol);
    LowerProtocols();
    AtoiOfDecimal(pm.hostPort);
    AtoiOfDecimal(pm.containerPort);
  }

  /** Without a protocol it is tcp; the protocol may be written in capitals. */
  lemma {:induction false} ParsesAs(host: nat, cont: nat, proto: string)
    requires 0 < host <= 65535 && 0 < cont <= 65535
    ensures ParsePublish(Decimal(host) + ":" + Decimal(cont)) == Some(PortMapping(host, cont, "tcp"))
    ensures ToLower(proto) == "tcp" || ToLower(proto) == "udp" ==>
      ParsePublish(Decimal(host) + ":" + Decimal(cont) + "/" + proto) == Some(PortMapping(host, cont, ToLower(proto)))
    ensures ToLower(proto) != "tcp" && ToLower(proto) != "udp" ==>
      ParsePublish(Decimal(host) + ":" + Decimal(cont) + "/" + proto) == None
  {
    hide Atoi, Decimal, ToLower;
    var h, c := Decimal(host), Decimal(cont);
    var spec := h + [':'] + c;
    NotInDigits(h, ':');
    NotInDigits(h, '/');
    NotInDigits(c, '/');
    AtoiOfDecimal(host);
    AtoiOfDecimal(cont);
    assert h + ":" + c == spec && '/' !in spec;
    IndexOfNone(spec, '/');
    assert spec[..|spec|] == spec;
    SpecParts(h, c, "tcp");
    assert h + ":" + c + "/" + proto == spec + ['/'] + proto;
    ParseParts(spec, proto);
    if ToLower(proto) == "tcp" || ToLower(proto) == "udp" {
      SpecParts(h, c, ToLower(proto));
    }
  }

  lemma {:induction false} IndexOfNone(s: string, c: char)
    requires c !in s
    ensures IndexOf(s, c) == |s|
  {
    if IndexOf(s, c) < |s| {
      assert false;
    }
  }

  /** Capitals are lowered one by one, and everything else stays. */
  lemma {:induction false} ToLowerAt(s: string, i: nat)
    requires i < |s|
    ensures |ToLower(s)| == |s|
    ensures ToLower(s)[i] == if 'A' <= s[i] <= 'Z' then (s[i] as int - 'A' as int + 'a' as int) as char else s[i]
  {
    LowerLength(s);
    if i > 0 {
      ToLowerAt(s[1..], i - 1);
    }
  }

  lemma {:induction false} LowerLength(s: string)
    ensures |ToLower(s)| == |s|
  {
    if s != "" {
      LowerLength(s[1..]);
    }
  }

  // ---- the list

  function Rendered(list: seq<PortMapping>): (parts: seq<string>)
    requires forall i :: 0 <= i < |list| ==> Accepted(list[i])
    ensures |parts| == |list| && forall i :: 0 <= i < |list| ==> parts[i] == Render(list[i])
  {
    if list == [] then [] else Rendered(list[..|list| - 1]) + [Render(list[|list| - 1])]
  }

  /** Set, value after value; None as soon as one is refused. */
  function SetAll(list: seq<PortMapping>, values: seq<string>): Option<seq<PortMapping>>
    decreases |values|
  {
    if values == [] then Some(list)
    else
      match ParsePublish(values[0])
      case None => None
      case Some(pm) => SetAll(list + [pm], values[1..])
  }

  lemma {:induction false} SetAllRendered(before: seq<PortMapping>, list: seq<PortMapping>, parts: seq<string>)
    requires forall i :: 0 <= i < |list| ==> Accepted(list[i])
    requires |parts| == |list| && forall i :: 0 <= i < |list| ==> parts[i] == Render(list[i])
    ensures SetAll(before, parts) == Some(before + list)
    decreases |list|
  {
    hide ParsePublish, Render;
    if list == [] {
      assert before + list == before;
    } else {
      ParseRender(list[0]);
      SetAllRendered(before + [list[0]], list[1..], parts[1..]);
      assert before + [list[0]] + list[1..] == before + list;
    }
  }

  class Flag {
    var list: seq<PortMapping>

    ghost predicate Valid()
      reads this
    {
      forall i :: 0 <= i < |list| ==> Accepted(list[i])
    }

    constructor ()
      ensures Valid() && list == []
    {
      list := [];
    }

    /** Appends one mapping, or refuses the value and changes nothing. */
    method Set(v: string) returns (ok: bool)
      requires Valid()
      modifies this
      ensures Valid()
      ensures ok == ParsePublish(v).Some?
      ensures list == if ok then old(list) + [ParsePublish(v).value] else old(list)
    {
      var parsed := ParsePublish(v);
      ok := parsed.Some?;
      if ok {
        list := list + [parsed.value];
      }
    }

    /** The printed list reads back as the list: split it at the commas and Set each part. */
    method Print() returns (s: string)
      requires Valid()
      ensures list == [] <==> s == ""
      ensures list != [] ==> SetAll([], Split(s, ',')) == Some(list)
    {
      if list == [] {
        return "";
      }
      var parts: seq<string> := [];
      for i := 0 to |list|
        invariant |parts| == i
        invariant forall k :: 0 <= k < i ==> parts[k] == Render(list[k])
      {
        parts := parts + [Render(list[i])];
      }
      s := Join(parts, ',');
      RoundTrip(list, parts);
    }
  }

  lemma RoundTrip(list: seq<PortMapping>, parts: seq<string>)
    requires list != [] && forall i :: 0 <= i < |list| ==> Accepted(list[i])
    requires |parts| == |list| && forall i :: 0 <= i < |list| ==> parts[i] == Render(list[i])
    ensures SetAll([], Split(Join(parts, ','), ',')) == Some(list)
    ensures Join(parts, ',') != ""
  {
    forall i | 0 <= i < |parts|
      ensures ',' !in parts[i]
    {
      ParseRender(list[i]);
    }
    SplitJoin(parts, ',');
    SetAllRendered([], list, parts);
    assert [] + list == list;
    ParseRender(list[0]);
    assert parts[0] <= Join(parts, ',');
  }
}
