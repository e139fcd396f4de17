// The seccomp filter compiler: a classic-BPF interpreter, the program buildFilter
// emits, and the exact meaning of that program for an allow list of any length.

module ClassicBpf {
  type uint8 = x: int | 0 <= x < 0x100
  type uint16 = x: int | 0 <= x < 0x1_0000
  type uint32 = x: int | 0 <= x < 0x1_0000_0000

  // Go's conversions to a narrower unsigned type keep the low bits.
  function ToUint8(x: int): uint8 { x % 0x100 }
  function ToUint16(x: int): uint16 { x % 0x1_0000 }
  function ToUint32(x: int): uint32 { x % 0x1_0000_0000 }

  datatype SockFilter = SockFilter(code: uint16, jt: uint8, jf: uint8, k: uint32)

  const LD_W_ABS: uint16 := 0x20
  const JMP_JEQ_K: uint16 := 0x15
  const RET_K: uint16 := 0x06

  /** The two words of the kernel's seccomp_data that the filter reads. */
  datatype SeccompData = SeccompData(nr: uint32, arch: uint32)

  const NR_OFFSET: uint32 := 0
  const ARCH_OFFSET: uint32 := 4

  /** How a run ends: a RET after some number of instructions, or a fault. */
  datatype Outcome = Returned(action: uint32, steps: nat) | Fault

  /** Runs `prog` from instruction `pc` with accumulator `acc`. */
  function Run(prog: seq<SockFilter>, pc: nat, acc: uint32, data: SeccompData): Outcome
    decreases |prog| - pc
  {
    if pc >= |prog| then Fault
    else
      var i := prog[pc];
      if i.code == RET_K then Returned(i.k, 1)
      else if i.code == LD_W_ABS && i.k == NR_OFFSET then OneMore(Run(prog, pc + 1, data.nr, data))
      else if i.code == LD_W_ABS && i.k == ARCH_OFFSET then OneMore(Run(prog, pc + 1, data.arch, data))
      else if i.code == JMP_JEQ_K then
        OneMore(Run(prog, pc + 1 + (if acc == i.k then i.jt else i.jf), acc, data))
      else Fault
  }

  function OneMore(o: Outcome): Outcome {
    match o
    case Returned(action, steps) => Returned(action, steps + 1)
    case Fault => Fault
  }

  /** BPF_MAXINSNS: the longest program the kernel takes. */
  const MAX_INSNS := 4096

  ghost predicate Known(i: SockFilter) {
    || i.code == RET_K
    || i.code == JMP_JEQ_K
    || (i.code == LD_W_ABS && (i.k == NR_OFFSET || i.k == ARCH_OFFSET))
  }

  /** The kernel's own check of a program, as far as these instructions go. */
  ghost predicate KernelAccepts(prog: seq<SockFilter>) {
    && 0 < |prog| <= MAX_INSNS
    && prog[|prog| - 1].code == RET_K
    && forall pc :: 0 <= pc < |prog| ==> Known(prog[pc]) && JumpsInside(prog, pc)
  }

  ghost predicate JumpsInside(prog: seq<SockFilter>, pc: nat)
    requires pc < |prog|
  {
    prog[pc].code == JMP_JEQ_K ==> pc + 1 + prog[pc].jt < |prog| && pc + 1 + prog[pc].jf < |prog|
  }

  /** Whatever passes the kernel's check never faults: every run ends in a RET. */
  lemma {:induction false} AcceptedNeverFaults(prog: seq<SockFilter>, pc: nat, acc: uint32, data: SeccompData)
    requires KernelAccepts(prog) && pc < |prog|
    ensures Run(prog, pc, acc, data).Returned?
    ensures Run(prog, pc, acc, data).steps <= |prog| - pc
    decreases |prog| - pc
  {
    var i := prog[pc];
    assert Known(i) && JumpsInside(prog, pc);
    if i.code == LD_W_ABS {
      AcceptedNeverFaults(prog, pc + 1, if i.k == NR_OFFSET then data.nr else data.arch, data);
    } else if i.code == JMP_JEQ_K {
      AcceptedNeverFaults(prog, pc + 1 + (if acc == i.k then i.jt else i.jf), acc, data);
    }
  }
}

module SeccompFilter {
  import opened ClassicBpf

  const RET_ALLOW: uint32 := 0x7fff_0000
  const RET_KILL_PROCESS: uint32 := 0x8000_0000

  function Load(offset: uint32): SockFilter { SockFilter(LD_W_ABS, 0, 0, offset) }
  function JumpIfEqual(k: uint32, skip: uint8): SockFilter { SockFilter(JMP_JEQ_K, skip, 0, k) }
  function Return(action: uint32): SockFilter { SockFilter(RET_K, 0, 0, action) }

  function Prologue(auditArch: uint32): seq<SockFilter> {
    [Load(ARCH_OFFSET), JumpIfEqual(auditArch, 1), Return(RET_KILL_PROCESS), Load(NR_OFFSET)]
  }

  /** The i-th comparison means to skip n-i instructions, of which eight bits survive. */
  function Comparison(allowed: seq<uint32>, i: nat): SockFilter
    requires i < |allowed|
  {
    JumpIfEqual(allowed[i], ToUint8(|allowed| - i))
  }

  function Comparisons(allowed: seq<uint32>, upTo: nat): (cmps: seq<SockFilter>)
    requires upTo <= |allowed|
    ensures |cmps| == upTo
    ensures forall i :: 0 <= i < upTo ==> cmps[i] == Comparison(allowed, i)
  {
    seq(upTo, i requires 0 <= i < upTo => Comparison(allowed, i))
  }

  const EPILOGUE: seq<SockFilter> := [Return(RET_KILL_PROCESS), Return(RET_ALLOW)]

  function Filter(auditArch: uint32, allowed: seq<uint32>): seq<SockFilter> {
    Prologue(auditArch) + Comparisons(allowed, |allowed|) + EPILOGUE
  }

  /** buildFilter: grows the program instruction by instruction, in uint32 arithmetic. */
  method BuildFilter(auditArch: uint32, allowed: seq<uint32>) returns (prog: seq<SockFilter>)
    ensures prog == Filter(auditArch, allowed)
  {
    var n := ToUint32(|allowed|);
    prog := [];
    prog := prog + [SockFilter(LD_W_ABS, 0, 0, ARCH_OFFSET)];
    prog := prog + [SockFilter(JMP_JEQ_K, 1, 0, auditArch)];
    prog := prog + [SockFilter(RET_K, 0, 0, RET_KILL_PROCESS)];
    prog := prog + [SockFilter(LD_W_ABS, 0, 0, NR_OFFSET)];
    var i := 0;
    while i < |allowed|
      invariant 0 <= i <= |allowed|
      invariant prog == Prologue(auditArch) + Comparisons(allowed, i)
    {
      var skip := ToUint32(n - ToUint32(i));
      SkipIsLowByte(|allowed|, i);
      prog := prog + [SockFilter(JMP_JEQ_K, ToUint8(skip), 0, allowed[i])];
      assert Comparisons(allowed, i) + [Comparison(allowed, i)] == Comparisons(allowed, i + 1);
      i := i + 1;
    }
    prog := prog + [SockFilter(RET_K, 0, 0, RET_KILL_PROCESS)];
    prog := prog + [SockFilter(RET_K, 0, 0, RET_ALLOW)];
  }

  /** Wrapping to 32 bits first does not change the low byte. */
  lemma SkipIsLowByte(n: nat, i: nat)
    ensures ToUint8(ToUint32(ToUint32(n) - ToUint32(i))) == ToUint8(n - i)
  {
    LowByte(n);
    LowByte(i);
    var a, b := ToUint32(n), ToUint32(i);
    LowByte(a - b);
    assert n == 0x1_0000_0000 * (n / 0x1_0000_0000) + a;
    assert i == 0x1_0000_0000 * (i / 0x1_0000_0000) + b;
    assert n - i == (a - b) + 0x100 * (0x100_0000 * (n / 0x1_0000_0000 - i / 0x1_0000_0000));
    SameLowByte(a - b, 0x100_0000 * (n / 0x1_0000_0000 - i / 0x1_0000_0000));
  }

  lemma LowByte(x: int)
    ensures ToUint8(ToUint32(x)) == ToUint8(x)
  {
    assert x == ToUint32(x) + 0x100 * (0x100_0000 * (x / 0x1_0000_0000));
    SameLowByte(ToUint32(x), 0x100_0000 * (x / 0x1_0000_0000));
  }

  lemma SameLowByte(x: int, k: int)
    ensures ToUint8(x + 0x100 * k) == ToUint8(x)
  {
  }

  /** The list entries a match on which really reaches ALLOW. */
  function Effective(allowed: seq<uint32>): seq<uint32> {
    if |allowed| <= 255 then allowed else allowed[|allowed| - 255..]
  }

  function Verdict(auditArch: uint32, allowed: seq<uint32>, data: SeccompData): uint32 {
    if data.arch == auditArch && data.nr in Effective(allowed) then RET_ALLOW else RET_KILL_PROCESS
  }

  /**
   A jump truncated to eight bits at distance d = n-i >= 256 lands at distance
   256*(d/256)-1, which is at least 255: it never enters the last 255 comparisons.
   */
  lemma TruncatedJumpFallsShort(n: nat, i: nat)
    requires i < n
    ensures n - i >= 256 ==>
      var landing := i + 1 + ToUint8(n - i);
      n - landing == 256 * ((n - i) / 256) - 1 && n - landing >= 255
    ensures n - i <= 255 ==> i + 1 + ToUint8(n - i) == n + 1
  {
  }

  /** What the program looks like, instruction by instruction. */
  ghost predicate Layout(prog: seq<SockFilter>, auditArch: uint32, allowed: seq<uint32>) {
    && |prog| == |allowed| + 6
    && prog[0] == Load(ARCH_OFFSET)
    && prog[1] == JumpIfEqual(auditArch, 1)
    && prog[2] == Return(RET_KILL_PROCESS)
    && prog[3] == Load(NR_OFFSET)
    && (forall i :: 4 <= i < 4 + |allowed| ==> prog[i] == Comparison(allowed, i - 4))
    && prog[4 + |allowed|] == Return(RET_KILL_PROCESS)
    && prog[5 + |allowed|] == Return(RET_ALLOW)
  }

  lemma {:induction false} FilterLayout(auditArch: uint32, allowed: seq<uint32>)
    ensures Layout(Filter(auditArch, allowed), auditArch, allowed)
  {
    var prog := Filter(auditArch, allowed);
    var cmps := Comparisons(allowed, |allowed|);
    assert prog == Prologue(auditArch) + (cmps + EPILOGUE);
    forall i | 4 <= i < 4 + |allowed|
      ensures prog[i] == Comparison(allowed, i - 4)
    {
      assert prog[i] == (cmps + EPILOGUE)[i - 4] == cmps[i - 4];
    }
  }

  /** From the i-th comparison on, only the entries that lie both after i and in the last 255 allow. */
  lemma {:induction false} ComparisonsMeaning(prog: seq<SockFilter>, auditArch: uint32, allowed: seq<uint32>, i: nat,
                                              data: SeccompData)
    requires Layout(prog, auditArch, allowed)
    requires i <= |allowed|
    ensures
      var last := if |allowed| - i <= 255 then i else |allowed| - 255;
      var o := Run(prog, 4 + i, data.nr, data);
      && o.Returned?
      && o.action == (if data.nr in allowed[last..] then RET_ALLOW else RET_KILL_PROCESS)
      && o.steps <= |allowed| - i + 1
    decreases |allowed| - i
  {
    var n := |allowed|;
    if i < n {
      var skip := Comparison(allowed, i).jt;
      assert prog[4 + i] == JumpIfEqual(allowed[i], skip);
      if data.nr != allowed[i] {
        ComparisonsMeaning(prog, auditArch, allowed, i + 1, data);
        if n - i <= 255 {
          assert allowed[i..] == [allowed[i]] + allowed[i + 1..];
        }
      } else {
        TruncatedJumpFallsShort(n, i);
        if n - i >= 256 {
          ComparisonsMeaning(prog, auditArch, allowed, i + 1 + skip, data);
        } else {
          assert Run(prog, 5 + n, data.nr, data) == Returned(RET_ALLOW, 1);
          assert allowed[i..][0] == data.nr;
        }
      }
    }
  }

  /** What the kernel makes of a returned value: its upper half is the action. */
  datatype Fate = Allowed | ProcessKilled | SomethingElse

  function FateOf(action: uint32): Fate {
    if action / 0x1_0000 == 0x7fff then Allowed else if action / 0x1_0000 == 0x8000
        then ProcessKilled else SomethingElse
  }

  /** The program for one number, instruction by instruction in the kernel's encoding. */
  lemma {:induction false} OneNumberProgram(auditArch: uint32, nr: uint32)
    ensures Filter(auditArch, [nr]) == [
      SockFilter(0x20, 0, 0, 4), SockFilter(0x15, 1, 0, auditArch), SockFilter(0x06, 0, 0, 0x8000_0000),
      SockFilter(0x20, 0, 0, 0), SockFilter(0x15, 1, 0, nr), SockFilter(0x06, 0, 0, 0x8000_0000),
      SockFilter(0x06, 0, 0, 0x7fff_0000)]
  {
    assert Comparisons([nr], 1) == [Comparison([nr], 0)];
  }

  /**
   Exact meaning, for lists of any length: ALLOW iff the architecture matches and nr is
   among the last min(n, 255) entries; otherwise KILL_PROCESS; within n+4 instructions.
   */
  lemma FilterMeaning(auditArch: uint32, allowed: seq<uint32>, data: SeccompData)
    ensures
      var o := Run(Filter(auditArch, allowed), 0, 0, data);
      && o.Returned?
      && o.action == Verdict(auditArch, allowed, data)
      && o.steps <= |allowed| + 4
  {
    FilterLayout(auditArch, allowed);
    LayoutMeaning(Filter(auditArch, allowed), auditArch, allowed, data);
  }

  /**
   In the kernel's terms: allowed exactly if the architecture matches and one of the last
   255 entries is the number.
   */
  lemma {:induction false} KernelDecides(auditArch: uint32, allowed: seq<uint32>, data: SeccompData)
    ensures
      var o := Run(Filter(auditArch, allowed), 0, 0, data);
      && o.Returned?
      && FateOf(o.action) ==
           if data.arch == auditArch && exists i :: 0 <= i < |allowed| && |allowed| - 255 <= i && allowed[i] == data.nr
           then Allowed else ProcessKilled
  {
    FilterMeaning(auditArch, allowed, data);
    if data.nr in Effective(allowed) {
      var j :| 0 <= j < |Effective(allowed)| && Effective(allowed)[j] == data.nr;
      assert allowed[|allowed| - |Effective(allowed)| + j] == data.nr;
    }
    if i :| 0 <= i < |allowed| && |allowed| - 255 <= i && allowed[i] == data.nr {
      assert Effective(allowed)[i - (|allowed| - |Effective(allowed)|)] == data.nr;
    }
  }

  lemma LayoutMeaning(prog: seq<SockFilter>, auditArch: uint32, allowed: seq<uint32>, data: SeccompData)
    requires Layout(prog, auditArch, allowed)
    ensures
      var o := Run(prog, 0, 0, data);
      && o.Returned?
      && o.action == Verdict(auditArch, allowed, data)
      && o.steps <= |allowed| + 4
  {
    if data.arch == auditArch {
      ComparisonsMeaning(prog, auditArch, allowed, 0, data);
      var rest := Run(prog, 4, data.nr, data);
      assert Run(prog, 3, data.arch, data) == OneMore(rest);
      assert Run(prog, 1, data.arch, data) == OneMore(OneMore(rest));
    } else {
      assert Run(prog, 2, data.arch, data) == Returned(RET_KILL_PROCESS, 1);
      assert Run(prog, 1, data.arch, data) == Returned(RET_KILL_PROCESS, 2);
    }
  }

  ghost predicate DecidesMembership(auditArch: uint32, allowed: seq<uint32>) {
    forall nr: uint32 ::
      Run(Filter(auditArch, allowed), 0, 0, SeccompData(nr, auditArch)).Returned? &&
      (Run(Filter(auditArch, allowed), 0, 0, SeccompData(nr, auditArch)).action == RET_ALLOW <==> nr in allowed)
  }

  /**
   When the emitted program is the allow list it was made from: exactly when every entry
   before the last 255 is repeated among the last 255 (in particular whenever n <= 255).
   */
  lemma MembershipIff(auditArch: uint32, allowed: seq<uint32>)
    ensures DecidesMembership(auditArch, allowed)
      <==> forall i :: 0 <= i < |allowed| - 255 ==> allowed[i] in Effective(allowed)
  {
    forall nr: uint32
      ensures Run(Filter(auditArch, allowed), 0, 0, SeccompData(nr, auditArch)).Returned?
      ensures Run(Filter(auditArch, allowed), 0, 0, SeccompData(nr, auditArch)).action == RET_ALLOW
        <==> nr in Effective(allowed)
    {
      FilterMeaning(auditArch, allowed, SeccompData(nr, auditArch));
    }
    var n := |allowed|;
    forall nr: uint32
      ensures nr in allowed <==> nr in Effective(allowed) || exists i :: 0 <= i < n - 255 && allowed[i] == nr
    {
      if n > 255 {
        assert allowed == allowed[..n - 255] + Effective(allowed);
        if nr in allowed[..n - 255] {
          var i :| 0 <= i < n - 255 && allowed[..n - 255][i] == nr;
          assert allowed[i] == nr;
        }
      }
    }
  }

  /** An allow list of 256 different entries, the first of which is killed. */
  lemma TruncationDropsAnEntry(auditArch: uint32)
    ensures
      var allowed: seq<uint32> := seq(256, i requires 0 <= i < 256 => i);
      0 in allowed && !DecidesMembership(auditArch, allowed)
  {
    var allowed: seq<uint32> := seq(256, i requires 0 <= i < 256 => i);
    assert allowed[0] == 0;
    assert forall x :: x in Effective(allowed) ==> 1 <= x;
    MembershipIff(auditArch, allowed);
  }

  /** Apply hands the kernel a 16-bit length, so only that much of the program arrives. */
  function Installed(prog: seq<SockFilter>): seq<SockFilter> {
    prog[..ToUint16(|prog|)]
  }

  /**
   The kernel accepts what Apply hands it exactly for lists of at most 4090 entries; a
   length that wraps past 16 bits cuts the program off before its tail and is refused.
   */
  lemma AcceptedIff(auditArch: uint32, allowed: seq<uint32>)
    ensures KernelAccepts(Installed(Filter(auditArch, allowed))) <==> |allowed| + 6 <= MAX_INSNS
    ensures |allowed| + 6 <= 0xffff ==> Installed(Filter(auditArch, allowed)) == Filter(auditArch, allowed)
  {
    FilterLayout(auditArch, allowed);
    LayoutAcceptedIff(Filter(auditArch, allowed), auditArch, allowed);
  }

  lemma LayoutAcceptedIff(prog: seq<SockFilter>, auditArch: uint32, allowed: seq<uint32>)
    requires Layout(prog, auditArch, allowed)
    ensures KernelAccepts(Installed(prog)) <==> |allowed| + 6 <= MAX_INSNS
    ensures |allowed| + 6 <= 0xffff ==> Installed(prog) == prog
  {
    var n, p := |allowed|, Installed(prog);
    if n + 6 <= MAX_INSNS {
      assert p == prog;
      LayoutWellFormed(prog, auditArch, allowed);
    } else if 0 < |p| <= MAX_INSNS {
      assert |p| <= n + 4;
      assert p[|p| - 1] == prog[|p| - 1];
      if |p| == 3 {
        assert p[1] == JumpIfEqual(auditArch, 1);
        assert !JumpsInside(p, 1);
      } else {
        assert p[|p| - 1].code != RET_K;
      }
    }
  }

  /** Jumps go forward and stay inside, loads read offset 0 or 4, the last instruction returns. */
  lemma {:induction false} FilterWellFormed(prog: seq<SockFilter>, auditArch: uint32, allowed: seq<uint32>)
    requires prog == Filter(auditArch, allowed)
    ensures prog[|prog| - 1].code == RET_K
    ensures forall pc :: 0 <= pc < |prog| ==> Known(prog[pc]) && JumpsInside(prog, pc)
  {
    FilterLayout(auditArch, allowed);
    LayoutWellFormed(prog, auditArch, allowed);
  }

  lemma LayoutWellFormed(prog: seq<SockFilter>, auditArch: uint32, allowed: seq<uint32>)
    requires Layout(prog, auditArch, allowed)
    ensures prog[|prog| - 1].code == RET_K
    ensures forall pc :: 0 <= pc < |prog| ==> Known(prog[pc]) && JumpsInside(prog, pc)
  {
    forall pc | 0 <= pc < |prog|
      ensures Known(prog[pc]) && JumpsInside(prog, pc)
    {
      if 4 <= pc < 4 + |allowed| {
        TruncatedJumpFallsShort(|allowed|, pc - 4);
        assert prog[pc].jt == ToUint8(|allowed| - (pc - 4));
      }
    }
  }
}
