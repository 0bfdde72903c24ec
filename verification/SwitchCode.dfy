/** The switch instruction by instruction on both architectures, and the layout of a fresh fiber's stack. */
module SwitchCode {
  import opened FiberSwitch

  class X86Machine {
    const mem: array<int>
    var rsp: int
    var rbp: int
    var rbx: int
    var r12: int
    var r13: int
    var r14: int
    var r15: int
    var rdi: int
    var rsi: int
    var rip: int

    constructor (mem: array<int>)
      ensures this.mem == mem
    {
      this.mem := mem;
    }

    /** Inside a call: the return address is on top of the stack. */
    ghost function Called(): Machine
      requires 0 <= rsp < mem.Length
      reads this, mem
    {
      Machine([r15, r14, r13, r12, rbx, rbp, mem[rsp]], rsp + 1, mem[..])
    }

    /** Back in a caller. */
    ghost function Returned(): Machine
      reads this, mem
    {
      Machine([r15, r14, r13, r12, rbx, rbp, rip], rsp, mem[..])
    }

    method Push(v: int)
      requires 0 < rsp <= mem.Length
      modifies this`rsp, mem
      ensures rsp == old(rsp) - 1 && mem[..] == old(mem[..])[rsp := v]
    {
      rsp := rsp - 1;
      mem[rsp] := v;
    }

    method Pop() returns (v: int)
      requires 0 <= rsp < mem.Length
      modifies this`rsp
      ensures rsp == old(rsp) + 1 && v == mem[old(rsp)]
    {
      v := mem[rsp];
      rsp := rsp + 1;
    }

    /** The six pushes: the frame, below the return address that is already there. */
    method SaveRegisters()
      requires 6 <= rsp < mem.Length
      modifies this`rsp, mem
      ensures rsp == old(rsp) - 6 && mem[..] == Stored(old(mem[..]), rsp, old(Called()).regs)
    {
      Push(rbp);
      Push(rbx);
      Push(r12);
      Push(r13);
      Push(r14);
      Push(r15);
    }

    /** The six pops and the return. */
    method RestoreRegisters()
      requires 0 <= rsp && rsp + 7 <= mem.Length
      modifies this`rsp, this`r15, this`r14, this`r13, this`r12, this`rbx, this`rbp, this`rip
      ensures Returned() == Machine(old(mem[rsp..rsp + 7]), old(rsp) + 7, old(mem[..]))
    {
      r15 := Pop();
      r14 := Pop();
      r13 := Pop();
      r12 := Pop();
      rbx := Pop();
      rbp := Pop();
      rip := Pop();
    }

    method FwCtxSwap()
      requires 6 <= rsp < mem.Length && 0 <= rdi < mem.Length && 0 <= rsi && rsi + 7 <= mem.Length
      modifies this, mem
      ensures Returned() == Swap(X86, old(Called()), old(rdi), old(rsi))
      ensures rip == ReturnsTo(X86, Returned().regs)
    {
      SaveRegisters();
      mem[rdi] := rsp;
      rsp := rsi;
      RestoreRegisters();
    }

    /** A fiber's first instructions: its address becomes the argument of `start`, and at the call the stack is
        16-byte aligned. */
    method Trampoline(start: int, here: int)
      requires 2 <= rsp <= mem.Length
      modifies this, mem
      ensures rdi == old(r15) && rip == start && (rsp + 1) % 2 == 0
      ensures old(rsp) - 2 <= rsp < old(rsp) && forall k :: 0 <= k < mem.Length && k != rsp ==> mem[k] == old(mem[k])
    {
      rdi := r15;
      rsp := rsp - rsp % 2;
      Push(here);
      rip := start;
    }
  }

  class ArmMachine {
    const mem: array<int>
    /** x0 to x30; x29 is the frame pointer and x30 the return address. */
    const x: array<int>
    var sp: int
    var pc: int

    constructor (mem: array<int>)
      ensures this.mem == mem && fresh(x) && x.Length == 31
    {
      this.mem := mem;
      x := new int[31];
    }

    ghost predicate Valid()
    {
      x.Length == 31 && x != mem
    }

    ghost function View(): Machine
      requires Valid()
      reads this, mem, x
    {
      Machine(x[19..31], sp, mem[..])
    }

    /** `stp xi, xj, [sp, #8 * k]` with j == i + 1. */
    method Stp(i: nat, k: nat)
      requires Valid() && i < 30 && 0 <= sp && sp + k + 2 <= mem.Length
      modifies mem
      ensures mem[..] == old(mem[..])[sp + k := x[i]][sp + k + 1 := x[i + 1]]
    {
      mem[sp + k], mem[sp + k + 1] := x[i], x[i + 1];
    }

    /** `ldp xi, xj, [sp, #8 * k]` with j == i + 1. */
    method Ldp(i: nat, k: nat)
      requires Valid() && i < 30 && 0 <= sp && sp + k + 2 <= mem.Length
      modifies x
      ensures x[..] == old(x[..])[i := mem[sp + k]][i + 1 := mem[sp + k + 1]]
    {
      x[i], x[i + 1] := mem[sp + k], mem[sp + k + 1];
    }

    method StorePairs()
      requires Valid() && 0 <= sp && sp + 14 <= mem.Length
      modifies mem
      ensures mem[..] == Stored(old(mem[..]), sp, x[19..31])
    {
      Stp(19, 0);
      Stp(21, 2);
      Stp(23, 4);
      Stp(25, 6);
      Stp(27, 8);
      Stp(29, 10);
    }

    method LoadPairs()
      requires Valid() && 0 <= sp && sp + 14 <= mem.Length
      modifies x
      ensures x[19..31] == mem[sp..sp + 12]
    {
      Ldp(19, 0);
      Ldp(21, 2);
      Ldp(23, 4);
      Ldp(25, 6);
      Ldp(27, 8);
      Ldp(29, 10);
      assert forall k :: 19 <= k < 31 ==> x[k] == x[..][k] == mem[sp + k - 19];
    }

    /** The frame below `sp`, and its address to where x0 points. */
    method SaveFrame()
      requires Valid() && 14 <= sp <= mem.Length && 0 <= x[0] < mem.Length
      modifies this`sp, mem, x
      ensures sp == old(sp) - 14 && mem[..] == Stored(old(mem[..]), sp, old(x[19..31]))[old(x[0]) := sp]
      ensures x[1] == old(x[1])
    {
      sp := sp - 14;
      StorePairs();
      x[2] := sp;
      mem[x[0]] := x[2];
    }

    method FwCtxSwap()
      requires Valid() && 14 <= sp <= mem.Length && 0 <= x[0] < mem.Length && 0 <= x[1] && x[1] + 14 <= mem.Length
      modifies this, mem, x
      ensures View() == Swap(Arm, old(View()), old(x[0]), old(x[1]))
      ensures pc == ReturnsTo(Arm, View().regs)
    {
      SaveFrame();
      sp := x[1];
      LoadPairs();
      sp := sp + 14;
      pc := x[30];
    }

    method Trampoline(start: int, here: int)
      requires Valid()
      modifies this, x
      ensures x[0] == old(x[19]) && x[30] == here && pc == start && sp == old(sp)
    {
      x[0] := x[19];
      x[30] := here;
      pc := start;
    }
  }

  method ZeroStack(mem: array<int>, bottom: nat, top: nat)
    requires bottom <= top <= mem.Length
    modifies mem
    ensures forall i :: 0 <= i < mem.Length ==> mem[i] == if bottom <= i < top then 0 else old(mem[i])
  {
    for k := bottom to top
      invariant forall i :: 0 <= i < mem.Length ==> mem[i] == if bottom <= i < k then 0 else old(mem[i])
    {
      mem[k] := 0;
    }
  }

  /** The first frame, on a zeroed stack. */
  method BuildFrame(a: Arch, mem: array<int>, top: nat, f: int, trampoline: int) returns (sp: nat)
    requires 14 <= top <= mem.Length && forall k :: top - 14 <= k < top ==> mem[k] == 0
    modifies mem
    ensures sp == top - InitialDepth(a) && mem[sp..sp + NumRegs(a)] == InitialRegs(a, f, trampoline)
    ensures forall k :: 0 <= k < mem.Length && !(sp <= k < sp + NumRegs(a)) ==> mem[k] == old(mem[k])
  {
    sp := top - if a.X86? then 8 else 14;
    mem[sp] := f;
    mem[if a.X86? then sp + 6 else sp + 11] := trampoline;
  }

  method LayOut(a: Arch, mem: array<int>, bottom: nat, top: nat, f: int, trampoline: int) returns (sp: nat)
    requires bottom + 14 <= top <= mem.Length
    modifies mem
    ensures sp == top - InitialDepth(a) && mem[sp..sp + NumRegs(a)] == InitialRegs(a, f, trampoline)
    ensures forall k :: bottom <= k < top ==> sp <= k < sp + NumRegs(a) || mem[k] == 0
    ensures forall k :: 0 <= k < mem.Length && !(bottom <= k < top) ==> mem[k] == old(mem[k])
  {
    ZeroStack(mem, bottom, top);
    sp := BuildFrame(a, mem, top, f, trampoline);
  }

  lemma Words(base: nat, size: nat)
    requires base % 4096 == 0 && size % 4096 == 0 && size >= 16384
    ensures (base + size) / 16 * 2 == (base + size) / 8 >= base / 8 + 2048 && (base + size) / 8 % 2 == 0
  {
    var b := Pages(base);
    var s := Pages(size);
    InPages(base, b);
    InPages(base + size, b + s);
  }

  lemma Pages(x: nat) returns (n: nat)
    requires x % 4096 == 0
    ensures x == 4096 * n
  {
    n := x / 4096;
  }

  lemma InPages(x: nat, n: nat)
    requires x == 4096 * n
    ensures x / 16 == 256 * n && x / 8 == 512 * n && x / 8 % 2 == 0
  {
  }

  /** A call of `fw_fiber_make`: the fiber structure at word `at`, the allocator's page-aligned block at byte address
      `base`, and the arguments. Word k is at byte address 8 * k. */
  datatype Request = Request(at: nat, base: nat, requested: nat, entry: int, arg: int, link: int)

  function RegionOf(q: Request): (r: Region)
    ensures r.spAt == q.at
  {
    Region(q.base / 8, (q.base + StackSize(q.requested)) / 8, q.at)
  }

  /** The block is page-aligned and in memory, and the structure is in memory but not in the block. */
  ghost predicate Sound(q: Request, words: nat)
  {
    && q.base % 4096 == 0 && RegionOf(q).top <= words && q.at + 6 <= words
    && (q.at + 6 <= RegionOf(q).base || RegionOf(q).top <= q.at)
  }

  /** What `fw_fiber_make` leaves: the structure with all its fields, the first frame, zeros around it. */
  ghost predicate MadeAs(a: Arch, mem: seq<int>, q: Request, trampoline: int)
  {
    var r := RegionOf(q);
    var p := r.top - InitialDepth(a);
    && Fresh(a, mem, r, q.at, trampoline) && r.top % 2 == 0 && p + FrameWords(a) <= r.top
    && q.at + 6 <= |mem| && mem[q.at..q.at + 6] == [p, r.base, StackSize(q.requested), q.entry, q.arg, q.link]
    && forall k :: r.base <= k < r.top ==> p <= k < p + NumRegs(a) || mem[k] == 0
  }

  /** The words a request is given. */
  predicate Owns(q: Request, k: nat)
  {
    q.at <= k < q.at + 6 || RegionOf(q).base <= k < RegionOf(q).top
  }

  /** The frame in the block and the fields in the structure are what a made fiber consists of. */
  lemma Assembled(a: Arch, laid: seq<int>, mem: seq<int>, q: Request, sp: nat, trampoline: int)
    requires Sound(q, |laid|) && |mem| == |laid| && RegionOf(q).top % 2 == 0
    requires RegionOf(q).base <= sp == RegionOf(q).top - InitialDepth(a)
    requires laid[sp..sp + NumRegs(a)] == InitialRegs(a, q.at, trampoline)
    requires forall k :: RegionOf(q).base <= k < RegionOf(q).top ==> sp <= k < sp + NumRegs(a) || laid[k] == 0
    requires mem[q.at..q.at + 6] == [sp, RegionOf(q).base, StackSize(q.requested), q.entry, q.arg, q.link]
    requires forall k :: 0 <= k < |mem| && !(q.at <= k < q.at + 6) ==> mem[k] == laid[k]
    ensures MadeAs(a, mem, q, trampoline)
  {
    hide RegionOf, StackSize, InitialRegs;
    assert mem[q.at] == mem[q.at..q.at + 6][0] == sp;
    assert mem[sp..sp + NumRegs(a)] == laid[sp..sp + NumRegs(a)];
  }

  /** A sound request's block is whole double words, with room for the frame. */
  lemma BlockBounds(q: Request, words: nat)
    requires Sound(q, words)
    ensures (q.base + StackSize(q.requested)) / 16 * 2 == RegionOf(q).top <= words && q.base / 8 == RegionOf(q).base
    ensures RegionOf(q).top % 2 == 0 && RegionOf(q).base + 14 <= RegionOf(q).top
  {
    hide StackSize;
    var size := StackSize(q.requested);
    Words(q.base, size);
    assert RegionOf(q) == Region(q.base / 8, (q.base + size) / 8, q.at);
    hide RegionOf;
  }

  method RoundUp(requested: nat) returns (size: nat)
    ensures size == StackSize(requested)
  {
    size := if requested < 16384 then 16384 else requested;
    size := (size + 4095) / 4096 * 4096;
  }

  method FwFiberMake(a: Arch, mem: array<int>, q: Request, trampoline: int)
    requires Sound(q, mem.Length)
    modifies mem
    ensures MadeAs(a, mem[..], q, trampoline)
    ensures forall k: nat :: k < mem.Length && !Owns(q, k) ==> mem[k] == old(mem[k])
  {
    hide StackSize, MadeAs, InitialRegs, RegionOf;
    var size := RoundUp(q.requested);
    BlockBounds(q, mem.Length);
    var sp := LayOut(a, mem, q.base / 8, (q.base + size) / 16 * 2, q.at, trampoline);
    ghost var laid := mem[..];
    assert laid[sp..sp + NumRegs(a)] == InitialRegs(a, q.at, trampoline);
    SetFields(mem, q.at, [sp, q.base / 8, size, q.entry, q.arg, q.link]);
    Assembled(a, laid, mem[..], q, sp, trampoline);
  }

  /** The assignments to the fields of the structure, in order of declaration. */
  method SetFields(mem: array<int>, at: nat, fields: seq<int>)
    requires |fields| == 6 && at + 6 <= mem.Length
    modifies mem
    ensures mem[at..at + 6] == fields
    ensures forall k :: 0 <= k < mem.Length && !(at <= k < at + 6) ==> mem[k] == old(mem[k])
  {
    mem[at], mem[at + 1], mem[at + 2] := fields[0], fields[1], fields[2];
    mem[at + 3], mem[at + 4], mem[at + 5] := fields[3], fields[4], fields[5];
  }

  ghost predicate Disjoint(q1: Request, q2: Request)
  {
    forall k: nat :: Owns(q1, k) ==> !Owns(q2, k)
  }

  /** Making one fiber leaves those made before as they are. */
  lemma StaysMade(a: Arch, mem: seq<int>, mem': seq<int>, q: Request, other: Request, trampoline: int)
    requires MadeAs(a, mem, q, trampoline) && Disjoint(q, other) && |mem'| == |mem|
    requires forall k: nat :: k < |mem| && !Owns(other, k) ==> mem'[k] == mem[k]
    ensures MadeAs(a, mem', q, trampoline)
  {
    hide RegionOf, InitialRegs;
    var r := RegionOf(q);
    var p := r.top - InitialDepth(a);
    assert forall k: nat :: q.at <= k < q.at + 6 || r.base <= k < r.top ==> Owns(q, k);
    hide Owns;
    assert forall k: nat :: k < |mem| && Owns(q, k) ==> mem'[k] == mem[k];
    assert mem'[p..p + NumRegs(a)] == mem[p..p + NumRegs(a)];
    assert mem'[q.at..q.at + 6] == mem[q.at..q.at + 6];
  }

  /** The start-up loop of a dispatcher: a fiber for each request. */
  method MakeFibers(a: Arch, mem: array<int>, qs: seq<Request>, trampoline: int)
    requires forall i :: 0 <= i < |qs| ==> Sound(qs[i], mem.Length)
    requires forall i, j :: 0 <= i < |qs| && 0 <= j < |qs| && i != j ==> Disjoint(qs[i], qs[j])
    modifies mem
    ensures forall i :: 0 <= i < |qs| ==> MadeAs(a, mem[..], qs[i], trampoline)
    ensures forall k: nat :: k < mem.Length && (forall i :: 0 <= i < |qs| ==> !Owns(qs[i], k)) ==> mem[k] == old(mem[k])
  {
    hide Sound, MadeAs, Owns, Disjoint;
    for n := 0 to |qs|
      invariant forall i :: 0 <= i < n ==> MadeAs(a, mem[..], qs[i], trampoline)
      invariant forall k: nat :: k < mem.Length && (forall i :: 0 <= i < |qs| ==> !Owns(qs[i], k)) ==>
          mem[k] == old(mem[k])
    {
      ghost var before := mem[..];
      FwFiberMake(a, mem, qs[n], trampoline);
      forall i | 0 <= i < n ensures MadeAs(a, mem[..], qs[i], trampoline) {
        StaysMade(a, before, mem[..], qs[i], qs[n], trampoline);
      }
    }
  }

  function Regions(own: Region, qs: seq<Request>): (rs: seq<Region>)
    ensures |rs| == |qs| + 1 && rs[0] == own && forall i :: 0 <= i < |qs| ==> rs[i + 1] == RegionOf(qs[i])
  {
    [own] + seq(|qs|, i requires 0 <= i < |qs| => RegionOf(qs[i]))
  }

  function Addresses(qs: seq<Request>): (fs: seq<int>)
    ensures |fs| == |qs| + 1 && forall i :: 0 <= i < |qs| ==> fs[i + 1] == qs[i].at
  {
    [0] + seq(|qs|, i requires 0 <= i < |qs| => qs[i].at as int)
  }

  function FirstCtxs(a: Arch, mem: seq<int>, qs: seq<Request>, trampoline: int): (cs: seq<Ctx>)
    ensures |cs| == |qs| + 1
    ensures forall i :: 0 <= i < |qs| ==> cs[i + 1] == FirstCtx(a, mem, RegionOf(qs[i]), qs[i].at, trampoline)
  {
    [Ctx([], 0, [])]
    + seq(|qs|, i requires 0 <= i < |qs| => FirstCtx(a, mem, RegionOf(qs[i]), qs[i].at, trampoline))
  }

  /** The memory that the start-up loop leaves is one the theorems about switches start from: with the scheduler
      running on its own stack and the fibers' stacks laid out as the requests say, every fiber is ready for its
      first switch. */
  lemma {:induction false} MadeFibersStart(cfg: Config, m: Machine, qs: seq<Request>, own: Region, trampoline: int)
    requires cfg.fibers == Regions(own, qs) && Layout(cfg)
    requires |m.mem| == cfg.words && |m.regs| == NumRegs(cfg.arch) && own.base <= m.sp <= own.top
    requires forall i :: 0 <= i < |qs| ==> MadeAs(cfg.arch, m.mem, qs[i], trampoline)
    ensures var s := State(m, 0, FirstCtxs(cfg.arch, m.mem, qs, trampoline));
      Start(cfg, s, Addresses(qs), trampoline)
  {
    var s := State(m, 0, FirstCtxs(cfg.arch, m.mem, qs, trampoline));
    hide FirstCtx, RegionOf, FirstCtxs, Regions, Addresses, Fresh;
    forall i: nat | 0 < i < |cfg.fibers| ensures Made(cfg, s, i, Addresses(qs)[i], trampoline) {
      assert MadeAs(cfg.arch, m.mem, qs[i - 1], trampoline);
      assert cfg.fibers[i] == RegionOf(qs[i - 1]);
    }
  }
}
