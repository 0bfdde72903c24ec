/**
 The context switch as a transformation of registers and memory. Addresses and registers hold 64-bit words; memory is
 indexed by word. `regs` are the callee-saved registers in the order of the frame, with the return address last.
 */
module FiberSwitch {

  datatype Arch = X86 | Arm

  /** x86_64: r15 r14 r13 r12 rbx rbp and the return address. aarch64: x19 to x30, and two words of padding. */
  function NumRegs(a: Arch): nat
  {
    if a.X86? then 7 else 12
  }

  function FrameWords(a: Arch): nat
  {
    if a.X86? then 7 else 14
  }

  /** `sp` as it is in the caller, outside the call. */
  datatype Machine = Machine(regs: seq<int>, sp: int, mem: seq<int>)

  function ReturnsTo(a: Arch, regs: seq<int>): int
    requires |regs| == NumRegs(a)
  {
    regs[NumRegs(a) - 1]
  }

  /** `mem` with `words` stored from address p on. */
  function Stored(mem: seq<int>, p: nat, words: seq<int>): (r: seq<int>)
    requires p + |words| <= |mem|
    ensures |r| == |mem|
    ensures forall k: nat :: k < |mem| ==> r[k] == if p <= k < p + |words| then words[k - p] else mem[k]
  {
    mem[..p] + words + mem[p + |words|..]
  }

  ghost predicate CanSwap(a: Arch, m: Machine, saveAt: int, restore: int)
  {
    && |m.regs| == NumRegs(a) && 0 <= m.sp - FrameWords(a) && m.sp <= |m.mem|
    && 0 <= saveAt < |m.mem| && 0 <= restore && restore + FrameWords(a) <= |m.mem|
  }

  /** The whole switch: the frame goes below `sp`, its address to `saveAt`, and everything comes back from the frame
      at `restore`. */
  function Swap(a: Arch, m: Machine, saveAt: int, restore: int): (m': Machine)
    requires CanSwap(a, m, saveAt, restore)
    ensures |m'.regs| == NumRegs(a) && |m'.mem| == |m.mem|
  {
    var p := m.sp - FrameWords(a);
    var mem := Stored(m.mem, p, m.regs)[saveAt := p];
    Machine(mem[restore..restore + NumRegs(a)], restore + FrameWords(a), mem)
  }

  /** Switching out and back in: the context is restored whatever happens to memory outside its frame and its save
      slot meanwhile. */
  lemma {:induction false} SwapRoundTrip(a: Arch, m: Machine, saveAt: int, restore: int, later: Machine, saveAt': int)
    requires CanSwap(a, m, saveAt, restore) && !(m.sp - FrameWords(a) <= saveAt < m.sp)
    requires var m1 := Swap(a, m, saveAt, restore);
      |later.mem| == |m1.mem| && later.mem[saveAt] == m1.mem[saveAt]
      && forall k: nat :: m.sp - FrameWords(a) <= k < m.sp ==> later.mem[k] == m1.mem[k]
    requires CanSwap(a, later, saveAt', later.mem[saveAt])
    requires later.sp <= m.sp - FrameWords(a) || m.sp <= later.sp - FrameWords(a)
    requires !(m.sp - FrameWords(a) <= saveAt' < m.sp)
    ensures var m2 := Swap(a, later, saveAt', later.mem[saveAt]); m2.regs == m.regs && m2.sp == m.sp
  {
  }

  // ---------- Fibers with stacks of their own ----------

  /** The words [base, top) are the fiber's stack; `spAt` is where its structure keeps the saved stack pointer. */
  datatype Region = Region(base: nat, top: nat, spAt: nat)

  /** What a fiber had when it switched out: registers, stack pointer, and its stack from there to the top. */
  datatype Ctx = Ctx(regs: seq<int>, sp: int, live: seq<int>)

  datatype Config = Config(arch: Arch, words: nat, fibers: seq<Region>)

  /** `ctxs[i]` is the history: the context fiber i last parked with. */
  datatype State = State(m: Machine, cur: nat, ctxs: seq<Ctx>)

  /** The running fiber computes, changing registers, its own stack and unowned memory; or switches to another fiber. */
  datatype Label = Work(m: Machine) | Switch(to: nat)

  ghost predicate Apart(cfg: Config, i: nat, j: nat)
    requires i < |cfg.fibers| && j < |cfg.fibers|
  {
    var r, t := cfg.fibers[i], cfg.fibers[j];
    && !(t.base <= r.spAt < t.top)
    && (i != j ==> (r.top <= t.base || t.top <= r.base) && r.spAt != t.spAt)
  }

  ghost predicate Layout(cfg: Config)
  {
    && (forall i: nat :: i < |cfg.fibers| ==>
        cfg.fibers[i].base <= cfg.fibers[i].top <= cfg.words && cfg.fibers[i].spAt < cfg.words)
    && (forall i: nat, j: nat :: i < |cfg.fibers| && j < |cfg.fibers| ==> Apart(cfg, i, j))
  }

  ghost predicate Shaped(cfg: Config, s: State)
  {
    && s.cur < |cfg.fibers| == |s.ctxs| && |s.m.mem| == cfg.words && |s.m.regs| == NumRegs(cfg.arch)
    && cfg.fibers[s.cur].base <= s.m.sp <= cfg.fibers[s.cur].top
  }

  /** Memory that fiber i does not own: the other stacks and every saved stack pointer. */
  ghost predicate Foreign(cfg: Config, i: nat, k: nat)
  {
    exists j: nat :: j < |cfg.fibers|
        && (k == cfg.fibers[j].spAt || (j != i && cfg.fibers[j].base <= k < cfg.fibers[j].top))
  }

  /** What computation may do. */
  ghost predicate OwnWork(cfg: Config, s: State, m: Machine)
    requires Shaped(cfg, s)
  {
    && Shaped(cfg, s.(m := m))
    && forall k: nat :: k < cfg.words && Foreign(cfg, s.cur, k) ==> m.mem[k] == s.m.mem[k]
  }

  function Live(cfg: Config, s: State): seq<int>
    requires s.cur < |cfg.fibers| && 0 <= s.m.sp <= cfg.fibers[s.cur].top <= |s.m.mem|
  {
    s.m.mem[s.m.sp..cfg.fibers[s.cur].top]
  }

  /** Another fiber exists under that number, and there is room for a frame. */
  ghost predicate MaySwitch(cfg: Config, s: State, to: nat)
    requires Shaped(cfg, s)
  {
    to < |cfg.fibers| && to != s.cur && cfg.fibers[s.cur].base <= s.m.sp - FrameWords(cfg.arch)
  }

  /** Fiber i is parked: its frame lies in its stack under the saved pointer, and holds the context of its last
      switch. */
  ghost predicate ParkedOk(cfg: Config, s: State, i: nat)
    requires i < |cfg.fibers| == |s.ctxs| && |s.m.mem| == cfg.words && Layout(cfg)
  {
    var r, c := cfg.fibers[i], s.ctxs[i];
    var p := s.m.mem[r.spAt];
    && r.base <= p && p + FrameWords(cfg.arch) == c.sp <= r.top
    && s.m.mem[p..p + NumRegs(cfg.arch)] == c.regs && s.m.mem[c.sp..r.top] == c.live
  }

  ghost predicate Inv(cfg: Config, s: State)
  {
    Layout(cfg) && Shaped(cfg, s) && forall i: nat :: i < |cfg.fibers| && i != s.cur ==> ParkedOk(cfg, s, i)
  }

  /** `fw_fiber_switch` from the running fiber. */
  ghost function Switched(cfg: Config, s: State, to: nat): State
    requires Inv(cfg, s) && MaySwitch(cfg, s, to)
  {
    assert ParkedOk(cfg, s, to);
    State(Swap(cfg.arch, s.m, cfg.fibers[s.cur].spAt, s.m.mem[cfg.fibers[to].spAt]), to,
          s.ctxs[s.cur := Ctx(s.m.regs, s.m.sp, Live(cfg, s))])
  }

  lemma {:induction false} OutgoingParks(cfg: Config, s: State, to: nat)
    requires Inv(cfg, s) && MaySwitch(cfg, s, to)
    ensures |Switched(cfg, s, to).m.mem| == cfg.words && ParkedOk(cfg, Switched(cfg, s, to), s.cur)
  {
    assert ParkedOk(cfg, s, to) && Apart(cfg, s.cur, s.cur);
  }

  /** Fiber i is parked as long as its stack and its saved pointer are left alone. */
  lemma {:induction false} UntouchedStaysParked(cfg: Config, s: State, s': State, i: nat)
    requires Layout(cfg) && i < |cfg.fibers| == |s.ctxs| == |s'.ctxs| && |s.m.mem| == |s'.m.mem| == cfg.words
    requires ParkedOk(cfg, s, i) && s'.ctxs[i] == s.ctxs[i]
    requires s'.m.mem[cfg.fibers[i].spAt] == s.m.mem[cfg.fibers[i].spAt]
    requires forall k: nat :: cfg.fibers[i].base <= k < cfg.fibers[i].top ==> s'.m.mem[k] == s.m.mem[k]
    ensures ParkedOk(cfg, s', i)
  {
    var c, p := s.ctxs[i], s.m.mem[cfg.fibers[i].spAt];
    assert s'.m.mem[p..p + NumRegs(cfg.arch)] == s.m.mem[p..p + NumRegs(cfg.arch)];
    assert s'.m.mem[c.sp..cfg.fibers[i].top] == s.m.mem[c.sp..cfg.fibers[i].top];
  }

  lemma {:induction false} OthersStayParked(cfg: Config, s: State, to: nat, i: nat)
    requires Inv(cfg, s) && MaySwitch(cfg, s, to) && i < |cfg.fibers| && i != s.cur
    ensures |Switched(cfg, s, to).m.mem| == cfg.words && ParkedOk(cfg, Switched(cfg, s, to), i)
  {
    assert ParkedOk(cfg, s, to) && ParkedOk(cfg, s, i);
    assert Apart(cfg, s.cur, i) && Apart(cfg, i, s.cur);
    hide ParkedOk;
    UntouchedStaysParked(cfg, s, Switched(cfg, s, to), i);
  }

  /** The switch resumes exactly the context that was parked. */
  lemma {:induction false} SwitchRestores(cfg: Config, s: State, to: nat)
    requires Inv(cfg, s) && MaySwitch(cfg, s, to)
    ensures var s' := Switched(cfg, s, to);
      && s'.m.regs == s.ctxs[to].regs && s'.m.sp == s.ctxs[to].sp && s'.cur == to
      && Inv(cfg, s') && Live(cfg, s') == s.ctxs[to].live
  {
    var s' := Switched(cfg, s, to);
    OthersStayParked(cfg, s, to, to);
    assert ParkedOk(cfg, s, to);
    assert Apart(cfg, s.cur, to) && Apart(cfg, to, s.cur);
    forall i: nat | i < |cfg.fibers| && i != to ensures ParkedOk(cfg, s', i) {
      if i == s.cur {
        OutgoingParks(cfg, s, to);
      } else {
        OthersStayParked(cfg, s, to, i);
      }
    }
  }

  ghost function Step(cfg: Config, s: State, l: Label): State
    requires Inv(cfg, s)
  {
    match l
    case Work(m) => if OwnWork(cfg, s, m) then s.(m := m) else s
    case Switch(to) => if MaySwitch(cfg, s, to) then Switched(cfg, s, to) else s
  }

  lemma {:induction false} WorkKeeps(cfg: Config, s: State, m: Machine)
    requires Inv(cfg, s) && OwnWork(cfg, s, m)
    ensures Inv(cfg, s.(m := m))
  {
    var s' := s.(m := m);
    forall i: nat | i < |cfg.fibers| && i != s.cur ensures ParkedOk(cfg, s', i) {
      assert ParkedOk(cfg, s, i);
      assert Foreign(cfg, s.cur, cfg.fibers[i].spAt);
      assert forall k: nat :: cfg.fibers[i].base <= k < cfg.fibers[i].top ==> Foreign(cfg, s.cur, k);
      UntouchedStaysParked(cfg, s, s', i);
    }
  }

  lemma {:induction false} StepKeeps(cfg: Config, s: State, l: Label)
    requires Inv(cfg, s)
    ensures Inv(cfg, Step(cfg, s, l))
  {
    match l
    case Work(m) => if OwnWork(cfg, s, m) { WorkKeeps(cfg, s, m); }
    case Switch(to) => if MaySwitch(cfg, s, to) { SwitchRestores(cfg, s, to); }
  }

  ghost function Exec(cfg: Config, s: State, labels: seq<Label>): (s': State)
    requires Inv(cfg, s)
    ensures Inv(cfg, s')
    decreases |labels|
  {
    if |labels| == 0 then s
    else
      var front := Exec(cfg, s, labels[..|labels| - 1]);
      StepKeeps(cfg, front, labels[|labels| - 1]);
      Step(cfg, front, labels[|labels| - 1])
  }

  // ---------- New fibers ----------

  /** `fw_fiber_make`'s stack size in bytes: at least 16384, rounded up to whole pages. */
  function StackSize(requested: nat): (size: nat)
    ensures size % 4096 == 0 && size >= 16384 && size >= requested
    ensures size < 4096 + if requested < 16384 then 16384 else requested
  {
    var n := if requested < 16384 then 16384 else requested;
    (n + 4095) / 4096 * 4096
  }

  /** The frame that makes the first switch "return" into the trampoline with the fiber's address in the first slot. */
  function InitialRegs(a: Arch, f: int, trampoline: int): (regs: seq<int>)
    ensures |regs| == NumRegs(a) && ReturnsTo(a, regs) == trampoline && regs[0] == f
  {
    [f] + seq(NumRegs(a) - 2, _ => 0) + [trampoline]
  }

  /** Words between the saved stack pointer and the top: on x86_64 one of slack besides the frame. */
  function InitialDepth(a: Arch): nat
  {
    if a.X86? then 8 else 14
  }

  /** Memory holds the first frame of a fiber under its saved stack pointer. */
  ghost predicate Fresh(a: Arch, mem: seq<int>, r: Region, f: int, trampoline: int)
  {
    var p := r.top - InitialDepth(a);
    && r.base <= p && r.top <= |mem| && r.spAt < |mem| && mem[r.spAt] == p
    && mem[p..p + NumRegs(a)] == InitialRegs(a, f, trampoline)
  }

  /** The context it starts with. */
  function FirstCtx(a: Arch, mem: seq<int>, r: Region, f: int, trampoline: int): Ctx
  {
    var p := r.top - InitialDepth(a) + FrameWords(a);
    Ctx(InitialRegs(a, f, trampoline), p, if 0 <= p && r.top <= |mem| then mem[p..r.top] else [])
  }

  ghost predicate Made(cfg: Config, s: State, i: nat, f: int, trampoline: int)
    requires i < |cfg.fibers| == |s.ctxs| && |s.m.mem| == cfg.words && Layout(cfg)
  {
    Fresh(cfg.arch, s.m.mem, cfg.fibers[i], f, trampoline)
    && s.ctxs[i] == FirstCtx(cfg.arch, s.m.mem, cfg.fibers[i], f, trampoline)
  }

  /** Fiber 0 is the scheduler, running on the thread's own stack; the others have just been made. `fs[i]` is fiber
      i's address. */
  ghost predicate Start(cfg: Config, s: State, fs: seq<int>, trampoline: int)
  {
    && Layout(cfg) && Shaped(cfg, s) && s.cur == 0 && |fs| == |cfg.fibers|
    && forall i: nat :: 0 < i < |cfg.fibers| ==> Made(cfg, s, i, fs[i], trampoline)
  }

  lemma {:induction false} StartOk(cfg: Config, s: State, fs: seq<int>, trampoline: int)
    requires Start(cfg, s, fs, trampoline)
    ensures Inv(cfg, s)
  {
    forall i: nat | i < |cfg.fibers| && i != s.cur ensures ParkedOk(cfg, s, i) {
      assert Made(cfg, s, i, fs[i], trampoline);
    }
  }

  // ---------- Theorems: for every sequence of switches ----------

  /** The position of the last switch away from fiber i, or -1: when the context it is parked with was made. */
  ghost predicate LastLeft(cfg: Config, s: State, labels: seq<Label>, i: nat, n: int)
    requires Inv(cfg, s)
  {
    && -1 <= n < |labels|
    && (n >= 0 ==> Leaves(cfg, s, labels, i, n))
    && forall k :: n < k < |labels| ==> !Leaves(cfg, s, labels, i, k)
  }

  ghost predicate Leaves(cfg: Config, s: State, labels: seq<Label>, i: nat, k: int)
    requires Inv(cfg, s) && 0 <= k < |labels|
  {
    var before := Exec(cfg, s, labels[..k]);
    before.cur == i && labels[k].Switch? && MaySwitch(cfg, before, labels[k].to)
  }

  lemma {:induction false} LeavesInPrefix(cfg: Config, s: State, labels: seq<Label>, i: nat, k: nat)
    requires Inv(cfg, s) && k < |labels| - 1
    ensures Leaves(cfg, s, labels[..|labels| - 1], i, k) == Leaves(cfg, s, labels, i, k)
  {
    assert labels[..|labels| - 1][..k] == labels[..k];
  }

  lemma {:induction false} StepContext(cfg: Config, s: State, l: Label, i: nat)
    requires Inv(cfg, s) && i < |cfg.fibers|
    ensures Step(cfg, s, l).ctxs[i] ==
      if s.cur == i && l.Switch? && MaySwitch(cfg, s, l.to) then Ctx(s.m.regs, s.m.sp, Live(cfg, s)) else s.ctxs[i]
  {
  }

  lemma {:induction false} LastLeftInPrefix(cfg: Config, s: State, labels: seq<Label>, i: nat, n: int)
    requires Inv(cfg, s) && |labels| > 0 && LastLeft(cfg, s, labels, i, n) && n < |labels| - 1
    ensures LastLeft(cfg, s, labels[..|labels| - 1], i, n)
  {
    hide Leaves;
    var front := labels[..|labels| - 1];
    forall k: int | 0 <= k < |front| ensures Leaves(cfg, s, front, i, k) == Leaves(cfg, s, labels, i, k) {
      LeavesInPrefix(cfg, s, labels, i, k);
    }
    assert n >= 0 ==> Leaves(cfg, s, front, i, n);
    assert forall k :: n < k < |front| ==> !Leaves(cfg, s, front, i, k);
  }

  /** `ctxs` records what its name says: the context at the last switch away, or the initial one. */
  lemma {:induction false} ContextIsFromLastSwitch(cfg: Config, s: State, labels: seq<Label>, i: nat, n: int)
    requires Inv(cfg, s) && i < |cfg.fibers| && LastLeft(cfg, s, labels, i, n)
    ensures Exec(cfg, s, labels).ctxs[i] ==
      if n < 0 then s.ctxs[i]
      else var past := Exec(cfg, s, labels[..n]); Ctx(past.m.regs, past.m.sp, Live(cfg, past))
    decreases |labels|
  {
    if |labels| > 0 {
      var last := |labels| - 1;
      var front := labels[..last];
      hide Step, Inv, Live, MaySwitch;
      StepContext(cfg, Exec(cfg, s, front), labels[last], i);
      assert Leaves(cfg, s, labels, i, last) <==> n == last;
      if n < last {
        LastLeftInPrefix(cfg, s, labels, i, n);
        hide Leaves, LastLeft;
        ContextIsFromLastSwitch(cfg, s, front, i, n);
        assert n >= 0 ==> front[..n] == labels[..n];
      }
    }
  }

  lemma {:induction false} NeverLeftIsRunning(cfg: Config, s: State, labels: seq<Label>)
    requires Inv(cfg, s) && forall k :: 0 <= k < |labels| ==> !Leaves(cfg, s, labels, s.cur, k)
    ensures Exec(cfg, s, labels).cur == s.cur
    decreases |labels|
  {
    if |labels| > 0 {
      var last := |labels| - 1;
      var front := labels[..last];
      forall k | 0 <= k < last ensures !Leaves(cfg, s, front, s.cur, k) {
        assert front[..k] == labels[..k];
        assert !Leaves(cfg, s, labels, s.cur, k);
      }
      NeverLeftIsRunning(cfg, s, front);
      assert !Leaves(cfg, s, labels, s.cur, last);
    }
  }

  /** After any run, switching to a parked fiber gives it the registers, return address, stack pointer and live stack
      it had when it last switched out; a fiber that never ran arrives in the trampoline with its own address. */
  lemma {:induction false} ResumesWhereItLeft(cfg: Config, s: State, fs: seq<int>,
      trampoline: int, labels: seq<Label>, to: nat, n: int)
    requires Start(cfg, s, fs, trampoline)
    ensures Inv(cfg, s)
    ensures var now := Exec(cfg, s, labels);
      MaySwitch(cfg, now, to) && LastLeft(cfg, s, labels, to, n) ==>
        var m' := Switched(cfg, now, to).m;
        if n < 0 then
          && m'.regs == InitialRegs(cfg.arch, fs[to], trampoline)
          && ReturnsTo(cfg.arch, m'.regs) == trampoline && m'.regs[0] == fs[to]
          && m'.sp == cfg.fibers[to].top - InitialDepth(cfg.arch) + FrameWords(cfg.arch)
        else
          var past := Exec(cfg, s, labels[..n]);
          m'.regs == past.m.regs && m'.sp == past.m.sp && Live(cfg, Switched(cfg, now, to)) == Live(cfg, past)
  {
    StartOk(cfg, s, fs, trampoline);
    var now := Exec(cfg, s, labels);
    if MaySwitch(cfg, now, to) && LastLeft(cfg, s, labels, to, n) {
      SwitchRestores(cfg, now, to);
      ContextIsFromLastSwitch(cfg, s, labels, to, n);
      if n < 0 {
        if to == 0 {
          NeverLeftIsRunning(cfg, s, labels);
        }
        assert Made(cfg, s, to, fs[to], trampoline);
      }
    }
  }
}
