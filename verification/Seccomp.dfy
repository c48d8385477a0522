/**
 The seccomp filter as a compiler: a list of blocked system calls becomes a program of
 BPF instructions.  The interpreter gives such a program its meaning; the theorems say
 which calls the generated program kills, for a list of any length.
 */
module Seccomp {

  const BPF_LD := 0x00
  const BPF_W := 0x00
  const BPF_ABS := 0x20
  const BPF_JMP := 0x05
  const BPF_JEQ := 0x10
  const BPF_K := 0x00
  const BPF_RET := 0x06

  // The bits of these opcodes are disjoint, so that a sum is what the source's `|` gives.
  const LOAD_ABSOLUTE := BPF_LD + BPF_W + BPF_ABS
  const JUMP_IF_EQUAL := BPF_JMP + BPF_JEQ + BPF_K
  const RETURN := BPF_RET + BPF_K

  const SECCOMP_RET_ALLOW := 0x7FFF0000
  const SECCOMP_RET_KILL_PROCESS := 0x80000000

  const AUDIT_ARCH_X86_64 := 0xC000003E

  const SECCOMP_DATA_NR_OFFSET := 0
  const SECCOMP_DATA_ARCH_OFFSET := 4

  const BLOCKED_SYSCALLS_X86_64 := [
    175, 313, 176, 246, 320, 169, 163, 167, 168, 227, 164, 159,
    248, 249, 250, 321, 166, 165, 272, 308, 135, 101, 323]

  newtype u8 = x: int | 0 <= x < 0x100
  newtype u16 = x: int | 0 <= x < 0x1_0000
  newtype u32 = x: int | 0 <= x < 0x1_0000_0000

  /** The fields keep what fits their widths. */
  datatype Instruction = Instruction(code: u16, jt: u8, jf: u8, k: u32)

  function Low8(x: int): u8 { (x % 0x100) as u8 }

  function Low16(x: int): u16 { (x % 0x1_0000) as u16 }

  function Low32(x: int): u32 { (x % 0x1_0000_0000) as u32 }

  function Stmt(code: int, k: int): Instruction { Instruction(Low16(code), 0, 0, Low32(k)) }

  function Jump(code: int, k: int, jt: int, jf: int): Instruction {
    Instruction(Low16(code), Low8(jt), Low8(jf), Low32(k))
  }

  // ---- The machine that runs a program -------------------------------------

  datatype SyscallData = SyscallData(nr: u32, arch: u32)

  /** How a program ends: with a value after some steps, or by doing what no filter may do. */
  datatype Verdict = Returned(value: u32, steps: nat) | Fault

  function Later(v: Verdict): Verdict { if v.Returned? then v.(steps := v.steps + 1) else v }

  function Load(data: SyscallData, offset: u32): Verdict {
    if offset as int == SECCOMP_DATA_NR_OFFSET then Returned(data.nr, 0)
    else if offset as int == SECCOMP_DATA_ARCH_OFFSET then Returned(data.arch, 0)
    else Fault
  }

  /** Every instruction moves forward, so every program ends. */
  function Run(program: seq<Instruction>, data: SyscallData, pc: nat, acc: u32): Verdict
    decreases |program| - pc
  {
    if pc >= |program| then Fault
    else
      var i := program[pc];
      if i.code as int == LOAD_ABSOLUTE then
        var loaded := Load(data, i.k);
        if loaded.Returned? then Later(Run(program, data, pc + 1, loaded.value)) else Fault
      else if i.code as int == JUMP_IF_EQUAL then
        Later(Run(program, data, pc + 1 + (if acc == i.k then i.jt else i.jf) as nat, acc))
      else if i.code as int == RETURN then Returned(i.k, 1)
      else Fault
  }

  // ---- The compiler --------------------------------------------------------

  function Prologue(): seq<Instruction> {
    [Stmt(LOAD_ABSOLUTE, SECCOMP_DATA_ARCH_OFFSET),
     Jump(JUMP_IF_EQUAL, AUDIT_ARCH_X86_64, 1, 0),
     Stmt(RETURN, SECCOMP_RET_KILL_PROCESS),
     Stmt(LOAD_ABSOLUTE, SECCOMP_DATA_NR_OFFSET)]
  }

  function Epilogue(): seq<Instruction> {
    [Stmt(RETURN, SECCOMP_RET_ALLOW), Stmt(RETURN, SECCOMP_RET_KILL_PROCESS)]
  }

  /** The comparison with entry `i` jumps, when it succeeds, over the rest and the ALLOW. */
  function Check(blocked: seq<int>, i: nat): Instruction
    requires i < |blocked|
  {
    Jump(JUMP_IF_EQUAL, blocked[i], |blocked| - i, 0)
  }

  function FilterFor(blocked: seq<int>): seq<Instruction> {
    Prologue() + seq(|blocked|, i requires 0 <= i < |blocked| => Check(blocked, i)) + Epilogue()
  }

  method BuildFilter(blocked: seq<int>) returns (program: seq<Instruction>)
    ensures program == FilterFor(blocked)
    ensures forall data :: Kills(program, data) <==> data.arch as int != AUDIT_ARCH_X86_64 || Watched(blocked, data.nr)
    ensures forall data :: Kills(program, data) || Allows(program, data)
  {
    program := [];
    program := program + [Stmt(LOAD_ABSOLUTE, SECCOMP_DATA_ARCH_OFFSET)];
    program := program + [Jump(JUMP_IF_EQUAL, AUDIT_ARCH_X86_64, 1, 0)];
    program := program + [Stmt(RETURN, SECCOMP_RET_KILL_PROCESS)];
    program := program + [Stmt(LOAD_ABSOLUTE, SECCOMP_DATA_NR_OFFSET)];
    var numBlocked := |blocked|;
    for i := 0 to numBlocked
      invariant program == Prologue() + seq(i, j requires 0 <= j < i => Check(blocked, j))
    {
      var remaining := numBlocked - i - 1;
      program := program + [Jump(JUMP_IF_EQUAL, blocked[i], remaining + 1, 0)];
    }
    program := program + [Stmt(RETURN, SECCOMP_RET_ALLOW)];
    program := program + [Stmt(RETURN, SECCOMP_RET_KILL_PROCESS)];
    assert program == FilterFor(blocked);
    hide FilterFor, Kills, Allows, Watched;
    forall data
      ensures Kills(program, data) <==> data.arch as int != AUDIT_ARCH_X86_64 || Watched(blocked, data.nr)
      ensures Kills(program, data) || Allows(program, data)
    {
      FilterMeaning(blocked, data);
    }
  }

  // ---- What a generated program means --------------------------------------

  predicate Kills(program: seq<Instruction>, data: SyscallData) {
    var v := Run(program, data, 0, 0);
    v.Returned? && v.value as int == SECCOMP_RET_KILL_PROCESS
  }

  predicate Allows(program: seq<Instruction>, data: SyscallData) {
    var v := Run(program, data, 0, 0);
    v.Returned? && v.value as int == SECCOMP_RET_ALLOW
  }

  predicate ListedFrom(blocked: seq<int>, from: nat, nr: u32) {
    exists i :: from <= i < |blocked| && Low32(blocked[i]) == nr
  }

  predicate Listed(blocked: seq<int>, nr: u32) { ListedFrom(blocked, 0, nr) }

  /** A jump offset has eight bits: only the last 255 entries are reached for sure. */
  function FirstWatched(blocked: seq<int>): nat { if |blocked| <= 255 then 0 else |blocked| - 255 }

  predicate Watched(blocked: seq<int>, nr: u32) { ListedFrom(blocked, FirstWatched(blocked), nr) }

  function Larger(a: nat, b: nat): nat { if a >= b then a else b }

  lemma Layout(blocked: seq<int>)
    ensures var program := FilterFor(blocked);
      && |program| == |blocked| + 6
      && (forall i :: 0 <= i < 4 ==> program[i] == Prologue()[i])
      && (forall i :: 0 <= i < |blocked| ==> program[4 + i] == Check(blocked, i))
      && program[4 + |blocked|] == Epilogue()[0] && program[5 + |blocked|] == Epilogue()[1]
  {
  }

  lemma CheckRuns(blocked: seq<int>, i: nat, data: SyscallData)
    requires i < |blocked|
    ensures var program := FilterFor(blocked);
      Run(program, data, 4 + i, data.nr)
      == Later(Run(program, data, 4 + AfterCheck(blocked, i, data.nr), data.nr))
  {
    Layout(blocked);
    hide FilterFor;
    var check := FilterFor(blocked)[4 + i];
    assert check == Check(blocked, i);
    assert check.code as int == JUMP_IF_EQUAL && check.k == Low32(blocked[i]);
    assert check.jt as nat == (|blocked| - i) % 0x100 && check.jf as nat == 0;
  }

  lemma EndRuns(blocked: seq<int>, data: SyscallData, acc: u32)
    ensures Run(FilterFor(blocked), data, 4 + |blocked|, acc) == Returned(SECCOMP_RET_ALLOW as u32, 1)
    ensures Run(FilterFor(blocked), data, 5 + |blocked|, acc) == Returned(SECCOMP_RET_KILL_PROCESS as u32, 1)
  {
    Layout(blocked);
  }

  /** The entry compared with after entry `i`; behind the last are the ALLOW and the KILL. */
  function AfterCheck(blocked: seq<int>, i: nat, nr: u32): nat
    requires i < |blocked|
  {
    if nr == Low32(blocked[i]) then i + 1 + (|blocked| - i) % 0x100 else i + 1
  }

  /** From the comparison with entry `i` on. */
  lemma {:induction false} ChecksMean(blocked: seq<int>, i: nat, data: SyscallData)
    requires i <= |blocked|
    ensures var v := Run(FilterFor(blocked), data, 4 + i, data.nr);
      && v.Returned? && v.steps <= |blocked| - i + 1
      && v.value as int == (if ListedFrom(blocked, Larger(i, FirstWatched(blocked)), data.nr)
                            then SECCOMP_RET_KILL_PROCESS else SECCOMP_RET_ALLOW)
    decreases |blocked| - i
  {
    hide FilterFor, Run;
    var n := |blocked|;
    EndRuns(blocked, data, data.nr);
    if i < n {
      CheckRuns(blocked, i, data);
      var target := AfterCheck(blocked, i, data.nr);
      if target <= n {
        Rejoins(blocked, i, data.nr);
        ChecksMean(blocked, target, data);
      } else {
        assert ListedFrom(blocked, Larger(i, FirstWatched(blocked)), data.nr);
      }
    } else {
      assert !ListedFrom(blocked, n, data.nr);
    }
  }

  /** Where a comparison may continue, the same entries remain to be watched for. */
  lemma Rejoins(blocked: seq<int>, i: nat, nr: u32)
    requires i < |blocked|
    ensures var n := |blocked|;
      var first := FirstWatched(blocked);
      var target := AfterCheck(blocked, i, nr);
      target <= n ==>
        (ListedFrom(blocked, Larger(target, first), nr) <==> ListedFrom(blocked, Larger(i, first), nr))
  {
    var n := |blocked|;
    var first := FirstWatched(blocked);
    if nr == Low32(blocked[i]) && i + 1 + (n - i) % 0x100 <= n {
      assert n - i > 255;
      assert i + 1 + (n - i) % 0x100 <= first;
    }
  }

  /**
   The generated program kills exactly the foreign architectures and the calls among
   the last 255 entries, allows all else, and ends within four steps more than entries.
   */
  lemma FilterMeaning(blocked: seq<int>, data: SyscallData)
    ensures var v := Run(FilterFor(blocked), data, 0, 0);
      && v.Returned? && v.steps <= |blocked| + 4
      && v.value as int == (if data.arch as int != AUDIT_ARCH_X86_64 || Watched(blocked, data.nr)
                            then SECCOMP_RET_KILL_PROCESS else SECCOMP_RET_ALLOW)
    ensures Kills(FilterFor(blocked), data) <==> data.arch as int != AUDIT_ARCH_X86_64 || Watched(blocked, data.nr)
    ensures Kills(FilterFor(blocked), data) || Allows(FilterFor(blocked), data)
  {
    PrologueRuns(blocked, data);
    hide Run, FilterFor;
    ChecksMean(blocked, 0, data);
  }

  lemma PrologueRuns(blocked: seq<int>, data: SyscallData)
    ensures var program := FilterFor(blocked);
      Run(program, data, 0, 0)
      == if data.arch as int == AUDIT_ARCH_X86_64
         then Later(Later(Later(Run(program, data, 4, data.nr))))
         else Returned(SECCOMP_RET_KILL_PROCESS as u32, 3)
  {
    Layout(blocked);
    hide FilterFor;
    var program := FilterFor(blocked);
    assert Run(program, data, 3, data.arch) == Later(Run(program, data, 4, data.nr));
    assert Run(program, data, 2, data.arch) == Returned(SECCOMP_RET_KILL_PROCESS as u32, 1);
    assert Run(program, data, 0, 0) == Later(Run(program, data, 1, data.arch));
  }

  /** Every jump is forward and lands inside the program, whatever the length of the list. */
  lemma JumpsInside(blocked: seq<int>, pc: nat)
    requires pc < |FilterFor(blocked)|
    ensures var i := FilterFor(blocked)[pc];
      i.code as int == JUMP_IF_EQUAL ==>
        && pc < pc + 1 + i.jt as nat < |FilterFor(blocked)|
        && pc < pc + 1 + i.jf as nat < |FilterFor(blocked)|
  {
    var program := FilterFor(blocked);
    var n := |blocked|;
    Layout(blocked);
    hide FilterFor;
    if 4 <= pc < 4 + n {
      assert program[4 + (pc - 4)] == Check(blocked, pc - 4);
    }
  }

  /** The program blocks exactly the list if and only if every entry occurs among the last 255. */
  lemma BlocksTheListIff(blocked: seq<int>)
    ensures (forall nr :: Kills(FilterFor(blocked), SyscallData(nr, AUDIT_ARCH_X86_64 as u32)) <==> Listed(blocked, nr))
       <==> (forall i :: 0 <= i < FirstWatched(blocked) ==> Watched(blocked, Low32(blocked[i])))
  {
    var arch := AUDIT_ARCH_X86_64 as u32;
    forall nr ensures Kills(FilterFor(blocked), SyscallData(nr, arch)) <==> Watched(blocked, nr) {
      FilterMeaning(blocked, SyscallData(nr, arch));
    }
    hide Kills, FilterFor;
    if forall i :: 0 <= i < FirstWatched(blocked) ==> Watched(blocked, Low32(blocked[i])) {
      forall nr ensures Watched(blocked, nr) <==> Listed(blocked, nr) {
        if Listed(blocked, nr) {
          var i :| 0 <= i < |blocked| && Low32(blocked[i]) == nr;
          assert i < FirstWatched(blocked) ==> Watched(blocked, Low32(blocked[i]));
        }
      }
    } else {
      var i :| 0 <= i < FirstWatched(blocked) && !Watched(blocked, Low32(blocked[i]));
      assert Listed(blocked, Low32(blocked[i]));
    }
  }

  lemma ShortListsAreBlocked(blocked: seq<int>, data: SyscallData)
    requires |blocked| <= 255
    ensures Kills(FilterFor(blocked), data) <==> data.arch as int != AUDIT_ARCH_X86_64 || Listed(blocked, data.nr)
    ensures Allows(FilterFor(blocked), data) <==> data.arch as int == AUDIT_ARCH_X86_64 && !Listed(blocked, data.nr)
  {
    FilterMeaning(blocked, data);
  }

  /** With 256 entries the first is no longer blocked. */
  lemma TheBoundIsTight()
    ensures var blocked := seq(256, i => i);
      (Listed(blocked, 0), Allows(FilterFor(blocked), SyscallData(0, AUDIT_ARCH_X86_64 as u32))) == (true, true)
  {
    var blocked: seq<int> := seq(256, i => i);
    assert Low32(blocked[0]) == 0;
    FilterMeaning(blocked, SyscallData(0, AUDIT_ARCH_X86_64 as u32));
    assert !Watched(blocked, 0);
  }

  /** The list the engine ships: a call is killed exactly when it is one of the 23 numbers. */
  lemma ShippedFilter(data: SyscallData)
    ensures Kills(FilterFor(BLOCKED_SYSCALLS_X86_64), data) <==>
      data.arch as int != AUDIT_ARCH_X86_64 || data.nr as int in BLOCKED_SYSCALLS_X86_64
  {
    var blocked := BLOCKED_SYSCALLS_X86_64;
    ShortListsAreBlocked(blocked, data);
    hide Kills;
    assert forall i :: 0 <= i < |blocked| ==> Low32(blocked[i]) as int == blocked[i];
    if Listed(blocked, data.nr) {
      var i :| 0 <= i < |blocked| && Low32(blocked[i]) == data.nr;
      assert blocked[i] in blocked;
    }
    if data.nr as int in blocked {
      var i :| 0 <= i < |blocked| && blocked[i] == data.nr as int;
      assert Low32(blocked[i]) == data.nr;
    }
  }
}
