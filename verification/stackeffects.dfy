/**
  What the emitted blocks do when the Hack machine runs them: the stack pointer SP, the
  stack cells and the segment cells before and after each push, pop, add and sub block.
  The stack grows upwards from the address SP holds; `sp` below always names that address
  before the block runs.
 */
module StackEffects {
  import opened Options
  import opened JavaStrings
  import opened Hack
  import opened Parser

  /* ---------------- segments and indices ---------------- */

  /** The segments whose cell i sits at base + i, the base held in a register. */
  predicate HasBase(segment: string) {
    segment in {"local", "argument", "this", "that"}
  }

  function BaseRegister(segment: string): (r: Word)
    requires HasBase(segment)
    ensures r in {LCL, ARG, THIS, THAT}
  {
    if segment == "local" then LCL
    else if segment == "argument" then ARG
    else if segment == "this" then THIS
    else THAT
  }

  /** An index the emitted `@i` loads as a constant: a numeral no larger than 32767. */
  predicate IsIndex(i: string) {
    IsNumeral(i) && ParseDecimal(i) <= MaxConstant
  }

  /** The static symbol `filename.i` of `push static i` and `pop static i`. */
  function StaticName(i: string, filename: string): (r: string)
    ensures '.' in r
  {
    var r := filename + "." + i;
    assert r[|filename|] == '.';
    r
  }

  /** The `@` line of a static segment names the static symbol. */
  lemma StaticLine(i: string, filename: string)
    ensures "@" + filename + "." + i == "@" + StaticName(i, filename)
  {
  }

  /** Two machines agree on every memory cell outside `cells`. */
  predicate SameExcept(m1: Machine, m2: Machine, cells: set<Word>) {
    forall x: Word :: x !in cells ==> Rd(m1, x) == Rd(m2, x)
  }

  /** The base register of each segment is the one the emitted `@` line names. */
  lemma BaseLoadEffect(segment: string, i: string, m: Machine, table: map<string, Word>)
    requires HasBase(segment)
    ensures Run(BaseLoad(segment, i), m, table) == Some(m.(a := BaseRegister(segment)))
  {
    var m1 := m.(a := BaseRegister(segment));
    if segment == "local" {
      assert BaseLoad(segment, i) == ["@LCL"];
      StepAtLCL(m, table);
      Run1("@LCL", m, m1, table);
    } else if segment == "argument" {
      assert BaseLoad(segment, i) == ["@ARG"];
      StepAtARG(m, table);
      Run1("@ARG", m, m1, table);
    } else if segment == "this" {
      assert BaseLoad(segment, i) == ["@THIS"];
      StepAtTHIS(m, table);
      Run1("@THIS", m, m1, table);
    } else {
      assert BaseLoad(segment, i) == ["@THAT"];
      StepAtTHAT(m, table);
      Run1("@THAT", m, m1, table);
    }
  }

  /** `@` and the temp address of a signed index i loads 5 + i whenever that sum is an
      address: `-1` selects THAT, `-5` selects SP itself, `+3` selects 8. */
  lemma SignedTempLineEffect(i: string, m: Machine, table: map<string, Word>)
    requires ParseInt(i).Some? && 0 <= 5 + ParseInt(i).value <= MaxConstant
    ensures Step("@" + TempAddress(i), m, table) == Some(m.(a := 5 + ParseInt(i).value))
  {
    var n := 5 + ParseInt(i).value;
    assert Wrap32(n) == n;
    assert TempAddress(i) == NatToString(n);
    ParseNatToString(n);
    AtNumeral(NatToString(n), m, table);
  }

  /** `@` and the temp address of an unsigned index i loads 5 + i. */
  lemma TempLineEffect(i: string, m: Machine, table: map<string, Word>)
    requires IsNumeral(i) && 5 + ParseDecimal(i) <= MaxConstant
    ensures ParseInt(i).Some?
    ensures Step("@" + TempAddress(i), m, table) == Some(m.(a := 5 + ParseDecimal(i)))
  {
    assert ParseInt(i) == Some(ParseDecimal(i));
    SignedTempLineEffect(i, m, table);
  }

  /* ---------------- fragments ---------------- */

  /** The push-D lines store D at the top of the stack and raise SP by one. */
  lemma PushDEffect(m: Machine, table: map<string, Word>)
    ensures Run(PushDLines, m, table)
         == Some(Machine(Rd(m, SP), m.d, m.mem[SP := Inc(Rd(m, SP))][Rd(m, SP) := m.d]))
  {
    var sp := Rd(m, SP);
    var m1 := m.(a := SP);
    var m2 := Machine(Inc(sp), m.d, m.mem[SP := Inc(sp)]);
    var m3 := m2.(a := sp);
    var m4 := m3.(mem := m3.mem[sp := m.d]);
    StepAtSP(m, table);
    StepIncrementM(m1, table);
    assert Dec(Inc(sp)) == sp;
    StepDecrementA(m2, table);
    StepStoreD(m3, table);
    Run4("@SP", "AM=M+1", "A=A-1", "M=D", m, m1, m2, m3, m4, table);
  }

  /** The pop-D lines lower SP by one and load the cell it now points at into D. */
  lemma PopDEffect(m: Machine, table: map<string, Word>)
    requires Dec(Rd(m, SP)) != SP
    ensures Run(PopDLines, m, table)
         == Some(Machine(Dec(Rd(m, SP)), Rd(m, Dec(Rd(m, SP))), m.mem[SP := Dec(Rd(m, SP))]))
  {
    var sp := Rd(m, SP);
    var m1 := m.(a := SP);
    var m2 := Machine(Dec(sp), m.d, m.mem[SP := Dec(sp)]);
    var m3 := m2.(d := Rd(m, Dec(sp)));
    StepAtSP(m, table);
    StepDecrementM(m1, table);
    StepLoadDFromM(m2, table);
    Run3("@SP", "AM=M-1", "D=M", m, m1, m2, m3, table);
  }

  /** `@i` then `D=A` loads the index into D. */
  lemma LoadIndexEffect(i: string, m: Machine, table: map<string, Word>)
    requires IsIndex(i)
    ensures Run(["@" + i, "D=A"], m, table)
         == Some(m.(a := ParseDecimal(i), d := ParseDecimal(i)))
  {
    var m1 := m.(a := ParseDecimal(i));
    AtNumeral(i, m, table);
    StepLoadDFromA(m1, table);
    Run2("@" + i, "D=A", m, m1, m1.(d := ParseDecimal(i)), table);
  }

  /** A line that addresses a cell, then `D=M`, loads that cell into D. */
  lemma LoadCellEffect(line: string, addr: Word, m: Machine, table: map<string, Word>)
    requires Step(line, m, table) == Some(m.(a := addr))
    ensures Run([line, "D=M"], m, table) == Some(m.(a := addr, d := Rd(m, addr)))
  {
    StepLoadDFromM(m.(a := addr), table);
    Run2(line, "D=M", m, m.(a := addr), m.(a := addr, d := Rd(m, addr)), table);
  }

  /** A line that addresses a cell, then `M=D`, stores D into that cell. */
  lemma StoreCellEffect(line: string, addr: Word, m: Machine, table: map<string, Word>)
    requires Step(line, m, table) == Some(m.(a := addr))
    ensures Run([line, "M=D"], m, table) == Some(m.(a := addr, mem := m.mem[addr := m.d]))
  {
    StepStoreD(m.(a := addr), table);
    Run2(line, "M=D", m, m.(a := addr), m.(a := addr, mem := m.mem[addr := m.d]), table);
  }

  /** The generic push tail: with a base address in the cell A points at, load the cell at
      base + i into D. */
  lemma PushTailEffect(i: string, m: Machine, table: map<string, Word>)
    requires IsIndex(i)
    ensures var addr := Add16(Rd(m, m.a), ParseDecimal(i));
            Run(["D=M", "@" + i, "A=D+A", "D=M"], m, table) == Some(m.(a := addr, d := Rd(m, addr)))
  {
    var base := Rd(m, m.a);
    var addr := Add16(base, ParseDecimal(i));
    var m1 := m.(d := base);
    var m2 := m1.(a := ParseDecimal(i));
    var m3 := m2.(a := addr);
    StepLoadDFromM(m, table);
    AtNumeral(i, m1, table);
    StepAddressDPlusA(m2, table);
    StepLoadDFromM(m3, table);
    Run4("D=M", "@" + i, "A=D+A", "D=M", m, m1, m2, m3, m3.(d := Rd(m, addr)), table);
  }

  /** The first half of the generic pop tail: with a base address in the cell A points at,
      store base + i into R13. */
  lemma PopAddressEffect(i: string, m: Machine, table: map<string, Word>)
    requires IsIndex(i)
    ensures var addr := Add16(Rd(m, m.a), ParseDecimal(i));
            Run(["D=M", "@" + i, "D=D+A", "@R13", "M=D"], m, table)
              == Some(Machine(R13, addr, m.mem[R13 := addr]))
  {
    var base := Rd(m, m.a);
    var addr := Add16(base, ParseDecimal(i));
    var m1 := m.(d := base);
    var m2 := m1.(a := ParseDecimal(i));
    var m3 := m2.(d := addr);
    var m4 := m3.(a := R13);
    StepLoadDFromM(m, table);
    AtNumeral(i, m1, table);
    StepAddDPlusA(m2, table);
    StepAtR13(m3, table);
    StepStoreD(m4, table);
    Run5("D=M", "@" + i, "D=D+A", "@R13", "M=D", m, m1, m2, m3, m4,
         Machine(R13, addr, m.mem[R13 := addr]), table);
  }

  /** The last lines of the generic pop tail store D at the address R13 holds. */
  lemma StoreThroughR13Effect(m: Machine, table: map<string, Word>)
    ensures Run(["@R13", "A=M", "M=D"], m, table)
         == Some(Machine(Rd(m, R13), m.d, m.mem[Rd(m, R13) := m.d]))
  {
    var m1 := m.(a := R13);
    var m2 := m1.(a := Rd(m, R13));
    StepAtR13(m, table);
    StepLoadAFromM(m1, table);
    StepStoreD(m2, table);
    Run3("@R13", "A=M", "M=D", m, m1, m2, Machine(Rd(m, R13), m.d, m.mem[Rd(m, R13) := m.d]), table);
  }

  /** The tails of add and sub: combine D into the cell below A. */
  lemma CombineEffect(m: Machine, table: map<string, Word>)
    ensures var below := Dec(m.a);
            && Run(["A=A-1", "M=M+D"], m, table)
                 == Some(Machine(below, m.d, m.mem[below := Add16(Rd(m, below), m.d)]))
            && Run(["A=A-1", "M=M-D"], m, table)
                 == Some(Machine(below, m.d, m.mem[below := Sub16(Rd(m, below), m.d)]))
  {
    var below := Dec(m.a);
    var m1 := m.(a := below);
    StepDecrementA(m, table);
    StepAddToM(m1, table);
    StepSubFromM(m1, table);
    Run2("A=A-1", "M=M+D", m, m1, m1.(mem := m.mem[below := Add16(Rd(m, below), m.d)]), table);
    Run2("A=A-1", "M=M-D", m, m1, m1.(mem := m.mem[below := Sub16(Rd(m, below), m.d)]), table);
  }

  /** The generic push tail and the push-D lines: with a base address in the cell A points
      at, push the cell at base + i. */
  lemma IndexedPushEffect(i: string, m: Machine, table: map<string, Word>)
    requires IsIndex(i)
    ensures var sp := Rd(m, SP);
            var v := Rd(m, Add16(Rd(m, m.a), ParseDecimal(i)));
            Run(["D=M", "@" + i, "A=D+A", "D=M"] + PushDLines, m, table)
              == Some(Machine(sp, v, m.mem[SP := Inc(sp)][sp := v]))
  {
    var addr := Add16(Rd(m, m.a), ParseDecimal(i));
    RunAppend(["D=M", "@" + i, "A=D+A", "D=M"], PushDLines, m, table);
    PushTailEffect(i, m, table);
    PushDEffect(m.(a := addr, d := Rd(m, addr)), table);
  }

  /** The generic pop tail: with a base address in the cell A points at, R13 receives
      base + i, SP drops by one and the old top is stored at base + i. */
  lemma IndexedPopEffect(i: string, m: Machine, table: map<string, Word>)
    requires IsIndex(i) && Dec(Rd(m, SP)) != SP && Dec(Rd(m, SP)) != R13
    ensures var top := Dec(Rd(m, SP));
            var addr := Add16(Rd(m, m.a), ParseDecimal(i));
            Run(["D=M", "@" + i, "D=D+A", "@R13", "M=D"] + PopDLines + ["@R13", "A=M", "M=D"], m, table)
              == Some(Machine(addr, Rd(m, top), m.mem[R13 := addr][SP := top][addr := Rd(m, top)]))
  {
    var addr := Add16(Rd(m, m.a), ParseDecimal(i));
    var top := Dec(Rd(m, SP));
    var m1 := Machine(R13, addr, m.mem[R13 := addr]);
    var head := ["D=M", "@" + i, "D=D+A", "@R13", "M=D"];
    var store := ["@R13", "A=M", "M=D"];
    RunAppend(head + PopDLines, store, m, table);
    RunAppend(head, PopDLines, m, table);
    PopAddressEffect(i, m, table);
    PopDEffect(m1, table);
    StoreThroughR13Effect(Machine(top, Rd(m, top), m1.mem[SP := top]), table);
  }

  /** The temp push proper: `@` the temp address, `D=M`, and the push-D lines. */
  lemma TempPushEffect(i: string, m: Machine, table: map<string, Word>)
    requires IsNumeral(i) && 5 + ParseDecimal(i) <= MaxConstant
    ensures ParseInt(i).Some?
    ensures var sp := Rd(m, SP);
            var v := Rd(m, 5 + ParseDecimal(i));
            Run(["@" + TempAddress(i), "D=M"] + PushDLines, m, table)
              == Some(Machine(sp, v, m.mem[SP := Inc(sp)][sp := v]))
  {
    TempLineEffect(i, m, table);
    var addr := 5 + ParseDecimal(i);
    RunAppend(["@" + TempAddress(i), "D=M"], PushDLines, m, table);
    LoadCellEffect("@" + TempAddress(i), addr, m, table);
    PushDEffect(m.(a := addr, d := Rd(m, addr)), table);
  }

  /* ---------------- the blocks ---------------- */

  /** `push constant i` stores i at the old top of the stack and raises SP by one; no other
      cell changes. */
  lemma PushConstantEffect(i: string, filename: string, m: Machine, table: map<string, Word>)
    requires IsIndex(i)
    ensures var sp := Rd(m, SP);
            Run(PushCode("constant", i, filename), m, table)
              == Some(Machine(sp, ParseDecimal(i), m.mem[SP := Inc(sp)][sp := ParseDecimal(i)]))
  {
    var n := ParseDecimal(i);
    var m1 := m.(a := n, d := n);
    assert PushCode("constant", i, filename) == ["@" + i, "D=A"] + PushDLines;
    RunAppend(["@" + i, "D=A"], PushDLines, m, table);
    LoadIndexEffect(i, m, table);
    PushDEffect(m1, table);
  }

  /** `push static i` pushes the cell the assembler gives the symbol `filename.i`. */
  lemma PushStaticEffect(i: string, filename: string, m: Machine, table: map<string, Word>)
    requires StaticName(i, filename) in table
    ensures var sp := Rd(m, SP);
            var v := Rd(m, table[StaticName(i, filename)]);
            Run(PushCode("static", i, filename), m, table)
              == Some(Machine(sp, v, m.mem[SP := Inc(sp)][sp := v]))
  {
    var name := StaticName(i, filename);
    var addr := table[name];
    var load := ["@" + name, "D=M"];
    StaticLine(i, filename);
    assert PushCode("static", i, filename) == load + PushDLines;
    RunAppend(load, PushDLines, m, table);
    AtTableSymbol(name, m, table);
    LoadCellEffect("@" + name, addr, m, table);
    PushDEffect(m.(a := addr, d := Rd(m, addr)), table);
  }

  /** `pop static i` lowers SP by one and stores the old top in the static cell. */
  lemma PopStaticEffect(i: string, filename: string, m: Machine, table: map<string, Word>)
    requires StaticName(i, filename) in table && Dec(Rd(m, SP)) != SP
    ensures var top := Dec(Rd(m, SP));
            var addr := table[StaticName(i, filename)];
            Run(PopCode("static", i, filename), m, table)
              == Some(Machine(addr, Rd(m, top), m.mem[SP := top][addr := Rd(m, top)]))
  {
    var name := StaticName(i, filename);
    var addr := table[name];
    var top := Dec(Rd(m, SP));
    var m1 := Machine(top, Rd(m, top), m.mem[SP := top]);
    var store := ["@" + name, "M=D"];
    StaticLine(i, filename);
    assert PopCode("static", i, filename) == PopDLines + store;
    RunAppend(PopDLines, store, m, table);
    PopDEffect(m, table);
    AtTableSymbol(name, m1, table);
    StoreCellEffect("@" + name, addr, m1, table);
  }

  /** `push temp i` as written: the temp cell 5 + i is pushed, and then, because the
      branch has no `return`, the generic tail runs too and pushes a second word, read at
      the address (pushed value + i). SP rises by two. */
  lemma PushTempEffect(i: string, filename: string, m: Machine, table: map<string, Word>)
    requires IsNumeral(i) && 5 + ParseDecimal(i) <= MaxConstant
    requires Rd(m, SP) != SP && Inc(Rd(m, SP)) != SP
    ensures ParseInt(i).Some?
    ensures var sp := Rd(m, SP);
            var v := Rd(m, 5 + ParseDecimal(i));
            var mem1 := m.mem[SP := Inc(sp)][sp := v];
            var w := Rd(Machine(0, 0, mem1), Add16(v, ParseDecimal(i)));
            Run(PushCode("temp", i, filename), m, table)
              == Some(Machine(Inc(sp), w, mem1[SP := Inc(Inc(sp))][Inc(sp) := w]))
  {
    TempLineEffect(i, m, table);
    var n := ParseDecimal(i);
    var sp := Rd(m, SP);
    var v := Rd(m, 5 + n);
    var m1 := Machine(sp, v, m.mem[SP := Inc(sp)][sp := v]);
    var first := ["@" + TempAddress(i), "D=M"] + PushDLines;
    var rest := ["D=M", "@" + i, "A=D+A", "D=M"] + PushDLines;
    assert BaseLoad("temp", i) == [];
    assert PushCode("temp", i, filename) == first + rest;
    RunAppend(first, rest, m, table);
    TempPushEffect(i, m, table);
    IndexedPushEffect(i, m1, table);
  }

  /** `pop temp i` lowers SP by one and stores the old top in the cell 5 + i, for any index
      Integer.parseInt accepts whose sum with 5 is an address. A negative index reaches
      below the temp segment: `pop temp -1` overwrites THAT and `pop temp -5` overwrites
      SP itself with the popped word. */
  lemma PopTempEffect(i: string, filename: string, m: Machine, table: map<string, Word>)
    requires ParseInt(i).Some? && 0 <= 5 + ParseInt(i).value <= MaxConstant
    requires Dec(Rd(m, SP)) != SP
    ensures var top := Dec(Rd(m, SP));
            var addr := 5 + ParseInt(i).value;
            Run(PopCode("temp", i, filename), m, table)
              == Some(Machine(addr, Rd(m, top), m.mem[SP := top][addr := Rd(m, top)]))
  {
    var addr := 5 + ParseInt(i).value;
    var top := Dec(Rd(m, SP));
    var m1 := Machine(top, Rd(m, top), m.mem[SP := top]);
    var store := ["@" + TempAddress(i), "M=D"];
    assert PopCode("temp", i, filename) == PopDLines + store;
    RunAppend(PopDLines, store, m, table);
    PopDEffect(m, table);
    SignedTempLineEffect(i, m1, table);
    StoreCellEffect("@" + TempAddress(i), addr, m1, table);
  }

  /** `pop temp -1` passes the parse and stores the popped word in THAT, outside the
      temp segment. */
  lemma PopTempMinusOneWritesThat(filename: string, m: Machine, table: map<string, Word>)
    requires Dec(Rd(m, SP)) != SP
    ensures var top := Dec(Rd(m, SP));
            Run(PopCode("temp", "-1", filename), m, table)
              == Some(Machine(THAT, Rd(m, top), m.mem[SP := top][THAT := Rd(m, top)]))
  {
    assert "-1"[1..] == "1";
    assert ParseDecimal("1") == 1;
    assert ParseInt("-1") == Some(-1);
    PopTempEffect("-1", filename, m, table);
  }

  /** `push segment i` for local, argument, this and that pushes the cell at base + i. */
  lemma PushSegmentEffect(segment: string, i: string, filename: string, m: Machine, table: map<string, Word>)
    requires HasBase(segment) && IsIndex(i)
    ensures var sp := Rd(m, SP);
            var v := Rd(m, Add16(Rd(m, BaseRegister(segment)), ParseDecimal(i)));
            Run(PushCode(segment, i, filename), m, table)
              == Some(Machine(sp, v, m.mem[SP := Inc(sp)][sp := v]))
  {
    var rest := ["D=M", "@" + i, "A=D+A", "D=M"] + PushDLines;
    assert PushCode(segment, i, filename) == BaseLoad(segment, i) + rest;
    RunAppend(BaseLoad(segment, i), rest, m, table);
    BaseLoadEffect(segment, i, m, table);
    IndexedPushEffect(i, m.(a := BaseRegister(segment)), table);
  }

  /** `pop segment i` for local, argument, this and that: R13 receives base + i, SP drops by
      one, and the old top is stored at base + i through R13. */
  lemma PopSegmentEffect(segment: string, i: string, filename: string, m: Machine, table: map<string, Word>)
    requires HasBase(segment) && IsIndex(i)
    requires Dec(Rd(m, SP)) != SP && Dec(Rd(m, SP)) != R13
    ensures var top := Dec(Rd(m, SP));
            var addr := Add16(Rd(m, BaseRegister(segment)), ParseDecimal(i));
            Run(PopCode(segment, i, filename), m, table)
              == Some(Machine(addr, Rd(m, top), m.mem[R13 := addr][SP := top][addr := Rd(m, top)]))
  {
    var rest := ["D=M", "@" + i, "D=D+A", "@R13", "M=D"] + PopDLines + ["@R13", "A=M", "M=D"];
    assert PopCode(segment, i, filename) == BaseLoad(segment, i) + rest;
    RunAppend(BaseLoad(segment, i), rest, m, table);
    BaseLoadEffect(segment, i, m, table);
    IndexedPopEffect(i, m.(a := BaseRegister(segment)), table);
  }

  /** A push or pop segment that loads no base register: constant for pop, pointer with an
      index other than 0 and 1, and any segment name the emitters do not recognise. */
  predicate NoBase(segment: string, i: string) {
    segment !in {"constant", "static", "temp"} && BaseLoad(segment, i) == []
  }

  /** Which segments load no base register: pointer exactly for indices other than 0 and 1,
      every unrecognised segment name, and none of local, argument, this and that. */
  lemma NoBaseSegments(segment: string, i: string)
    ensures segment == "pointer" ==> (NoBase(segment, i) <==> i != "0" && i != "1")
    ensures segment !in {"constant", "static", "temp", "local", "argument", "this", "that", "pointer"}
            ==> NoBase(segment, i)
    ensures HasBase(segment) ==> !NoBase(segment, i)
  {
  }

  /** `pop constant i` and the other pops with no base register are not rejected: the generic
      tail adds i to whatever cell the A register left over from the previous line points at,
      and stores the old top there. */
  lemma PopNoBaseEffect(segment: string, i: string, filename: string, m: Machine, table: map<string, Word>)
    requires (NoBase(segment, i) || segment == "constant") && IsIndex(i)
    requires Dec(Rd(m, SP)) != SP && Dec(Rd(m, SP)) != R13
    ensures var top := Dec(Rd(m, SP));
            var addr := Add16(Rd(m, m.a), ParseDecimal(i));
            Run(PopCode(segment, i, filename), m, table)
              == Some(Machine(addr, Rd(m, top), m.mem[R13 := addr][SP := top][addr := Rd(m, top)]))
  {
    var rest := ["D=M", "@" + i, "D=D+A", "@R13", "M=D"] + PopDLines + ["@R13", "A=M", "M=D"];
    assert BaseLoad(segment, i) == [];
    assert PopCode(segment, i, filename) == rest;
    IndexedPopEffect(i, m, table);
  }

  /** The pushes with no base register (pointer with an index other than 0 and 1, and any
      segment name the emitters do not recognise) are not rejected either: they push the cell
      at (the cell A pointed at) + i. */
  lemma PushNoBaseEffect(segment: string, i: string, filename: string, m: Machine, table: map<string, Word>)
    requires NoBase(segment, i) && IsIndex(i)
    ensures |PushCode(segment, i, filename)| == 8
    ensures var sp := Rd(m, SP);
            var v := Rd(m, Add16(Rd(m, m.a), ParseDecimal(i)));
            Run(PushCode(segment, i, filename), m, table)
              == Some(Machine(sp, v, m.mem[SP := Inc(sp)][sp := v]))
  {
    var rest := ["D=M", "@" + i, "A=D+A", "D=M"] + PushDLines;
    assert PushCode(segment, i, filename) == rest;
    IndexedPushEffect(i, m, table);
  }

  /** `add` with y on top and x below: SP drops by one and x + y (mod 2^16) replaces x. */
  lemma AddEffect(m: Machine, table: map<string, Word>)
    requires Dec(Rd(m, SP)) != SP && Dec(Dec(Rd(m, SP))) != SP
    ensures var top := Dec(Rd(m, SP));
            var below := Dec(top);
            Run(AddCode, m, table)
              == Some(Machine(below, Rd(m, top),
                              m.mem[SP := top][below := Add16(Rd(m, below), Rd(m, top))]))
  {
    var top := Dec(Rd(m, SP));
    var m1 := Machine(top, Rd(m, top), m.mem[SP := top]);
    assert AddCode == PopDLines + ["A=A-1", "M=M+D"];
    RunAppend(PopDLines, ["A=A-1", "M=M+D"], m, table);
    PopDEffect(m, table);
    CombineEffect(m1, table);
  }

  /** `sub` with y on top and x below: SP drops by one and x - y (mod 2^16) replaces x. */
  lemma SubEffect(m: Machine, table: map<string, Word>)
    requires Dec(Rd(m, SP)) != SP && Dec(Dec(Rd(m, SP))) != SP
    ensures var top := Dec(Rd(m, SP));
            var below := Dec(top);
            Run(SubCode, m, table)
              == Some(Machine(below, Rd(m, top),
                              m.mem[SP := top][below := Sub16(Rd(m, below), Rd(m, top))]))
  {
    var top := Dec(Rd(m, SP));
    var m1 := Machine(top, Rd(m, top), m.mem[SP := top]);
    assert SubCode == PopDLines + ["A=A-1", "M=M-D"];
    RunAppend(PopDLines, ["A=A-1", "M=M-D"], m, table);
    PopDEffect(m, table);
    CombineEffect(m1, table);
  }

  /* ---------------- round trips ---------------- */

  /** Distinct indices name distinct static symbols. */
  lemma StaticNameInjective(i: string, j: string, filename: string)
    requires i != j
    ensures StaticName(i, filename) != StaticName(j, filename)
  {
    var k := |filename| + 1;
    assert StaticName(i, filename)[k..] == i;
    assert StaticName(j, filename)[k..] == j;
  }

  /** `pop static i` then `push static i`: SP is back where it was, the static cell holds the
      value that was on top, and no other cell changes. */
  lemma PopPushStaticRoundTrip(i: string, filename: string, m: Machine, table: map<string, Word>)
    requires WellFormedTable(table) && StaticName(i, filename) in table
    requires Dec(Rd(m, SP)) != SP
    ensures var r := Run(PopCode("static", i, filename) + PushCode("static", i, filename), m, table);
            var addr := table[StaticName(i, filename)];
            && r.Some?
            && Rd(r.value, SP) == Rd(m, SP)
            && Rd(r.value, addr) == Rd(m, Dec(Rd(m, SP)))
            && SameExcept(m, r.value, {addr})
  {
    var addr := table[StaticName(i, filename)];
    var sp := Rd(m, SP);
    var top := Dec(sp);
    var y := Rd(m, top);
    var m1 := Machine(addr, y, m.mem[SP := top][addr := y]);
    RunAppend(PopCode("static", i, filename), PushCode("static", i, filename), m, table);
    PopStaticEffect(i, filename, m, table);
    assert Rd(m1, SP) == top;
    PushStaticEffect(i, filename, m1, table);
    assert Inc(top) == sp;
    var r := Machine(top, y, m1.mem[SP := sp][top := y]);
    assert Rd(r, addr) == y;
    assert SameExcept(m, r, {addr});
  }

  /** `pop static i` leaves the static cell of every other index alone. */
  lemma PopStaticKeepsOtherStatics(i: string, j: string, filename: string, m: Machine, table: map<string, Word>)
    requires WellFormedTable(table) && i != j
    requires StaticName(i, filename) in table && StaticName(j, filename) in table
    requires Dec(Rd(m, SP)) != SP
    ensures var r := Run(PopCode("static", i, filename), m, table);
            var other := table[StaticName(j, filename)];
            r.Some? && Rd(r.value, other) == Rd(m, other)
  {
    StaticNameInjective(i, j, filename);
    PopStaticEffect(i, filename, m, table);
  }

  /** `push static i` then `pop static i` restores SP and the static cell. */
  lemma PushPopStaticRoundTrip(i: string, filename: string, m: Machine, table: map<string, Word>)
    requires WellFormedTable(table) && StaticName(i, filename) in table && Rd(m, SP) != SP
    ensures var r := Run(PushCode("static", i, filename) + PopCode("static", i, filename), m, table);
            var cell := table[StaticName(i, filename)];
            && r.Some?
            && Rd(r.value, SP) == Rd(m, SP)
            && Rd(r.value, cell) == Rd(m, cell)
            && SameExcept(m, r.value, {Rd(m, SP)})
  {
    var cell := table[StaticName(i, filename)];
    var sp := Rd(m, SP);
    var v := Rd(m, cell);
    var m1 := Machine(sp, v, m.mem[SP := Inc(sp)][sp := v]);
    RunAppend(PushCode("static", i, filename), PopCode("static", i, filename), m, table);
    PushStaticEffect(i, filename, m, table);
    assert Dec(Rd(m1, SP)) == sp;
    PopStaticEffect(i, filename, m1, table);
    var r := Machine(cell, v, m1.mem[SP := sp][cell := v]);
    assert SameExcept(m, r, {sp});
  }

  /** `push segment i` then `pop segment i` for local, argument, this and that: SP is back
      where it was and the segment cell keeps its value; only the cell just above the stack
      and R13 may change. */
  lemma PushPopSegmentRoundTrip(segment: string, i: string, filename: string, m: Machine, table: map<string, Word>)
    requires HasBase(segment) && IsIndex(i)
    requires Rd(m, SP) !in {SP, R13, BaseRegister(segment)}
    ensures var r := Run(PushCode(segment, i, filename) + PopCode(segment, i, filename), m, table);
            var addr := Add16(Rd(m, BaseRegister(segment)), ParseDecimal(i));
            && r.Some?
            && Rd(r.value, SP) == Rd(m, SP)
            && Rd(r.value, addr) == Rd(m, addr)
            && SameExcept(m, r.value, {Rd(m, SP), R13})
  {
    var sp := Rd(m, SP);
    var addr := Add16(Rd(m, BaseRegister(segment)), ParseDecimal(i));
    var v := Rd(m, addr);
    var m1 := Machine(sp, v, m.mem[SP := Inc(sp)][sp := v]);
    RunAppend(PushCode(segment, i, filename), PopCode(segment, i, filename), m, table);
    PushSegmentEffect(segment, i, filename, m, table);
    assert Dec(Rd(m1, SP)) == sp;
    assert Rd(m1, BaseRegister(segment)) == Rd(m, BaseRegister(segment));
    PopSegmentEffect(segment, i, filename, m1, table);
    var r := Machine(addr, v, m1.mem[R13 := addr][SP := sp][addr := v]);
    assert Rd(r, SP) == sp;
    assert SameExcept(m, r, {sp, R13});
  }
}
