/**
  A small interpreter for the Hack instructions the translator emits: `@n`, `@symbol` and the
  C-instructions D=A, D=M, AM=M+1, AM=M-1, A=A-1, A=D+A, D=D+A, A=M, M=D, M=M+D, M=M-D.
  The machine is the A and D registers and a memory of 16-bit words; lines that start with
  `//` are comments and do nothing. Symbols resolve through the predefined registers and an
  assembler symbol table that gives every other symbol its own address from 16 upwards.
 */
module Hack {
  import opened Options
  import opened JavaStrings

  const WordLimit: int := 0x1_0000

  /** A 16-bit machine word; arithmetic on words wraps around modulo 2^16. */
  type Word = x: int | 0 <= x < 0x1_0000

  /** Hack's 16-bit addition: the carry out of the top bit is lost. */
  function Add16(x: Word, y: Word): Word {
    if x + y < WordLimit then x + y else x + y - WordLimit
  }

  /** Hack's 16-bit subtraction: a borrow out of the top bit is lost. */
  function Sub16(x: Word, y: Word): Word {
    if y <= x then x - y else x - y + WordLimit
  }

  function Inc(x: Word): Word { Add16(x, 1) }

  function Dec(x: Word): Word { Sub16(x, 1) }

  /** Both operations are arithmetic modulo 2^16. */
  lemma WordArithmeticIsModular(x: Word, y: Word)
    ensures Add16(x, y) == (x + y) % WordLimit
    ensures Sub16(x, y) == (x - y) % WordLimit
    ensures Sub16(Add16(x, y), y) == x && Add16(Sub16(x, y), y) == x
  {
  }

  /** The largest value an A-instruction `@n` may load. */
  const MaxConstant: int := 0x7fff

  /** The predefined symbols the emitted code uses. */
  const SP: Word := 0
  const LCL: Word := 1
  const ARG: Word := 2
  const THIS: Word := 3
  const THAT: Word := 4
  const R13: Word := 13

  /** The first address the assembler gives to a symbol of its own (a static variable). */
  const VariableBase: int := 16

  function Predefined(name: string): Option<Word> {
    if name == "SP" then Some(SP)
    else if name == "LCL" then Some(LCL)
    else if name == "ARG" then Some(ARG)
    else if name == "THIS" then Some(THIS)
    else if name == "THAT" then Some(THAT)
    else if name == "R13" then Some(R13)
    else None
  }

  /** The assembler's own symbols: distinct symbols get distinct addresses, none of them
      below `VariableBase`. */
  predicate WellFormedTable(table: map<string, Word>) {
    && (forall s :: s in table ==> table[s] >= VariableBase)
    && (forall s, t :: s in table && t in table && s != t ==> table[s] != table[t])
  }

  function Resolve(name: string, table: map<string, Word>): Option<Word> {
    match Predefined(name)
    case Some(w) => Some(w)
    case None => if name in table then Some(table[name]) else None
  }

  /** A name with a dot in it is never one of the predefined registers, so a static symbol
      `file.i` always goes to the symbol table. */
  lemma DottedNameResolvesInTable(name: string, table: map<string, Word>)
    requires '.' in name
    ensures Resolve(name, table) == if name in table then Some(table[name]) else None
  {
    assert Predefined(name) == None by {
      assert '.' !in "SP" && '.' !in "LCL" && '.' !in "ARG";
      assert '.' !in "THIS" && '.' !in "THAT" && '.' !in "R13";
    }
  }

  /* ---------------- instructions ---------------- */

  datatype Dest = DestA | DestD | DestM | DestAM

  datatype Comp = CompA | CompM | CompD | CompMPlusOne | CompMMinusOne | CompAMinusOne
                | CompDPlusA | CompMPlusD | CompMMinusD

  datatype Instr =
    | AtConstant(value: Word)
    | AtSymbol(name: string)
    | Assign(dest: Dest, comp: Comp)

  function DestText(d: Dest): string {
    match d
    case DestA => "A"
    case DestD => "D"
    case DestM => "M"
    case DestAM => "AM"
  }

  function CompText(c: Comp): string {
    match c
    case CompA => "A"
    case CompM => "M"
    case CompD => "D"
    case CompMPlusOne => "M+1"
    case CompMMinusOne => "M-1"
    case CompAMinusOne => "A-1"
    case CompDPlusA => "D+A"
    case CompMPlusD => "M+D"
    case CompMMinusD => "M-D"
  }

  /** The assembly text of an instruction. */
  function Text(i: Instr): string {
    match i
    case AtConstant(v) => "@" + NatToString(v)
    case AtSymbol(name) => "@" + name
    case Assign(d, c) => DestText(d) + "=" + CompText(c)
  }

  function DecodeDest(s: string): Option<Dest> {
    if s == "A" then Some(DestA)
    else if s == "D" then Some(DestD)
    else if s == "M" then Some(DestM)
    else if s == "AM" then Some(DestAM)
    else None
  }

  function DecodeComp(s: string): Option<Comp> {
    if s == "A" then Some(CompA)
    else if s == "M" then Some(CompM)
    else if s == "D" then Some(CompD)
    else if s == "M+1" then Some(CompMPlusOne)
    else if s == "M-1" then Some(CompMMinusOne)
    else if s == "A-1" then Some(CompAMinusOne)
    else if s == "D+A" then Some(CompDPlusA)
    else if s == "M+D" then Some(CompMPlusD)
    else if s == "M-D" then Some(CompMMinusD)
    else None
  }

  /** The assembler's reading of one line: `@` and a numeral up to 32767 loads a constant,
      `@` and any other non-empty text names a symbol, and `dest=comp` splits at the `=`
      after a one- or two-letter destination. */
  function Decode(s: string): Option<Instr> {
    if |s| >= 1 && s[0] == '@' then
      var rest := s[1..];
      if rest == "" then None
      else if IsDigits(rest) then
        (if ParseDecimal(rest) <= MaxConstant then Some(AtConstant(ParseDecimal(rest))) else None)
      else Some(AtSymbol(rest))
    else if |s| >= 2 && s[1] == '=' then
      match (DecodeDest(s[..1]), DecodeComp(s[2..]))
      case (Some(d), Some(c)) => Some(Assign(d, c))
      case _ => None
    else if |s| >= 3 && s[2] == '=' then
      match (DecodeDest(s[..2]), DecodeComp(s[3..]))
      case (Some(d), Some(c)) => Some(Assign(d, c))
      case _ => None
    else None
  }

  /** Instructions the assembler accepts: constants up to 32767 and symbols that are not
      numerals. */
  predicate Encodable(i: Instr) {
    match i
    case AtConstant(v) => v <= MaxConstant
    case AtSymbol(name) => name != "" && !IsDigits(name)
    case Assign(_, _) => true
  }

  lemma DecodeDestText(d: Dest)
    ensures DecodeDest(DestText(d)) == Some(d)
  {
  }

  lemma DecodeCompText(c: Comp)
    ensures DecodeComp(CompText(c)) == Some(c)
  {
  }

  /** Decoding the text of an instruction gives the instruction back. */
  lemma DecodeText(i: Instr)
    requires Encodable(i)
    ensures Decode(Text(i)) == Some(i)
  {
    var s := Text(i);
    match i
    case AtConstant(v) =>
      assert s[1..] == NatToString(v);
      ParseNatToString(v);
    case AtSymbol(name) =>
      assert s[1..] == name;
    case Assign(d, c) =>
      var dt := DestText(d);
      var ct := CompText(c);
      DecodeDestText(d);
      DecodeCompText(c);
      assert s[..|dt|] == dt && s[|dt| + 1..] == ct;
      if d == DestAM {
        assert s[0] == 'A' && s[1] == 'M' && s[2] == '=';
      } else {
        assert |dt| == 1 && s[0] != '@' && s[1] == '=';
      }
  }

  /* ---------------- the machine ---------------- */

  datatype Machine = Machine(a: Word, d: Word, mem: map<Word, Word>)

  /** A memory cell; cells never written read as 0. */
  function Rd(m: Machine, addr: Word): Word {
    if addr in m.mem then m.mem[addr] else 0
  }

  function Eval(c: Comp, m: Machine): Word {
    match c
    case CompA => m.a
    case CompM => Rd(m, m.a)
    case CompD => m.d
    case CompMPlusOne => Add16(Rd(m, m.a), 1)
    case CompMMinusOne => Sub16(Rd(m, m.a), 1)
    case CompAMinusOne => Sub16(m.a, 1)
    case CompDPlusA => Add16(m.d, m.a)
    case CompMPlusD => Add16(Rd(m, m.a), m.d)
    case CompMMinusD => Sub16(Rd(m, m.a), m.d)
  }

  /** One instruction. A C-instruction computes from the old registers and writes memory at
      the old A before A itself changes. */
  function Exec(i: Instr, m: Machine, table: map<string, Word>): Option<Machine> {
    match i
    case AtConstant(v) => Some(m.(a := v))
    case AtSymbol(name) =>
      (match Resolve(name, table)
       case Some(w) => Some(m.(a := w))
       case None => None)
    case Assign(dest, comp) =>
      var v := Eval(comp, m);
      match dest
      case DestA => Some(m.(a := v))
      case DestD => Some(m.(d := v))
      case DestM => Some(m.(mem := m.mem[m.a := v]))
      case DestAM => Some(Machine(v, m.d, m.mem[m.a := v]))
  }

  predicate IsComment(line: string) {
    StartsWith(line, "//")
  }

  /** One line of assembly text; None when the line does not assemble. */
  function Step(line: string, m: Machine, table: map<string, Word>): Option<Machine> {
    if IsComment(line) then Some(m)
    else
      match Decode(line)
      case None => None
      case Some(i) => Exec(i, m, table)
  }

  /** A straight-line program, line by line; None as soon as a line does not assemble. */
  function Run(prog: seq<string>, m: Machine, table: map<string, Word>): Option<Machine>
    decreases |prog|
  {
    if prog == [] then Some(m)
    else
      match Step(prog[0], m, table)
      case None => None
      case Some(m') => Run(prog[1..], m', table)
  }

  /** A program runs to the last machine of a trace whose every line steps to the next one. */
  lemma {:induction false} RunTrace(prog: seq<string>, ms: seq<Machine>, table: map<string, Word>)
    requires |ms| == |prog| + 1
    requires forall k :: 0 <= k < |prog| ==> Step(prog[k], ms[k], table) == Some(ms[k + 1])
    ensures Run(prog, ms[0], table) == Some(ms[|prog|])
  {
    if prog != [] {
      assert Step(prog[0], ms[0], table) == Some(ms[1]);
      RunTrace(prog[1..], ms[1..], table);
    }
  }

  /** Running two programs back to back is running their concatenation. */
  lemma {:induction false} RunAppend(p: seq<string>, q: seq<string>, m: Machine, table: map<string, Word>)
    ensures Run(p + q, m, table) == match Run(p, m, table) case None => None case Some(m') => Run(q, m', table)
  {
    if p == [] {
      assert p + q == q;
    } else {
      assert (p + q)[0] == p[0] && (p + q)[1..] == p[1..] + q;
      match Step(p[0], m, table)
      case None =>
      case Some(m1) => RunAppend(p[1..], q, m1, table);
    }
  }

  /** Straight-line runs of one to five lines, each line stepping to the next machine. */
  lemma Run1(l0: string, m0: Machine, m1: Machine, table: map<string, Word>)
    requires Step(l0, m0, table) == Some(m1)
    ensures Run([l0], m0, table) == Some(m1)
  {
    RunTrace([l0], [m0, m1], table);
  }

  lemma Run2(l0: string, l1: string, m0: Machine, m1: Machine, m2: Machine, table: map<string, Word>)
    requires Step(l0, m0, table) == Some(m1) && Step(l1, m1, table) == Some(m2)
    ensures Run([l0, l1], m0, table) == Some(m2)
  {
    RunTrace([l0, l1], [m0, m1, m2], table);
  }

  lemma Run3(l0: string, l1: string, l2: string, m0: Machine, m1: Machine, m2: Machine, m3: Machine,
             table: map<string, Word>)
    requires Step(l0, m0, table) == Some(m1) && Step(l1, m1, table) == Some(m2)
    requires Step(l2, m2, table) == Some(m3)
    ensures Run([l0, l1, l2], m0, table) == Some(m3)
  {
    RunTrace([l0, l1, l2], [m0, m1, m2, m3], table);
  }

  lemma Run4(l0: string, l1: string, l2: string, l3: string,
             m0: Machine, m1: Machine, m2: Machine, m3: Machine, m4: Machine, table: map<string, Word>)
    requires Step(l0, m0, table) == Some(m1) && Step(l1, m1, table) == Some(m2)
    requires Step(l2, m2, table) == Some(m3) && Step(l3, m3, table) == Some(m4)
    ensures Run([l0, l1, l2, l3], m0, table) == Some(m4)
  {
    RunTrace([l0, l1, l2, l3], [m0, m1, m2, m3, m4], table);
  }

  lemma Run5(l0: string, l1: string, l2: string, l3: string, l4: string,
             m0: Machine, m1: Machine, m2: Machine, m3: Machine, m4: Machine, m5: Machine,
             table: map<string, Word>)
    requires Step(l0, m0, table) == Some(m1) && Step(l1, m1, table) == Some(m2)
    requires Step(l2, m2, table) == Some(m3) && Step(l3, m3, table) == Some(m4)
    requires Step(l4, m4, table) == Some(m5)
    ensures Run([l0, l1, l2, l3, l4], m0, table) == Some(m5)
  {
    RunTrace([l0, l1, l2, l3, l4], [m0, m1, m2, m3, m4, m5], table);
  }

  /** Comment lines change nothing. */
  lemma RunComment(comment: string, p: seq<string>, m: Machine, table: map<string, Word>)
    requires IsComment(comment)
    ensures Run([comment] + p, m, table) == Run(p, m, table)
  {
    assert ([comment] + p)[1..] == p;
  }

  /** A line that is the text of an instruction executes that instruction. */
  lemma StepText(line: string, i: Instr, m: Machine, table: map<string, Word>)
    requires Encodable(i) && line == Text(i)
    ensures Step(line, m, table) == Exec(i, m, table)
  {
    DecodeText(i);
    assert line[0] != '/' by {
      match i
      case AtConstant(_) =>
      case AtSymbol(_) =>
      case Assign(d, _) => assert line[0] == DestText(d)[0];
    }
  }

  /** `@` followed by a numeral up to 32767 loads that number into A. */
  lemma AtNumeral(n: string, m: Machine, table: map<string, Word>)
    requires IsNumeral(n) && ParseDecimal(n) <= MaxConstant
    ensures Step("@" + n, m, table) == Some(m.(a := ParseDecimal(n)))
  {
    assert ("@" + n)[1..] == n;
  }

  /** `@` followed by a symbol of the table loads its address into A. */
  lemma AtTableSymbol(name: string, m: Machine, table: map<string, Word>)
    requires '.' in name && name in table
    ensures Step("@" + name, m, table) == Some(m.(a := table[name]))
  {
    assert ("@" + name)[1..] == name;
    assert ("@" + name)[0] == '@';
    var k :| 0 <= k < |name| && name[k] == '.';
    assert !IsDigit(name[k]);
    DottedNameResolvesInTable(name, table);
  }

  /* ---------------- the lines the translator emits ---------------- */

  /** `@R` for a predefined register R loads the register's address. */
  lemma StepAtRegister(name: string, m: Machine, table: map<string, Word>)
    requires Predefined(name).Some?
    ensures Step("@" + name, m, table) == Some(m.(a := Predefined(name).value))
  {
    assert name[0] in "SLATR" && !IsDigit(name[0]);
    StepText("@" + name, AtSymbol(name), m, table);
  }

  lemma StepAtSP(m: Machine, table: map<string, Word>)
    ensures Step("@SP", m, table) == Some(m.(a := SP))
  {
    StepAtRegister("SP", m, table);
  }

  lemma StepAtLCL(m: Machine, table: map<string, Word>)
    ensures Step("@LCL", m, table) == Some(m.(a := LCL))
  {
    StepAtRegister("LCL", m, table);
  }

  lemma StepAtARG(m: Machine, table: map<string, Word>)
    ensures Step("@ARG", m, table) == Some(m.(a := ARG))
  {
    StepAtRegister("ARG", m, table);
  }

  lemma StepAtTHIS(m: Machine, table: map<string, Word>)
    ensures Step("@THIS", m, table) == Some(m.(a := THIS))
  {
    StepAtRegister("THIS", m, table);
  }

  lemma StepAtTHAT(m: Machine, table: map<string, Word>)
    ensures Step("@THAT", m, table) == Some(m.(a := THAT))
  {
    StepAtRegister("THAT", m, table);
  }

  lemma StepAtR13(m: Machine, table: map<string, Word>)
    ensures Step("@R13", m, table) == Some(m.(a := R13))
  {
    StepAtRegister("R13", m, table);
  }

  lemma StepLoadDFromA(m: Machine, table: map<string, Word>)
    ensures Step("D=A", m, table) == Some(m.(d := m.a))
  {
    StepText("D=A", Assign(DestD, CompA), m, table);
  }

  lemma StepLoadDFromM(m: Machine, table: map<string, Word>)
    ensures Step("D=M", m, table) == Some(m.(d := Rd(m, m.a)))
  {
    StepText("D=M", Assign(DestD, CompM), m, table);
  }

  lemma StepLoadAFromM(m: Machine, table: map<string, Word>)
    ensures Step("A=M", m, table) == Some(m.(a := Rd(m, m.a)))
  {
    StepText("A=M", Assign(DestA, CompM), m, table);
  }

  lemma StepIncrementM(m: Machine, table: map<string, Word>)
    ensures Step("AM=M+1", m, table) == Some(Machine(Inc(Rd(m, m.a)), m.d, m.mem[m.a := Inc(Rd(m, m.a))]))
  {
    StepText("AM=M+1", Assign(DestAM, CompMPlusOne), m, table);
  }

  lemma StepDecrementM(m: Machine, table: map<string, Word>)
    ensures Step("AM=M-1", m, table) == Some(Machine(Dec(Rd(m, m.a)), m.d, m.mem[m.a := Dec(Rd(m, m.a))]))
  {
    StepText("AM=M-1", Assign(DestAM, CompMMinusOne), m, table);
  }

  lemma StepDecrementA(m: Machine, table: map<string, Word>)
    ensures Step("A=A-1", m, table) == Some(m.(a := Dec(m.a)))
  {
    StepText("A=A-1", Assign(DestA, CompAMinusOne), m, table);
  }

  lemma StepAddressDPlusA(m: Machine, table: map<string, Word>)
    ensures Step("A=D+A", m, table) == Some(m.(a := Add16(m.d, m.a)))
  {
    StepText("A=D+A", Assign(DestA, CompDPlusA), m, table);
  }

  lemma StepAddDPlusA(m: Machine, table: map<string, Word>)
    ensures Step("D=D+A", m, table) == Some(m.(d := Add16(m.d, m.a)))
  {
    StepText("D=D+A", Assign(DestD, CompDPlusA), m, table);
  }

  lemma StepStoreD(m: Machine, table: map<string, Word>)
    ensures Step("M=D", m, table) == Some(m.(mem := m.mem[m.a := m.d]))
  {
    StepText("M=D", Assign(DestM, CompD), m, table);
  }

  lemma StepAddToM(m: Machine, table: map<string, Word>)
    ensures Step("M=M+D", m, table) == Some(m.(mem := m.mem[m.a := Add16(Rd(m, m.a), m.d)]))
  {
    StepText("M=M+D", Assign(DestM, CompMPlusD), m, table);
  }

  lemma StepSubFromM(m: Machine, table: map<string, Word>)
    ensures Step("M=M-D", m, table) == Some(m.(mem := m.mem[m.a := Sub16(Rd(m, m.a), m.d)]))
  {
    StepText("M=M-D", Assign(DestM, CompMMinusD), m, table);
  }
}
