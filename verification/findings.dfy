/**
  Two places where the emitted code does not do what the stack machine's segments mean, each
  shown on the code as written and then corrected:

  - `push temp i` has no `return` after its own block, so the generic base-plus-index tail
    runs as well and pushes a second word;
  - `pointer 0` and `pointer 1` are addressed through the base held in THIS or THAT, exactly
    like `this 0` and `that 1`, instead of at the registers THIS and THAT themselves.

  The corrected emitters `PushCodeIntended` and `PopCodeIntended` differ from `PushCode` and
  `PopCode` only in those two places, and every push/pop pair of them round-trips.
 */
module Findings {
  import opened Options
  import opened JavaStrings
  import opened Hack
  import opened Parser
  import opened StackEffects

  /* ---------------- push temp ---------------- */

  /** As written, `push temp i` followed by `pop temp i` does not restore the stack: SP ends
      one above where it started. */
  lemma PushPopTempAsWritten(i: string, filename: string, m: Machine, table: map<string, Word>)
    requires IsNumeral(i) && 5 + ParseDecimal(i) <= MaxConstant
    requires Rd(m, SP) != SP && Inc(Rd(m, SP)) != SP
    ensures ParseInt(i).Some?
    ensures var r := Run(PushCode("temp", i, filename) + PopCode("temp", i, filename), m, table);
            r.Some? && Rd(r.value, SP) == Inc(Rd(m, SP)) != Rd(m, SP)
  {
    TempLineEffect(i, m, table);
    var n := ParseDecimal(i);
    var sp := Rd(m, SP);
    var v := Rd(m, 5 + n);
    var mem1 := m.mem[SP := Inc(sp)][sp := v];
    var w := Rd(Machine(0, 0, mem1), Add16(v, n));
    var m1 := Machine(Inc(sp), w, mem1[SP := Inc(Inc(sp))][Inc(sp) := w]);
    RunAppend(PushCode("temp", i, filename), PopCode("temp", i, filename), m, table);
    PushTempEffect(i, filename, m, table);
    assert Dec(Rd(m1, SP)) == Inc(sp);
    PopTempEffect(i, filename, m1, table);
  }

  /** The same on a concrete machine: with SP = 256 and 42 in temp 0, `push temp 0` then
      `pop temp 0` leaves SP at 257 and 0 in temp 0. */
  lemma PushPopTempExample(filename: string, table: map<string, Word>)
    ensures var m := Machine(0, 0, map[SP := 256, 5 := 42]);
            var r := Run(PushCode("temp", "0", filename) + PopCode("temp", "0", filename), m, table);
            r.Some? && Rd(r.value, SP) == 257 && Rd(r.value, 5) == 0
  {
    var m := Machine(0, 0, map[SP := 256, 5 := 42]);
    assert IsNumeral("0") && ParseDecimal("0") == 0;
    var mem1 := m.mem[SP := 257][256 := 42];
    assert Rd(Machine(0, 0, mem1), 42) == 0;
    var m1 := Machine(257, 0, mem1[SP := 258][257 := 0]);
    RunAppend(PushCode("temp", "0", filename), PopCode("temp", "0", filename), m, table);
    PushTempEffect("0", filename, m, table);
    PopTempEffect("0", filename, m1, table);
  }

  /** The evidently intended `push temp i`: push the temp cell and stop, as static does. */
  function PushTempIntended(i: string): seq<string>
    requires ParseInt(i).Some?
  {
    ["@" + TempAddress(i), "D=M"] + PushDLines
  }

  /** The corrected `push temp i` pushes the temp cell 5 + i and raises SP by one. */
  lemma PushTempIntendedEffect(i: string, m: Machine, table: map<string, Word>)
    requires IsNumeral(i) && 5 + ParseDecimal(i) <= MaxConstant
    ensures ParseInt(i).Some?
    ensures var sp := Rd(m, SP);
            var v := Rd(m, 5 + ParseDecimal(i));
            Run(PushTempIntended(i), m, table) == Some(Machine(sp, v, m.mem[SP := Inc(sp)][sp := v]))
  {
    TempPushEffect(i, m, table);
  }

  /** With the correction, `push temp i` then `pop temp i` restores SP and the temp cell; only
      the cell just above the stack may change. */
  lemma PushPopTempIntendedRoundTrip(i: string, filename: string, m: Machine, table: map<string, Word>)
    requires IsNumeral(i) && 5 + ParseDecimal(i) <= MaxConstant && Rd(m, SP) != SP
    ensures ParseInt(i).Some?
    ensures var r := Run(PushTempIntended(i) + PopCode("temp", i, filename), m, table);
            var cell := 5 + ParseDecimal(i);
            && r.Some?
            && Rd(r.value, SP) == Rd(m, SP)
            && Rd(r.value, cell) == Rd(m, cell)
            && SameExcept(m, r.value, {Rd(m, SP)})
  {
    PushTempIntendedEffect(i, m, table);
    var cell := 5 + ParseDecimal(i);
    var sp := Rd(m, SP);
    var v := Rd(m, cell);
    var m1 := Machine(sp, v, m.mem[SP := Inc(sp)][sp := v]);
    RunAppend(PushTempIntended(i), PopCode("temp", i, filename), m, table);
    assert Dec(Rd(m1, SP)) == sp;
    PopTempEffect(i, filename, m1, table);
    var r := Machine(cell, v, m1.mem[SP := sp][cell := v]);
    assert SameExcept(m, r, {sp});
  }

  /* ---------------- pointer ---------------- */

  /** As written, `pointer 0` emits exactly the code of `this 0`, and `pointer 1` that of
      `that 1`. */
  lemma PointerAliasesThisThat(filename: string)
    ensures PushCode("pointer", "0", filename) == PushCode("this", "0", filename)
    ensures PushCode("pointer", "1", filename) == PushCode("that", "1", filename)
    ensures PopCode("pointer", "0", filename) == PopCode("this", "0", filename)
    ensures PopCode("pointer", "1", filename) == PopCode("that", "1", filename)
  {
    assert BaseLoad("pointer", "0") == BaseLoad("this", "0") == ["@THIS"];
    assert BaseLoad("pointer", "1") == BaseLoad("that", "1") == ["@THAT"];
  }

  /** So, as written, `push pointer 0` pushes the word at the address THIS holds, not THIS. */
  lemma PushPointerAsWritten(filename: string, m: Machine, table: map<string, Word>)
    ensures var sp := Rd(m, SP);
            var v := Rd(m, Rd(m, THIS));
            Run(PushCode("pointer", "0", filename), m, table)
              == Some(Machine(sp, v, m.mem[SP := Inc(sp)][sp := v]))
  {
    PointerAliasesThisThat(filename);
    assert IsIndex("0") && ParseDecimal("0") == 0;
    assert Add16(Rd(m, THIS), 0) == Rd(m, THIS);
    PushSegmentEffect("this", "0", filename, m, table);
  }

  /** On a concrete machine: with THIS = 3000 and nothing stored at 3000, `push pointer 0`
      pushes 0 where 3000 was meant. */
  lemma PushPointerExample(filename: string, table: map<string, Word>)
    ensures var m := Machine(0, 0, map[SP := 256, THIS := 3000]);
            var r := Run(PushCode("pointer", "0", filename), m, table);
            r.Some? && Rd(r.value, 256) == 0 != Rd(m, THIS)
  {
    var m := Machine(0, 0, map[SP := 256, THIS := 3000]);
    assert Rd(m, Rd(m, THIS)) == 0;
    PushPointerAsWritten(filename, m, table);
  }

  /** The register `pointer i` stands for: THIS for 0, THAT for 1. */
  function PointerRegister(i: string): Word
    requires i == "0" || i == "1"
  {
    if i == "0" then THIS else THAT
  }

  /** The `@` line of that register. */
  function PointerLine(i: string): string
    requires i == "0" || i == "1"
  {
    if i == "0" then "@THIS" else "@THAT"
  }

  lemma StepPointerLine(i: string, m: Machine, table: map<string, Word>)
    requires i == "0" || i == "1"
    ensures Step(PointerLine(i), m, table) == Some(m.(a := PointerRegister(i)))
  {
    if i == "0" {
      StepAtTHIS(m, table);
    } else {
      StepAtTHAT(m, table);
    }
  }

  /** The evidently intended `push pointer i`: push the register itself. */
  function PushPointerIntended(i: string): seq<string>
    requires i == "0" || i == "1"
  {
    [PointerLine(i), "D=M"] + PushDLines
  }

  /** The evidently intended `pop pointer i`: store the top into the register itself. */
  function PopPointerIntended(i: string): seq<string>
    requires i == "0" || i == "1"
  {
    PopDLines + [PointerLine(i), "M=D"]
  }

  /** The corrected `push pointer i` pushes THIS or THAT and raises SP by one. */
  lemma PushPointerIntendedEffect(i: string, m: Machine, table: map<string, Word>)
    requires (i == "0" || i == "1")
    ensures var sp := Rd(m, SP);
            var v := Rd(m, PointerRegister(i));
            Run(PushPointerIntended(i), m, table) == Some(Machine(sp, v, m.mem[SP := Inc(sp)][sp := v]))
  {
    var reg := PointerRegister(i);
    RunAppend([PointerLine(i), "D=M"], PushDLines, m, table);
    StepPointerLine(i, m, table);
    LoadCellEffect(PointerLine(i), reg, m, table);
    PushDEffect(m.(a := reg, d := Rd(m, reg)), table);
  }

  /** The corrected `pop pointer i` lowers SP by one and sets THIS or THAT to the old top. */
  lemma PopPointerIntendedEffect(i: string, m: Machine, table: map<string, Word>)
    requires (i == "0" || i == "1") && Dec(Rd(m, SP)) != SP
    ensures var top := Dec(Rd(m, SP));
            var reg := PointerRegister(i);
            Run(PopPointerIntended(i), m, table)
              == Some(Machine(reg, Rd(m, top), m.mem[SP := top][reg := Rd(m, top)]))
  {
    var top := Dec(Rd(m, SP));
    var m1 := Machine(top, Rd(m, top), m.mem[SP := top]);
    RunAppend(PopDLines, [PointerLine(i), "M=D"], m, table);
    PopDEffect(m, table);
    StepPointerLine(i, m1, table);
    StoreCellEffect(PointerLine(i), PointerRegister(i), m1, table);
  }

  /** With the correction, `pop pointer i` then `push pointer i` leaves SP where it was and the
      old top in the register, and changes nothing else. */
  lemma PopPushPointerIntendedRoundTrip(i: string, m: Machine, table: map<string, Word>)
    requires (i == "0" || i == "1") && Dec(Rd(m, SP)) != SP
    ensures var r := Run(PopPointerIntended(i) + PushPointerIntended(i), m, table);
            var reg := PointerRegister(i);
            && r.Some?
            && Rd(r.value, SP) == Rd(m, SP)
            && Rd(r.value, reg) == Rd(m, Dec(Rd(m, SP)))
            && SameExcept(m, r.value, {reg})
  {
    var reg := PointerRegister(i);
    var sp := Rd(m, SP);
    var top := Dec(sp);
    var y := Rd(m, top);
    var m1 := Machine(reg, y, m.mem[SP := top][reg := y]);
    RunAppend(PopPointerIntended(i), PushPointerIntended(i), m, table);
    PopPointerIntendedEffect(i, m, table);
    assert Rd(m1, SP) == top;
    PushPointerIntendedEffect(i, m1, table);
    var r := Machine(top, y, m1.mem[SP := Inc(top)][top := y]);
    assert Rd(r, SP) == sp;
    assert SameExcept(m, r, {reg});
  }

  /* ---------------- the corrected emitters ---------------- */

  /** `push` with both corrections applied. */
  function PushCodeIntended(segment: string, i: string, filename: string): seq<string>
    requires segment == "temp" ==> ParseInt(i).Some?
  {
    if segment == "temp" then PushTempIntended(i)
    else if segment == "pointer" && (i == "0" || i == "1") then PushPointerIntended(i)
    else PushCode(segment, i, filename)
  }

  /** `pop` with the pointer correction applied; `pop temp` was already right. */
  function PopCodeIntended(segment: string, i: string, filename: string): seq<string>
    requires segment == "temp" ==> ParseInt(i).Some?
  {
    if segment == "pointer" && (i == "0" || i == "1") then PopPointerIntended(i)
    else PopCode(segment, i, filename)
  }

  /** The operands a push/pop pair addresses a cell with: an index numeral for the based
      segments, a temp index whose cell 5 + i is a loadable constant, 0 or 1 for pointer, and
      a static symbol the assembler has placed. */
  predicate Addressable(segment: string, i: string, filename: string, table: map<string, Word>) {
    || (HasBase(segment) && IsIndex(i))
    || (segment == "temp" && IsNumeral(i) && 5 + ParseDecimal(i) <= MaxConstant)
    || (segment == "pointer" && (i == "0" || i == "1"))
    || (segment == "static" && WellFormedTable(table) && StaticName(i, filename) in table)
  }

  /** The cell `segment i` denotes on machine m. */
  function Cell(segment: string, i: string, filename: string, m: Machine, table: map<string, Word>): Word
    requires Addressable(segment, i, filename, table)
  {
    if HasBase(segment) then Add16(Rd(m, BaseRegister(segment)), ParseDecimal(i))
    else if segment == "temp" then 5 + ParseDecimal(i)
    else if segment == "pointer" then PointerRegister(i)
    else table[StaticName(i, filename)]
  }

  /** `push pointer i` then `pop pointer i`, corrected, restores SP and the register. */
  lemma PushPopPointerIntendedRoundTrip(i: string, m: Machine, table: map<string, Word>)
    requires (i == "0" || i == "1") && Rd(m, SP) != SP
    ensures var r := Run(PushPointerIntended(i) + PopPointerIntended(i), m, table);
            var reg := PointerRegister(i);
            && r.Some?
            && Rd(r.value, SP) == Rd(m, SP)
            && Rd(r.value, reg) == Rd(m, reg)
            && SameExcept(m, r.value, {Rd(m, SP)})
  {
    var reg := PointerRegister(i);
    var sp := Rd(m, SP);
    var v := Rd(m, reg);
    var m1 := Machine(sp, v, m.mem[SP := Inc(sp)][sp := v]);
    RunAppend(PushPointerIntended(i), PopPointerIntended(i), m, table);
    PushPointerIntendedEffect(i, m, table);
    assert Dec(Rd(m1, SP)) == sp;
    PopPointerIntendedEffect(i, m1, table);
    var r := Machine(reg, v, m1.mem[SP := sp][reg := v]);
    assert SameExcept(m, r, {sp});
  }

  /** With both corrections, `push segment i` then `pop segment i` restores SP and the cell
      for every segment that has cells; besides the cell just above the stack, only R13 may
      change. */
  lemma IntendedPushPopRoundTrip(segment: string, i: string, filename: string, m: Machine, table: map<string, Word>)
    requires Addressable(segment, i, filename, table)
    requires Rd(m, SP) !in {SP, R13}
    requires HasBase(segment) ==> Rd(m, SP) != BaseRegister(segment)
    ensures segment == "temp" ==> ParseInt(i).Some?
    ensures var r := Run(PushCodeIntended(segment, i, filename) + PopCodeIntended(segment, i, filename), m, table);
            var cell := Cell(segment, i, filename, m, table);
            && r.Some?
            && Rd(r.value, SP) == Rd(m, SP)
            && Rd(r.value, cell) == Rd(m, cell)
            && SameExcept(m, r.value, {Rd(m, SP), R13})
  {
    if HasBase(segment) {
      PushPopSegmentRoundTrip(segment, i, filename, m, table);
    } else if segment == "temp" {
      PushPopTempIntendedRoundTrip(i, filename, m, table);
    } else if segment == "pointer" {
      PushPopPointerIntendedRoundTrip(i, m, table);
    } else {
      PushPopStaticRoundTrip(i, filename, m, table);
    }
  }
}
