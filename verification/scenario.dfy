/**
  The translator and the machine end to end: a four-line VM program is translated by
  `Translate` and its output, echo comments included, is run on the Hack machine.
 */
module Scenario {
  import opened Options
  import opened JavaStrings
  import opened Hack
  import opened Parser
  import opened StackEffects

  /** An echo comment in front of a block changes nothing. */
  lemma RunEchoed(line: string, block: seq<string>, m: Machine, table: map<string, Word>)
    ensures Run(Echoed(line, block), m, table) == Run(block, m, table)
  {
    assert ("// " + line)[..2] == "//";
    RunComment("// " + line, block, m, table);
  }

  /** A program that runs to m1 followed by another runs that other from m1. */
  lemma RunThen(p: seq<string>, q: seq<string>, m: Machine, m1: Machine, table: map<string, Word>)
    requires Run(p, m, table) == Some(m1)
    ensures Run(p + q, m, table) == Run(q, m1, table)
  {
    RunAppend(p, q, m, table);
  }

  /** A VM line of three words. */
  function Words(cmd: string, segment: string, index: string): string {
    cmd + " " + segment + " " + index
  }

  const Program: seq<string> :=
    [Words("push", "constant", "7"), Words("push", "constant", "8"), "add", Words("pop", "local", "0")]

  /** A line's chunk: its echo, then its block. */
  function Echoed(line: string, block: seq<string>): seq<string> {
    ["// " + line] + block
  }

  /** The keywords of the program are already lower case. */
  lemma KeywordsLowerCase()
    ensures Lower("push") == "push" && Lower("pop") == "pop" && Lower("add") == "add"
  {
    LowerAt("push");
    LowerAt("pop");
    LowerAt("add");
  }

  /** So are its segment names, which have no spaces. */
  lemma ConstantLowerCase()
    ensures Lower("constant") == "constant" && ' ' !in "constant"
  {
    LowerAt("constant");
    assert Lower("constant") == "constant";
  }

  lemma LocalLowerCase()
    ensures Lower("local") == "local" && ' ' !in "local"
  {
    LowerAt("local");
  }

  /** And its indices. */
  lemma IndicesLowerCase()
    ensures Lower("7") == "7" && Lower("8") == "8" && Lower("0") == "0"
  {
    LowerAt("7");
    LowerAt("8");
    LowerAt("0");
  }

  lemma PushConstantLine(index: string, fn: string)
    requires index in {"7", "8"}
    ensures LineOk(Words("push", "constant", index))
    ensures TranslateLine(Words("push", "constant", index), fn)
         == Echoed(Words("push", "constant", index), PushCode("constant", index, fn))
  {
    KeywordsLowerCase();
    ConstantLowerCase();
    IndicesLowerCase();
    PushLine(Words("push", "constant", index), "push", "constant", index, fn);
  }

  lemma AddLine(fn: string)
    ensures LineOk("add")
    ensures TranslateLine("add", fn) == Echoed("add", AddCode)
  {
    KeywordsLowerCase();
    WordLine("add", fn);
  }

  lemma PopLocalLine(fn: string)
    ensures LineOk(Words("pop", "local", "0"))
    ensures TranslateLine(Words("pop", "local", "0"), fn)
         == Echoed(Words("pop", "local", "0"), PopCode("local", "0", fn))
  {
    KeywordsLowerCase();
    LocalLowerCase();
    IndicesLowerCase();
    PopLine(Words("pop", "local", "0"), "pop", "local", "0", fn);
  }

  /** Four lines translate to their four chunks in order. */
  lemma TranslateFour(l0: string, l1: string, l2: string, l3: string, fn: string)
    requires LineOk(l0) && LineOk(l1) && LineOk(l2) && LineOk(l3)
    ensures Translate([l0, l1, l2, l3], fn)
         == TranslateLine(l0, fn) + (TranslateLine(l1, fn) + (TranslateLine(l2, fn) + TranslateLine(l3, fn)))
  {
    var p := [l0, l1, l2, l3];
    assert p[1..] == [l1, l2, l3] && p[1..][1..] == [l2, l3] && p[1..][1..][1..] == [l3];
    TranslateCons(p, fn);
    TranslateCons(p[1..], fn);
    TranslateCons(p[1..][1..], fn);
    TranslateOne(l3, fn);
  }

  /** Every line of the program is one `parse()` accepts. */
  lemma ProgramLinesOk()
    ensures forall k :: 0 <= k < |Program| ==> LineOk(Program[k])
  {
    var l0, l1, l2, l3 := Program[0], Program[1], Program[2], Program[3];
    assert LineOk(l0) by { PushConstantLine("7", ""); }
    assert LineOk(l1) by { PushConstantLine("8", ""); }
    assert LineOk(l2) by { AddLine(""); }
    assert LineOk(l3) by { PopLocalLine(""); }
    assert Program == [l0, l1, l2, l3];
  }

  /** The translation of the program, chunk by chunk. */
  lemma ProgramText(fn: string)
    ensures forall k :: 0 <= k < |Program| ==> LineOk(Program[k])
    ensures Translate(Program, fn)
         == Echoed(Program[0], PushCode("constant", "7", fn))
          + (Echoed(Program[1], PushCode("constant", "8", fn))
          + (Echoed(Program[2], AddCode)
          + Echoed(Program[3], PopCode("local", "0", fn))))
  {
    ProgramLinesOk();
    var l0, l1, l2, l3 := Program[0], Program[1], Program[2], Program[3];
    assert TranslateLine(l0, fn) == Echoed(l0, PushCode("constant", "7", fn)) by {
      PushConstantLine("7", fn);
    }
    assert TranslateLine(l1, fn) == Echoed(l1, PushCode("constant", "8", fn)) by {
      PushConstantLine("8", fn);
    }
    assert TranslateLine(l2, fn) == Echoed(l2, AddCode) by {
      AddLine(fn);
    }
    assert TranslateLine(l3, fn) == Echoed(l3, PopCode("local", "0", fn)) by {
      PopLocalLine(fn);
    }
    assert Program == [l0, l1, l2, l3];
    TranslateFour(l0, l1, l2, l3, fn);
  }

  /** The machines after each chunk. */
  function Start(): Machine { Machine(0, 0, map[SP := 256, LCL := 300]) }

  function AfterPush7(): Machine { Machine(256, 7, Start().mem[SP := 257][256 := 7]) }

  function AfterPush8(): Machine { Machine(257, 8, AfterPush7().mem[SP := 258][257 := 8]) }

  function AfterAdd(): Machine { Machine(256, 8, AfterPush8().mem[SP := 257][256 := 15]) }

  function AfterPop(): Machine { Machine(300, 15, AfterAdd().mem[R13 := 300][SP := 256][300 := 15]) }

  lemma RunPushes(fn: string, table: map<string, Word>)
    ensures Run(Echoed(Program[0], PushCode("constant", "7", fn)), Start(), table) == Some(AfterPush7())
    ensures Run(Echoed(Program[1], PushCode("constant", "8", fn)), AfterPush7(), table) == Some(AfterPush8())
  {
    assert IsIndex("7") && ParseDecimal("7") == 7;
    assert IsIndex("8") && ParseDecimal("8") == 8;
    PushConstantEffect("7", fn, Start(), table);
    RunEchoed(Program[0], PushCode("constant", "7", fn), Start(), table);
    PushConstantEffect("8", fn, AfterPush7(), table);
    RunEchoed(Program[1], PushCode("constant", "8", fn), AfterPush7(), table);
  }

  lemma RunAddPop(fn: string, table: map<string, Word>)
    ensures Run(Echoed(Program[2], AddCode), AfterPush8(), table) == Some(AfterAdd())
    ensures Run(Echoed(Program[3], PopCode("local", "0", fn)), AfterAdd(), table) == Some(AfterPop())
  {
    assert IsIndex("0") && ParseDecimal("0") == 0;
    AddEffect(AfterPush8(), table);
    RunEchoed(Program[2], AddCode, AfterPush8(), table);
    PopSegmentEffect("local", "0", fn, AfterAdd(), table);
    RunEchoed(Program[3], PopCode("local", "0", fn), AfterAdd(), table);
  }

  /** `push constant 7`, `push constant 8`, `add`, `pop local 0` with the stack at 256 and
      the local segment at 300: the translated code leaves 15 in local 0 and SP back at 256. */
  lemma AddIntoLocal(table: map<string, Word>)
    ensures forall k :: 0 <= k < |Program| ==> LineOk(Program[k])
    ensures var m := Machine(0, 0, map[SP := 256, LCL := 300]);
            var r := Run(Translate(Program, "Main"), m, table);
            r.Some? && Rd(r.value, 300) == 15 && Rd(r.value, SP) == 256
  {
    var fn := "Main";
    var c0, c1 := Echoed(Program[0], PushCode("constant", "7", fn)), Echoed(Program[1], PushCode("constant", "8", fn));
    var c2, c3 := Echoed(Program[2], AddCode), Echoed(Program[3], PopCode("local", "0", fn));
    ProgramText(fn);
    RunPushes(fn, table);
    RunAddPop(fn, table);
    RunThen(c2, c3, AfterPush8(), AfterAdd(), table);
    RunThen(c1, c2 + c3, AfterPush7(), AfterPush8(), table);
    RunThen(c0, c1 + (c2 + c3), Start(), AfterPush7(), table);
  }
}
