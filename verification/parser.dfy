/**
  The line-by-line translator from VM text to Hack assembly text, as the `Parser` class
  does it: skip comments and blank lines, echo every other line as a `// ` comment, then
  dispatch on the lower-cased first token to the emitters of push, pop, add and sub.
  Every emitted string is reproduced exactly.
 */
module Parser {
  import opened Options
  import opened JavaStrings

  /** The command kinds `getType` recognises. */
  datatype CommandType = Push | Pop | Add | Sub | Neg | Eq | Gt | Lt | And | Or | Not | Invalid

  /** The keyword that selects a command kind. */
  function Keyword(t: CommandType): string
    requires t != Invalid
  {
    match t
    case Push => "push"
    case Pop => "pop"
    case Add => "add"
    case Sub => "sub"
    case Neg => "neg"
    case Eq => "eq"
    case Gt => "gt"
    case Lt => "lt"
    case And => "and"
    case Or => "or"
    case Not => "not"
  }

  /** `getType`: the command kind named by an (already lower-cased) token. */
  function GetType(cmd: string): (t: CommandType)
    ensures t != Invalid ==> cmd == Keyword(t)
  {
    if cmd == "push" then Push
    else if cmd == "pop" then Pop
    else if cmd == "add" then Add
    else if cmd == "sub" then Sub
    else if cmd == "neg" then Neg
    else if cmd == "eq" then Eq
    else if cmd == "gt" then Gt
    else if cmd == "lt" then Lt
    else if cmd == "and" then And
    else if cmd == "or" then Or
    else if cmd == "not" then Not
    else Invalid
  }

  /** Every keyword is recognised as its own kind, so the table has no shadowed entry. */
  lemma KeywordRoundTrip(t: CommandType)
    requires t != Invalid
    ensures GetType(Keyword(t)) == t
  {
  }

  /** A token is recognised exactly when it is one of the eleven keywords. */
  lemma GetTypeInvalidIff(cmd: string)
    ensures GetType(cmd) == Invalid <==> forall t :: t != Invalid ==> cmd != Keyword(t)
  {
    if GetType(cmd) == Invalid {
      forall t | t != Invalid ensures cmd != Keyword(t) {
        KeywordRoundTrip(t);
      }
    }
  }

  /** The keyword match is case-insensitive: any spelling of a keyword in upper or lower case
      selects its kind, and nothing else does. */
  lemma KeywordMatchIgnoresCase(tok: string, t: CommandType)
    requires t != Invalid
    ensures GetType(Lower(tok)) == t <==> EqualsIgnoreCase(tok, Keyword(t))
  {
    LowerAt(Keyword(t));
    assert Lower(Keyword(t)) == Keyword(t);
    LowerMatchIsCaseInsensitive(tok, Keyword(t));
    KeywordRoundTrip(t);
  }

  /* ---------------- emitters ---------------- */

  /** The four lines that push D: store D at the top of the stack and bump SP. */
  const PushDLines: seq<string> := ["@SP", "AM=M+1", "A=A-1", "M=D"]

  /** The three lines that pop the top of the stack into D. */
  const PopDLines: seq<string> := ["@SP", "AM=M-1", "D=M"]

  /** The temp address `5 + Integer.parseInt(i)`, computed in int arithmetic and printed. */
  function TempAddress(i: string): string
    requires ParseInt(i).Some?
  {
    IntToString(Wrap32(5 + ParseInt(i).value))
  }

  /** The base-register load shared by the generic tails of push and pop: LCL, ARG, THIS or
      THAT for local, argument, this and that, and THIS or THAT again for pointer 0 and 1. */
  function BaseLoad(segment: string, i: string): (r: seq<string>)
    ensures |r| <= 1
    ensures segment in {"local", "argument", "this", "that"} ==> |r| == 1
    ensures segment == "pointer" ==> |r| == if i == "0" || i == "1" then 1 else 0
  {
    (if segment == "local" then ["@LCL"] else [])
    + (if segment == "argument" then ["@ARG"] else [])
    + (if segment == "this" || (segment == "pointer" && i == "0") then ["@THIS"] else [])
    + (if segment == "that" || (segment == "pointer" && i == "1") then ["@THAT"] else [])
  }

  /** `push(segment, i)`. Only constant and static return early; temp falls through into the
      generic base-plus-index tail, and `pointer` loads THIS or THAT as a base register. */
  function PushCode(segment: string, i: string, filename: string): (r: seq<string>)
    requires segment == "temp" ==> ParseInt(i).Some?
    ensures |r| >= 4 && r[|r| - 4..] == PushDLines
    ensures segment == "constant" || segment == "static" ==> |r| == 6
    ensures segment == "temp" ==> |r| == 14
    ensures segment in {"local", "argument", "this", "that"} ==> |r| == 9
    ensures segment == "pointer" ==> |r| == if i == "0" || i == "1" then 9 else 8
  {
    if segment == "constant" then
      ["@" + i, "D=A", "@SP", "AM=M+1", "A=A-1", "M=D"]
    else if segment == "static" then
      ["@" + filename + "." + i, "D=M", "@SP", "AM=M+1", "A=A-1", "M=D"]
    else
      (if segment == "temp" then ["@" + TempAddress(i), "D=M", "@SP", "AM=M+1", "A=A-1", "M=D"] else [])
      + BaseLoad(segment, i)
      + ["D=M", "@" + i, "A=D+A", "D=M", "@SP", "AM=M+1", "A=A-1", "M=D"]
  }

  /** `pop(segment, i)`. static and temp store straight into their cell; every other segment,
      constant included, computes base+i into R13 and stores through it. */
  function PopCode(segment: string, i: string, filename: string): (r: seq<string>)
    requires segment == "temp" ==> ParseInt(i).Some?
    ensures segment == "static" || segment == "temp" ==> |r| == 5 && r[..3] == PopDLines
    ensures segment != "static" && segment != "temp" ==> |r| >= 11 && r[|r| - 6..|r| - 3] == PopDLines
    ensures segment in {"local", "argument", "this", "that"} ==> |r| == 12
    ensures segment == "pointer" ==> |r| == if i == "0" || i == "1" then 12 else 11
  {
    if segment == "static" then
      ["@SP", "AM=M-1", "D=M", "@" + filename + "." + i, "M=D"]
    else if segment == "temp" then
      ["@SP", "AM=M-1", "D=M", "@" + TempAddress(i), "M=D"]
    else
      var r := BaseLoad(segment, i)
        + ["D=M", "@" + i, "D=D+A", "@R13", "M=D", "@SP", "AM=M-1", "D=M", "@R13", "A=M", "M=D"];
      assert r[|r| - 6..|r| - 3] == PopDLines;
      r
  }

  /** `add()`. */
  const AddCode: seq<string> := ["@SP", "AM=M-1", "D=M", "A=A-1", "M=M+D"]

  /** `sub()`. */
  const SubCode: seq<string> := ["@SP", "AM=M-1", "D=M", "A=A-1", "M=M-D"]

  /* ---------------- one line ---------------- */

  /** Lines `parse` passes over before echoing anything. */
  predicate Skipped(line: string) {
    StartsWith(line, "//") || line == "" || |Split(line)| == 0
  }

  /** The operands a push or pop line needs so that `segments[1]`, `segments[2]` and the
      temp index's `Integer.parseInt` do not throw. */
  predicate OperandsOk(segments: seq<string>)
    requires |segments| >= 1
  {
    var t := GetType(Lower(segments[0]));
    (t == Push || t == Pop) ==>
      |segments| >= 3 && (Lower(segments[1]) == "temp" ==> ParseInt(Lower(segments[2])).Some?)
  }

  /** A line `parse` handles without a runtime exception. */
  predicate LineOk(line: string) {
    Skipped(line) || OperandsOk(Split(line))
  }

  /** The command block the `switch` in `parse` emits for the tokens of a line. */
  function Dispatch(segments: seq<string>, filename: string): seq<string>
    requires |segments| >= 1 && OperandsOk(segments)
  {
    match GetType(Lower(segments[0]))
    case Push => PushCode(Lower(segments[1]), Lower(segments[2]), filename)
    case Pop => PopCode(Lower(segments[1]), Lower(segments[2]), filename)
    case Add => AddCode
    case Sub => SubCode
    case _ => []
  }

  /** What one iteration of the loop in `parse` appends for one source line. */
  function TranslateLine(line: string, filename: string): seq<string>
    requires LineOk(line)
  {
    if StartsWith(line, "//") || line == "" then []
    else
      var segments := Split(line);
      if |segments| == 0 then [] else ["// " + line] + Dispatch(segments, filename)
  }

  /** The chunks `chunk` gives the lines, concatenated in order. */
  function Concat(chunk: string --> seq<string>, lines: seq<string>): seq<string>
    requires forall k :: 0 <= k < |lines| ==> chunk.requires(lines[k])
  {
    if lines == [] then [] else chunk(lines[0]) + Concat(chunk, lines[1..])
  }

  /** Concatenating the chunks of two pieces of input is concatenating their results. */
  lemma {:induction false} ConcatAppend(chunk: string --> seq<string>, a: seq<string>, b: seq<string>)
    requires forall k :: 0 <= k < |a| ==> chunk.requires(a[k])
    requires forall k :: 0 <= k < |b| ==> chunk.requires(b[k])
    ensures Concat(chunk, a + b) == Concat(chunk, a) + Concat(chunk, b)
  {
    if a == [] {
      assert a + b == b;
    } else {
      assert (a + b)[1..] == a[1..] + b;
      ConcatAppend(chunk, a[1..], b);
    }
  }

  /** A single line gives its own chunk. */
  lemma ConcatOne(chunk: string --> seq<string>, line: string)
    requires chunk.requires(line)
    ensures Concat(chunk, [line]) == chunk(line)
  {
    assert [line][1..] == [];
    assert chunk(line) + [] == chunk(line);
  }

  /** The whole output of `parse`: the per-line chunks in source order. */
  function Translate(lines: seq<string>, filename: string): seq<string>
    requires forall k :: 0 <= k < |lines| ==> LineOk(lines[k])
  {
    Concat(line requires LineOk(line) => TranslateLine(line, filename), lines)
  }

  /* ---------------- properties of the translation ---------------- */

  /** A line produces no output at all, not even its echo, exactly when it starts with `//`
      or consists of spaces only (the empty line included). */
  lemma NoOutputIff(line: string, filename: string)
    requires LineOk(line)
    ensures TranslateLine(line, filename) == [] <==> StartsWith(line, "//") || AllSpaces(line)
  {
    SplitEmptyIff(line);
  }

  /** Every other line starts its chunk with its own echo, then the command block: the
      defining equation of `TranslateLine` for a line that is not skipped. */
  lemma EchoComesFirst(line: string, filename: string)
    requires LineOk(line) && !Skipped(line)
    ensures TranslateLine(line, filename)[0] == "// " + line
    ensures TranslateLine(line, filename)[1..] == Dispatch(Split(line), filename)
  {
  }

  /** Only push, pop, add and sub emit code: a non-skipped line emits its echo alone exactly
      when its first token, lower-cased, is none of those four keywords. */
  lemma EchoOnlyIff(line: string, filename: string)
    requires LineOk(line) && !Skipped(line)
    ensures TranslateLine(line, filename) == ["// " + line]
        <==> GetType(Lower(Split(line)[0])) !in {Push, Pop, Add, Sub}
  {
    var segments := Split(line);
    var block := Dispatch(segments, filename);
    assert TranslateLine(line, filename) == ["// " + line] + block;
    if GetType(Lower(segments[0])) in {Push, Pop, Add, Sub} {
      assert |block| >= 5;
      assert |TranslateLine(line, filename)| > 1;
    }
  }

  /** The chunks of consecutive pieces of the input concatenate. */
  lemma TranslateAppend(a: seq<string>, b: seq<string>, filename: string)
    requires forall k :: 0 <= k < |a| ==> LineOk(a[k])
    requires forall k :: 0 <= k < |b| ==> LineOk(b[k])
    ensures Translate(a + b, filename) == Translate(a, filename) + Translate(b, filename)
  {
    ConcatAppend(line requires LineOk(line) => TranslateLine(line, filename), a, b);
  }

  /** A push line written as three space-separated words translates to its echo and the
      push block for the lower-cased segment and index. */
  lemma PushLine(line: string, cmd: string, segment: string, index: string, filename: string)
    requires line == cmd + " " + segment + " " + index
    requires Lower(cmd) == "push"
    requires ' ' !in segment && ' ' !in index && index != ""
    requires Lower(segment) == "temp" ==> ParseInt(Lower(index)).Some?
    ensures LineOk(line)
    ensures TranslateLine(line, filename) == ["// " + line] + PushCode(Lower(segment), Lower(index), filename)
  {
    WordsLine(cmd, segment, index);
    var segments := Split(line);
    assert segments == [cmd, segment, index];
    assert GetType(Lower(segments[0])) == Push;
    assert OperandsOk(segments);
    assert Dispatch(segments, filename) == PushCode(Lower(segment), Lower(index), filename);
  }

  /** The same for a pop line. */
  lemma PopLine(line: string, cmd: string, segment: string, index: string, filename: string)
    requires line == cmd + " " + segment + " " + index
    requires Lower(cmd) == "pop"
    requires ' ' !in segment && ' ' !in index && index != ""
    requires Lower(segment) == "temp" ==> ParseInt(Lower(index)).Some?
    ensures LineOk(line)
    ensures TranslateLine(line, filename) == ["// " + line] + PopCode(Lower(segment), Lower(index), filename)
  {
    WordsLine(cmd, segment, index);
    var segments := Split(line);
    assert segments == [cmd, segment, index];
    assert GetType(Lower(segments[0])) == Pop;
    assert OperandsOk(segments);
    assert Dispatch(segments, filename) == PopCode(Lower(segment), Lower(index), filename);
  }

  /** A one-word line: add and sub translate to their echo and their block. */
  lemma WordLine(cmd: string, filename: string)
    requires Lower(cmd) == "add" || Lower(cmd) == "sub"
    ensures LineOk(cmd)
    ensures TranslateLine(cmd, filename) == ["// " + cmd] + (if Lower(cmd) == "add" then AddCode else SubCode)
  {
    LowerAt(cmd);
    assert ' ' !in cmd;
    assert cmd != "" && cmd[0] != '/' by {
      assert Lower(cmd)[0] == LowerChar(cmd[0]);
    }
    assert Split(cmd) == [cmd];
  }

  /** Three space-free words with a lower-case keyword in front split back into themselves. */
  lemma WordsLine(cmd: string, segment: string, index: string)
    requires Lower(cmd) == "push" || Lower(cmd) == "pop"
    requires ' ' !in segment && ' ' !in index && index != ""
    ensures !Skipped(cmd + " " + segment + " " + index)
    ensures Split(cmd + " " + segment + " " + index) == [cmd, segment, index]
  {
    var line := cmd + " " + segment + " " + index;
    LowerAt(cmd);
    assert ' ' !in cmd;
    assert Join([cmd, segment, index]) == line by {
      assert Join([segment, index]) == segment + " " + index;
      assert [cmd, segment, index][1..] == [segment, index];
    }
    SplitWords([cmd, segment, index]);
    assert line[0] == cmd[0] && Lower(cmd)[0] == LowerChar(cmd[0]);
    assert !StartsWith(line, "//");
  }

  /* ---------------- the parser object and its loop ---------------- */

  /** `hasNext()`: the cursor `count` has not reached `size`, the number of lines. */
  predicate HasNext(count: nat, size: nat) {
    count < size
  }

  /** `getNext()`: the line under the cursor and the advanced cursor, or "" with the cursor
      left where it is once the lines are exhausted. */
  function GetNext(lines: seq<string>, count: nat, size: nat): (string, nat)
    requires size == |lines|
  {
    if HasNext(count, size) then (lines[count], count + 1) else ("", count)
  }

  /** The constructor `Parser(lines, filename)` followed by `parse()`. The object's fields
      `count`, `size` and `code` are the locals; the loop appends, line by line, exactly what
      the functional `Translate` gives for the whole input. */
  method Parse(lines: seq<string>, filename: string) returns (code: seq<string>)
    requires forall k :: 0 <= k < |lines| ==> LineOk(lines[k])
    ensures code == Translate(lines, filename)
  {
    code := [];
    var count: nat := 0;
    var size: nat := |lines|;
    while HasNext(count, size)
      invariant size == |lines| && count <= size
      invariant code == Translate(lines[..count], filename)
      decreases size - count
    {
      var next := GetNext(lines, count, size);
      var line := next.0;
      count := next.1;
      LoopStep(lines, count, filename);
      code := code + TranslateLine(line, filename);
    }
    assert lines[..count] == lines;
  }

  /** Reading one more line extends the translation by that line's chunk. */
  lemma LoopStep(lines: seq<string>, count: nat, filename: string)
    requires 0 < count <= |lines|
    requires forall k :: 0 <= k < |lines| ==> LineOk(lines[k])
    ensures Translate(lines[..count], filename)
         == Translate(lines[..count - 1], filename) + TranslateLine(lines[count - 1], filename)
  {
    assert lines[..count] == lines[..count - 1] + [lines[count - 1]];
    TranslateAppend(lines[..count - 1], [lines[count - 1]], filename);
    TranslateOne(lines[count - 1], filename);
  }

  /** The first line's chunk comes first, then the rest: the defining equation of the fold,
      stated for `Translate`. */
  lemma TranslateCons(lines: seq<string>, filename: string)
    requires lines != []
    requires forall k :: 0 <= k < |lines| ==> LineOk(lines[k])
    ensures Translate(lines, filename) == TranslateLine(lines[0], filename) + Translate(lines[1..], filename)
  {
    assert lines == [lines[0]] + lines[1..];
    TranslateAppend([lines[0]], lines[1..], filename);
    TranslateOne(lines[0], filename);
  }

  /** A single line translates to its own chunk: the fold's defining equations for a
      one-line input. */
  lemma TranslateOne(line: string, filename: string)
    requires LineOk(line)
    ensures Translate([line], filename) == TranslateLine(line, filename)
  {
    ConcatOne(l requires LineOk(l) => TranslateLine(l, filename), line);
  }
}
