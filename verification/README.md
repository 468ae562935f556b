# VM-to-Hack translator: the `Parser` core in Dafny

The `Parser` class of this nand2tetris VM translator reads the lines of one VM module and
appends Hack assembly text to a list of code lines. Each source line goes through these steps:

- Comment lines (starting with `//`), empty lines and lines that split into no tokens are skipped.
- Every other line is echoed as `// <line>`.
- The first token, lower-cased, selects a command kind (`getType`).
- `push`, `pop`, `add` and `sub` call emitters that append fixed instruction strings.
- Every other recognised keyword, and every unknown token, stops after the echo.

The model has two levels.

**Text.** `Parser.Translate` reproduces the emitted strings exactly.
- Java's `String.split(" ")`, ASCII `toLowerCase`, `Integer.parseInt`, 32-bit `5 + i` and `Integer.toString` are modelled in `JavaStrings`.
- The loop over the cursor (`Parser.Parse`, with `hasNext`/`getNext`) is proved to produce the same list as the pure fold.

**Meaning.** `Hack` is a small interpreter for the instruction subset the emitters use.
- The instructions are `@n`, `@symbol`, `D=A`, `D=M`, `A=M`, `AM=M+1`, `AM=M-1`, `A=A-1`, `A=D+A`, `D=D+A`, `M=D`, `M=M+D` and `M=M-D`. Echo comments are no-ops.
- The machine state is A, D and a memory indexed by every 16-bit value of A; arithmetic wraps modulo 2^16.
- The assembler's placement of static symbols is an abstract injective symbol table, with addresses from 16 up.
- `StackEffects` runs every emitted push, pop, add and sub block on this machine for a numeral index: constant, static, temp, the four based segments, and the blocks with no base load (pointer with an index other than 0 and 1, pop constant, unrecognised segment names). It gives the exact machine afterwards and proves the push/pop round trips.
- `Findings` shows two places where the code as written does not do what the segment means. For each, it gives the corrected block and proves it.
- `Scenario` translates and runs a four-line program end to end.

Modules: `Options`, `JavaStrings`, `Parser`, `Hack`, `StackEffects`, `Findings`, `Scenario`.

## Model

All paths are under `src/main/java/ru/riverx/`.

| member | source | states |
|---|---|---|
| Parser.GetType | src/main/java/ru/riverx/Parser.java:65-78 | a token other than INVALID is exactly the keyword of the kind returned |
| Parser.KeywordRoundTrip | src/main/java/ru/riverx/Parser.java:16-29 | each of the eleven keywords is recognised as its own kind, so no entry of the chain is shadowed |
| Parser.GetTypeInvalidIff | src/main/java/ru/riverx/Parser.java:65-78 | INVALID is returned exactly when the token is none of the eleven keywords |
| Parser.KeywordMatchIgnoresCase | src/main/java/ru/riverx/Parser.java:46 | lower-casing before `getType` makes the keyword match case-insensitive in both directions |
| Parser.BaseLoad | src/main/java/ru/riverx/Parser.java:107-118 | local/argument/this/that load exactly one base register; pointer loads one only for index 0 or 1, otherwise none |
| Parser.PushCode | src/main/java/ru/riverx/Parser.java:80-127 | every push block ends with the four push-D lines; constant/static emit 6 lines, temp 14 (the generic tail runs after its own block), based segments 9, pointer 9 or 8 |
| Parser.PopCode | src/main/java/ru/riverx/Parser.java:129-169 | static/temp emit 5 lines starting with the pop-D lines; every other segment, constant included, emits the 11- or 12-line R13 tail with the pop-D lines in it |
| Parser.NoOutputIff | src/main/java/ru/riverx/Parser.java:42-44 | a line yields no output at all, not even its echo, exactly when it starts with `//` or is all spaces (the empty line included) |
| Parser.EchoComesFirst | src/main/java/ru/riverx/Parser.java:45-53 | every other line yields `"// " + line` first and then exactly its command block |
| Parser.EchoOnlyIff | src/main/java/ru/riverx/Parser.java:46-52 | a non-skipped line yields its echo alone exactly when its lower-cased first token is not push, pop, add or sub |
| Parser.TranslateAppend | src/main/java/ru/riverx/Parser.java:39-55 | the output for two consecutive pieces of input is the concatenation of their outputs |
| Parser.TranslateCons | src/main/java/ru/riverx/Parser.java:39-55 | the first line's chunk comes first, then the chunks of the remaining lines |
| Parser.TranslateOne | src/main/java/ru/riverx/Parser.java:39-55 | a single line's output is its own chunk |
| Parser.PushLine | src/main/java/ru/riverx/Parser.java:43-47 | a line `cmd segment index` whose cmd is push in any case yields its echo and the push block for the lower-cased operands |
| Parser.PopLine | src/main/java/ru/riverx/Parser.java:43-48 | the same for pop |
| Parser.WordLine | src/main/java/ru/riverx/Parser.java:43-50 | a one-word add or sub line in any case yields its echo and the five-line add or sub block |
| Parser.WordsLine | src/main/java/ru/riverx/Parser.java:42-43 | a three-word push or pop line (first word push or pop in any case, space-free words, non-empty index) is not skipped and splits on single spaces into exactly its three words |
| Parser.LoopStep | src/main/java/ru/riverx/Parser.java:40-41 | advancing the cursor by one line extends the output by exactly that line's chunk |
| Parser.Parse | src/main/java/ru/riverx/Parser.java:31-63 | the constructor plus `parse()`, driven by `hasNext`/`getNext`, leaves `code` equal to the in-order concatenation of the per-line chunks |
| JavaStrings.SplitEmptyIff | src/main/java/ru/riverx/Parser.java:43-44 | `split(" ")` yields no tokens exactly when the line is non-empty and all spaces |
| JavaStrings.SplitWords | src/main/java/ru/riverx/Parser.java:43 | `split(" ")` of words joined by single spaces gives back the words |
| JavaStrings.LowerMatchIsCaseInsensitive | src/main/java/ru/riverx/Parser.java:46-48 | `toLowerCase()` equals a lower-case keyword exactly when the token equals it ignoring case |
| JavaStrings.ParseInt | src/main/java/ru/riverx/Parser.java:100 | `Integer.parseInt` succeeds exactly on an optionally signed decimal numeral (leading zeros allowed) whose value fits in an int, and then yields that value; everything else is the NumberFormatException (`None`) |
| JavaStrings.IntToStringRoundTrip | src/main/java/ru/riverx/Parser.java:100 | the printed temp address parses back to the same int |
| JavaStrings.Wrap32 | src/main/java/ru/riverx/Parser.java:100 | `5 + i` in int arithmetic is congruent to the true sum modulo 2^32 and equals it when in range |
| Hack.WordArithmeticIsModular | src/main/java/ru/riverx/Parser.java:171-185 | the machine's addition and subtraction are modulo 2^16 and undo each other |
| StackEffects.BaseLoadEffect | src/main/java/ru/riverx/Parser.java:107-118 | the base-register line leaves A at LCL, ARG, THIS or THAT and changes nothing else |
| StackEffects.PushConstantEffect | src/main/java/ru/riverx/Parser.java:81-88 | `push constant i` writes i at the old SP, raises SP by one, changes no other cell |
| StackEffects.PushStaticEffect | src/main/java/ru/riverx/Parser.java:90-97 | `push static i` pushes the cell of the symbol `filename.i` and raises SP by one |
| StackEffects.PopStaticEffect | src/main/java/ru/riverx/Parser.java:130-136 | `pop static i` lowers SP by one and stores the old top in the cell of `filename.i` |
| StackEffects.PushTempEffect | src/main/java/ru/riverx/Parser.java:99-126 | as written, `push temp i` pushes cell 5+i, then also pushes the cell at (that value)+i: SP rises by two |
| StackEffects.SignedTempLineEffect | src/main/java/ru/riverx/Parser.java:142 | for any index `Integer.parseInt` accepts with 0 ≤ 5+i ≤ 32767, sign included, the printed temp address `@` line loads 5+i |
| StackEffects.PopTempEffect | src/main/java/ru/riverx/Parser.java:138-145 | `pop temp i` lowers SP by one and stores the old top at 5+i, for every signed index with 0 ≤ 5+i ≤ 32767: `pop temp -1` overwrites THAT, `pop temp -5` overwrites SP itself, `pop temp +3` writes cell 8 |
| StackEffects.PopTempMinusOneWritesThat | src/main/java/ru/riverx/Parser.java:138-145 | `pop temp -1` is translated without complaint and stores the popped word in THAT (address 4), below the temp segment |
| StackEffects.PushSegmentEffect | src/main/java/ru/riverx/Parser.java:107-126 | `push local/argument/this/that i` pushes the cell at base+i (mod 2^16) and raises SP by one |
| StackEffects.PopSegmentEffect | src/main/java/ru/riverx/Parser.java:146-168 | `pop local/argument/this/that i` puts base+i in R13, lowers SP by one and stores the old top at base+i |
| StackEffects.NoBaseSegments | src/main/java/ru/riverx/Parser.java:107-118 | pointer loads no base register exactly for indices other than 0 and 1; unrecognised segments never do; local, argument, this and that always do |
| StackEffects.PopNoBaseEffect | src/main/java/ru/riverx/Parser.java:146-168 | `pop constant i` and every other pop with no base load are not rejected: they put (the cell A pointed at)+i in R13, lower SP by one and store the old top there |
| StackEffects.PushNoBaseEffect | src/main/java/ru/riverx/Parser.java:107-126 | every push with no base load (pointer 2, an unrecognised segment) emits the 8-line tail and pushes the cell at (the cell A pointed at)+i |
| StackEffects.AddEffect | src/main/java/ru/riverx/Parser.java:171-177 | `add` with y on top and x below lowers SP by one and replaces x by x+y mod 2^16; no other cell changes |
| StackEffects.SubEffect | src/main/java/ru/riverx/Parser.java:179-185 | `sub` lowers SP by one and replaces x by x−y mod 2^16; no other cell changes |
| StackEffects.StaticNameInjective | src/main/java/ru/riverx/Parser.java:91 | distinct indices name distinct static symbols |
| StackEffects.PopPushStaticRoundTrip | src/main/java/ru/riverx/Parser.java:90-97 | `pop static i; push static i` restores SP, leaves the popped value in the static cell, changes no other cell |
| StackEffects.PopStaticKeepsOtherStatics | src/main/java/ru/riverx/Parser.java:130-136 | `pop static i` does not touch the static cell of any other index |
| StackEffects.PushPopSegmentRoundTrip | src/main/java/ru/riverx/Parser.java:107-168 | `push seg i; pop seg i` for the based segments restores SP and the segment cell; only the cell above the stack and R13 may change |
| Findings.PushPopTempAsWritten | src/main/java/ru/riverx/Parser.java:99-106 | as written, `push temp i; pop temp i` leaves SP one higher than before |
| Findings.PushPopTempExample | src/main/java/ru/riverx/Parser.java:99-106 | with SP=256 and 42 in temp 0, `push temp 0; pop temp 0` ends with SP=257 and 0 in temp 0 |
| Findings.PushTempIntendedEffect | src/main/java/ru/riverx/Parser.java:99-105 | the temp block alone, as `push temp` evidently means, pushes cell 5+i and raises SP by one |
| Findings.PushPopTempIntendedRoundTrip | src/main/java/ru/riverx/Parser.java:99-105 | with that correction, `push temp i; pop temp i` restores SP and the temp cell |
| Findings.PointerAliasesThisThat | src/main/java/ru/riverx/Parser.java:113-117 | as written, pointer 0 and pointer 1 emit exactly the code of `this 0` and `that 1`, for push and pop |
| Findings.PushPointerAsWritten | src/main/java/ru/riverx/Parser.java:113-126 | as written, `push pointer 0` pushes the word at the address THIS holds, not THIS |
| Findings.PushPointerExample | src/main/java/ru/riverx/Parser.java:113-126 | with THIS=3000 and nothing at 3000, `push pointer 0` pushes 0 |
| Findings.PushPointerIntendedEffect | src/main/java/ru/riverx/Parser.java:113-117 | the corrected `push pointer i` pushes THIS or THAT itself |
| Findings.PopPointerIntendedEffect | src/main/java/ru/riverx/Parser.java:152-156 | the corrected `pop pointer i` sets THIS or THAT itself to the old top |
| Findings.PopPushPointerIntendedRoundTrip | src/main/java/ru/riverx/Parser.java:152-156 | corrected `pop pointer i; push pointer i` restores SP and leaves the old top in the register |
| Findings.PushPopPointerIntendedRoundTrip | src/main/java/ru/riverx/Parser.java:113-117 | corrected `push pointer i; pop pointer i` restores SP and the register |
| StackEffects.PushPopStaticRoundTrip | src/main/java/ru/riverx/Parser.java:90-97 | `push static i; pop static i` restores SP and the static cell |
| Findings.IntendedPushPopRoundTrip | src/main/java/ru/riverx/Parser.java:80-168 | with both corrections, push then pop of any addressable segment cell (local, argument, this, that, temp, pointer, static) restores SP and the cell; only the cell above the stack and R13 may change |
| Scenario.ProgramText | src/main/java/ru/riverx/Parser.java:39-55 | the program `push constant 7`, `push constant 8`, `add`, `pop local 0` translates to its four echoed blocks in order |
| Scenario.AddIntoLocal | src/main/java/ru/riverx/Parser.java:39-168 | running that translation with SP=256 and LCL=300 leaves 15 at address 300 and SP back at 256 |

## Left out

- CodeWriter.java and Main.java are not part of this model. They hold file and directory I/O and command-line handling. CodeWriter also calls a three-argument `Parser` constructor that does not exist and never calls `parse()`.
- The private emitters `neg`, `eq`, `gt`, `lt`, `and`, `or` and `not` (Parser.java:187-221) are left out because `parse` never calls them. Their keywords are modelled: they emit only the echo.
- call, function, return, label, goto and bootstrap code do not exist in the source, so they are not modelled.
- Java runtime exceptions are not modelled. `segments[1]`/`segments[2]` on a short push/pop line and `Integer.parseInt` on a temp index that is not a number throw in Java. They become the precondition `Parser.LineOk`, and every line given to `Parser.Translate` and `Parser.Parse` must meet it.
- Parser.Parse: it requires every line to be one `parse()` handles without an exception. The partial output before an exception is not modelled.
- JavaStrings.Lower: only ASCII letters are case-folded. Java's locale-sensitive Unicode `toLowerCase` is not modelled.
- JavaStrings.ParseInt: only ASCII digits are accepted. Java also accepts other Unicode decimal digits.
- The real assembler is not modelled. Its placement of static symbols is the abstract `Hack.WellFormedTable`: injective, with addresses of 16 and up. Predefined symbols are limited to SP, LCL, ARG, THIS, THAT and R13, the only ones the emitters use.
- The Hack interpreter covers only the instructions the emitters produce. Any other text makes `Hack.Run` fail (`None`).
- Apart from `StackEffects.PopTempEffect`, the StackEffects and Findings lemmas assume indices are decimal numerals at most 32767 (`StackEffects.IsIndex`), the range an `@n` instruction can load. `pop temp` alone prints only `5 + Integer.parseInt(i)`, so its lemma takes any signed index whose sum with 5 lies in 0..32767; a sum outside that range prints `@` and a negative number or a numeral above 32767, which no lemma describes. A numeral above 32767 produces an `@` line the assembler rejects, and `Hack.Run` fails on it too. Text that is not a legal Hack symbol (such as `-1`) is also rejected by the assembler, but `Hack.Run` fails on it only when the symbol table does not hold that text (see `Hack.Decode` below). A non-numeric index that is a legal symbol (`push constant x`) makes `@x` load the address the assembler gives that symbol; `Hack.Run` runs such code, but no lemma describes that run.
- The StackEffects pop lemmas and the push/pop round trips also assume the stack pointer does not point at the registers they write (SP, R13, or the base register). This excludes aliasing between the stack and those registers. The single-push lemmas hold without it.
- StackEffects.PushTempEffect: it requires i to be an unsigned numeral with 5+i loadable, and SP not to alias SP itself. A signed index (`push temp -1`, `push temp +3`) makes the temp block load 5+i, but the generic tail then prints `@-1` or `@+3` verbatim, a symbol no lemma describes. An index whose temp address wraps past 32 bits is not described either.
- Segment semantics where the code and the segment's meaning disagree follow the code. `pop constant i`, `push/pop pointer i` for i other than 0 and 1, and unrecognised segment names are not rejected: they emit the generic tail with no base load (`Parser.PushCode`, `Parser.PopCode`, `StackEffects.PushNoBaseEffect`, `StackEffects.PopNoBaseEffect`). The segment's meaning would reject such lines.
- Hack.Decode: any non-empty text after `@` that is not all digits is read as a symbol. The assembler's rule for legal symbols (letters, digits, `_`, `.`, `$`, `:`, not starting with a digit) is not modelled, so `@-1` or `@5x` run whenever the abstract symbol table holds that text.
- Hack.Rd: the memory is indexed by all 65,536 values of A. The real Hack CPU uses only the low 15 bits of A as a data address: RAM and the screen end at 24575, and 24576 is the read-only keyboard. So the "no other cell changes" results and the aliasing requirements of StackEffects and Findings hold for this larger memory. If SP held an address of 32768 or more, Hack would write to the cell 32768 lower (for example RAM[0], SP itself), and the lemmas do not describe that. The 15-bit address map and memory-mapped I/O are not modelled.

## Findings

| source | as written | input that shows it | evidently intended | confidence | as-written member | corrected member |
|---|---|---|---|---|---|---|
| src/main/java/ru/riverx/Parser.java:99-106 | `push temp i` has no `return` after its block, so the generic tail at lines 119-126 runs too and pushes a second word | `push temp 0; pop temp 0` with SP=256 and 42 in temp 0: SP ends at 257 and temp 0 holds 0 | return after the temp block, as constant and static do | not executed | Findings.PushPopTempExample | Findings.PushPopTempIntendedRoundTrip |
| src/main/java/ru/riverx/Parser.java:113-117 | `pointer 0`/`pointer 1` load THIS/THAT as a base and address THIS+0 / THAT+1, exactly like `this 0` and `that 1` | `push pointer 0` with SP=256 and THIS=3000: it pushes M[3000]=0, not 3000 | push and pop THIS or THAT itself (`@THIS`, `D=M`, then push; pop, then `@THIS`, `M=D`) | not executed | Findings.PushPointerExample | Findings.PopPushPointerIntendedRoundTrip |

`Parser.Translate` keeps the code as written, so the findings can be stated about it. The corrected blocks are `Findings.PushCodeIntended` and `Findings.PopCodeIntended`. The round trip for every segment, `Findings.IntendedPushPopRoundTrip`, is proved about them.
