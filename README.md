# canmatrix `.sym` reader and signal writer, in Dafny

This project models the symbol-file backend of canmatrix (`canmatrix.formats.sym`):

- `sym.load` reads a `.sym` document into frames, signals, value tables and an ordered list of load errors.
- `sym.create_signal` writes a signal back as one `Var=` line.

The implementation file `src/canmatrix/formats/sym.py` is not part of this model. The behaviour is reconstructed from the tests in `src/canmatrix/tests/test_sym.py`, which fix what the reader and writer must do. Where the tests are silent, the model takes the simplest reading consistent with them (see "## Left out").

Modules, in dependency order:

- `Wrappers`: `Option` and `Result`.
- `Text`: trimming, decimal and hexadecimal numerals and their round trips.
- `Tokenizer`: quote-aware splitting on `,`, `:` or blanks; joining; `//` comment stripping outside quotes; the cleaning every line goes through; whitespace-separated words.
- `Diagnostics`: the load errors (`DuplicateMuxIdError` and the others), each with its 1-based line number, rendered as `line <N>: <message>`.
- `ValueTables`: `enum Name(code="label", ...)` declarations, and a reference rendering of declarations to state the round trip against.
- `Signals`: `Var=` lines (type keyword, bit range, `/ln:`, `/e:`, `/d:` and other switches), hexadecimal `...h` values and `Mux=` lines.
- `Serializer`: `create_signal`, with the `/d:` segment taken from the stored initial-value literal.
- `Loader`: the reader as a pure state machine over the lines. It tracks the section, the open frame (re-opened by name), the per-frame multiplexer claims and the load errors. A value-table declaration runs on over the following lines until its closing parenthesis.
- `Reader`: the same reader as an object (`SymReader`) whose fields are updated in place line by line. Each method is proved to do what the corresponding `Loader` function does. `Reader.Read` is proved equal to `Loader.Load`.
- `LoadProperties`: guarantees over any input. Errors are only appended, in line order, and each is on a line of the input. Frames are never lost or renamed and have distinct names. A multiplexer claim is never overwritten.
- `TableLoading`: value tables as they are met in a whole input (multi-line declarations, `/e:` references).
- `Scenarios` and `TableScenario`: each document of the tests, read through the model to the end.

## Model

| member | source | states |
|---|---|---|
| Scenarios.CollidingMuxValues | src/canmatrix/tests/test_sym.py:11-52 | In the three `[MuxedId]` block document, the load has exactly one error. It is a duplicate-multiplexer error on line 16 (the second claim of `1h`), its text starts with `line 16: ` and contains both `FirstMux` and `SecondMux`. There is one frame, and it keeps the first claims of `0h` (TheMux, line 8) and `1h` (FirstMux, line 12). |
| Scenarios.CollisionMessage | src/canmatrix/tests/test_sym.py:44-52 | The refused claim on line 16 renders as text starting with `line 16: ` and naming both groups. |
| Scenarios.ParseLongNameWithColon | src/canmatrix/tests/test_sym.py:55-74 | The load has no error and one frame `pass` with one signal `Password`. Its `LongName` attribute is exactly `Access Level : Password`, colon and blanks kept. |
| Scenarios.ExportDefaultDecimalPlaces | src/canmatrix/tests/test_sym.py:77-109 | For a non-float signal with literal `37` and a float signal with literal `37.1`, the written line has exactly one blank-separated segment starting with `/d:`, and the text after `/d:` is the literal. |
| Scenarios.ParseFloat | src/canmatrix/tests/test_sym.py:112-143 | `float` with `0,32` and `double` with `0,64` each load with no error, and the frame `Symbol1` has one signal `a_signal` that is floating-point and as wide as declared. The trailing `//` comment on the header line causes nothing. |
| TableScenario.ReadValueTables | src/canmatrix/tests/test_sym.py:146-201 | The value-table document loads to exactly the database with no error and the frame `StatusBits`. Its tables are exactly `State` (16 entries, quoted commas kept) and `Relay` (4 entries). Both signals keep their `/e:` references. |
| TableScenario.StateDeclared | src/canmatrix/tests/test_sym.py:154-156 | The three lines of `enum State(...)` (irregular blanks, a trailing blank) join to the declaration of its 16 entries. |
| TableScenario.RelayDeclared | src/canmatrix/tests/test_sym.py:157 | The one-line `enum Relay(...)` is the declaration of its 4 entries. |
| TableScenario.StateTableRead | src/canmatrix/tests/test_sym.py:181-198 | The table of the `State` entries is exactly the expected 16-entry map. |
| TableScenario.RelayTableRead | src/canmatrix/tests/test_sym.py:175-180 | The table of the `Relay` entries is exactly the expected 4-entry map. |
| Reader.Read | src/canmatrix/tests/test_sym.py:36 | Reading the lines with the mutable reader gives exactly `Loader.Load` of the lines. |
| Reader.SymReader.ReadAt | src/canmatrix/tests/test_sym.py:14-31 | Reading one line (or one whole multi-line declaration) in place advances the index. Reading on from there gives the same result as reading on from the old state. |
| Reader.SymReader.constructor | src/canmatrix/tests/test_sym.py:36 | A new reader is the initial state: outside any section, no frame, table or error. |
| Reader.SymReader.Open | src/canmatrix/tests/test_sym.py:20-29 | A `[Name]` header updates the fields as `Loader.OpenFrame`: it re-opens the frame of that name or appends a new one. |
| Reader.SymReader.Lookup | src/canmatrix/tests/test_sym.py:25 | The loop finds the first frame with the name, as `Loader.FindFrame`. |
| Reader.SymReader.DeclareSignal | src/canmatrix/tests/test_sym.py:23 | A `Var=` line updates the fields as `Loader.VarStep`. |
| Reader.SymReader.DeclareMux | src/canmatrix/tests/test_sym.py:22-30 | A `Mux=` line updates the fields as `Loader.MuxStep`. |
| Reader.SymReader.FillFrame | src/canmatrix/tests/test_sym.py:21-23 | An `ID=`, `Type=`, `DLC=`, `Var=` or `Mux=` line updates the fields as `Loader.FrameStep`. |
| Reader.SymReader.Step | src/canmatrix/tests/test_sym.py:15-31 | One cleaned line updates the fields as `Loader.StepLine`. |
| Reader.SymReader.DeclareTable | src/canmatrix/tests/test_sym.py:154-157 | A gathered declaration updates the fields as `Loader.EnumStep`. |
| Reader.SymReader.ReportAll | src/canmatrix/tests/test_sym.py:37-40 | The loop appends one error per kind, in order, on the given line, as `Loader.AddErrors`. |
| Reader.GatherLines | src/canmatrix/tests/test_sym.py:154-156 | The loop joins continuation lines as `Loader.Gather`. |
| Loader.Classify | src/canmatrix/tests/test_sym.py:15-31 | A cleaned line is blank exactly when empty. Every other kind is recognised by its keyword or shape and carries the text after the keyword. |
| Loader.FindFrame | src/canmatrix/tests/test_sym.py:20-29 | The result is the first frame of that name, or none when no frame has it. |
| Loader.OpenFrame | src/canmatrix/tests/test_sym.py:20-29 | The open frame has the header's name. No error is added, and every earlier frame and claim is kept. |
| Loader.VarStep | src/canmatrix/tests/test_sym.py:23 | A `Var=` line that parses appends its signal, under the current multiplexer value and with an undeclared table reference dropped, to the open frame, and changes no other frame. One that does not parse appends its error and changes no frame. Section, open frame, multiplexer value and tables are unchanged, and errors are only appended, on this line. |
| Loader.Resolved | src/canmatrix/tests/test_sym.py:164-165 | A stored signal refers only to a declared table. A reference to a declared table is kept, and an undeclared one is dropped with nothing else changed. |
| Loader.MuxStep | src/canmatrix/tests/test_sym.py:22-30 | Errors are only appended, all on this line. Frames keep their places, names and claims. |
| Loader.FrameStep | src/canmatrix/tests/test_sym.py:21-31 | Errors are only appended, all on this line. Frames keep their places, names and claims. |
| Loader.LineStep | src/canmatrix/tests/test_sym.py:15-31 | The state stays valid. Errors are only appended, on this line. Frames are kept. |
| Loader.Gather | src/canmatrix/tests/test_sym.py:154-156 | Continuation lines are appended until the declaration is closed, or the input ends unclosed. An already closed declaration consumes no line. |
| Loader.EnumStep | src/canmatrix/tests/test_sym.py:154-157 | A declaration only adds a table or appends errors on its first line. Frames, section and open frame are unchanged. |
| LoadProperties.LoadErrorsInLineOrder | src/canmatrix/tests/test_sym.py:37-44 | The load errors of any input are sorted by line number, and each is a 1-based line of the input. |
| LoadProperties.LoadFromErrors | src/canmatrix/tests/test_sym.py:37-44 | Reading on only appends errors, in order, each on a line read. |
| LoadProperties.LoadFromKeeps | src/canmatrix/tests/test_sym.py:22-30 | Reading on never removes or renames a frame and never overwrites a multiplexer claim. |
| LoadProperties.LoadFrameNamesDistinct | src/canmatrix/tests/test_sym.py:20-29 | Repeated `[Name]` blocks build one frame: the frames of any load have distinct names. |
| LoadProperties.OpenFrameDistinct | src/canmatrix/tests/test_sym.py:20-29 | A header of a known name leaves the frames unchanged. An unknown name appends one new frame. Names stay distinct. |
| LoadProperties.MuxLineClaims | src/canmatrix/tests/test_sym.py:22-52 | A `Mux=` line adds an error exactly when its value is already claimed in the frame. The error is on the new line and names the old and new groups, and the frames stay unchanged. Otherwise no error is added, and only the open frame changes, by the new claim of the value for the group on this line. Either way the following signals belong to the value, and the open frame, section and tables are unchanged. |
| Diagnostics.RenderLineNumber | src/canmatrix/tests/test_sym.py:46-49 | A rendered error starts with `line <N>: ` for its own line number, which can be read back. |
| Diagnostics.LineNumberRoundTrip | src/canmatrix/tests/test_sym.py:47-49 | `line <N>: <message>` reads back as N for any message. |
| Diagnostics.DuplicateNamesBothGroups | src/canmatrix/tests/test_sym.py:51-52 | The collision message contains both group names. |
| Signals.ParseType | src/canmatrix/tests/test_sym.py:115-116 | Exactly `unsigned`, `signed`, `float` and `double` are types. `float` and `double` are exactly the float types. |
| Signals.ParseVar | src/canmatrix/tests/test_sym.py:115-143 | A `Var=` text parses exactly when it has at least three fields, the second a type keyword and the third a bit range; otherwise the error names the first of these that fails. The signal is named by the first field without quotes and starts at the range's start. It is floating-point exactly for `float` and `double`, which fix its size at 32 and 64 bits; signed exactly for `signed`; otherwise as long as the range says. A size mismatch is its only diagnostic, and it has no multiplexer value yet. |
| Signals.ParseVarFields | src/canmatrix/tests/test_sym.py:115-131 | Fields with a type keyword and a bit range always declare a signal: named by the first field, starting at the range's start, floating-point exactly for `float`/`double` with 32/64 bits, signed exactly for `signed`, otherwise as long as the range. |
| Signals.ParseSwitch | src/canmatrix/tests/test_sym.py:66 | The tag is taken from the start of the switch and ends at the first colon outside quotes, so a tag without quotes holds no colon. The value is everything after that colon, quotes removed, or empty when there is no colon. |
| Signals.ParseSwitchOf | src/canmatrix/tests/test_sym.py:66-74 | A switch whose tag has no colon or quote reads as that tag and the whole rest without quotes, later colons included. |
| Signals.ApplySwitch | src/canmatrix/tests/test_sym.py:66 | `/ln:` sets the `LongName` attribute, `/e:` the value-table reference and `/d:` the initial value to the switch's value; any other tag is stored as an attribute of its own name; a token that is not a switch changes nothing. A switch never changes a signal's name, bit range, signedness, float flag or multiplexer value. |
| Signals.LongNameKeepsColons | src/canmatrix/tests/test_sym.py:66-74 | `/ln:` followed by any text sets `LongName` to that text without its quotes, colons kept. |
| Signals.ApplySwitchesConcat | src/canmatrix/tests/test_sym.py:164-165 | Switches apply left to right: applying `a + b` is applying `a` then `b`. |
| Signals.ParseBitRangeText | src/canmatrix/tests/test_sym.py:23 | A written `start,length` reads back as itself. |
| Signals.ParseHexValueText | src/canmatrix/tests/test_sym.py:161 | A written `<hex>h` value reads back as itself. |
| Signals.ParseMuxText | src/canmatrix/tests/test_sym.py:22 | A written `Mux=` declaration with a plain group name reads back as itself. |
| Serializer.CreateSignal | src/canmatrix/tests/test_sym.py:98 | The written line starts with `Var=`. |
| Serializer.ReadCreatedSignal | src/canmatrix/tests/test_sym.py:98-109 | A written line is unchanged by the reader's cleaning, and it reads back as exactly the written signal, long name and value table included, with no diagnostic. |
| Serializer.ParseVarOfCreated | src/canmatrix/tests/test_sym.py:98 | The fields of a written line parse back to the signal. |
| Serializer.DecimalSegment | src/canmatrix/tests/test_sym.py:100-109 | Splitting a written line on whitespace gives exactly one segment starting with `/d:`, and it is `/d:` followed by the stored initial-value literal. |
| Serializer.TypeKeywordRoundTrip | src/canmatrix/tests/test_sym.py:90-92 | The written type keyword parses back to the signal's type. |
| Serializer.WithPrefix | src/canmatrix/tests/test_sym.py:102-106 | A segment is selected exactly when it is one of the segments and starts with the prefix. |
| ValueTables.ParseEnumDecl | src/canmatrix/tests/test_sym.py:154-157 | A rendered declaration is closed and reads back as its name and exactly the table of its entries, whatever whitespace precedes each entry and whatever commas the quoted labels hold. |
| ValueTables.TableOf | src/canmatrix/tests/test_sym.py:174-199 | A table's codes are exactly the codes of its entries. |
| ValueTables.ExtendDistinct | src/canmatrix/tests/test_sym.py:174-199 | With distinct codes, each code maps to its own label. |
| ValueTables.ExtendKeepsOthers | src/canmatrix/tests/test_sym.py:174-199 | Entries for other codes leave a code's label alone. |
| TableLoading.DeclarationAcrossLines | src/canmatrix/tests/test_sym.py:154-156 | A declaration over several lines, each but the last ending with a comma, adds its table under its name, reports nothing, and reading resumes after its last line. |
| TableLoading.GatherDeclaration | src/canmatrix/tests/test_sym.py:154-156 | Gathering stops exactly after the declaration's last line, with its lines joined. |
| TableLoading.CommaNotClosed | src/canmatrix/tests/test_sym.py:154-155 | A line ending with a comma does not close a declaration. |
| TableLoading.TableReference | src/canmatrix/tests/test_sym.py:164-165 | A signal keeps its `/e:` reference exactly when the table is declared. Otherwise one error names the table. |
| TableLoading.SignalAppended | src/canmatrix/tests/test_sym.py:164-165 | A `Var=` line that parses reports its own diagnostics on its line, in order, then one error naming its table exactly when the table is undeclared, and nothing else. |
| Tokenizer.Clean | src/canmatrix/tests/test_sym.py:15 | A cleaned line is stripped. |
| Tokenizer.StripCommentIdempotent | src/canmatrix/tests/test_sym.py:15 | What is left after stripping has no comment, so stripping again changes nothing. |
| Tokenizer.StripAppendedComment | src/canmatrix/tests/test_sym.py:15 | A `// ...` comment appended to a line whose quotes are closed is removed exactly. |
| Tokenizer.QuotedHasNoComment | src/canmatrix/tests/test_sym.py:66 | A `//` inside quotes is not a comment. |
| Tokenizer.SplitQuotedJoin | src/canmatrix/tests/test_sym.py:154 | Splitting joined fields gives the fields back, quoted delimiters included. |
| Tokenizer.JoinSplitQuoted | src/canmatrix/tests/test_sym.py:154 | Joining the fields of a split on one delimiter gives the input back. |
| Tokenizer.TokensOfJoin | src/canmatrix/tests/test_sym.py:66 | Blank-joined tokens read back as the same tokens without quotes. |
| Tokenizer.UnquoteQuoted | src/canmatrix/tests/test_sym.py:66 | Removing the quotes around a quote-free text gives the text. |
| Tokenizer.WordsAreInfixes | src/canmatrix/tests/test_sym.py:104 | Every whitespace-separated segment is non-empty, holds no whitespace and occurs in the line. |
| Text.TrimPadded | src/canmatrix/tests/test_sym.py:155 | Stripping removes exactly the surrounding whitespace. |
| Text.ParseNatRoundTrip | src/canmatrix/tests/test_sym.py:65 | A written decimal reads back as itself. |
| Text.ParseHexRoundTrip | src/canmatrix/tests/test_sym.py:161 | A written hexadecimal reads back as itself. |
| Text.ParseIntRoundTrip | src/canmatrix/tests/test_sym.py:154 | A written integer code reads back as itself. |

## Left out

- Byte-stream input and UTF-8 decoding: the reader takes the document as a sequence of lines.
- `FormatVersion=` and `Title=` lines are skipped after their comment is removed, and their values are not kept.
- The wider `CanMatrix`, `Frame` and `Signal` container API is modelled only as far as the tests use it. That is frames, signals, attributes, value tables and load errors; `add_frame` and `add_signal` are appending to a sequence.
- Floating-point decoding of initial values, physical scaling, factor, offset, units, minimum and maximum: the initial value is kept as its literal text, which is all `/d:` needs.
- Frame identifiers and DLC are parsed and stored, but no property is stated about their meaning. `Type=Extended` sets the extended flag.
- Error kinds other than the duplicate multiplexer value, and their message texts, are modelling choices. The tests fix only the duplicate error's kind, line and message shape. The same holds for an undeclared `/e:` table being dropped and reported, and for a floating-point type overriding the declared length.
- Serializer.CreateSignal: writes only name, type, bit range, `/e:`, `/d:` and `/ln:`. Other attributes, the multiplexer switch, units and scaling are not written, and the round trip is stated only for signals without them (`Serializer.Exportable`).
- Serializer.DecimalSegment: stated for literals without whitespace, quotes or slashes.
- Tokenizer.Words: splits on the whitespace characters of `Text.IsSpace` only, not on the full Unicode set of Python's `str.split()`.
- Text.Trim: strips only blank, tab, carriage return and line feed, not the vertical tab, form feed, `\x1c`-`\x1f`, `\x85`, `\xa0` and the other Unicode spaces that Python's `str.strip()` also removes.
- Text.ParseInt: accepts only an optional `-` followed by decimal digits. Python's `int()` also accepts a leading `+`, surrounding whitespace and `_` between digits.
- Tokenizer.Tokens: splits on blanks outside double quotes and drops the double quotes. Single quotes and backslash escapes, which `shlex.split` honours, are ordinary characters here.
- Logging, the CLI, format auto-detection and other format backends.
