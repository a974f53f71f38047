/**
  The documents of the reader's and writer's tests, read through the model:
  colliding multiplexer values, a long name holding a colon, floating-point
  signals, value tables spread over several lines, and the `/d:` segment of
  written signals.
*/
module Scenarios {
  import opened Wrappers
  import opened Text
  import opened Tokenizer
  import opened Diagnostics
  import opened ValueTables
  import opened Signals
  import opened Serializer
  import opened Loader
  import opened LoadProperties

  // ---------------------------------------------------------------------
  // Cleaning literal lines.

  lemma NoSlashNoDouble(s: string)
    requires '/' !in s
    ensures NoDoubleSlash(s)
  {
    forall i | 0 <= i < |s| - 1 ensures s[i] != '/' {
      assert s[i] in s;
    }
  }

  /** A line without quotes and slashes and without surrounding blanks is
      seen as it is. */
  lemma CleanUnchanged(s: string)
    requires '"' !in s && '/' !in s && IsTrimmed(s)
    ensures Clean(s) == s
  {
    NoSlashNoDouble(s);
    NoCommentWithoutSlashes(s, false);
    TrimTrimmed(s);
  }

  /** A line followed by a blank and a `//` comment is seen without both. */
  lemma CleanCommented(s: string, comment: string)
    requires '"' !in s && '/' !in s && IsTrimmed(s)
    ensures Clean(s + " " + "//" + comment) == s
  {
    PaddedPlain(s);
    StripPlain(s + " ", comment);
    TrimBlankEnd(s);
  }

  lemma PaddedPlain(s: string)
    requires '"' !in s && '/' !in s
    ensures '"' !in s + " " && '/' !in s + " " && (s + " ")[|s + " "| - 1] == ' '
  {
  }

  lemma StripPlain(p: string, comment: string)
    requires '"' !in p && '/' !in p && p != [] && p[|p| - 1] == ' '
    ensures StripComment(p + "//" + comment) == p
  {
    NoSlashNoDouble(p);
    NoCommentWithoutSlashes(p, false);
    FieldEndUnquoted(p, {}, false);
    StripAppendedComment(p, comment);
  }

  lemma TrimBlankEnd(s: string)
    requires IsTrimmed(s)
    ensures Trim(s + " ") == s
  {
    TrimPadded([], s, " ");
    assert [] + s + " " == s + " ";
  }

  /** `Key="text"` is seen as it is, whatever the quoted text holds. */
  lemma CleanQuoted(key: string, text: string)
    requires '"' !in key && '/' !in key && key != [] && !IsSpace(key[0]) && '"' !in text
    ensures Clean(key + ['"'] + text + ['"']) == key + ['"'] + text + ['"']
  {
    var s := key + ['"'] + text + ['"'];
    NoSlashNoDouble(key);
    QuotedHasNoComment(key, text);
    assert s[0] == key[0];
    TrimTrimmed(s);
  }

  lemma GroupName(g: string)
    requires g != [] && ' ' !in g && '\t' !in g && '"' !in g
    ensures IsGroupName(g)
  {
    forall i | 0 <= i < |g| ensures g[i] !in Blanks && g[i] != '"' {
      assert g[i] in g;
    }
  }

  lemma SmallRanges()
    ensures BitRangeText(0, 1) == "0,1" && BitRangeText(1, 1) == "1,1"
  {
    assert NatToString(0) == "0" && NatToString(1) == "1";
  }

  lemma SmallHexValues()
    ensures HexValueText(0) == "0h" && HexValueText(1) == "1h"
  {
    assert HexString(0) == "0" && HexString(1) == "1";
  }

  lemma Join3(a: string, b: string, c: string, d: char)
    ensures Join([a, b, c], d) == a + [d] + b + [d] + c
  {
    assert [a, b, c][1..] == [b, c];
    assert [b, c][1..] == [c];
    assert Join([b, c], d) == b + [d] + c;
    assert Join([a, b, c], d) == a + [d] + (b + [d] + c);
  }

  // ---------------------------------------------------------------------
  // Classifying lines.

  lemma NotPrefix(p: string, text: string, k: nat)
    requires k < |p| && k < |text| && p[k] != text[k]
    ensures !(p <= text)
  {
  }

  /** A line whose first letters match no keyword is skipped. */
  lemma OtherLine(text: string)
    requires |text| >= 2 && text[0] != '{' && text[0] != 'e' && text[0] != '[' && text[0] != 'I'
      && text[0] != 'D' && text[0] != 'V' && text[0] != 'M' && (text[0] != 'T' || text[1] != 'y')
    ensures Classify(text) == Other
  {
    NotPrefix("enum", text, 0);
    NotPrefix("ID=", text, 0);
    if text[0] == 'T' {
      NotPrefix("Type=", text, 1);
    } else {
      NotPrefix("Type=", text, 0);
    }
    NotPrefix("DLC=", text, 0);
    NotPrefix("Var=", text, 0);
    NotPrefix("Mux=", text, 0);
  }

  lemma ClassifySections()
    ensures Classify("{SEND}") == SectionHeader(Send)
    ensures Classify("{SENDRECEIVE}") == SectionHeader(SendReceive)
    ensures Classify("{ENUMS}") == SectionHeader(Enums)
  {
  }

  lemma ClassifyHeader(name: string)
    requires IsTrimmed(name)
    ensures Classify("[" + name + "]") == FrameHeader(name)
  {
    var text := "[" + name + "]";
    assert text[0] == '[' && text[|text| - 1] == ']' && text[1..|text| - 1] == name;
    assert text != "{SEND}" && text != "{RECEIVE}" && text != "{SENDRECEIVE}" && text != "{ENUMS}";
    NotPrefix("enum", text, 0);
    TrimTrimmed(name);
  }

  lemma ClassifyId(h: string)
    requires IsTrimmed(h)
    ensures Classify("ID=" + h) == IdLine(h)
  {
    var text := "ID=" + h;
    assert text[0] == 'I' && text[..3] == "ID=" && text[3..] == h;
    assert text != "{SEND}" && text != "{RECEIVE}" && text != "{SENDRECEIVE}" && text != "{ENUMS}";
    NotPrefix("enum", text, 0);
    TrimTrimmed(h);
  }

  lemma ClassifyDlc(v: string)
    requires IsTrimmed(v)
    ensures Classify("DLC=" + v) == DlcLine(v)
  {
    var text := "DLC=" + v;
    assert text[0] == 'D' && text[..4] == "DLC=" && text[4..] == v;
    assert text != "{SEND}" && text != "{RECEIVE}" && text != "{SENDRECEIVE}" && text != "{ENUMS}";
    NotPrefix("enum", text, 0);
    NotPrefix("ID=", text, 0);
    NotPrefix("Type=", text, 0);
    TrimTrimmed(v);
  }

  lemma ClassifyVar(body: string)
    ensures Classify("Var=" + body) == VarLine(body)
  {
    var text := "Var=" + body;
    assert text[0] == 'V' && text[..4] == "Var=" && text[4..] == body;
    assert text != "{SEND}" && text != "{RECEIVE}" && text != "{SENDRECEIVE}" && text != "{ENUMS}";
    NotPrefix("enum", text, 0);
    NotPrefix("ID=", text, 0);
    NotPrefix("Type=", text, 0);
    NotPrefix("DLC=", text, 0);
  }

  lemma ClassifyMux(body: string)
    ensures Classify("Mux=" + body) == MuxLine(body)
  {
    var text := "Mux=" + body;
    assert text[0] == 'M' && text[..4] == "Mux=" && text[4..] == body;
    assert text != "{SEND}" && text != "{RECEIVE}" && text != "{SENDRECEIVE}" && text != "{ENUMS}";
    NotPrefix("enum", text, 0);
    NotPrefix("ID=", text, 0);
    NotPrefix("Type=", text, 0);
    NotPrefix("DLC=", text, 0);
    NotPrefix("Var=", text, 0);
  }


  // ---------------------------------------------------------------------
  // Reading one line.

  /** A line of kind `l` that does not start a value table is one step of
      the reader. */
  lemma StepAt(st: State, lines: seq<string>, i: nat, l: Line)
    requires Valid(st) && i < |lines| && Classify(Clean(lines[i])) == l && l != EnumStart
    ensures LoadFrom(st, lines, i) == LoadFrom(LineStep(st, i + 1, Clean(lines[i]), l), lines, i + 1)
  {
  }

  lemma SkipStep(st: State, n: nat, text: string, l: Line)
    requires Valid(st) && (l == Blank || l == Other)
    ensures LineStep(st, n, text, l) == st
  {
  }

  /** Blank lines and lines of no known kind change nothing. */
  lemma SkipAt(st: State, lines: seq<string>, i: nat)
    requires Valid(st) && i < |lines|
    requires Classify(Clean(lines[i])) == Blank || Classify(Clean(lines[i])) == Other
    ensures LoadFrom(st, lines, i) == LoadFrom(st, lines, i + 1)
  {
    var l := Classify(Clean(lines[i]));
    StepAt(st, lines, i, l);
    SkipStep(st, i + 1, Clean(lines[i]), l);
  }

  lemma SectionStep(st: State, n: nat, text: string, s: Section)
    requires Valid(st)
    ensures LineStep(st, n, text, SectionHeader(s)) == st.(section := s, current := None, mux := None)
  {
  }

  /** A section header switches the section and closes the open frame. */
  lemma SectionAt(st: State, lines: seq<string>, i: nat, s: Section)
    requires Valid(st) && i < |lines| && Classify(Clean(lines[i])) == SectionHeader(s)
    ensures LoadFrom(st, lines, i) == LoadFrom(st.(section := s, current := None, mux := None), lines, i + 1)
  {
    StepAt(st, lines, i, SectionHeader(s));
    SectionStep(st, i + 1, Clean(lines[i]), s);
  }

  lemma HeaderStep(st: State, n: nat, text: string, name: string)
    requires Valid(st) && CarriesFrames(st.section)
    ensures LineStep(st, n, text, FrameHeader(name)) == OpenFrame(st, name)
  {
  }

  /** `[Name]` in a message section opens the frame of that name. */
  lemma HeaderAt(st: State, lines: seq<string>, i: nat, name: string)
    requires Valid(st) && CarriesFrames(st.section) && i < |lines|
    requires Classify(Clean(lines[i])) == FrameHeader(name)
    ensures LoadFrom(st, lines, i) == LoadFrom(OpenFrame(st, name), lines, i + 1)
  {
    StepAt(st, lines, i, FrameHeader(name));
    HeaderStep(st, i + 1, Clean(lines[i]), name);
  }

  lemma IdStep(st: State, n: nat, text: string, h: string, v: nat)
    requires Valid(st) && st.current.Some? && ParseHexValue(h) == Some(v)
    ensures var f := st.db.frames[st.current.value];
      LineStep(st, n, text, IdLine(h)) == SetFrame(st, f.(id := v))
  {
    assert LineStep(st, n, text, IdLine(h)) == FrameStep(st, n, IdLine(h));
  }

  /** `ID=<hex>h` sets the identifier of the open frame. */
  lemma IdAt(st: State, lines: seq<string>, i: nat, h: string, v: nat)
    requires Valid(st) && st.current.Some? && i < |lines|
    requires Classify(Clean(lines[i])) == IdLine(h) && ParseHexValue(h) == Some(v)
    ensures var f := st.db.frames[st.current.value];
      LoadFrom(st, lines, i) == LoadFrom(SetFrame(st, f.(id := v)), lines, i + 1)
  {
    StepAt(st, lines, i, IdLine(h));
    IdStep(st, i + 1, Clean(lines[i]), h, v);
  }

  lemma DlcStep(st: State, n: nat, text: string, v: string, dlc: nat)
    requires Valid(st) && st.current.Some? && ParseNat(v) == Some(dlc)
    ensures var f := st.db.frames[st.current.value];
      LineStep(st, n, text, DlcLine(v)) == SetFrame(st, f.(dlc := dlc))
  {
    assert LineStep(st, n, text, DlcLine(v)) == FrameStep(st, n, DlcLine(v));
  }

  /** `DLC=<decimal>` sets the length of the open frame. */
  lemma DlcAt(st: State, lines: seq<string>, i: nat, v: string, dlc: nat)
    requires Valid(st) && st.current.Some? && i < |lines|
    requires Classify(Clean(lines[i])) == DlcLine(v) && ParseNat(v) == Some(dlc)
    ensures var f := st.db.frames[st.current.value];
      LoadFrom(st, lines, i) == LoadFrom(SetFrame(st, f.(dlc := dlc)), lines, i + 1)
  {
    StepAt(st, lines, i, DlcLine(v));
    DlcStep(st, i + 1, Clean(lines[i]), v, dlc);
  }

  lemma FrameLineStep(st: State, n: nat, text: string, l: Line)
    requires Valid(st) && st.current.Some? && (l.VarLine? || l.MuxLine?)
    ensures l.VarLine? ==> LineStep(st, n, text, l) == VarStep(st, n, l.text)
    ensures l.MuxLine? ==> LineStep(st, n, text, l) == MuxStep(st, n, l.text)
  {
    assert LineStep(st, n, text, l) == FrameStep(st, n, l);
  }

  /** `Mux=` followed by a written multiplexer declaration. */
  lemma MuxAt(st: State, lines: seq<string>, i: nat, m: MuxDecl)
    requires Valid(st) && st.current.Some? && i < |lines|
    requires Classify(Clean(lines[i])) == MuxLine(MuxText(m))
    ensures LoadFrom(st, lines, i) == LoadFrom(MuxStep(st, i + 1, MuxText(m)), lines, i + 1)
  {
    StepAt(st, lines, i, MuxLine(MuxText(m)));
    FrameLineStep(st, i + 1, Clean(lines[i]), MuxLine(MuxText(m)));
  }

  /** `Var=<name> <type> <start>,<length>` without switches. */
  lemma ParsePlainVar(name: string, kw: string, start: nat, size: nat)
    requires IsGroupName(name) && IsGroupName(kw) && ParseType(kw).Some?
    ensures var t := ParseType(kw).value;
      var isFloat := t == Float || t == Double;
      var width := if isFloat then FloatWidth(t) else size;
      ParseVar(Join([name, kw, BitRangeText(start, size)], ' '))
        == Ok(VarDecl(Signal(name, start, width, t == Signed, isFloat, "0", map[], None, None),
                      if width != size then [FloatSize(kw, size)] else []))
  {
    var fs := [name, kw, BitRangeText(start, size)];
    PlainVarFields(name, kw, start, size);
    ParseBitRangeText(start, size);
    UnquotePlain(name);
    assert fs[3..] == [];
  }

  lemma PlainVarFields(name: string, kw: string, start: nat, size: nat)
    requires IsGroupName(name) && IsGroupName(kw)
    ensures NonEmpty(SplitQuoted(Join([name, kw, BitRangeText(start, size)], ' '), Blanks))
      == [name, kw, BitRangeText(start, size)]
  {
    var fs := [name, kw, BitRangeText(start, size)];
    PlainIsField(name, Blanks);
    PlainIsField(kw, Blanks);
    BitRangeField(start, size);
    SplitQuotedJoin(fs, ' ', Blanks);
    NonEmptyAll(fs);
  }

  lemma NoErrorsAdded(st: State, n: nat)
    ensures AddErrors(st, n, []) == st
  {
    assert st.db.loadErrors + [] == st.db.loadErrors;
  }

  /** Nothing is left to read at the end of the document. */
  lemma AtEnd(s: State, d: seq<string>)
    requires Valid(s)
    ensures LoadFrom(s, d, |d|) == s
  {
  }

  // ---------------------------------------------------------------------
  // A document with one frame.

  /** The reader inside section `sec` with frame `f`, the only one, open. */
  function Only(f: Frame, sec: Section, mux: Option<nat>, errors: seq<LoadError>): State {
    State(Database([f], map[], errors), sec, Some(0), mux)
  }

  /** Replacing the only frame. */
  lemma SetOnlyFrame(f: Frame, g: Frame, sec: Section, mux: Option<nat>, errors: seq<LoadError>)
    requires CarriesFrames(sec)
    ensures SetFrame(Only(f, sec, mux, errors), g) == Only(g, sec, mux, errors)
  {
    assert [f][0 := g] == [g];
  }

  /** A `Var=` line declaring signal `s` without switches and without
      warnings: the signal is appended under the latest multiplexer value. */
  lemma SignalAt(d: seq<string>, i: nat, f: Frame, sec: Section, mux: Option<nat>, errors: seq<LoadError>,
                 body: string, s: Signal)
    requires CarriesFrames(sec) && i < |d| && Classify(Clean(d[i])) == VarLine(body)
    requires ParseVar(body) == Ok(VarDecl(s, [])) && s.valueTable.None?
    ensures LoadFrom(Only(f, sec, mux, errors), d, i)
      == LoadFrom(Only(f.(signals := f.signals + [s.(multiplex := mux)]), sec, mux, errors), d, i + 1)
  {
    var st := Only(f, sec, mux, errors);
    var g := f.(signals := f.signals + [s.(multiplex := mux)]);
    StepAt(st, d, i, VarLine(body));
    FrameLineStep(st, i + 1, Clean(d[i]), VarLine(body));
    SetOnlyFrame(f, g, sec, mux, errors);
    NoErrorsAdded(Only(g, sec, mux, errors), i + 1);
  }

  /** The format version, the title and a blank line change nothing. */
  lemma PreambleAt(st: State, lines: seq<string>)
    requires Valid(st) && |lines| >= 3
    requires Classify(Clean(lines[0])) == Other && Classify(Clean(lines[1])) == Other
    requires Classify(Clean(lines[2])) == Blank
    ensures LoadFrom(st, lines, 0) == LoadFrom(st, lines, 3)
  {
    SkipAt(st, lines, 0);
    SkipAt(st, lines, 1);
    SkipAt(st, lines, 2);
  }

  /** A section header, a blank line and a frame header. */
  lemma OpenAt(st: State, lines: seq<string>, i: nat, s: Section, name: string)
    requires Valid(st) && CarriesFrames(s) && i + 2 < |lines|
    requires Classify(Clean(lines[i])) == SectionHeader(s) && Classify(Clean(lines[i + 1])) == Blank
    requires Classify(Clean(lines[i + 2])) == FrameHeader(name)
    ensures LoadFrom(st, lines, i)
      == LoadFrom(OpenFrame(st.(section := s, current := None, mux := None), name), lines, i + 3)
  {
    SectionAt(st, lines, i, s);
    var t := st.(section := s, current := None, mux := None);
    SkipAt(t, lines, i + 1);
    HeaderAt(t, lines, i + 2, name);
  }

  lemma OpenedFirst(s: Section, name: string)
    requires CarriesFrames(s)
    ensures OpenFrame(Initial.(section := s, current := None, mux := None), name) == Only(NewFrame(name), s, None, [])
  {
  }

  /** Up to the first frame header: that frame is open, empty, and nothing
      is reported. */
  lemma OpeningAt(d: seq<string>, s: Section, name: string)
    requires CarriesFrames(s) && |d| >= 6
    requires Classify(Clean(d[0])) == Other && Classify(Clean(d[1])) == Other && Classify(Clean(d[2])) == Blank
    requires Classify(Clean(d[3])) == SectionHeader(s) && Classify(Clean(d[4])) == Blank
    requires Classify(Clean(d[5])) == FrameHeader(name)
    ensures LoadFrom(Initial, d, 0) == LoadFrom(Only(NewFrame(name), s, None, []), d, 6)
  {
    PreambleAt(Initial, d);
    OpenAt(Initial, d, 3, s, name);
    OpenedFirst(s, name);
  }

  // ---------------------------------------------------------------------
  // How the reader sees the lines of the test documents.

  /** A line without quotes and slashes and without surrounding blanks is
      classified as it is written. */
  lemma PlainReads(line: string, l: Line)
    requires '"' !in line && '/' !in line && IsTrimmed(line) && Classify(line) == l
    ensures Classify(Clean(line)) == l
  {
    CleanUnchanged(line);
  }

  lemma VersionParts()
    ensures "FormatVersion=5.0 // Do not edit this line!" == "FormatVersion=5.0" + " " + "//" + " Do not edit this line!"
  {
  }

  lemma VersionPlain(version: string)
    requires version == "FormatVersion=5.0"
    ensures '"' !in version && '/' !in version && IsTrimmed(version)
  {
  }

  lemma VersionLine(line: string)
    requires line == "FormatVersion=5.0 // Do not edit this line!"
    ensures Clean(line) == "FormatVersion=5.0"
  {
    VersionParts();
    VersionPlain("FormatVersion=5.0");
    CleanCommented("FormatVersion=5.0", " Do not edit this line!");
  }

  /** The format version line, with its comment, is skipped. */
  lemma VersionReads(line: string)
    requires line == "FormatVersion=5.0 // Do not edit this line!"
    ensures Classify(Clean(line)) == Other
  {
    VersionLine(line);
    OtherLine("FormatVersion=5.0");
  }

  /** `Title="<title>"` is skipped. */
  lemma TitleReads(line: string, title: string)
    requires '"' !in title && line == "Title=" + ['"'] + title + ['"']
    ensures Classify(Clean(line)) == Other
  {
    CleanQuoted("Title=", title);
    assert line[0] == 'T' && line[1] == 'i';
    OtherLine(line);
  }

  lemma SectionReads(line: string, s: Section)
    requires || (line == "{SEND}" && s == Send)
             || (line == "{SENDRECEIVE}" && s == SendReceive)
             || (line == "{ENUMS}" && s == Enums)
    ensures Classify(Clean(line)) == SectionHeader(s)
  {
    CleanUnchanged(line);
    ClassifySections();
  }

  lemma HeaderReads(name: string)
    requires IsTrimmed(name) && '"' !in name && '/' !in name
    ensures Classify(Clean("[" + name + "]")) == FrameHeader(name)
  {
    var line := "[" + name + "]";
    assert line[0] == '[' && line[|line| - 1] == ']';
    CleanUnchanged(line);
    ClassifyHeader(name);
  }

  lemma IdReads(h: string)
    requires h != [] && IsTrimmed(h) && '"' !in h && '/' !in h
    ensures Classify(Clean("ID=" + h)) == IdLine(h)
  {
    var line := "ID=" + h;
    assert line[0] == 'I' && line[|line| - 1] == h[|h| - 1];
    CleanUnchanged(line);
    ClassifyId(h);
  }

  lemma DlcReads(v: string)
    requires v != [] && IsTrimmed(v) && '"' !in v && '/' !in v
    ensures Classify(Clean("DLC=" + v)) == DlcLine(v)
  {
    var line := "DLC=" + v;
    assert line[0] == 'D' && line[|line| - 1] == v[|v| - 1];
    CleanUnchanged(line);
    ClassifyDlc(v);
  }

  /** A multiplexer declaration of the tests: selector bit 0, one bit. */
  lemma MuxTextOf(g: string, v: nat)
    requires v <= 1
    ensures MuxText(MuxDecl(g, 0, 1, v)) == g + " 0,1 " + (if v == 0 then "0h" else "1h")
  {
    SmallRanges();
    SmallHexValues();
    Join3(g, BitRangeText(0, 1), HexValueText(v), ' ');
  }

  /** A line that writes out a multiplexer declaration of the tests. */
  lemma MuxLineText(line: string, g: string, v: nat)
    requires v <= 1 && line == "Mux=" + (g + " 0,1 " + (if v == 0 then "0h" else "1h"))
    ensures line == "Mux=" + MuxText(MuxDecl(g, 0, 1, v))
  {
    MuxTextOf(g, v);
  }

  lemma MuxLinePlain(line: string, g: string, v: nat)
    requires v <= 1 && '"' !in g && '/' !in g
    requires line == "Mux=" + (g + " 0,1 " + (if v == 0 then "0h" else "1h"))
    ensures '"' !in line && '/' !in line && IsTrimmed(line)
  {
    assert line[0] == 'M' && line[|line| - 1] == 'h';
  }

  lemma MuxReads(line: string, g: string, v: nat)
    requires v <= 1 && '"' !in g && '/' !in g
    requires line == "Mux=" + (g + " 0,1 " + (if v == 0 then "0h" else "1h"))
    ensures Classify(Clean(line)) == MuxLine(MuxText(MuxDecl(g, 0, 1, v)))
  {
    var body := MuxText(MuxDecl(g, 0, 1, v));
    MuxLineText(line, g, v);
    MuxLinePlain(line, g, v);
    ClassifyMux(body);
    PlainReads(line, MuxLine(body));
  }

  lemma VarReads(line: string, body: string)
    requires '"' !in body && '/' !in body && body != [] && !IsSpace(body[|body| - 1])
    requires line == "Var=" + body
    ensures Classify(Clean(line)) == VarLine(body)
  {
    assert line[0] == 'V' && line[|line| - 1] == body[|body| - 1];
    ClassifyVar(body);
    PlainReads(line, VarLine(body));
  }

  // ---------------------------------------------------------------------
  // Colliding multiplexer values.

  /** Three `[MuxedId]` blocks of one frame; the second and the third both
      claim discriminator value 1. */
  function CollisionDocument(): seq<string> {
    [
    "FormatVersion=5.0 // Do not edit this line!",
    "Title=\"a file\"",
    "",
    "{SEND}",
    "",
    "[MuxedId]",
    "ID=0h",
    "Mux=TheMux 0,1 0h",
    "Var=Signal unsigned 1,1",
    "",
    "[MuxedId]",
    "Mux=FirstMux 0,1 1h",
    "Var=Signal unsigned 1,1",
    "",
    "[MuxedId]",
    "Mux=SecondMux 0,1 1h",
    "Var=Signal unsigned 1,1"]
  }

  /** What follows `Var=` on the `Var=Signal unsigned 1,1` lines. */
  const SignalBody := "Signal unsigned 1,1"

  /** The signal the `Var=Signal unsigned 1,1` lines declare. */
  function SignalDecl(): Signal {
    Signal("Signal", 1, 1, false, false, "0", map[], None, None)
  }

  /** The document as the reader classifies it, line by line, with the
      names of the frame and of the three groups left open. */
  predicate CollisionShape(d: seq<string>, name: string, g0: string, g1: string, g2: string, h: string, body: string) {
    && |d| == 17
    && Classify(Clean(d[0])) == Other && Classify(Clean(d[1])) == Other && Classify(Clean(d[2])) == Blank
    && Classify(Clean(d[3])) == SectionHeader(Send) && Classify(Clean(d[4])) == Blank
    && Classify(Clean(d[5])) == FrameHeader(name)
    && Classify(Clean(d[6])) == IdLine(h)
    && Classify(Clean(d[7])) == MuxLine(MuxText(MuxDecl(g0, 0, 1, 0)))
    && Classify(Clean(d[8])) == VarLine(body)
    && Classify(Clean(d[9])) == Blank && Classify(Clean(d[10])) == FrameHeader(name)
    && Classify(Clean(d[11])) == MuxLine(MuxText(MuxDecl(g1, 0, 1, 1)))
    && Classify(Clean(d[12])) == VarLine(body)
    && Classify(Clean(d[13])) == Blank && Classify(Clean(d[14])) == FrameHeader(name)
    && Classify(Clean(d[15])) == MuxLine(MuxText(MuxDecl(g2, 0, 1, 1)))
    && Classify(Clean(d[16])) == VarLine(body)
  }

  lemma TitleParts()
    ensures "Title=\"a file\"" == "Title=" + ['"'] + "a file" + ['"']
  {
  }

  lemma MuxedHeaderReads(line: string)
    requires line == "[MuxedId]"
    ensures Classify(Clean(line)) == FrameHeader("MuxedId")
  {
    assert line == "[" + "MuxedId" + "]";
    HeaderReads("MuxedId");
  }

  lemma IdZeroReads(line: string)
    requires line == "ID=0h"
    ensures Classify(Clean(line)) == IdLine("0h")
  {
    assert line == "ID=" + "0h";
    IdReads("0h");
  }

  lemma TheMuxParts()
    ensures "Mux=TheMux 0,1 0h" == "Mux=" + ("TheMux" + " 0,1 " + "0h")
  {
  }

  lemma TheMuxReads(line: string)
    requires line == "Mux=TheMux 0,1 0h"
    ensures Classify(Clean(line)) == MuxLine(MuxText(MuxDecl("TheMux", 0, 1, 0)))
  {
    TheMuxParts();
    MuxReads(line, "TheMux", 0);
  }

  lemma FirstMuxParts()
    ensures "Mux=FirstMux 0,1 1h" == "Mux=" + ("FirstMux" + " 0,1 " + "1h")
  {
  }

  lemma FirstMuxReads(line: string)
    requires line == "Mux=FirstMux 0,1 1h"
    ensures Classify(Clean(line)) == MuxLine(MuxText(MuxDecl("FirstMux", 0, 1, 1)))
  {
    FirstMuxParts();
    MuxReads(line, "FirstMux", 1);
  }

  lemma SecondMuxParts()
    ensures "Mux=SecondMux 0,1 1h" == "Mux=" + ("SecondMux" + " 0,1 " + "1h")
  {
  }

  lemma SecondMuxReads(line: string)
    requires line == "Mux=SecondMux 0,1 1h"
    ensures Classify(Clean(line)) == MuxLine(MuxText(MuxDecl("SecondMux", 0, 1, 1)))
  {
    SecondMuxParts();
    MuxReads(line, "SecondMux", 1);
  }

  lemma SignalBodyText()
    ensures Join(["Signal", "unsigned", BitRangeText(1, 1)], ' ') == SignalBody
  {
    SmallRanges();
    Join3("Signal", "unsigned", "1,1", ' ');
  }

  lemma SignalLineParts()
    ensures "Var=Signal unsigned 1,1" == "Var=" + SignalBody
  {
  }

  lemma SignalReads(line: string)
    requires line == "Var=Signal unsigned 1,1"
    ensures Classify(Clean(line)) == VarLine(SignalBody)
  {
    SignalLineParts();
    VarReads(line, SignalBody);
  }

  /** The lines of the document, one by one. */
  predicate CollisionText(d: seq<string>) {
    && |d| == 17
    && d[0] == "FormatVersion=5.0 // Do not edit this line!" && d[1] == "Title=\"a file\""
    && d[2] == "" && d[3] == "{SEND}" && d[4] == "" && d[5] == "[MuxedId]"
    && d[6] == "ID=0h" && d[7] == "Mux=TheMux 0,1 0h" && d[8] == "Var=Signal unsigned 1,1"
    && d[9] == "" && d[10] == "[MuxedId]" && d[11] == "Mux=FirstMux 0,1 1h" && d[12] == "Var=Signal unsigned 1,1"
    && d[13] == "" && d[14] == "[MuxedId]" && d[15] == "Mux=SecondMux 0,1 1h" && d[16] == "Var=Signal unsigned 1,1"
  }

  lemma CollisionLines(d: seq<string>)
    requires d == CollisionDocument()
    ensures CollisionText(d)
  {
  }

  lemma CollisionHeadReads(d: seq<string>)
    requires CollisionText(d)
    ensures Classify(Clean(d[0])) == Other && Classify(Clean(d[1])) == Other && Classify(Clean(d[2])) == Blank
    ensures Classify(Clean(d[3])) == SectionHeader(Send) && Classify(Clean(d[4])) == Blank
    ensures Classify(Clean(d[5])) == FrameHeader("MuxedId")
  {
    VersionReads(d[0]);
    TitleParts();
    TitleReads(d[1], "a file");
    SectionReads(d[3], Send);
    MuxedHeaderReads(d[5]);
  }

  lemma CollisionBodyReads(d: seq<string>)
    requires CollisionText(d)
    ensures Classify(Clean(d[6])) == IdLine("0h")
    ensures Classify(Clean(d[7])) == MuxLine(MuxText(MuxDecl("TheMux", 0, 1, 0)))
    ensures Classify(Clean(d[8])) == VarLine(SignalBody)
    ensures Classify(Clean(d[9])) == Blank && Classify(Clean(d[10])) == FrameHeader("MuxedId")
    ensures Classify(Clean(d[11])) == MuxLine(MuxText(MuxDecl("FirstMux", 0, 1, 1)))
    ensures Classify(Clean(d[12])) == VarLine(SignalBody)
    ensures Classify(Clean(d[13])) == Blank && Classify(Clean(d[14])) == FrameHeader("MuxedId")
    ensures Classify(Clean(d[15])) == MuxLine(MuxText(MuxDecl("SecondMux", 0, 1, 1)))
    ensures Classify(Clean(d[16])) == VarLine(SignalBody)
  {
    IdZeroReads(d[6]);
    TheMuxReads(d[7]);
    SignalReads(d[8]);
    MuxedHeaderReads(d[10]);
    FirstMuxReads(d[11]);
    SignalReads(d[12]);
    MuxedHeaderReads(d[14]);
    SecondMuxReads(d[15]);
    SignalReads(d[16]);
  }

  /** The lines of the document, as the reader classifies them. */
  lemma CollisionReads(d: seq<string>)
    requires CollisionText(d)
    ensures CollisionShape(d, "MuxedId", "TheMux", "FirstMux", "SecondMux", "0h", SignalBody)
  {
    CollisionHeadReads(d);
    CollisionBodyReads(d);
  }

  lemma SignalNames()
    ensures IsGroupName("Signal") && IsGroupName("unsigned") && ParseType("unsigned") == Some(Unsigned)
  {
    GroupName("Signal");
    GroupName("unsigned");
  }

  /** `Signal unsigned 1,1` declares an unsigned signal one bit long at bit
      1, and nothing is reported. */
  lemma SignalParses()
    ensures ParseVar(SignalBody) == Ok(VarDecl(SignalDecl(), []))
  {
    SignalNames();
    ParsePlainVar("Signal", "unsigned", 1, 1);
    SignalBodyText();
  }

  /** An `ID=` line naming identifier 0 leaves a frame numbered 0 as it is. */
  lemma IdZeroAt(d: seq<string>, i: nat, f: Frame, mux: Option<nat>, errors: seq<LoadError>, h: string)
    requires i < |d| && Classify(Clean(d[i])) == IdLine(h) && ParseHexValue(h) == Some(0) && f.id == 0
    ensures LoadFrom(Only(f, Send, mux, errors), d, i) == LoadFrom(Only(f, Send, mux, errors), d, i + 1)
  {
    IdAt(Only(f, Send, mux, errors), d, i, h, 0);
    assert f.(id := 0) == f;
    SetOnlyFrame(f, f, Send, mux, errors);
  }

  /** `Mux=<g> 0,1 <v>h`: value `v` is claimed for `g` unless it already
      was, in which case the collision is reported; either way it becomes
      the latest value. */
  lemma MuxLineAt(d: seq<string>, i: nat, f: Frame, mux: Option<nat>, errors: seq<LoadError>, g: string, v: nat)
    requires i < |d| && IsGroupName(g) && Classify(Clean(d[i])) == MuxLine(MuxText(MuxDecl(g, 0, 1, v)))
    ensures v !in f.muxClaims ==>
      LoadFrom(Only(f, Send, mux, errors), d, i)
        == LoadFrom(Only(f.(muxClaims := f.muxClaims[v := MuxClaim(g, 0, 1, i + 1)]), Send, Some(v), errors), d, i + 1)
    ensures v in f.muxClaims ==>
      LoadFrom(Only(f, Send, mux, errors), d, i)
        == LoadFrom(Only(f, Send, Some(v), errors + [LoadError(i + 1, DuplicateMuxId(v, f.muxClaims[v].group, g))]), d, i + 1)
  {
    var m := MuxDecl(g, 0, 1, v);
    ParseMuxText(m);
    MuxAt(Only(f, Send, mux, errors), d, i, m);
    SetOnlyFrame(f, f.(muxClaims := f.muxClaims[v := MuxClaim(g, 0, 1, i + 1)]), Send, mux, errors);
  }

  /** A blank line and the frame's header again: the same frame, no latest
      value. */
  lemma ReopenAt(d: seq<string>, i: nat, f: Frame, mux: Option<nat>, errors: seq<LoadError>)
    requires i + 1 < |d| && Classify(Clean(d[i])) == Blank && Classify(Clean(d[i + 1])) == FrameHeader(f.name)
    ensures LoadFrom(Only(f, Send, mux, errors), d, i) == LoadFrom(Only(f, Send, None, errors), d, i + 2)
  {
    var s := Only(f, Send, mux, errors);
    SkipAt(s, d, i);
    HeaderAt(s, d, i + 1, f.name);
  }

  /** A `Mux=` line claiming a free value, then a `Var=` line. */
  lemma ClaimThenSignal(d: seq<string>, i: nat, f: Frame, mux: Option<nat>, errors: seq<LoadError>, g: string, v: nat,
                        body: string, s: Signal)
    requires i + 1 < |d| && v !in f.muxClaims && IsGroupName(g)
    requires Classify(Clean(d[i])) == MuxLine(MuxText(MuxDecl(g, 0, 1, v)))
    requires Classify(Clean(d[i + 1])) == VarLine(body) && ParseVar(body) == Ok(VarDecl(s, [])) && s.valueTable.None?
    ensures LoadFrom(Only(f, Send, mux, errors), d, i)
      == LoadFrom(Only(f.(muxClaims := f.muxClaims[v := MuxClaim(g, 0, 1, i + 1)],
                           signals := f.signals + [s.(multiplex := Some(v))]), Send, Some(v), errors), d, i + 2)
  {
    MuxLineAt(d, i, f, mux, errors, g, v);
    SignalAt(d, i + 1, f.(muxClaims := f.muxClaims[v := MuxClaim(g, 0, 1, i + 1)]), Send, Some(v), errors, body, s);
  }

  /** Lines 7-9: value 0 is claimed for the first group on line 8. */
  lemma FirstBlock(d: seq<string>, f: Frame, errors: seq<LoadError>, g: string, h: string, body: string, s: Signal)
    requires |d| > 8 && Classify(Clean(d[6])) == IdLine(h) && ParseHexValue(h) == Some(0) && IsGroupName(g)
    requires Classify(Clean(d[7])) == MuxLine(MuxText(MuxDecl(g, 0, 1, 0)))
    requires Classify(Clean(d[8])) == VarLine(body) && ParseVar(body) == Ok(VarDecl(s, [])) && s.valueTable.None?
    requires f.id == 0 && 0 !in f.muxClaims
    ensures LoadFrom(Only(f, Send, None, errors), d, 6)
      == LoadFrom(Only(f.(muxClaims := f.muxClaims[0 := MuxClaim(g, 0, 1, 8)],
                           signals := f.signals + [s.(multiplex := Some(0))]), Send, Some(0), errors), d, 9)
  {
    IdZeroAt(d, 6, f, None, errors, h);
    ClaimThenSignal(d, 7, f, None, errors, g, 0, body, s);
  }

  /** Lines 10-13: the frame again; value 1 is claimed for the second group
      on line 12. */
  lemma SecondBlock(d: seq<string>, f: Frame, mux: Option<nat>, errors: seq<LoadError>, g: string, body: string, s: Signal)
    requires |d| > 12 && Classify(Clean(d[9])) == Blank && Classify(Clean(d[10])) == FrameHeader(f.name)
    requires Classify(Clean(d[11])) == MuxLine(MuxText(MuxDecl(g, 0, 1, 1))) && IsGroupName(g)
    requires Classify(Clean(d[12])) == VarLine(body) && ParseVar(body) == Ok(VarDecl(s, [])) && s.valueTable.None?
    requires 1 !in f.muxClaims
    ensures LoadFrom(Only(f, Send, mux, errors), d, 9)
      == LoadFrom(Only(f.(muxClaims := f.muxClaims[1 := MuxClaim(g, 0, 1, 12)],
                           signals := f.signals + [s.(multiplex := Some(1))]), Send, Some(1), errors), d, 13)
  {
    ReopenAt(d, 9, f, mux, errors);
    ClaimThenSignal(d, 11, f, None, errors, g, 1, body, s);
  }

  /** Lines 14-17: the frame again; value 1 is claimed once more, for the
      third group on line 16, which is reported and changes no claim. */
  lemma ThirdBlock(d: seq<string>, f: Frame, mux: Option<nat>, errors: seq<LoadError>, g: string, body: string, s: Signal)
    requires |d| > 16 && Classify(Clean(d[13])) == Blank && Classify(Clean(d[14])) == FrameHeader(f.name)
    requires Classify(Clean(d[15])) == MuxLine(MuxText(MuxDecl(g, 0, 1, 1))) && IsGroupName(g)
    requires Classify(Clean(d[16])) == VarLine(body) && ParseVar(body) == Ok(VarDecl(s, [])) && s.valueTable.None?
    requires 1 in f.muxClaims
    ensures LoadFrom(Only(f, Send, mux, errors), d, 13)
      == LoadFrom(Only(f.(signals := f.signals + [s.(multiplex := Some(1))]), Send, Some(1),
                       errors + [LoadError(16, DuplicateMuxId(1, f.muxClaims[1].group, g))]), d, 17)
  {
    ReopenAt(d, 13, f, mux, errors);
    MuxLineAt(d, 15, f, None, errors, g, 1);
    SignalAt(d, 16, f, Send, Some(1), errors + [LoadError(16, DuplicateMuxId(1, f.muxClaims[1].group, g))], body, s);
  }

  /** The frame after the three blocks. */
  function CollisionResult(name: string, g0: string, g1: string, s: Signal): Frame {
    NewFrame(name).(muxClaims := map[0 := MuxClaim(g0, 0, 1, 8), 1 := MuxClaim(g1, 0, 1, 12)],
                    signals := [s.(multiplex := Some(0)), s.(multiplex := Some(1)), s.(multiplex := Some(1))])
  }

  lemma CollisionFrames(name: string, g0: string, g1: string, s: Signal)
    ensures var f0 := NewFrame(name);
      var f1 := f0.(muxClaims := f0.muxClaims[0 := MuxClaim(g0, 0, 1, 8)], signals := f0.signals + [s.(multiplex := Some(0))]);
      var f2 := f1.(muxClaims := f1.muxClaims[1 := MuxClaim(g1, 0, 1, 12)], signals := f1.signals + [s.(multiplex := Some(1))]);
      && f0.id == 0 && 0 !in f0.muxClaims && 1 !in f1.muxClaims && 1 in f2.muxClaims
      && f1.name == name && f2.name == name && f2.muxClaims[1].group == g1
      && f2.(signals := f2.signals + [s.(multiplex := Some(1))]) == CollisionResult(name, g0, g1, s)
  {
    var f0 := NewFrame(name);
    var f1 := f0.(muxClaims := f0.muxClaims[0 := MuxClaim(g0, 0, 1, 8)], signals := f0.signals + [s.(multiplex := Some(0))]);
    var f2 := f1.(muxClaims := f1.muxClaims[1 := MuxClaim(g1, 0, 1, 12)], signals := f1.signals + [s.(multiplex := Some(1))]);
    assert f2.signals + [s.(multiplex := Some(1))] == [s.(multiplex := Some(0)), s.(multiplex := Some(1)), s.(multiplex := Some(1))];
  }

  /** The three blocks, from the fresh frame to the end of the document. */
  lemma CollisionBlocks(d: seq<string>, name: string, g0: string, g1: string, g2: string, h: string, body: string, s: Signal)
    requires CollisionShape(d, name, g0, g1, g2, h, body) && ParseHexValue(h) == Some(0)
    requires IsGroupName(g0) && IsGroupName(g1) && IsGroupName(g2)
    requires ParseVar(body) == Ok(VarDecl(s, [])) && s.valueTable.None?
    ensures LoadFrom(Only(NewFrame(name), Send, None, []), d, 6)
      == Only(CollisionResult(name, g0, g1, s), Send, Some(1), [LoadError(16, DuplicateMuxId(1, g1, g2))])
  {
    var f0 := NewFrame(name);
    CollisionFrames(name, g0, g1, s);
    FirstBlock(d, f0, [], g0, h, body, s);
    var f1 := f0.(muxClaims := f0.muxClaims[0 := MuxClaim(g0, 0, 1, 8)], signals := f0.signals + [s.(multiplex := Some(0))]);
    SecondBlock(d, f1, Some(0), [], g1, body, s);
    var f2 := f1.(muxClaims := f1.muxClaims[1 := MuxClaim(g1, 0, 1, 12)], signals := f1.signals + [s.(multiplex := Some(1))]);
    ThirdBlock(d, f2, Some(1), [], g2, body, s);
    AppendEmpty([LoadError(16, DuplicateMuxId(1, g1, g2))]);
    AtEnd(Only(CollisionResult(name, g0, g1, s), Send, Some(1), [LoadError(16, DuplicateMuxId(1, g1, g2))]), d);
  }

  /** The whole document, read from its classified lines. */
  lemma CollisionChain(d: seq<string>, name: string, g0: string, g1: string, g2: string, h: string, body: string, s: Signal)
    requires CollisionShape(d, name, g0, g1, g2, h, body) && ParseHexValue(h) == Some(0)
    requires IsGroupName(g0) && IsGroupName(g1) && IsGroupName(g2)
    requires ParseVar(body) == Ok(VarDecl(s, [])) && s.valueTable.None?
    ensures LoadFrom(Initial, d, 0)
      == Only(CollisionResult(name, g0, g1, s), Send, Some(1), [LoadError(16, DuplicateMuxId(1, g1, g2))])
  {
    OpeningAt(d, Send, name);
    CollisionBlocks(d, name, g0, g1, g2, h, body, s);
  }

  lemma MuxNames()
    ensures IsGroupName("TheMux") && IsGroupName("FirstMux") && IsGroupName("SecondMux")
  {
    GroupName("TheMux");
    GroupName("FirstMux");
    GroupName("SecondMux");
  }

  lemma IdZeroValue()
    ensures ParseHexValue("0h") == Some(0)
  {
    SmallHexValues();
    ParseHexValueText(0);
  }

  lemma SixteenText()
    ensures NatToString(16) == "16"
  {
    assert NatToBase(16, 10) == NatToBase(1, 10) + [DigitChar(6)];
  }

  /** The message of the refused claim starts with its line number and names
      both groups. */
  lemma CollisionMessage(e: LoadError)
    requires e == LoadError(16, DuplicateMuxId(1, "FirstMux", "SecondMux"))
    ensures "line 16: " <= Render(e)
    ensures IsInfix("FirstMux", Render(e)) && IsInfix("SecondMux", Render(e))
  {
    RenderLineNumber(e);
    SixteenText();
    DuplicateNamesBothGroups(16, 1, "FirstMux", "SecondMux");
  }

  /** The document, line by line, read to the end. */
  lemma CollisionLoad(d: seq<string>)
    requires CollisionText(d)
    ensures LoadFrom(Initial, d, 0)
      == Only(CollisionResult("MuxedId", "TheMux", "FirstMux", SignalDecl()), Send, Some(1),
              [LoadError(16, DuplicateMuxId(1, "FirstMux", "SecondMux"))])
  {
    CollisionReads(d);
    MuxNames();
    IdZeroValue();
    SignalParses();
    CollisionChain(d, "MuxedId", "TheMux", "FirstMux", "SecondMux", "0h", SignalBody, SignalDecl());
  }

  /** Colliding multiplexer values: reading the document reports exactly one
      error, a refused claim on line 16 whose text starts with `line 16: `
      and names FirstMux and SecondMux; the claims made before it stand. */
  lemma CollidingMuxValues(d: seq<string>)
    requires d == CollisionDocument()
    ensures var db := Load(d);
      && |db.loadErrors| == 1
      && db.loadErrors[0] == LoadError(16, DuplicateMuxId(1, "FirstMux", "SecondMux"))
      && "line 16: " <= Render(db.loadErrors[0])
      && IsInfix("FirstMux", Render(db.loadErrors[0])) && IsInfix("SecondMux", Render(db.loadErrors[0]))
      && |db.frames| == 1 && db.frames[0].name == "MuxedId"
      && db.frames[0].muxClaims == map[0 := MuxClaim("TheMux", 0, 1, 8), 1 := MuxClaim("FirstMux", 0, 1, 12)]
  {
    CollisionLines(d);
    CollisionLoad(d);
    CollisionMessage(LoadError(16, DuplicateMuxId(1, "FirstMux", "SecondMux")));
  }

  // ---------------------------------------------------------------------
  // A long name holding a colon.

  /** One `{SEND}` frame whose only signal carries a quoted long name with
      blanks and a colon in it. */
  function LongNameDocument(): seq<string> {
    [
    "FormatVersion=5.0 // Do not edit this line!",
    "Title=\"a file\"",
    "",
    "{SEND}",
    "",
    "[pass]",
    "DLC=8",
    "Var=Password unsigned 16,16 /ln:\"Access Level : Password\""]
  }

  /** The lines of the document, one by one. */
  predicate LongNameText(d: seq<string>) {
    && |d| == 8
    && d[0] == "FormatVersion=5.0 // Do not edit this line!" && d[1] == "Title=\"a file\""
    && d[2] == "" && d[3] == "{SEND}" && d[4] == "" && d[5] == "[pass]" && d[6] == "DLC=8"
    && d[7] == "Var=Password unsigned 16,16 /ln:\"Access Level : Password\""
  }

  lemma LongNameLines(d: seq<string>)
    requires d == LongNameDocument()
    ensures LongNameText(d)
  {
  }

  const AccessLevel := "Access Level : Password"

  /** The fields of the signal's line. */
  function PasswordFields(): seq<string> {
    ["Password", "unsigned", BitRangeText(16, 16), LongNameToken(AccessLevel)]
  }

  /** The signal the document declares. */
  function PasswordSignal(): Signal {
    Signal("Password", 16, 16, false, false, "0", map["LongName" := AccessLevel], None, None)
  }

  /** The document as the reader classifies it. */
  predicate LongNameShape(d: seq<string>, name: string, w: string, body: string) {
    && |d| == 8
    && Classify(Clean(d[0])) == Other && Classify(Clean(d[1])) == Other && Classify(Clean(d[2])) == Blank
    && Classify(Clean(d[3])) == SectionHeader(Send) && Classify(Clean(d[4])) == Blank
    && Classify(Clean(d[5])) == FrameHeader(name) && Classify(Clean(d[6])) == DlcLine(w)
    && Classify(Clean(d[7])) == VarLine(body)
  }

  /** The fields of `<name> <type> <start>,<length> /ln:"<long name>"`:
      the quoted long name is one field, whatever blanks it holds. */
  lemma LongNameFields(name: string, kw: string, start: nat, size: nat, ln: string)
    requires IsGroupName(name) && IsGroupName(kw) && '"' !in ln
    ensures var fs := [name, kw, BitRangeText(start, size), LongNameToken(ln)];
      NonEmpty(SplitQuoted(Join(fs, ' '), Blanks)) == fs
  {
    var tok := LongNameToken(ln);
    var fs := [name, kw, BitRangeText(start, size), tok];
    PlainIsField(name, Blanks);
    PlainIsField(kw, Blanks);
    BitRangeField(start, size);
    assert tok == "/ln:" + ['"'] + ln + ['"'];
    QuotedIsField("/ln:", ln, Blanks);
    SplitQuotedJoin(fs, ' ', Blanks);
    NonEmptyAll(fs);
  }

  /** Everything after the first colon of the `/ln:` switch is the long
      name, so the signal keeps the whole quoted text. */
  lemma LongNameVar(name: string, kw: string, start: nat, size: nat, ln: string)
    requires IsGroupName(name) && IsGroupName(kw) && ParseType(kw) == Some(Unsigned) && '"' !in ln
    ensures ParseVar(Join([name, kw, BitRangeText(start, size), LongNameToken(ln)], ' '))
      == Ok(VarDecl(Signal(name, start, size, false, false, "0", map["LongName" := ln], None, None), []))
  {
    var tok := LongNameToken(ln);
    var fs := [name, kw, BitRangeText(start, size), tok];
    LongNameFields(name, kw, start, size, ln);
    ParseBitRangeText(start, size);
    UnquotePlain(name);
    ParseVarOfFields(Join(fs, ' '), fs, Unsigned, (start, size));
    assert fs[3..] == [tok];
    ApplyLongNameSwitch(BaseSignal(name, Unsigned, (start, size)), ln);
  }

  lemma PasswordNames()
    ensures IsGroupName("Password") && IsGroupName("unsigned") && ParseType("unsigned") == Some(Unsigned)
  {
    GroupName("Password");
    GroupName("unsigned");
  }

  lemma PasswordParses()
    ensures ParseVar(Join(PasswordFields(), ' ')) == Ok(VarDecl(PasswordSignal(), []))
  {
    PasswordNames();
    LongNameVar("Password", "unsigned", 16, 16, AccessLevel);
  }

  lemma PasswordRange()
    ensures BitRangeText(16, 16) == "16,16"
  {
    assert NatToBase(16, 10) == NatToBase(1, 10) + [DigitChar(6)];
  }

  lemma Join4(a: string, b: string, c: string, e: string, d: char)
    ensures Join([a, b, c, e], d) == Join([a, b, c], d) + [d] + e
  {
    JoinLast([a, b, c, e], d);
    assert [a, b, c, e][..3] == [a, b, c];
  }

  /** The fields of the signal's line, written with blanks between them. */
  lemma PasswordText()
    ensures Join(PasswordFields(), ' ') == "Password unsigned 16,16" + " " + LongNameToken(AccessLevel)
  {
    var range := BitRangeText(16, 16);
    Join4("Password", "unsigned", range, LongNameToken(AccessLevel), ' ');
    PasswordRange();
    Join3("Password", "unsigned", range, ' ');
  }

  lemma AccessLevelToken()
    ensures LongNameToken(AccessLevel) == "/ln:\"Access Level : Password\""
  {
  }

  lemma PasswordHeadParts()
    ensures "Var=Password unsigned 16,16" == "Var=" + "Password unsigned 16,16"
  {
  }

  lemma PasswordLiteralParts()
    ensures "Var=Password unsigned 16,16 /ln:\"Access Level : Password\""
      == "Var=" + "Password unsigned 16,16" + " " + "/ln:\"Access Level : Password\""
  {
    PasswordHeadParts();
    assert "Var=Password unsigned 16,16 /ln:\"Access Level : Password\""
      == "Var=Password unsigned 16,16" + " " + "/ln:\"Access Level : Password\"";
  }

  lemma PasswordLineParts()
    ensures "Var=Password unsigned 16,16 /ln:\"Access Level : Password\""
      == "Var=" + "Password unsigned 16,16" + " " + LongNameToken(AccessLevel)
  {
    PasswordLiteralParts();
    AccessLevelToken();
  }

  /** A `Var=` line whose last field is a quoted long name is seen as it is
      written, a `//` inside the quotes included. */
  lemma LongNameLineReads(h: string, ln: string)
    requires '"' !in h && '/' !in h && h != [] && !IsSpace(h[|h| - 1]) && '"' !in ln
    ensures Classify(Clean("Var=" + h + " " + LongNameToken(ln))) == VarLine(h + " " + LongNameToken(ln))
  {
    var head := "Var=" + h;
    var tok := LongNameToken(ln);
    assert '/' !in head && head[0] == 'V' && head[|head| - 1] == h[|h| - 1];
    NoSlashNoDouble(head);
    CleanOfLongNameLine(head, ln);
    AppendAssoc("Var=", h, " ");
    AppendAssoc("Var=", h + " ", tok);
    ClassifyVar(h + " " + tok);
  }

  /** The signal's line is seen as it is written, a `Var=` line. */
  lemma PasswordReads(line: string)
    requires line == "Var=Password unsigned 16,16 /ln:\"Access Level : Password\""
    ensures Classify(Clean(line)) == VarLine(Join(PasswordFields(), ' '))
  {
    PasswordLineParts();
    LongNameLineReads("Password unsigned 16,16", AccessLevel);
    PasswordText();
  }

  lemma PassHeaderReads(line: string)
    requires line == "[pass]"
    ensures Classify(Clean(line)) == FrameHeader("pass")
  {
    assert line == "[" + "pass" + "]";
    HeaderReads("pass");
  }

  lemma LongNameHeadReads(d: seq<string>)
    requires LongNameText(d)
    ensures Classify(Clean(d[0])) == Other && Classify(Clean(d[1])) == Other && Classify(Clean(d[2])) == Blank
    ensures Classify(Clean(d[3])) == SectionHeader(Send) && Classify(Clean(d[4])) == Blank
    ensures Classify(Clean(d[5])) == FrameHeader("pass")
  {
    VersionReads(d[0]);
    TitleParts();
    TitleReads(d[1], "a file");
    SectionReads(d[3], Send);
    PassHeaderReads(d[5]);
  }

  /** The lines of the document, as the reader classifies them. */
  lemma LongNameReads(d: seq<string>)
    requires LongNameText(d)
    ensures LongNameShape(d, "pass", "8", Join(PasswordFields(), ' '))
  {
    LongNameHeadReads(d);
    DlcEightReads(d[6]);
    PasswordReads(d[7]);
  }

  /** `DLC=` and the `Var=` line fill in the open frame. */
  lemma LongNameFrame(d: seq<string>, f: Frame, w: string, body: string, s: Signal)
    requires |d| == 8 && Classify(Clean(d[6])) == DlcLine(w) && Classify(Clean(d[7])) == VarLine(body)
    requires ParseNat(w) == Some(8) && ParseVar(body) == Ok(VarDecl(s, [])) && s.valueTable.None?
    ensures LoadFrom(Only(f, Send, None, []), d, 6)
      == Only(f.(dlc := 8, signals := f.signals + [s.(multiplex := None)]), Send, None, [])
  {
    DlcAt(Only(f, Send, None, []), d, 6, w, 8);
    SetOnlyFrame(f, f.(dlc := 8), Send, None, []);
    var f1 := f.(dlc := 8);
    SignalAt(d, 7, f1, Send, None, [], body, s);
    AtEnd(Only(f1.(signals := f1.signals + [s.(multiplex := None)]), Send, None, []), d);
  }

  /** The whole document, read from its classified lines. */
  lemma LongNameChain(d: seq<string>, name: string, w: string, body: string, s: Signal)
    requires LongNameShape(d, name, w, body)
    requires ParseNat(w) == Some(8) && ParseVar(body) == Ok(VarDecl(s, [])) && s.valueTable.None?
    ensures LoadFrom(Initial, d, 0)
      == Only(NewFrame(name).(dlc := 8, signals := [s.(multiplex := None)]), Send, None, [])
  {
    OpeningAt(d, Send, name);
    LongNameFrame(d, NewFrame(name), w, body, s);
    AppendEmpty([s.(multiplex := None)]);
  }

  lemma LongNameLoad(d: seq<string>)
    requires LongNameText(d)
    ensures LoadFrom(Initial, d, 0)
      == Only(NewFrame("pass").(dlc := 8, signals := [PasswordSignal()]), Send, None, [])
  {
    LongNameReads(d);
    EightValue();
    PasswordParses();
    LongNameChain(d, "pass", "8", Join(PasswordFields(), ' '), PasswordSignal());
    assert PasswordSignal().(multiplex := None) == PasswordSignal();
  }

  /** A long name holding a colon: the quoted text after `/ln:` is stored
      whole as the signal's `LongName` attribute, and nothing is reported. */
  lemma ParseLongNameWithColon(d: seq<string>)
    requires d == LongNameDocument()
    ensures var db := Load(d);
      && db.loadErrors == []
      && |db.frames| == 1 && db.frames[0].name == "pass" && |db.frames[0].signals| == 1
      && db.frames[0].signals[0].name == "Password"
      && "LongName" in db.frames[0].signals[0].attributes
      && db.frames[0].signals[0].attributes["LongName"] == "Access Level : Password"
  {
    LongNameLines(d);
    LongNameLoad(d);
  }

  // ---------------------------------------------------------------------
  // Floating-point signals.

  /** A `{SENDRECEIVE}` frame with one floating-point signal of the given
      type keyword and declared length. */
  function FloatDocument(kw: string, bits: nat): seq<string> {
    [
    "FormatVersion=5.0 // Do not edit this line!",
    "Title=\"Untitled\"",
    "",
    "{SENDRECEIVE}",
    "",
    "[Symbol1]",
    "ID=000h",
    "DLC=8",
    "Var=a_signal " + kw + " 0," + NatToString(bits)]
  }

  /** The lines of the document, one by one. */
  predicate FloatText(d: seq<string>, kw: string, bits: nat) {
    && |d| == 9
    && d[0] == "FormatVersion=5.0 // Do not edit this line!" && d[1] == "Title=\"Untitled\""
    && d[2] == "" && d[3] == "{SENDRECEIVE}" && d[4] == "" && d[5] == "[Symbol1]"
    && d[6] == "ID=000h" && d[7] == "DLC=8" && d[8] == "Var=a_signal " + kw + " 0," + NatToString(bits)
  }

  lemma FloatLines(d: seq<string>, kw: string, bits: nat)
    requires d == FloatDocument(kw, bits)
    ensures FloatText(d, kw, bits)
  {
  }

  /** What follows `Var=` on the signal's line. */
  function FloatBody(kw: string, bits: nat): string {
    "a_signal " + kw + " 0," + NatToString(bits)
  }

  /** The signal the document declares: a floating-point signal at bit 0. */
  function FloatSignal(bits: nat): Signal {
    Signal("a_signal", 0, bits, false, true, "0", map[], None, None)
  }

  /** The document as the reader classifies it, with the frame's name, the
      identifier, the length and the signal's line left open. */
  predicate FloatShape(d: seq<string>, name: string, h: string, w: string, body: string) {
    && |d| == 9
    && Classify(Clean(d[0])) == Other && Classify(Clean(d[1])) == Other && Classify(Clean(d[2])) == Blank
    && Classify(Clean(d[3])) == SectionHeader(SendReceive) && Classify(Clean(d[4])) == Blank
    && Classify(Clean(d[5])) == FrameHeader(name)
    && Classify(Clean(d[6])) == IdLine(h) && Classify(Clean(d[7])) == DlcLine(w)
    && Classify(Clean(d[8])) == VarLine(body)
  }

  lemma UntitledParts()
    ensures "Title=\"Untitled\"" == "Title=" + ['"'] + "Untitled" + ['"']
  {
  }

  lemma Symbol1Reads(line: string)
    requires line == "[Symbol1]"
    ensures Classify(Clean(line)) == FrameHeader("Symbol1")
  {
    assert line == "[" + "Symbol1" + "]";
    HeaderReads("Symbol1");
  }

  lemma PaddedIdReads(line: string)
    requires line == "ID=000h"
    ensures Classify(Clean(line)) == IdLine("000h")
  {
    assert line == "ID=" + "000h";
    IdReads("000h");
  }

  lemma DlcEightReads(line: string)
    requires line == "DLC=8"
    ensures Classify(Clean(line)) == DlcLine("8")
  {
    assert line == "DLC=" + "8";
    DlcReads("8");
  }

  lemma WidthTexts()
    ensures NatToString(0) == "0" && NatToString(32) == "32" && NatToString(64) == "64"
  {
    assert NatToBase(32, 10) == NatToBase(3, 10) + [DigitChar(2)];
    assert NatToBase(64, 10) == NatToBase(6, 10) + [DigitChar(4)];
  }

  lemma FloatBodyText(kw: string, bits: nat)
    requires bits == 32 || bits == 64
    ensures Join(["a_signal", kw, BitRangeText(0, bits)], ' ') == FloatBody(kw, bits)
  {
    WidthTexts();
    Join3("a_signal", kw, BitRangeText(0, bits), ' ');
  }

  lemma FloatBodyPlain(kw: string, bits: nat)
    requires kw == "float" || kw == "double"
    ensures var body := FloatBody(kw, bits);
      '"' !in body && '/' !in body && body != [] && !IsSpace(body[|body| - 1])
  {
    var n := NatToString(bits);
    assert '"' !in n && '/' !in n by {
      forall i | 0 <= i < |n| ensures n[i] != '"' && n[i] != '/' {
        assert IsDigit(n[i], 10);
      }
    }
    var body := FloatBody(kw, bits);
    assert body[|body| - 1] == n[|n| - 1] && IsDigit(n[|n| - 1], 10);
  }

  lemma FloatLineParts(kw: string, bits: nat)
    ensures "Var=a_signal " + kw + " 0," + NatToString(bits) == "Var=" + FloatBody(kw, bits)
  {
    var n := NatToString(bits);
    assert "Var=a_signal " == "Var=" + "a_signal ";
    AppendAssoc("Var=", "a_signal ", kw);
    AppendAssoc("Var=", "a_signal " + kw, " 0,");
    AppendAssoc("Var=", "a_signal " + kw + " 0,", n);
  }

  lemma FloatVarReads(line: string, kw: string, bits: nat)
    requires kw == "float" || kw == "double"
    requires line == "Var=a_signal " + kw + " 0," + NatToString(bits)
    ensures Classify(Clean(line)) == VarLine(FloatBody(kw, bits))
  {
    FloatLineParts(kw, bits);
    FloatBodyPlain(kw, bits);
    VarReads(line, FloatBody(kw, bits));
  }

  lemma FloatHeadReads(d: seq<string>, kw: string, bits: nat)
    requires FloatText(d, kw, bits)
    ensures Classify(Clean(d[0])) == Other && Classify(Clean(d[1])) == Other && Classify(Clean(d[2])) == Blank
    ensures Classify(Clean(d[3])) == SectionHeader(SendReceive) && Classify(Clean(d[4])) == Blank
    ensures Classify(Clean(d[5])) == FrameHeader("Symbol1")
  {
    VersionReads(d[0]);
    UntitledParts();
    TitleReads(d[1], "Untitled");
    SectionReads(d[3], SendReceive);
    Symbol1Reads(d[5]);
  }

  /** The lines of the document, as the reader classifies them. */
  lemma FloatReads(d: seq<string>, kw: string, bits: nat)
    requires (kw == "float" || kw == "double") && FloatText(d, kw, bits)
    ensures FloatShape(d, "Symbol1", "000h", "8", FloatBody(kw, bits))
  {
    FloatHeadReads(d, kw, bits);
    PaddedIdReads(d[6]);
    DlcEightReads(d[7]);
    FloatVarReads(d[8], kw, bits);
  }

  lemma {:induction false} ZerosValue(s: string, base: nat)
    requires forall i :: 0 <= i < |s| ==> s[i] == '0'
    ensures DigitsValue(s, base) == 0
    decreases |s|
  {
    if s != [] {
      ZerosValue(s[..|s| - 1], base);
    }
  }

  lemma PaddedZeroHex()
    ensures ParseHexValue("000h") == Some(0)
  {
    var h := "000h";
    var z := h[..3];
    assert z == "000";
    assert AllDigits(z, 16);
    ZerosValue(z, 16);
  }

  lemma EightValue()
    ensures ParseNat("8") == Some(8)
  {
    assert NatToString(8) == "8";
    ParseNatRoundTrip(8);
  }

  lemma FloatNames(kw: string)
    requires kw == "float" || kw == "double"
    ensures IsGroupName("a_signal") && IsGroupName(kw)
    ensures kw == "float" ==> ParseType(kw) == Some(Float)
    ensures kw == "double" ==> ParseType(kw) == Some(Double)
  {
    GroupName("a_signal");
    GroupName(kw);
  }

  /** `a_signal float 0,32` and `a_signal double 0,64` declare a
      floating-point signal of that width, and nothing is reported. */
  lemma FloatParses(kw: string, bits: nat)
    requires (kw == "float" && bits == 32) || (kw == "double" && bits == 64)
    ensures ParseVar(FloatBody(kw, bits)) == Ok(VarDecl(FloatSignal(bits), []))
  {
    FloatNames(kw);
    ParsePlainVar("a_signal", kw, 0, bits);
    FloatBodyText(kw, bits);
  }

  /** `ID=`, `DLC=` and the `Var=` line fill in the open frame. */
  lemma FloatFrame(d: seq<string>, f: Frame, h: string, w: string, body: string, s: Signal)
    requires |d| == 9 && Classify(Clean(d[6])) == IdLine(h) && Classify(Clean(d[7])) == DlcLine(w)
    requires Classify(Clean(d[8])) == VarLine(body)
    requires ParseHexValue(h) == Some(0) && ParseNat(w) == Some(8)
    requires ParseVar(body) == Ok(VarDecl(s, [])) && s.valueTable.None?
    ensures LoadFrom(Only(f, SendReceive, None, []), d, 6)
      == Only(f.(id := 0, dlc := 8, signals := f.signals + [s.(multiplex := None)]), SendReceive, None, [])
  {
    IdAt(Only(f, SendReceive, None, []), d, 6, h, 0);
    SetOnlyFrame(f, f.(id := 0), SendReceive, None, []);
    var f1 := f.(id := 0);
    DlcAt(Only(f1, SendReceive, None, []), d, 7, w, 8);
    SetOnlyFrame(f1, f1.(dlc := 8), SendReceive, None, []);
    var f2 := f1.(dlc := 8);
    SignalAt(d, 8, f2, SendReceive, None, [], body, s);
    AtEnd(Only(f2.(signals := f2.signals + [s.(multiplex := None)]), SendReceive, None, []), d);
  }

  /** The whole document, read from its classified lines. */
  lemma FloatChain(d: seq<string>, name: string, h: string, w: string, body: string, s: Signal)
    requires FloatShape(d, name, h, w, body)
    requires ParseHexValue(h) == Some(0) && ParseNat(w) == Some(8)
    requires ParseVar(body) == Ok(VarDecl(s, [])) && s.valueTable.None?
    ensures LoadFrom(Initial, d, 0)
      == Only(NewFrame(name).(id := 0, dlc := 8, signals := [s.(multiplex := None)]), SendReceive, None, [])
  {
    OpeningAt(d, SendReceive, name);
    FloatFrame(d, NewFrame(name), h, w, body, s);
    AppendEmpty([s.(multiplex := None)]);
  }

  /** The document, line by line, read to the end. */
  lemma FloatLoad(d: seq<string>, kw: string, bits: nat)
    requires (kw == "float" && bits == 32) || (kw == "double" && bits == 64)
    requires FloatText(d, kw, bits)
    ensures LoadFrom(Initial, d, 0)
      == Only(NewFrame("Symbol1").(id := 0, dlc := 8, signals := [FloatSignal(bits)]), SendReceive, None, [])
  {
    FloatReads(d, kw, bits);
    PaddedZeroHex();
    EightValue();
    FloatParses(kw, bits);
    FloatChain(d, "Symbol1", "000h", "8", FloatBody(kw, bits), FloatSignal(bits));
    assert FloatSignal(bits).(multiplex := None) == FloatSignal(bits);
  }

  /** Floating-point signals: a `float` 32 bits long or a `double` 64 bits
      long is read as a floating-point signal of that width, and nothing is
      reported. */
  lemma ParseFloat(d: seq<string>, kw: string, bits: nat)
    requires (kw == "float" && bits == 32) || (kw == "double" && bits == 64)
    requires d == FloatDocument(kw, bits)
    ensures var db := Load(d);
      && db.loadErrors == []
      && |db.frames| == 1 && db.frames[0].name == "Symbol1" && db.frames[0].id == 0 && db.frames[0].dlc == 8
      && |db.frames[0].signals| == 1
      && db.frames[0].signals[0].isFloat && db.frames[0].signals[0].size == bits
      && db.frames[0].signals[0].name == "a_signal"
  {
    FloatLines(d, kw, bits);
    FloatLoad(d, kw, bits);
  }

  // ---------------------------------------------------------------------
  // The `/d:` segment of a written signal.

  /** The signal of the decimal-places test: 32 bits, unsigned, without a
      name or a value table, with the given initial-value literal. */
  function DecimalSignal(isFloat: bool, value: string): Signal {
    Signal("", 0, 32, false, isFloat, value, map[], None, None)
  }

  lemma LiteralsPlain()
    ensures Plain("37") && Plain("37.1")
  {
  }

  /** Default decimal places: a non-float signal whose initial value is
      `37` and a float signal whose initial value is `37.1` are each written
      with exactly one whitespace-separated segment starting with `/d:`, and
      the text after `/d:` is the literal unchanged. */
  lemma ExportDefaultDecimalPlaces(isFloat: bool, value: string)
    requires (!isFloat && value == "37") || (isFloat && value == "37.1")
    ensures var ds := WithPrefix(Words(CreateSignal(DecimalSignal(isFloat, value))), "/d:");
      |ds| == 1 && ds[0][3..] == value
  {
    LiteralsPlain();
    DecimalSegment(DecimalSignal(isFloat, value));
  }
}
