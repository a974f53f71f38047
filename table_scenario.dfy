/**
  The value-table document of the reader's tests, read through the model:
  two tables in `{ENUMS}`, the first spread over three lines with labels
  holding commas and irregular blanks between the entries, and a frame
  whose two signals refer to them with `/e:`.
*/
module TableScenario {
  import opened Wrappers
  import opened Text
  import opened Tokenizer
  import opened Diagnostics
  import opened ValueTables
  import opened Signals
  import opened Serializer
  import opened Loader
  import opened Scenarios
  import opened TableLoading

  // ---------------------------------------------------------------------
  // Entries as they are written.

  /** `desc` between double quotes. */
  function Quoted(desc: string): string {
    ['"'] + desc + ['"']
  }

  /** An entry as the document writes it: the blanks and the code in
      `lead`, then `="desc"`. */
  function Written(lead: string, desc: string): string {
    lead + "=" + Quoted(desc)
  }

  /** A written entry whose lead is blanks then the code's digits is the
      rendering of that entry. */
  lemma WrittenEntry(pad: string, c: int, lead: string, desc: string)
    requires lead == pad + IntToString(c)
    ensures Written(lead, desc) == pad + EntryText(Entry(c, desc))
  {
    TextJoined(pad, IntToString(c), desc);
  }

  lemma TextJoined(pad: string, code: string, desc: string)
    ensures (pad + code) + "=" + Quoted(desc) == pad + (code + "=" + ['"'] + desc + ['"'])
  {
    var q := ['"'] + desc + ['"'];
    assert (pad + code) + "=" + q == pad + (code + "=" + q);
    assert code + "=" + q == code + "=" + ['"'] + desc + ['"'];
  }

  lemma Fields4(e0: Entry, e1: Entry, e2: Entry, e3: Entry, p0: string, p1: string, p2: string, p3: string,
                f0: string, f1: string, f2: string, f3: string)
    requires f0 == p0 + EntryText(e0) && f1 == p1 + EntryText(e1)
    requires f2 == p2 + EntryText(e2) && f3 == p3 + EntryText(e3)
    ensures EntryFields([e0, e1, e2, e3], [p0, p1, p2, p3]) == [f0, f1, f2, f3]
  {
  }

  lemma FieldsAppend(a: seq<Entry>, pa: seq<string>, b: seq<Entry>, pb: seq<string>)
    requires |pa| == |a| && |pb| == |b|
    ensures EntryFields(a + b, pa + pb) == EntryFields(a, pa) + EntryFields(b, pb)
  {
  }

  /** Two runs of entries, one after the other, with a comma between. */
  lemma BodyAppend(a: seq<Entry>, pa: seq<string>, b: seq<Entry>, pb: seq<string>)
    requires |pa| == |a| && |pb| == |b| && a != [] && b != []
    ensures EnumBody(a + b, pa + pb) == EnumBody(a, pa) + "," + EnumBody(b, pb)
  {
    FieldsAppend(a, pa, b, pb);
    JoinAppend(EntryFields(a, pa), EntryFields(b, pb), ',');
  }

  /** A join whose first field has one more blank in front. */
  lemma JoinPadFirst(padded: seq<string>, plain: seq<string>, d: char)
    requires |padded| == |plain| > 0
    requires padded[0] == " " + plain[0] && padded[1..] == plain[1..]
    ensures Join(padded, d) == " " + Join(plain, d)
  {
    if |plain| > 1 {
      var rest := Join(plain[1..], d);
      assert Join(padded, d) == padded[0] + [d] + rest;
      assert Join(plain, d) == plain[0] + [d] + rest;
    }
  }

  /** A blank before the first entry of a run. */
  lemma BodyPadded(es: seq<Entry>, qs: seq<string>)
    requires |qs| + 1 == |es|
    ensures EnumBody(es, [" "] + qs) == " " + EnumBody(es, [""] + qs)
  {
    var padded := EntryFields(es, [" "] + qs);
    var plain := EntryFields(es, [""] + qs);
    assert padded[0] == " " + plain[0];
    assert ([" "] + qs)[1..] == qs && ([""] + qs)[1..] == qs;
    assert padded[1..] == EntryFields(es[1..], qs);
    assert plain[1..] == EntryFields(es[1..], qs);
    JoinPadFirst(padded, plain, ',');
  }

  /** A run that starts with an entry rather than with blanks. */
  lemma BodyStart(es: seq<Entry>, ps: seq<string>)
    requires |ps| == |es| > 0 && ps[0] == ""
    ensures var b := EnumBody(es, ps); b != [] && !IsSpace(b[0]) && b[0] != '/'
  {
    var fs := EntryFields(es, ps);
    var code := IntToString(es[0].code);
    IntTextHasNo(es[0].code, '/');
    assert code[0] in code;
    assert fs[0] == code + ("=" + Quoted(es[0].desc));
    if |fs| > 1 {
      JoinCons(fs[0], fs[1..], ',');
      assert [fs[0]] + fs[1..] == fs;
    }
  }

  /** Entries the reader can take back: blanks before each, labels without
      quotes, surrounding blanks or `//`. */
  predicate WellRendered(es: seq<Entry>, ps: seq<string>) {
    |ps| == |es| && forall i :: 0 <= i < |es| ==> AllSpace(ps[i]) && WellFormedEntry(es[i]) && NoDoubleSlash(es[i].desc)
  }

  lemma WellRenderedAppend(a: seq<Entry>, pa: seq<string>, b: seq<Entry>, pb: seq<string>)
    requires WellRendered(a, pa) && WellRendered(b, pb)
    ensures WellRendered(a + b, pa + pb)
  {
    forall i | |a| <= i < |a| + |b|
      ensures AllSpace((pa + pb)[i]) && WellFormedEntry((a + b)[i]) && NoDoubleSlash((a + b)[i].desc)
    {
      assert (a + b)[i] == b[i - |a|] && (pa + pb)[i] == pb[i - |a|];
    }
  }

  lemma WellRendered4(e0: Entry, e1: Entry, e2: Entry, e3: Entry, p0: string, p1: string, p2: string, p3: string)
    requires AllSpace(p0) && AllSpace(p1) && AllSpace(p2) && AllSpace(p3)
    requires WellFormedEntry(e0) && WellFormedEntry(e1) && WellFormedEntry(e2) && WellFormedEntry(e3)
    requires NoDoubleSlash(e0.desc) && NoDoubleSlash(e1.desc) && NoDoubleSlash(e2.desc) && NoDoubleSlash(e3.desc)
    ensures WellRendered([e0, e1, e2, e3], [p0, p1, p2, p3])
  {
  }

  /** A written entry holds no `//`; it starts with a blank, a digit or a
      sign, and ends with a quote. */
  lemma EntryNoDoubleSlash(pad: string, e: Entry)
    requires AllSpace(pad) && NoDoubleSlash(e.desc)
    ensures var f := pad + EntryText(e);
      NoDoubleSlash(f) && f[0] != '/' && f[|f| - 1] == '"'
  {
    var code := IntToString(e.code);
    var open := pad + code + "=" + ['"'];
    IntTextHasNo(e.code, '/');
    assert '/' !in open by {
      forall i | 0 <= i < |open| ensures open[i] != '/' {
        if i < |pad| {
          assert IsSpace(pad[i]);
        } else if i < |pad| + |code| {
          assert open[i] == code[i - |pad|];
        }
      }
    }
    NoSlashNoDouble(open);
    NoDoubleSlashConcat(open, e.desc);
    NoDoubleSlashConcat(open + e.desc, ['"']);
    assert pad + EntryText(e) == open + e.desc + ['"'];
    assert (open + e.desc + ['"'])[0] == open[0];
  }

  /** A rendered run of entries holds no `//`, and neither starts nor ends
      with a slash. */
  lemma {:induction false} BodyNoDoubleSlash(es: seq<Entry>, ps: seq<string>)
    requires WellRendered(es, ps) && es != []
    ensures var b := EnumBody(es, ps); b != [] && NoDoubleSlash(b) && b[0] != '/' && b[|b| - 1] == '"'
    decreases |es|
  {
    var fs := EntryFields(es, ps);
    EntryNoDoubleSlash(ps[0], es[0]);
    if |es| > 1 {
      assert fs[1..] == EntryFields(es[1..], ps[1..]);
      assert WellRendered(es[1..], ps[1..]) by {
        forall i | 0 <= i < |es| - 1
          ensures AllSpace(ps[1..][i]) && WellFormedEntry(es[1..][i]) && NoDoubleSlash(es[1..][i].desc)
        {
          assert es[1..][i] == es[i + 1] && ps[1..][i] == ps[i + 1];
        }
      }
      BodyNoDoubleSlash(es[1..], ps[1..]);
      var rest := Join(fs[1..], ',');
      JoinCons(fs[0], fs[1..], ',');
      assert [fs[0]] + fs[1..] == fs;
      NoDoubleSlashConcat(fs[0], [',']);
      NoSlashNoDouble([',']);
      NoDoubleSlashConcat(fs[0] + [','], rest);
      assert (fs[0] + [','] + rest)[0] == fs[0][0];
    }
  }

  // ---------------------------------------------------------------------
  // Tables.

  lemma {:induction false} ExtendAppend(t: ValueTable, a: seq<Entry>, b: seq<Entry>)
    ensures Extend(t, a + b) == Extend(Extend(t, a), b)
    decreases |a|
  {
    if a != [] {
      assert (a + b)[1..] == a[1..] + b;
      ExtendAppend(t[a[0].code := a[0].desc], a[1..], b);
    } else {
      assert a + b == b;
    }
  }

  /** One entry more in front. */
  lemma ExtendCons(t: ValueTable, e: Entry, rest: seq<Entry>)
    ensures Extend(t, [e] + rest) == Extend(t[e.code := e.desc], rest)
  {
    assert ([e] + rest)[0] == e && ([e] + rest)[1..] == rest;
  }

  lemma Extend4(t: ValueTable, e0: Entry, e1: Entry, e2: Entry, e3: Entry)
    ensures Extend(t, [e0, e1, e2, e3])
      == t[e0.code := e0.desc][e1.code := e1.desc][e2.code := e2.desc][e3.code := e3.desc]
  {
    var t1 := t[e0.code := e0.desc];
    var t2 := t1[e1.code := e1.desc];
    var t3 := t2[e2.code := e2.desc];
    var t4 := t3[e3.code := e3.desc];
    assert [e0, e1, e2, e3] == [e0] + [e1, e2, e3];
    ExtendCons(t, e0, [e1, e2, e3]);
    assert [e1, e2, e3] == [e1] + [e2, e3];
    ExtendCons(t1, e1, [e2, e3]);
    assert [e2, e3] == [e2] + [e3];
    ExtendCons(t2, e2, [e3]);
    assert [e3] == [e3] + [];
    ExtendCons(t3, e3, []);
    assert Extend(t4, []) == t4;
  }

  // ---------------------------------------------------------------------
  // The document.

  const PowerOnReset := "Power On Reset, and a quoted comma"

  /** The codes up to 15, as they are written. */
  lemma SmallCode(c: int)
    requires 0 <= c < 16
    ensures IntToString(c) == if c < 10 then [DigitChar(c)] else "1" + [DigitChar(c - 10)]
  {
    if c >= 10 {
      assert NatToBase(c, 10) == NatToBase(1, 10) + [DigitChar(c - 10)];
    }
  }

  /** The entries on the first line of `State`. */
  function StateHead(): seq<string> {
    [Written("0", PowerOnReset), Written(" 1", "Ready,set,go"), Written(" 2", "Following"), Written("3", "Fault")]
  }

  function HeadEntries(): seq<Entry> {
    [Entry(0, PowerOnReset), Entry(1, "Ready,set,go"), Entry(2, "Following"), Entry(3, "Fault")]
  }

  const HeadPads: seq<string> := ["", " ", " ", ""]

  lemma HeadRendered()
    ensures StateHead() == EntryFields(HeadEntries(), HeadPads)
  {
    SmallCode(0);
    SmallCode(1);
    SmallCode(2);
    SmallCode(3);
    WrittenEntry("", 0, "0", PowerOnReset);
    WrittenEntry(" ", 1, " 1", "Ready,set,go");
    WrittenEntry(" ", 2, " 2", "Following");
    WrittenEntry("", 3, "3", "Fault");
    var h := StateHead();
    Fields4(Entry(0, PowerOnReset), Entry(1, "Ready,set,go"), Entry(2, "Following"), Entry(3, "Fault"),
            "", " ", " ", "", h[0], h[1], h[2], h[3]);
  }

  /** The entries on the second line of `State`. */
  function StateMiddle(): seq<string> {
    [Written("4", "Forming"), Written(" 5", "N/A"), Written(" 6", "N/A"), Written("7", "N/A"),
     Written("8", "N/A"), Written("9", "N/A"), Written(" 10", "N/A"), Written("11", "N/A")]
  }

  function MiddleEntries(): seq<Entry> {
    [Entry(4, "Forming"), Entry(5, "N/A"), Entry(6, "N/A"), Entry(7, "N/A"),
     Entry(8, "N/A"), Entry(9, "N/A"), Entry(10, "N/A"), Entry(11, "N/A")]
  }

  const MiddlePads: seq<string> := ["", " ", " ", "", "", "", " ", ""]

  lemma MiddleCodes()
    ensures IntToString(4) == "4" && IntToString(5) == "5" && IntToString(6) == "6" && IntToString(7) == "7"
    ensures IntToString(8) == "8" && IntToString(9) == "9" && IntToString(10) == "10" && IntToString(11) == "11"
  {
    SmallCode(4);
    SmallCode(5);
    SmallCode(6);
    SmallCode(7);
    SmallCode(8);
    SmallCode(9);
    SmallCode(10);
    SmallCode(11);
  }

  lemma MiddleRendered()
    ensures StateMiddle() == EntryFields(MiddleEntries(), MiddlePads)
  {
    MiddleCodes();
    WrittenEntry("", 4, "4", "Forming");
    WrittenEntry(" ", 5, " 5", "N/A");
    WrittenEntry(" ", 6, " 6", "N/A");
    WrittenEntry("", 7, "7", "N/A");
    WrittenEntry("", 8, "8", "N/A");
    WrittenEntry("", 9, "9", "N/A");
    WrittenEntry(" ", 10, " 10", "N/A");
    WrittenEntry("", 11, "11", "N/A");
    var m := StateMiddle();
    var fs := EntryFields(MiddleEntries(), MiddlePads);
    forall i | 0 <= i < 8 ensures m[i] == fs[i] {
    }
  }

  /** The entries on the third line of `State`. */
  function StateTail(): seq<string> {
    [Written("12", "N/A"), Written(" 13", "N/A"), Written("14", "N/A"), Written(" 15", "N/A")]
  }

  function TailEntries(): seq<Entry> {
    [Entry(12, "N/A"), Entry(13, "N/A"), Entry(14, "N/A"), Entry(15, "N/A")]
  }

  const TailPads: seq<string> := ["", " ", "", " "]

  lemma TailRendered()
    ensures StateTail() == EntryFields(TailEntries(), TailPads)
  {
    SmallCode(12);
    SmallCode(13);
    SmallCode(14);
    SmallCode(15);
    WrittenEntry("", 12, "12", "N/A");
    WrittenEntry(" ", 13, " 13", "N/A");
    WrittenEntry("", 14, "14", "N/A");
    WrittenEntry(" ", 15, " 15", "N/A");
    var t := StateTail();
    Fields4(Entry(12, "N/A"), Entry(13, "N/A"), Entry(14, "N/A"), Entry(15, "N/A"),
            "", " ", "", " ", t[0], t[1], t[2], t[3]);
  }

  /** The entries of `Relay`. */
  function RelayPieces(): seq<string> {
    [Written("0", "Open"), Written(" 1", "Closed"), Written("2", "Error"), Written("3", "N/A")]
  }

  function RelayEntries(): seq<Entry> {
    [Entry(0, "Open"), Entry(1, "Closed"), Entry(2, "Error"), Entry(3, "N/A")]
  }

  const RelayPads: seq<string> := ["", " ", "", ""]

  lemma RelayRendered()
    ensures RelayPieces() == EntryFields(RelayEntries(), RelayPads)
  {
    SmallCode(0);
    SmallCode(1);
    SmallCode(2);
    SmallCode(3);
    WrittenEntry("", 0, "0", "Open");
    WrittenEntry(" ", 1, " 1", "Closed");
    WrittenEntry("", 2, "2", "Error");
    WrittenEntry("", 3, "3", "N/A");
    var r := RelayPieces();
    Fields4(Entry(0, "Open"), Entry(1, "Closed"), Entry(2, "Error"), Entry(3, "N/A"),
            "", " ", "", "", r[0], r[1], r[2], r[3]);
  }

  // ---------------------------------------------------------------------
  // The labels.

  /** A label the reader takes back whole. */
  predicate GoodLabel(desc: string) {
    WellFormedEntry(Entry(0, desc)) && NoDoubleSlash(desc)
  }

  lemma PlainLabel(desc: string)
    requires '"' !in desc && '/' !in desc && desc != [] && !IsSpace(desc[0]) && !IsSpace(desc[|desc| - 1])
    ensures GoodLabel(desc)
  {
    NoSlashNoDouble(desc);
  }

  lemma NotApplicable()
    ensures GoodLabel("N/A")
  {
  }

  /** Two plain parts make a plain label. */
  lemma PlainLabelParts(a: string, b: string)
    requires '"' !in a && '/' !in a && a != [] && !IsSpace(a[0])
    requires '"' !in b && '/' !in b && b != [] && !IsSpace(b[|b| - 1])
    ensures GoodLabel(a + b)
  {
    PlainLabel(a + b);
  }

  lemma PowerOnResetParts()
    ensures PowerOnReset == "Power On Reset," + " and a quoted comma"
  {
  }

  lemma PowerOnResetLabel()
    ensures GoodLabel(PowerOnReset)
  {
    PowerOnResetParts();
    PlainLabelParts("Power On Reset,", " and a quoted comma");
  }

  lemma HeadLabels()
    ensures GoodLabel(PowerOnReset) && GoodLabel("Ready,set,go") && GoodLabel("Following") && GoodLabel("Fault")
  {
    PowerOnResetLabel();
    PlainLabel("Ready,set,go");
    PlainLabel("Following");
    PlainLabel("Fault");
  }

  lemma HeadWell()
    ensures WellRendered(HeadEntries(), HeadPads)
  {
    HeadLabels();
    WellRendered4(Entry(0, PowerOnReset), Entry(1, "Ready,set,go"), Entry(2, "Following"), Entry(3, "Fault"),
                  "", " ", " ", "");
  }

  lemma MiddleWell()
    ensures WellRendered(MiddleEntries(), MiddlePads)
  {
    PlainLabel("Forming");
    NotApplicable();
  }

  lemma TailWell()
    ensures WellRendered(TailEntries(), TailPads)
  {
    NotApplicable();
  }

  lemma RelayWell()
    ensures WellRendered(RelayEntries(), RelayPads)
  {
    PlainLabel("Open");
    PlainLabel("Closed");
    PlainLabel("Error");
    NotApplicable();
  }

  // ---------------------------------------------------------------------
  // Cleaning the declarations' lines.

  /** Text around a run of entries, without slashes of its own, adds no
      `//`. */
  lemma SlashFreeAround(h: string, b: string, t: string)
    requires '/' !in h && '/' !in t && NoDoubleSlash(b)
    requires b != [] && b[0] != '/' && b[|b| - 1] != '/'
    ensures NoDoubleSlash(h + b + t)
  {
    NoSlashNoDouble(h);
    NoSlashNoDouble(t);
    NoDoubleSlashConcat(h, b);
    NoDoubleSlashConcat(h + b, t);
  }

  /** A line without `//`: cleaning only strips the blanks around it. */
  lemma CleanAround(p: string, s: string, q: string)
    requires AllSpace(p) && AllSpace(q) && NoDoubleSlash(s) && IsTrimmed(s)
    ensures Clean(p + s + q) == s
  {
    assert '/' !in p && '/' !in q by {
      forall i | 0 <= i < |p| ensures p[i] != '/' { assert IsSpace(p[i]); }
      forall i | 0 <= i < |q| ensures q[i] != '/' { assert IsSpace(q[i]); }
    }
    NoSlashNoDouble(p);
    NoSlashNoDouble(q);
    NoDoubleSlashConcat(p, s);
    NoDoubleSlashConcat(p + s, q);
    var line := p + s + q;
    NoCommentWithoutSlashes(line, false);
    assert StripComment(line) == line[..|line|] == line;
    TrimPadded(p, s, q);
  }

  /** A run of entries that neither holds `//` nor starts with a slash,
      and ends with the closing quote of its last label. */
  predicate SlashFreeBody(b: string) {
    b != [] && NoDoubleSlash(b) && b[0] != '/' && b[|b| - 1] == '"'
  }

  lemma HeadBody()
    ensures var b := Join(StateHead(), ',');
      b == EnumBody(HeadEntries(), HeadPads) && SlashFreeBody(b)
  {
    HeadRendered();
    HeadWell();
    BodyNoDoubleSlash(HeadEntries(), HeadPads);
  }

  lemma MiddleRun()
    ensures var b := EnumBody(MiddleEntries(), MiddlePads); SlashFreeBody(b) && !IsSpace(b[0])
  {
    MiddleWell();
    BodyNoDoubleSlash(MiddleEntries(), MiddlePads);
    BodyStart(MiddleEntries(), MiddlePads);
  }

  lemma MiddleBody()
    ensures var b := Join(StateMiddle(), ',');
      b == EnumBody(MiddleEntries(), MiddlePads) && SlashFreeBody(b) && !IsSpace(b[0])
  {
    MiddleRendered();
    MiddleRun();
  }

  lemma TailRun()
    ensures var b := EnumBody(TailEntries(), TailPads); SlashFreeBody(b) && !IsSpace(b[0])
  {
    TailWell();
    BodyNoDoubleSlash(TailEntries(), TailPads);
    BodyStart(TailEntries(), TailPads);
  }

  lemma TailBody()
    ensures var b := Join(StateTail(), ',');
      b == EnumBody(TailEntries(), TailPads) && SlashFreeBody(b) && !IsSpace(b[0])
  {
    TailRendered();
    TailRun();
  }

  lemma RelayBody()
    ensures var b := Join(RelayPieces(), ',');
      b == EnumBody(RelayEntries(), RelayPads) && SlashFreeBody(b)
  {
    RelayRendered();
    RelayWell();
    BodyNoDoubleSlash(RelayEntries(), RelayPads);
  }

  /** A line without `//` and without blanks around it is left as it
      is. */
  lemma CleanTrimmed(line: string)
    requires NoDoubleSlash(line) && IsTrimmed(line)
    ensures Clean(line) == line
  {
    NoCommentWithoutSlashes(line, false);
    assert StripComment(line) == line[..|line|] == line;
    TrimTrimmed(line);
  }

  /** The first line of a declaration: the keyword, the name, the opening
      parenthesis, a run of entries and a comma or the closing parenthesis. */
  function Opening(name: string, b: string, close: char): string {
    "enum " + name + "(" + b + [close]
  }

  /** A line that goes on with a run of entries after two blanks, then a
      comma or the closing parenthesis, then blanks. */
  function Continued(b: string, close: char, after: string): string {
    "  " + b + [close] + after
  }

  /** Cleaning leaves a first line as it is; it starts the declaration. */
  lemma OpeningClean(name: string, b: string, close: char)
    requires SlashFreeBody(b) && '/' !in name && close != '/' && !IsSpace(close)
    ensures var line := Opening(name, b, close);
      Clean(line) == line && "enum" <= line && line[|line| - 1] == close
  {
    var h := "enum " + name + "(";
    assert '/' !in h;
    SlashFreeAround(h, b, [close]);
    var line := h + b + [close];
    assert line[0] == 'e' && line[|line| - 1] == close;
    assert line[..4] == "enum";
    CleanTrimmed(line);
  }

  /** Cleaning a continued line leaves the run and its closing character. */
  lemma ContinuedClean(b: string, close: char, after: string)
    requires SlashFreeBody(b) && !IsSpace(b[0]) && close != '/' && !IsSpace(close) && AllSpace(after)
    ensures Clean(Continued(b, close, after)) == b + [close]
  {
    SlashFreeAround([], b, [close]);
    assert [] + b + [close] == b + [close];
    CleanAround("  ", b + [close], after);
    assert "  " + b + [close] + after == "  " + (b + [close]) + after;
  }

  // ---------------------------------------------------------------------
  // The frame.

  lemma {:induction false} DigitsSnoc(s: string, c: char, base: nat)
    ensures DigitsValue(s + [c], base) == DigitsValue(s, base) * base + DigitValue(c)
  {
    assert (s + [c])[..|s|] == s;
  }

  /** `0CFFC3F7h` is the extended identifier 0x0CFFC3F7. */
  lemma StatusBitsId()
    ensures ParseHexValue("0CFFC3F7h") == Some(0x0CFFC3F7)
  {
    var s1 := ['0'];
    var s2 := s1 + ['C'];
    var s3 := s2 + ['F'];
    var s4 := s3 + ['F'];
    var s5 := s4 + ['C'];
    var s6 := s5 + ['3'];
    var s7 := s6 + ['F'];
    var s8 := s7 + ['7'];
    assert s8 == "0CFFC3F7";
    assert "0CFFC3F7h"[..8] == s8;
    assert AllDigits(s8, 16);
    DigitsSnoc([], '0', 16);
    assert [] + ['0'] == s1;
    DigitsSnoc(s1, 'C', 16);
    assert DigitsValue(s2, 16) == 12;
    DigitsSnoc(s2, 'F', 16);
    assert DigitsValue(s3, 16) == 207;
    DigitsSnoc(s3, 'F', 16);
    assert DigitsValue(s4, 16) == 3327;
    DigitsSnoc(s4, 'C', 16);
    assert DigitsValue(s5, 16) == 53244;
    DigitsSnoc(s5, '3', 16);
    assert DigitsValue(s6, 16) == 851907;
    DigitsSnoc(s6, 'F', 16);
    assert DigitsValue(s7, 16) == 13630527;
    DigitsSnoc(s7, '7', 16);
  }

  lemma ClassifyType(v: string)
    requires IsTrimmed(v)
    ensures Classify("Type=" + v) == TypeLine(v)
  {
    var text := "Type=" + v;
    assert text[0] == 'T' && text[..5] == "Type=" && text[5..] == v;
    assert text != "{SEND}" && text != "{RECEIVE}" && text != "{SENDRECEIVE}" && text != "{ENUMS}";
    NotPrefix("enum", text, 0);
    NotPrefix("ID=", text, 0);
    TrimTrimmed(v);
  }

  /** `Type=Extended` is read as a frame type line. */
  lemma ExtendedReads(line: string)
    requires line == "Type=Extended"
    ensures Classify(Clean(line)) == TypeLine("Extended")
  {
    assert line == "Type=" + "Extended";
    CleanUnchanged(line);
    ClassifyType("Extended");
  }

  /** A `Type=` line marks the open frame extended exactly when it says
      `Extended`. */
  lemma TypeAt(st: State, lines: seq<string>, i: nat, v: string)
    requires Valid(st) && st.current.Some? && i < |lines| && Classify(Clean(lines[i])) == TypeLine(v)
    ensures var f := st.db.frames[st.current.value];
      LoadFrom(st, lines, i) == LoadFrom(SetFrame(st, f.(extended := v == "Extended")), lines, i + 1)
  {
    StepAt(st, lines, i, TypeLine(v));
  }

  /** The `/e:` switch is one blank-free field. */
  lemma TableToken(t: string)
    requires Plain(t)
    ensures IsField("/e:" + t, Blanks) && "/e:" + t != []
  {
    assert Unbroken("/e:");
    UnbrokenConcat("/e:", t);
    UnbrokenQuoteFree("/e:" + t);
    PlainIsField("/e:" + t, Blanks);
  }

  lemma TableVarFields(name: string, kw: string, start: nat, size: nat, t: string)
    requires IsGroupName(name) && IsGroupName(kw) && Plain(t)
    ensures var fs := [name, kw, BitRangeText(start, size), "/e:" + t];
      NonEmpty(SplitQuoted(Join(fs, ' '), Blanks)) == fs
  {
    var fs := [name, kw, BitRangeText(start, size), "/e:" + t];
    PlainIsField(name, Blanks);
    PlainIsField(kw, Blanks);
    BitRangeField(start, size);
    TableToken(t);
    SplitQuotedJoin(fs, ' ', Blanks);
    NonEmptyAll(fs);
  }

  /** `<name> <type> <start>,<length> /e:<table>` declares a signal that
      refers to the value table, and raises no diagnostic. */
  lemma TableVar(name: string, kw: string, start: nat, size: nat, t: string)
    requires IsGroupName(name) && IsGroupName(kw) && ParseType(kw) == Some(Unsigned) && Plain(t)
    ensures ParseVar(Join([name, kw, BitRangeText(start, size), "/e:" + t], ' '))
      == Ok(VarDecl(Signal(name, start, size, false, false, "0", map[], Some(t), None), []))
  {
    var tok := "/e:" + t;
    var fs := [name, kw, BitRangeText(start, size), tok];
    TableVarFields(name, kw, start, size, t);
    ParseBitRangeText(start, size);
    UnquotePlain(name);
    ParseVarOfFields(Join(fs, ' '), fs, Unsigned, (start, size));
    assert fs[3..] == [tok];
    ApplyTableSwitch(BaseSignal(name, Unsigned, (start, size)), t);
  }

  /** A `Var=` line ending with a `/e:` switch is read as it is written:
      the one slash starts no comment. */
  lemma TableLineReads(h: string, t: string)
    requires '"' !in h && '/' !in h && h != [] && Plain(t) && t != []
    ensures var body := h + " " + ("/e:" + t);
      Classify(Clean("Var=" + body)) == VarLine(body)
  {
    var head := "Var=" + h + " ";
    var tail := "e:" + t;
    assert '/' !in head && '/' !in tail && '"' !in tail by {
      UnbrokenQuoteFree(t);
    }
    NoSlashNoDouble(head);
    NoSlashNoDouble(tail);
    NoDoubleSlashConcat(head, "/");
    NoDoubleSlashConcat(head + "/", tail);
    var body := h + " " + ("/e:" + t);
    var line := head + "/" + tail;
    assert line == "Var=" + body;
    assert line[0] == 'V' && line[|line| - 1] == t[|t| - 1] && !IsSpace(t[|t| - 1]);
    assert '"' !in line;
    CleanOfPlainLine(line);
    ClassifyVar(body);
  }

  /** A `Var=` line with three plain fields and a `/e:` switch is read as
      it is written. */
  lemma TableSignalReads(line: string, name: string, kw: string, range: string, t: string)
    requires '"' !in name && '/' !in name && name != []
    requires '"' !in kw && '/' !in kw && '"' !in range && '/' !in range && Plain(t) && t != []
    requires line == "Var=" + Join([name, kw, range, "/e:" + t], ' ')
    ensures Classify(Clean(line)) == VarLine(Join([name, kw, range, "/e:" + t], ' '))
  {
    var h := Join([name, kw, range], ' ');
    Join3(name, kw, range, ' ');
    Join4(name, kw, range, "/e:" + t, ' ');
    TableLineReads(h, t);
  }

  // ---------------------------------------------------------------------
  // The document, line by line.

  /** The lines that declare the value tables. */
  function StateFirstLine(): string { Opening("State", Join(StateHead(), ','), ',') }
  function StateSecondLine(): string { Continued(Join(StateMiddle(), ','), ',', " ") }
  function StateLastLine(): string { Continued(Join(StateTail(), ','), ')', "") }
  function RelayLine(): string { Opening("Relay", Join(RelayPieces(), ','), ')') }

  /** The lines that declare the signals. */
  /** `<name> unsigned <range> /e:<table>`. */
  function TableSignalText(name: string, range: string, t: string): string {
    Join([name, "unsigned", range, "/e:" + t], ' ')
  }

  function StateSignalBody(): string { TableSignalText("State_status", "0,16", "State") }
  function RelaySignalBody(): string { TableSignalText("MX2Permissive_status", "32,16", "Relay") }
  function StateSignalLine(): string { "Var=" + StateSignalBody() }
  function RelaySignalLine(): string { "Var=" + RelaySignalBody() }

  /** The value-table document, line by line: `State` over three lines,
      the second ending with a blank, `Relay` on one, then a frame with
      two signals that refer to them. */
  predicate TablesDocument(d: seq<string>) {
    && |d| == 16
    && d[0] == "FormatVersion=5.0 // Do not edit this line!" && d[1] == "Title=\"AFE_CAN_ID0\""
    && d[2] == "" && d[3] == "{ENUMS}"
    && d[4] == StateFirstLine() && d[5] == StateSecondLine() && d[6] == StateLastLine() && d[7] == RelayLine()
    && d[8] == "" && d[9] == "{SENDRECEIVE}" && d[10] == "[StatusBits]" && d[11] == "ID=0CFFC3F7h"
    && d[12] == "Type=Extended" && d[13] == "DLC=8"
    && d[14] == StateSignalLine() && d[15] == RelaySignalLine()
  }

  // ---------------------------------------------------------------------
  // Reading the declarations.

  lemma HeadSlashFree(b: string)
    requires b == Join(StateHead(), ',')
    ensures SlashFreeBody(b)
  {
    HeadBody();
  }

  lemma MiddleSlashFree(b: string)
    requires b == Join(StateMiddle(), ',')
    ensures SlashFreeBody(b) && !IsSpace(b[0])
  {
    MiddleBody();
  }

  lemma TailSlashFree(b: string)
    requires b == Join(StateTail(), ',')
    ensures SlashFreeBody(b) && !IsSpace(b[0])
  {
    TailBody();
  }

  lemma RelaySlashFree(b: string)
    requires b == Join(RelayPieces(), ',')
    ensures SlashFreeBody(b)
  {
    RelayBody();
  }

  lemma FirstLine(line: string, b: string)
    requires b == Join(StateHead(), ',') && line == Opening("State", b, ',')
    ensures Clean(line) == line && "enum" <= line && EndsWithComma(line)
  {
    HeadSlashFree(b);
    OpeningClean("State", b, ',');
  }

  lemma SecondLine(line: string, m: string)
    requires m == Join(StateMiddle(), ',') && line == Continued(m, ',', " ")
    ensures Clean(line) == m + "," && EndsWithComma(Clean(line))
  {
    MiddleSlashFree(m);
    ContinuedClean(m, ',', " ");
  }

  lemma LastLine(line: string, t: string)
    requires t == Join(StateTail(), ',') && line == Continued(t, ')', "")
    ensures Clean(line) == t + ")"
  {
    TailSlashFree(t);
    ContinuedClean(t, ')', "");
  }

  lemma RelayLineReads(line: string, b: string)
    requires b == Join(RelayPieces(), ',') && line == Opening("Relay", b, ')')
    ensures Clean(line) == line && "enum" <= line
  {
    RelaySlashFree(b);
    OpeningClean("Relay", b, ')');
  }

  lemma FirstCleaned(d: seq<string>)
    requires |d| > 4 && d[4] == StateFirstLine()
    ensures Clean(d[4]) == Opening("State", Join(StateHead(), ','), ',')
    ensures "enum" <= Clean(d[4]) && EndsWithComma(Clean(d[4]))
  {
    FirstLine(d[4], Join(StateHead(), ','));
  }

  lemma SecondCleaned(d: seq<string>)
    requires |d| > 5 && d[5] == StateSecondLine()
    ensures Clean(d[5]) == Join(StateMiddle(), ',') + "," && EndsWithComma(Clean(d[5]))
  {
    SecondLine(d[5], Join(StateMiddle(), ','));
  }

  lemma LastCleaned(d: seq<string>)
    requires |d| > 6 && d[6] == StateLastLine()
    ensures Clean(d[6]) == Join(StateTail(), ',') + ")"
  {
    LastLine(d[6], Join(StateTail(), ','));
  }

  lemma RelayCleaned(d: seq<string>)
    requires |d| > 7 && d[7] == RelayLine()
    ensures Clean(d[7]) == Opening("Relay", Join(RelayPieces(), ','), ')') && "enum" <= Clean(d[7])
  {
    RelayLineReads(d[7], Join(RelayPieces(), ','));
  }

  /** Three runs of entries, the last two each after a blank. */
  lemma ThreeBodies(e1: seq<Entry>, p1: seq<string>, e2: seq<Entry>, p2: seq<string>,
                    e3: seq<Entry>, p3: seq<string>)
    requires |p1| == |e1| > 0 && |p2| == |e2| > 0 && |p3| == |e3| > 0 && p2[0] == "" && p3[0] == ""
    ensures EnumBody(e1 + e2 + e3, p1 + ([" "] + p2[1..]) + ([" "] + p3[1..]))
      == EnumBody(e1, p1) + "," + (" " + EnumBody(e2, p2)) + "," + (" " + EnumBody(e3, p3))
  {
    var q2 := [" "] + p2[1..];
    var q3 := [" "] + p3[1..];
    assert [""] + p2[1..] == p2 && [""] + p3[1..] == p3;
    BodyPadded(e2, p2[1..]);
    BodyPadded(e3, p3[1..]);
    BodyAppend(e1, p1, e2, q2);
    BodyAppend(e1 + e2, p1 + q2, e3, q3);
  }

  /** The three lines of a declaration, joined, are the declaration. */
  lemma ThreeLinesJoined(name: string, b1: string, b2: string, b3: string)
    ensures Join([Opening(name, b1, ','), b2 + ",", b3 + ")"], ' ')
      == "enum " + (name + "(" + (b1 + "," + (" " + b2) + "," + (" " + b3)) + ")")
  {
    Join3(Opening(name, b1, ','), b2 + ",", b3 + ")", ' ');
    var x := "enum " + name + "(" + b1;
    var y := (" " + b2) + "," + (" " + b3) + ")";
    assert Opening(name, b1, ',') + [' '] + (b2 + ",") + [' '] + (b3 + ")") == x + "," + y;
    assert "enum " + (name + "(" + (b1 + "," + (" " + b2) + "," + (" " + b3)) + ")") == x + "," + y;
  }

  /** A declaration over three lines: the runs after the first each start
      with the blank that joins the lines. */
  lemma ThreeLineDecl(name: string, e1: seq<Entry>, p1: seq<string>, e2: seq<Entry>, p2: seq<string>,
                      e3: seq<Entry>, p3: seq<string>, b1: string, b2: string, b3: string)
    requires |p1| == |e1| > 0 && |p2| == |e2| > 0 && |p3| == |e3| > 0 && p2[0] == "" && p3[0] == ""
    requires b1 == EnumBody(e1, p1) && b2 == EnumBody(e2, p2) && b3 == EnumBody(e3, p3)
    ensures Join([Opening(name, b1, ','), b2 + ",", b3 + ")"], ' ')
      == EnumDecl(name, e1 + e2 + e3, p1 + ([" "] + p2[1..]) + ([" "] + p3[1..]))
  {
    ThreeBodies(e1, p1, e2, p2, e3, p3);
    ThreeLinesJoined(name, b1, b2, b3);
  }

  /** A declaration on one line. */
  lemma OneLineDecl(name: string, e: seq<Entry>, p: seq<string>, b: string)
    requires |p| == |e| && b == EnumBody(e, p)
    ensures Opening(name, b, ')') == EnumDecl(name, e, p)
  {
  }

  // ---------------------------------------------------------------------
  // The two tables.

  /** The sixteen entries of `State` and the blanks before them. */
  function StateEntries(): seq<Entry> { HeadEntries() + MiddleEntries() + TailEntries() }
  function StatePads(): seq<string> { HeadPads + ([" "] + MiddlePads[1..]) + ([" "] + TailPads[1..]) }

  /** The three lines of `State`, cleaned and joined, declare its entries. */
  lemma StateDeclText(b1: string, b2: string, b3: string)
    requires b1 == Join(StateHead(), ',') && b2 == Join(StateMiddle(), ',') && b3 == Join(StateTail(), ',')
    ensures Join([Opening("State", b1, ','), b2 + ",", b3 + ")"], ' ') == EnumDecl("State", StateEntries(), StatePads())
  {
    HeadBody();
    MiddleBody();
    TailBody();
    ThreeLineDecl("State", HeadEntries(), HeadPads, MiddleEntries(), MiddlePads, TailEntries(), TailPads, b1, b2, b3);
  }

  /** Three lines whose cleaned texts are known, joined. */
  lemma DeclarationOnThree(lines: seq<string>, i: nat, c0: string, c1: string, c2: string)
    requires i + 3 <= |lines| && Clean(lines[i]) == c0 && Clean(lines[i + 1]) == c1 && Clean(lines[i + 2]) == c2
    ensures DeclarationOn(lines, i, i + 3) == Join([c0, c1, c2], ' ')
  {
    assert CleanLines(lines, i, i + 3) == [c0, c1, c2];
  }

  /** One line whose cleaned text is known. */
  lemma DeclarationOnOne(lines: seq<string>, i: nat, c0: string)
    requires i < |lines| && Clean(lines[i]) == c0
    ensures DeclarationOn(lines, i, i + 1) == c0
  {
    assert CleanLines(lines, i, i + 1) == [c0];
  }

  lemma StateLinesJoined(d: seq<string>)
    requires |d| > 6 && d[4] == StateFirstLine() && d[5] == StateSecondLine() && d[6] == StateLastLine()
    ensures DeclarationOn(d, 4, 7) == Join([Opening("State", Join(StateHead(), ','), ','), Join(StateMiddle(), ',') + ",", Join(StateTail(), ',') + ")"], ' ')
  {
    var b1, b2, b3 := Join(StateHead(), ','), Join(StateMiddle(), ','), Join(StateTail(), ',');
    FirstCleaned(d);
    SecondCleaned(d);
    LastCleaned(d);
    DeclarationOnThree(d, 4, Opening("State", b1, ','), b2 + ",", b3 + ")");
  }

  lemma StateDeclared(d: seq<string>)
    requires |d| > 6 && d[4] == StateFirstLine() && d[5] == StateSecondLine() && d[6] == StateLastLine()
    ensures DeclarationOn(d, 4, 7) == EnumDecl("State", StateEntries(), StatePads())
  {
    StateLinesJoined(d);
    StateDeclText(Join(StateHead(), ','), Join(StateMiddle(), ','), Join(StateTail(), ','));
  }

  lemma RelayLineJoined(d: seq<string>)
    requires |d| > 7 && d[7] == RelayLine()
    ensures DeclarationOn(d, 7, 8) == Opening("Relay", Join(RelayPieces(), ','), ')')
  {
    RelayCleaned(d);
    DeclarationOnOne(d, 7, Opening("Relay", Join(RelayPieces(), ','), ')'));
  }

  lemma RelayDeclText(b: string)
    requires b == Join(RelayPieces(), ',')
    ensures Opening("Relay", b, ')') == EnumDecl("Relay", RelayEntries(), RelayPads)
  {
    RelayBody();
    OneLineDecl("Relay", RelayEntries(), RelayPads, b);
  }

  lemma RelayDeclared(d: seq<string>)
    requires |d| > 7 && d[7] == RelayLine()
    ensures DeclarationOn(d, 7, 8) == EnumDecl("Relay", RelayEntries(), RelayPads)
  {
    RelayLineJoined(d);
    RelayDeclText(Join(RelayPieces(), ','));
  }

  /** Blanks before the first entry of a run keep it well rendered. */
  lemma WellRenderedPadded(es: seq<Entry>, ps: seq<string>)
    requires WellRendered(es, ps) && ps != []
    ensures WellRendered(es, [" "] + ps[1..])
  {
    var qs := [" "] + ps[1..];
    forall i | 0 <= i < |es| ensures AllSpace(qs[i]) {
      if i > 0 {
        assert qs[i] == ps[i];
      }
    }
  }

  lemma StateWell()
    ensures WellRendered(StateEntries(), StatePads())
  {
    HeadWell();
    MiddleWell();
    TailWell();
    WellRenderedPadded(MiddleEntries(), MiddlePads);
    WellRenderedPadded(TailEntries(), TailPads);
    WellRenderedAppend(HeadEntries(), HeadPads, MiddleEntries(), [" "] + MiddlePads[1..]);
    WellRenderedAppend(HeadEntries() + MiddleEntries(), HeadPads + ([" "] + MiddlePads[1..]),
                       TailEntries(), [" "] + TailPads[1..]);
  }

  // ---------------------------------------------------------------------
  // Reading the document.

  /** The reader with no frame yet and the given tables. */
  function Tabled(tables: map<string, ValueTable>, sec: Section): State {
    State(Database([], tables, []), sec, None, None)
  }

  /** The reader with its one frame open in `{SENDRECEIVE}`. */
  function Opened(f: Frame, tables: map<string, ValueTable>): State {
    State(Database([f], tables, []), SendReceive, Some(0), None)
  }

  /** The preamble and `{ENUMS}` change nothing but the section. */
  lemma EnumsOpened(d: seq<string>)
    requires |d| >= 4
    requires Classify(Clean(d[0])) == Other && Classify(Clean(d[1])) == Other && Classify(Clean(d[2])) == Blank
    requires Classify(Clean(d[3])) == SectionHeader(Enums)
    ensures LoadFrom(Initial, d, 0) == LoadFrom(Tabled(map[], Enums), d, 4)
  {
    PreambleAt(Initial, d);
    SectionAt(Initial, d, 3, Enums);
    assert Initial.(section := Enums, current := None, mux := None) == Tabled(map[], Enums);
  }

  /** A declaration over the three lines from index 4 adds its table. */
  lemma ThreeLineTableAt(d: seq<string>, tables: map<string, ValueTable>, name: string, es: seq<Entry>, ps: seq<string>)
    requires |d| >= 7 && "enum" <= Clean(d[4]) && EndsWithComma(Clean(d[4])) && EndsWithComma(Clean(d[5]))
    requires WellRendered(es, ps) && IsTrimmed(name) && '(' !in name
    requires DeclarationOn(d, 4, 7) == EnumDecl(name, es, ps)
    ensures LoadFrom(Tabled(tables, Enums), d, 4) == LoadFrom(Tabled(tables[name := TableOf(es)], Enums), d, 7)
  {
    forall m | 4 <= m < 6 ensures EndsWithComma(Clean(d[m])) {
      assert m == 4 || m == 5;
    }
    DeclarationAcrossLines(Tabled(tables, Enums), d, 4, 7, name, es, ps);
  }

  /** A declaration on the line at index 7 adds its table. */
  lemma OneLineTableAt(d: seq<string>, tables: map<string, ValueTable>, name: string, es: seq<Entry>, ps: seq<string>)
    requires |d| >= 8 && "enum" <= Clean(d[7])
    requires WellRendered(es, ps) && IsTrimmed(name) && '(' !in name
    requires DeclarationOn(d, 7, 8) == EnumDecl(name, es, ps)
    ensures LoadFrom(Tabled(tables, Enums), d, 7) == LoadFrom(Tabled(tables[name := TableOf(es)], Enums), d, 8)
  {
    DeclarationAcrossLines(Tabled(tables, Enums), d, 7, 8, name, es, ps);
  }

  lemma SetOpened(f: Frame, g: Frame, tables: map<string, ValueTable>)
    ensures SetFrame(Opened(f, tables), g) == Opened(g, tables)
  {
    assert [f][0 := g] == [g];
  }

  /** A blank line, then `{SENDRECEIVE}`. */
  lemma SendReceiveAt(d: seq<string>, tables: map<string, ValueTable>)
    requires |d| >= 10 && Classify(Clean(d[8])) == Blank && Classify(Clean(d[9])) == SectionHeader(SendReceive)
    ensures LoadFrom(Tabled(tables, Enums), d, 8) == LoadFrom(Tabled(tables, SendReceive), d, 10)
  {
    SkipAt(Tabled(tables, Enums), d, 8);
    SectionAt(Tabled(tables, Enums), d, 9, SendReceive);
    assert Tabled(tables, Enums).(section := SendReceive, current := None, mux := None) == Tabled(tables, SendReceive);
  }

  /** The first frame header opens a new, empty frame. */
  lemma FrameOpened(d: seq<string>, tables: map<string, ValueTable>, name: string)
    requires |d| >= 11 && Classify(Clean(d[10])) == FrameHeader(name)
    ensures LoadFrom(Tabled(tables, SendReceive), d, 10) == LoadFrom(Opened(NewFrame(name), tables), d, 11)
  {
    HeaderAt(Tabled(tables, SendReceive), d, 10, name);
    OpenedEmpty(tables, name);
  }

  /** With no frame yet, a header appends a new frame and opens it. */
  lemma OpenedEmpty(tables: map<string, ValueTable>, name: string)
    ensures OpenFrame(Tabled(tables, SendReceive), name) == Opened(NewFrame(name), tables)
  {
    assert [] + [NewFrame(name)] == [NewFrame(name)];
  }

  /** The frame's `ID=`, `Type=` and `DLC=` lines fill it in. */
  lemma FrameFilled(d: seq<string>, tables: map<string, ValueTable>, f: Frame,
                    h: string, id: nat, v: string, w: string, dlc: nat)
    requires |d| >= 14
    requires Classify(Clean(d[11])) == IdLine(h) && ParseHexValue(h) == Some(id)
    requires Classify(Clean(d[12])) == TypeLine(v)
    requires Classify(Clean(d[13])) == DlcLine(w) && ParseNat(w) == Some(dlc)
    ensures LoadFrom(Opened(f, tables), d, 11)
      == LoadFrom(Opened(f.(id := id, extended := v == "Extended", dlc := dlc), tables), d, 14)
  {
    IdAt(Opened(f, tables), d, 11, h, id);
    var f1 := f.(id := id);
    SetOpened(f, f1, tables);
    TypeAt(Opened(f1, tables), d, 12, v);
    var f2 := f1.(extended := v == "Extended");
    SetOpened(f1, f2, tables);
    DlcAt(Opened(f2, tables), d, 13, w, dlc);
    SetOpened(f2, f2.(dlc := dlc), tables);
  }

  /** A `Var=` line that declares a signal referring to a declared table:
      the signal keeps the reference and nothing is reported. */
  lemma TableSignalAt(d: seq<string>, i: nat, f: Frame, tables: map<string, ValueTable>, body: string, s: Signal)
    requires i < |d| && Classify(Clean(d[i])) == VarLine(body)
    requires ParseVar(body) == Ok(VarDecl(s, [])) && s.valueTable.Some? && s.valueTable.value in tables
    ensures LoadFrom(Opened(f, tables), d, i)
      == LoadFrom(Opened(f.(signals := f.signals + [s.(multiplex := None)]), tables), d, i + 1)
  {
    var st := Opened(f, tables);
    var g := f.(signals := f.signals + [s.(multiplex := None)]);
    StepAt(st, d, i, VarLine(body));
    FrameLineStep(st, i + 1, Clean(d[i]), VarLine(body));
    SetOpened(f, g, tables);
    NoErrorsAdded(Opened(g, tables), i + 1);
  }

  /** The two signals, then the end of the document. */
  lemma SignalsPhase(d: seq<string>, f: Frame, tables: map<string, ValueTable>,
                     b1: string, s1: Signal, b2: string, s2: Signal)
    requires |d| == 16 && Classify(Clean(d[14])) == VarLine(b1) && Classify(Clean(d[15])) == VarLine(b2)
    requires ParseVar(b1) == Ok(VarDecl(s1, [])) && s1.valueTable.Some? && s1.valueTable.value in tables
    requires ParseVar(b2) == Ok(VarDecl(s2, [])) && s2.valueTable.Some? && s2.valueTable.value in tables
    ensures LoadFrom(Opened(f, tables), d, 14)
      == Opened(f.(signals := f.signals + [s1.(multiplex := None)] + [s2.(multiplex := None)]), tables)
  {
    TableSignalAt(d, 14, f, tables, b1, s1);
    LastSignalAt(d, f.(signals := f.signals + [s1.(multiplex := None)]), tables, b2, s2);
  }

  /** The last line declares a signal that refers to a declared table. */
  lemma LastSignalAt(d: seq<string>, f: Frame, tables: map<string, ValueTable>, b: string, s: Signal)
    requires |d| == 16 && Classify(Clean(d[15])) == VarLine(b)
    requires ParseVar(b) == Ok(VarDecl(s, [])) && s.valueTable.Some? && s.valueTable.value in tables
    ensures LoadFrom(Opened(f, tables), d, 15) == Opened(f.(signals := f.signals + [s.(multiplex := None)]), tables)
  {
    TableSignalAt(d, 15, f, tables, b, s);
    AtEnd(Opened(f.(signals := f.signals + [s.(multiplex := None)]), tables), d);
  }

  // ---------------------------------------------------------------------
  // The lines of the document, as the reader sees them.

  lemma OpeningLinesRead(d: seq<string>)
    requires |d| >= 4 && d[0] == "FormatVersion=5.0 // Do not edit this line!" && d[1] == "Title=\"AFE_CAN_ID0\""
    requires d[2] == "" && d[3] == "{ENUMS}"
    ensures Classify(Clean(d[0])) == Other && Classify(Clean(d[1])) == Other && Classify(Clean(d[2])) == Blank
    ensures Classify(Clean(d[3])) == SectionHeader(Enums)
  {
    VersionReads(d[0]);
    TablesTitleReads(d[1]);
    SectionReads(d[3], Enums);
  }

  lemma TablesTitleReads(line: string)
    requires line == "Title=\"AFE_CAN_ID0\""
    ensures Classify(Clean(line)) == Other
  {
    assert line == "Title=" + ['"'] + "AFE_CAN_ID0" + ['"'];
    TitleReads(line, "AFE_CAN_ID0");
  }

  lemma StatusBitsHeaderReads(line: string)
    requires line == "[StatusBits]"
    ensures Classify(Clean(line)) == FrameHeader("StatusBits")
  {
    assert line == "[" + "StatusBits" + "]";
    HeaderReads("StatusBits");
  }

  lemma StatusBitsIdReads(line: string)
    requires line == "ID=0CFFC3F7h"
    ensures Classify(Clean(line)) == IdLine("0CFFC3F7h")
  {
    assert line == "ID=" + "0CFFC3F7h";
    IdReads("0CFFC3F7h");
  }

  lemma FrameLinesRead(d: seq<string>)
    requires |d| >= 14 && d[8] == "" && d[9] == "{SENDRECEIVE}" && d[10] == "[StatusBits]"
    requires d[11] == "ID=0CFFC3F7h" && d[12] == "Type=Extended" && d[13] == "DLC=8"
    ensures Classify(Clean(d[8])) == Blank && Classify(Clean(d[9])) == SectionHeader(SendReceive)
    ensures Classify(Clean(d[10])) == FrameHeader("StatusBits")
    ensures Classify(Clean(d[11])) == IdLine("0CFFC3F7h") && Classify(Clean(d[12])) == TypeLine("Extended")
    ensures Classify(Clean(d[13])) == DlcLine("8")
  {
    SectionReads(d[9], SendReceive);
    StatusBitsHeaderReads(d[10]);
    StatusBitsIdReads(d[11]);
    ExtendedReads(d[12]);
    DlcEightReads(d[13]);
  }

  /** A `Var=` line that refers to a table is read as it is written. */
  lemma TableSignalLineReads(line: string, name: string, range: string, t: string)
    requires '"' !in name && '/' !in name && name != [] && '"' !in range && '/' !in range && Plain(t) && t != []
    requires line == "Var=" + TableSignalText(name, range, t)
    ensures Classify(Clean(line)) == VarLine(TableSignalText(name, range, t))
  {
    TableSignalReads(line, name, "unsigned", range, t);
  }

  lemma StateSignalRead(line: string)
    requires line == StateSignalLine()
    ensures Classify(Clean(line)) == VarLine(StateSignalBody())
  {
    TableSignalLineReads(line, "State_status", "0,16", "State");
  }

  lemma RelaySignalRead(line: string)
    requires line == RelaySignalLine()
    ensures Classify(Clean(line)) == VarLine(RelaySignalBody())
  {
    TableSignalLineReads(line, "MX2Permissive_status", "32,16", "Relay");
  }

  /** The two signals the frame declares. */
  function StateSignal(): Signal { Signal("State_status", 0, 16, false, false, "0", map[], Some("State"), None) }
  function RelaySignal(): Signal { Signal("MX2Permissive_status", 32, 16, false, false, "0", map[], Some("Relay"), None) }

  /** An unsigned signal that refers to a table, without warnings. */
  lemma TableSignalParses(name: string, start: nat, size: nat, range: string, t: string)
    requires IsGroupName(name) && Plain(t) && range == BitRangeText(start, size)
    ensures ParseVar(TableSignalText(name, range, t))
      == Ok(VarDecl(Signal(name, start, size, false, false, "0", map[], Some(t), None), []))
  {
    GroupName("unsigned");
    TableVar(name, "unsigned", start, size, t);
  }

  lemma RangeTexts()
    ensures BitRangeText(0, 16) == "0,16" && BitRangeText(32, 16) == "32,16"
  {
    WidthTexts();
    SixteenText();
  }

  lemma StateSignalName()
    ensures IsGroupName("State_status")
  {
    GroupName("State_status");
  }

  lemma RelaySignalName()
    ensures IsGroupName("MX2Permissive_status")
  {
    GroupName("MX2Permissive_status");
  }

  lemma StateSignalParses()
    ensures ParseVar(StateSignalBody()) == Ok(VarDecl(StateSignal(), []))
  {
    StateSignalName();
    RangeTexts();
    TableSignalParses("State_status", 0, 16, "0,16", "State");
  }

  lemma RelaySignalParses()
    ensures ParseVar(RelaySignalBody()) == Ok(VarDecl(RelaySignal(), []))
  {
    RelaySignalName();
    RangeTexts();
    TableSignalParses("MX2Permissive_status", 32, 16, "32,16", "Relay");
  }

  // ---------------------------------------------------------------------
  // The tables read.

  /** Two runs of four entries, added in turn. */
  lemma Extend8(t: ValueTable, a: seq<Entry>, b: seq<Entry>)
    requires |a| == 4 && |b| == 4
    ensures Extend(t, a + b)
      == t[a[0].code := a[0].desc][a[1].code := a[1].desc][a[2].code := a[2].desc][a[3].code := a[3].desc]
          [b[0].code := b[0].desc][b[1].code := b[1].desc][b[2].code := b[2].desc][b[3].code := b[3].desc]
  {
    ExtendAppend(t, a, b);
    ExtendFour(t, a);
    ExtendFour(Extend(t, a), b);
  }

  /** A run of four entries, added in turn. */
  lemma ExtendFour(t: ValueTable, a: seq<Entry>)
    requires |a| == 4
    ensures Extend(t, a) == t[a[0].code := a[0].desc][a[1].code := a[1].desc][a[2].code := a[2].desc][a[3].code := a[3].desc]
  {
    assert a == [a[0], a[1], a[2], a[3]];
    Extend4(t, a[0], a[1], a[2], a[3]);
  }

  /** The table `State` declares. */
  function StateTable(): ValueTable {
    map[0 := PowerOnReset, 1 := "Ready,set,go", 2 := "Following", 3 := "Fault", 4 := "Forming",
        5 := "N/A", 6 := "N/A", 7 := "N/A", 8 := "N/A", 9 := "N/A", 10 := "N/A", 11 := "N/A",
        12 := "N/A", 13 := "N/A", 14 := "N/A", 15 := "N/A"]
  }

  /** The table `Relay` declares. */
  function RelayTable(): ValueTable {
    map[0 := "Open", 1 := "Closed", 2 := "Error", 3 := "N/A"]
  }

  lemma Regroup(h: seq<Entry>, m: seq<Entry>, t: seq<Entry>)
    requires |m| == 8
    ensures h + m + t == (h + m[..4]) + (m[4..] + t)
  {
    assert m == m[..4] + m[4..];
  }

  lemma StateFirstHalf()
    ensures Extend(map[], HeadEntries() + MiddleEntries()[..4])
      == map[0 := PowerOnReset, 1 := "Ready,set,go", 2 := "Following", 3 := "Fault", 4 := "Forming",
             5 := "N/A", 6 := "N/A", 7 := "N/A"]
  {
    Extend8(map[], HeadEntries(), MiddleEntries()[..4]);
  }

  lemma StateSecondHalf(t: ValueTable)
    ensures Extend(t, MiddleEntries()[4..] + TailEntries())
      == t[8 := "N/A"][9 := "N/A"][10 := "N/A"][11 := "N/A"][12 := "N/A"][13 := "N/A"][14 := "N/A"][15 := "N/A"]
  {
    Extend8(t, MiddleEntries()[4..], TailEntries());
  }

  /** `State` is read as its sixteen entries. */
  lemma StateTableRead()
    ensures TableOf(StateEntries()) == StateTable()
  {
    Regroup(HeadEntries(), MiddleEntries(), TailEntries());
    ExtendAppend(map[], HeadEntries() + MiddleEntries()[..4], MiddleEntries()[4..] + TailEntries());
    StateFirstHalf();
    StateSecondHalf(Extend(map[], HeadEntries() + MiddleEntries()[..4]));
  }

  /** `Relay` is read as its four entries. */
  lemma RelayTableRead()
    ensures TableOf(RelayEntries()) == RelayTable()
  {
    Extend4(map[], Entry(0, "Open"), Entry(1, "Closed"), Entry(2, "Error"), Entry(3, "N/A"));
  }

  // ---------------------------------------------------------------------
  // The whole document.

  /** The tables once both declarations are read. */
  function Tables(): map<string, ValueTable> {
    map["State" := StateTable(), "Relay" := RelayTable()]
  }

  /** The frame as the document declares it. */
  function StatusBits(): Frame {
    Frame("StatusBits", 0x0CFFC3F7, true, 8, [StateSignal(), RelaySignal()], map[])
  }

  /** How the reader classifies the lines outside the declarations. */
  predicate LinesShape(d: seq<string>, name: string, h: string, v: string, w: string, b1: string, b2: string) {
    && |d| == 16
    && Classify(Clean(d[0])) == Other && Classify(Clean(d[1])) == Other && Classify(Clean(d[2])) == Blank
    && Classify(Clean(d[3])) == SectionHeader(Enums)
    && Classify(Clean(d[8])) == Blank && Classify(Clean(d[9])) == SectionHeader(SendReceive)
    && Classify(Clean(d[10])) == FrameHeader(name)
    && Classify(Clean(d[11])) == IdLine(h) && Classify(Clean(d[12])) == TypeLine(v)
    && Classify(Clean(d[13])) == DlcLine(w)
    && Classify(Clean(d[14])) == VarLine(b1) && Classify(Clean(d[15])) == VarLine(b2)
  }

  /** The two declarations, as the reader gathers them. */
  predicate DeclarationsShape(d: seq<string>, e1: seq<Entry>, p1: seq<string>, e2: seq<Entry>, p2: seq<string>) {
    && |d| == 16 && |p1| == |e1| && |p2| == |e2|
    && "enum" <= Clean(d[4]) && EndsWithComma(Clean(d[4])) && EndsWithComma(Clean(d[5]))
    && "enum" <= Clean(d[7])
    && DeclarationOn(d, 4, 7) == EnumDecl("State", e1, p1) && DeclarationOn(d, 7, 8) == EnumDecl("Relay", e2, p2)
  }

  /** Two declarations in a row: both tables are read and nothing is reported. */
  lemma TablesChain(d: seq<string>, t: map<string, ValueTable>, n1: string, e1: seq<Entry>, p1: seq<string>,
                    n2: string, e2: seq<Entry>, p2: seq<string>)
    requires |d| >= 8 && "enum" <= Clean(d[4]) && EndsWithComma(Clean(d[4])) && EndsWithComma(Clean(d[5]))
    requires "enum" <= Clean(d[7])
    requires WellRendered(e1, p1) && IsTrimmed(n1) && '(' !in n1 && DeclarationOn(d, 4, 7) == EnumDecl(n1, e1, p1)
    requires WellRendered(e2, p2) && IsTrimmed(n2) && '(' !in n2 && DeclarationOn(d, 7, 8) == EnumDecl(n2, e2, p2)
    ensures LoadFrom(Tabled(t, Enums), d, 4) == LoadFrom(Tabled(t[n1 := TableOf(e1)][n2 := TableOf(e2)], Enums), d, 8)
  {
    ThreeLineTableAt(d, t, n1, e1, p1);
    OneLineTableAt(d, t[n1 := TableOf(e1)], n2, e2, p2);
  }

  /** From the frame on: the frame is filled in and its two signals keep
      their references. */
  lemma FrameChain(d: seq<string>, tables: map<string, ValueTable>, name: string, h: string, id: nat, v: string,
                   w: string, dlc: nat, b1: string, s1: Signal, b2: string, s2: Signal)
    requires LinesShape(d, name, h, v, w, b1, b2) && ParseHexValue(h) == Some(id) && ParseNat(w) == Some(dlc)
    requires ParseVar(b1) == Ok(VarDecl(s1, [])) && s1.valueTable.Some? && s1.valueTable.value in tables
    requires ParseVar(b2) == Ok(VarDecl(s2, [])) && s2.valueTable.Some? && s2.valueTable.value in tables
    ensures LoadFrom(Tabled(tables, Enums), d, 8)
      == Opened(NewFrame(name).(id := id, extended := v == "Extended", dlc := dlc,
                                signals := NewFrame(name).signals + [s1.(multiplex := None)] + [s2.(multiplex := None)]), tables)
  {
    SendReceiveAt(d, tables);
    FrameOpened(d, tables, name);
    FrameRest(d, tables, NewFrame(name), h, id, v, w, dlc, b1, s1, b2, s2);
  }

  lemma FrameRest(d: seq<string>, tables: map<string, ValueTable>, f: Frame, h: string, id: nat, v: string,
                   w: string, dlc: nat, b1: string, s1: Signal, b2: string, s2: Signal)
    requires |d| == 16
    requires Classify(Clean(d[11])) == IdLine(h) && ParseHexValue(h) == Some(id)
    requires Classify(Clean(d[12])) == TypeLine(v)
    requires Classify(Clean(d[13])) == DlcLine(w) && ParseNat(w) == Some(dlc)
    requires Classify(Clean(d[14])) == VarLine(b1) && Classify(Clean(d[15])) == VarLine(b2)
    requires ParseVar(b1) == Ok(VarDecl(s1, [])) && s1.valueTable.Some? && s1.valueTable.value in tables
    requires ParseVar(b2) == Ok(VarDecl(s2, [])) && s2.valueTable.Some? && s2.valueTable.value in tables
    ensures LoadFrom(Opened(f, tables), d, 11)
      == Opened(f.(id := id, extended := v == "Extended", dlc := dlc,
                   signals := f.signals + [s1.(multiplex := None)] + [s2.(multiplex := None)]), tables)
  {
    var g := f.(id := id, extended := v == "Extended", dlc := dlc);
    FrameFilled(d, tables, f, h, id, v, w, dlc);
    SignalsPhase(d, g, tables, b1, s1, b2, s2);
    assert g.(signals := g.signals + [s1.(multiplex := None)] + [s2.(multiplex := None)])
      == f.(id := id, extended := v == "Extended", dlc := dlc,
            signals := f.signals + [s1.(multiplex := None)] + [s2.(multiplex := None)]);
  }

  lemma LinesShaped(d: seq<string>)
    requires TablesDocument(d)
    ensures LinesShape(d, "StatusBits", "0CFFC3F7h", "Extended", "8", StateSignalBody(), RelaySignalBody())
  {
    OpeningLinesRead(d);
    FrameLinesRead(d);
    StateSignalRead(d[14]);
    RelaySignalRead(d[15]);
  }

  lemma DeclarationsShaped(d: seq<string>)
    requires TablesDocument(d)
    ensures DeclarationsShape(d, StateEntries(), StatePads(), RelayEntries(), RelayPads)
  {
    FirstCleaned(d);
    SecondCleaned(d);
    RelayCleaned(d);
    StateDeclared(d);
    RelayDeclared(d);
  }

  lemma StatusBitsBuilt()
    ensures NewFrame("StatusBits").(id := 0x0CFFC3F7, extended := "Extended" == "Extended", dlc := 8,
              signals := NewFrame("StatusBits").signals + [StateSignal().(multiplex := None)]
                         + [RelaySignal().(multiplex := None)])
      == StatusBits()
  {
    assert [] + [StateSignal()] + [RelaySignal()] == [StateSignal(), RelaySignal()];
  }

  lemma PreambleLoaded(d: seq<string>)
    requires TablesDocument(d)
    ensures LoadFrom(Initial, d, 0) == LoadFrom(Tabled(map[], Enums), d, 4)
  {
    OpeningLinesRead(d);
    EnumsOpened(d);
  }

  lemma DeclarationsLoaded(d: seq<string>)
    requires TablesDocument(d)
    ensures LoadFrom(Tabled(map[], Enums), d, 4) == LoadFrom(Tabled(Tables(), Enums), d, 8)
  {
    DeclarationsShaped(d);
    StateWell();
    RelayWell();
    NamesPlain();
    TablesChain(d, map[], "State", StateEntries(), StatePads(), "Relay", RelayEntries(), RelayPads);
    TablesBuilt();
  }

  lemma NamesPlain()
    ensures IsTrimmed("State") && '(' !in "State" && IsTrimmed("Relay") && '(' !in "Relay"
  {
  }

  lemma TablesBuilt()
    ensures map[]["State" := TableOf(StateEntries())]["Relay" := TableOf(RelayEntries())] == Tables()
  {
    StateTableRead();
    RelayTableRead();
  }

  lemma FrameLoaded(d: seq<string>)
    requires TablesDocument(d)
    ensures LoadFrom(Tabled(Tables(), Enums), d, 8) == Opened(StatusBits(), Tables())
  {
    LinesShaped(d);
    StatusBitsId();
    EightValue();
    StateSignalParses();
    RelaySignalParses();
    FrameChain(d, Tables(), "StatusBits", "0CFFC3F7h", 0x0CFFC3F7, "Extended", "8", 8,
               StateSignalBody(), StateSignal(), RelaySignalBody(), RelaySignal());
    StatusBitsBuilt();
  }

  /** The value-table test: the document is read as exactly the tables
      `State`, with its sixteen labels and the commas quoted inside them,
      and `Relay`, with its four; the frame's two signals keep the tables
      they name; and nothing is reported. */
  lemma ReadValueTables(d: seq<string>)
    requires TablesDocument(d)
    ensures Load(d) == Database([StatusBits()], map["State" := StateTable(), "Relay" := RelayTable()], [])
  {
    PreambleLoaded(d);
    DeclarationsLoaded(d);
    FrameLoaded(d);
  }
}
