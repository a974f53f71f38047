/**
  Writing a signal back as a `Var=` line (create_signal).  The `/d:` switch
  carries the initial value exactly as the literal it was read from, so
  `37` stays `37` and `37.1` stays `37.1`, whatever the signal's type.
*/
module Serializer {
  import opened Wrappers
  import opened Text
  import opened Tokenizer
  import opened Signals

  /** The type keyword for a signal; a floating-point signal wider than 32
      bits is a `double`. */
  function TypeKeyword(sig: Signal): string {
    if sig.isFloat then (if sig.size > 32 then "double" else "float")
    else if sig.isSigned then "signed"
    else "unsigned"
  }

  function LongNameToken(longName: string): string {
    "/ln:" + ['"'] + longName + ['"']
  }

  /** `/e:` and the value table's name, if the signal has a value table. */
  function TableTokens(sig: Signal): seq<string> {
    if sig.valueTable.Some? then ["/e:" + sig.valueTable.value] else []
  }

  /** The quoted long name, if the signal has one. */
  function LongNameTokens(sig: Signal): seq<string> {
    if "LongName" in sig.attributes then [LongNameToken(sig.attributes["LongName"])] else []
  }

  /** The blank-free fields of the line, in order: name, type, bit range,
      `/e:` if the signal has a value table, and `/d:`. */
  function PlainTokens(sig: Signal): seq<string> {
    [sig.name, TypeKeyword(sig), BitRangeText(sig.startBit, sig.size)]
    + TableTokens(sig)
    + ["/d:" + sig.initialValue]
  }

  /** All fields of the line: the plain ones, then the quoted long name if
      the signal has one. */
  function SignalTokens(sig: Signal): seq<string> {
    PlainTokens(sig) + LongNameTokens(sig)
  }

  function CreateSignal(sig: Signal): (line: string)
    ensures "Var=" <= line
  {
    "Var=" + Join(SignalTokens(sig), ' ')
  }

  // ---------------------------------------------------------------------
  // Character classes of the written fields.

  /** No whitespace and no quote: the text stays one field and one word. */
  predicate Unbroken(s: string) {
    forall i :: 0 <= i < |s| ==> !IsSpace(s[i]) && s[i] != '"'
  }

  /** Unbroken and without slashes: safe for a name, a value-table name or
      an initial-value literal. */
  predicate Plain(s: string) {
    Unbroken(s) && '/' !in s
  }

  lemma UnbrokenConcat(a: string, b: string)
    requires Unbroken(a) && Unbroken(b)
    ensures Unbroken(a + b)
  {
    var s := a + b;
    forall i | 0 <= i < |s| ensures !IsSpace(s[i]) && s[i] != '"' {
      if i < |a| {
        assert s[i] == a[i];
      } else {
        assert s[i] == b[i - |a|];
      }
    }
  }

  lemma DigitsPlain(s: string)
    requires AllDigits(s, 10)
    ensures Plain(s)
  {
    forall i | 0 <= i < |s| ensures !IsSpace(s[i]) && s[i] != '"' && s[i] != '/' {
      assert IsDigit(s[i], 10);
    }
  }

  lemma BitRangePlain(start: nat, size: nat)
    ensures Plain(BitRangeText(start, size))
    ensures BitRangeText(start, size) != []
    ensures IsDigit(BitRangeText(start, size)[0], 10)
  {
    var a := NatToString(start);
    var b := NatToString(size);
    DigitsPlain(a);
    DigitsPlain(b);
    UnbrokenConcat(a, ",");
    UnbrokenConcat(a + ",", b);
    assert BitRangeText(start, size)[0] == a[0];
  }

  /** A switch `/tag:value` with a plain value: one field, no comment. */
  lemma SwitchToken(tag: string, value: string)
    requires tag in {"e", "d"} && Plain(value)
    ensures Unbroken("/" + tag + ":" + value)
    ensures NoDoubleSlash("/" + tag + ":" + value)
  {
    var s := "/" + tag + ":" + value;
    UnbrokenConcat("/" + tag + ":", value);
    forall i | 0 <= i < |s| - 1 ensures !(s[i] == '/' && s[i + 1] == '/') {
      if i >= 3 {
        assert s[i] == value[i - 3];
      }
    }
  }

  /** The written switch is read back as its tag and value. */
  lemma ParseSwitchOf(tag: string, value: string)
    requires tag != [] && ':' !in tag && '"' !in tag
    ensures ParseSwitch("/" + tag + ":" + value) == (tag, Unquote(value))
  {
    var token := "/" + tag + ":" + value;
    var body := tag + ":" + value;
    assert token[1..] == body;
    assert forall i :: 0 <= i < |tag| ==> tag[i] !in {':'};
    FieldEndUnquoted(tag, {':'}, false);
    assert body == tag + (":" + value);
    FieldEndConcat(tag, ":" + value, {':'}, false);
    assert body[..|tag|] == tag;
    assert body[|tag| + 1..] == value;
  }

  function ParsedType(sig: Signal): ValueType {
    if sig.isFloat then (if sig.size > 32 then Double else Float)
    else if sig.isSigned then Signed
    else Unsigned
  }

  /** Every keyword the writer picks is read back as the type it stands
      for. */
  lemma TypeKeywordRoundTrip(sig: Signal)
    ensures ParseType(TypeKeyword(sig)) == Some(ParsedType(sig))
    ensures Plain(TypeKeyword(sig)) && TypeKeyword(sig) != []
    ensures TypeKeyword(sig)[0] != '/' && TypeKeyword(sig)[0] != 'V'
  {
  }

  // ---------------------------------------------------------------------
  // Joining fields.

  lemma {:induction false} JoinUnbroken(ts: seq<string>)
    requires forall i :: 0 <= i < |ts| ==> Unbroken(ts[i]) && NoDoubleSlash(ts[i])
    ensures '"' !in Join(ts, ' ') && NoDoubleSlash(Join(ts, ' '))
    decreases |ts|
  {
    if |ts| > 1 {
      JoinUnbroken(ts[1..]);
      var rest := Join(ts[1..], ' ');
      NoDoubleSlashConcat(ts[0], " ");
      NoDoubleSlashConcat(ts[0] + " ", rest);
      assert Unbroken(ts[0]);
      UnbrokenQuoteFree(ts[0]);
    } else if |ts| == 1 {
      UnbrokenQuoteFree(ts[0]);
    }
  }

  lemma UnbrokenQuoteFree(s: string)
    requires Unbroken(s)
    ensures '"' !in s
  {
    forall i | 0 <= i < |s| ensures s[i] != '"' {
    }
  }

  /** Fields written with single blanks between them are the words of the
      line. */
  lemma {:induction false} WordsOfJoin(ts: seq<string>)
    requires forall i :: 0 <= i < |ts| ==> ts[i] != [] && Unbroken(ts[i])
    ensures Words(Join(ts, ' ')) == ts
    decreases |ts|
  {
    if |ts| == 1 {
      WordsOfWord(ts[0]);
    } else if |ts| > 1 {
      WordsOfJoin(ts[1..]);
      WordsOfWord(ts[0]);
      WordsConcat(ts[0], Join(ts[1..], ' '));
      assert Join(ts, ' ') == ts[0] + " " + Join(ts[1..], ' ');
    }
  }

  // ---------------------------------------------------------------------
  // Reading a written line back.

  /** The signals the writer can write so that they are read back whole:
      names and literals without whitespace, quotes or slashes, no attribute
      but the long name, no multiplexer value, and a floating-point signal
      unsigned and 32 or 64 bits wide. */
  predicate Exportable(sig: Signal) {
    sig.name != [] && Plain(sig.name) && Plain(sig.initialValue)
    && (sig.valueTable.Some? ==> Plain(sig.valueTable.value))
    && sig.attributes.Keys <= {"LongName"}
    && ("LongName" in sig.attributes ==> '"' !in sig.attributes["LongName"])
    && sig.multiplex == None
    && (sig.isFloat ==> (sig.size == 32 || sig.size == 64) && !sig.isSigned)
  }

  lemma PlainTokensShape(sig: Signal)
    requires Plain(sig.name) && Plain(sig.initialValue)
    requires sig.valueTable.Some? ==> Plain(sig.valueTable.value)
    ensures var ts := PlainTokens(sig);
      forall i :: 0 <= i < |ts| ==> Unbroken(ts[i]) && NoDoubleSlash(ts[i]) && (i > 0 ==> ts[i] != [])
  {
    var ts := PlainTokens(sig);
    TypeKeywordRoundTrip(sig);
    BitRangePlain(sig.startBit, sig.size);
    SwitchToken("d", sig.initialValue);
    assert "/d:" + sig.initialValue == "/" + "d" + ":" + sig.initialValue;
    if sig.valueTable.Some? {
      SwitchToken("e", sig.valueTable.value);
      assert "/e:" + sig.valueTable.value == "/" + "e" + ":" + sig.valueTable.value;
    }
    forall i | 0 <= i < |ts| ensures Unbroken(ts[i]) && NoDoubleSlash(ts[i]) && (i > 0 ==> ts[i] != []) {
      if i < 3 {
        PlainNoDoubleSlash(ts[i]);
      }
    }
  }

  lemma PlainNoDoubleSlash(s: string)
    requires Plain(s)
    ensures NoDoubleSlash(s)
  {
  }

  /** The fields of a written line, split on blanks outside quotes, are the
      fields the writer joined. */
  lemma FieldsOfCreated(sig: Signal)
    requires Exportable(sig)
    ensures NonEmpty(SplitQuoted(Join(SignalTokens(sig), ' '), Blanks)) == SignalTokens(sig)
  {
    var ts := SignalTokens(sig);
    var plain := PlainTokens(sig);
    PlainTokensShape(sig);
    forall i | 0 <= i < |ts| ensures ts[i] != [] && IsField(ts[i], Blanks) {
      if i < |plain| {
        assert ts[i] == plain[i];
        assert forall j :: 0 <= j < |ts[i]| ==> ts[i][j] !in Blanks;
        UnbrokenQuoteFree(ts[i]);
        PlainIsField(ts[i], Blanks);
      } else {
        var ln := sig.attributes["LongName"];
        assert ts[i] == "/ln:" + ['"'] + ln + ['"'];
        QuotedIsField("/ln:", ln, Blanks);
      }
    }
    SplitQuotedJoin(ts, ' ', Blanks);
    NonEmptyAll(ts);
  }

  /** The signal the fixed fields describe, before any switch. */
  function Bare(sig: Signal): Signal {
    sig.(initialValue := "0", attributes := map[], valueTable := None)
  }

  lemma ApplyTableSwitch(sig: Signal, t: string)
    requires Plain(t)
    ensures ApplySwitches(sig, ["/e:" + t]) == sig.(valueTable := Some(t))
  {
    ParseSwitchOf("e", t);
    assert "/e:" + t == "/" + "e" + ":" + t;
    UnbrokenQuoteFree(t);
    UnquotePlain(t);
  }

  lemma ApplyInitialSwitch(sig: Signal, lit: string)
    requires Plain(lit)
    ensures ApplySwitches(sig, ["/d:" + lit]) == sig.(initialValue := lit)
  {
    ParseSwitchOf("d", lit);
    assert "/d:" + lit == "/" + "d" + ":" + lit;
    UnbrokenQuoteFree(lit);
    UnquotePlain(lit);
  }

  lemma ApplyLongNameSwitch(sig: Signal, name: string)
    requires '"' !in name
    ensures ApplySwitches(sig, [LongNameToken(name)]) == sig.(attributes := sig.attributes["LongName" := name])
  {
    ParseSwitchOf("ln", ['"'] + name + ['"']);
    assert LongNameToken(name) == "/" + "ln" + ":" + (['"'] + name + ['"']);
    UnquoteQuoted(name);
  }

  /** The fields after the bit range are the switches. */
  lemma SwitchFields(sig: Signal)
    ensures SignalTokens(sig)[3..] == TableTokens(sig) + ["/d:" + sig.initialValue] + LongNameTokens(sig)
  {
    var fixed := [sig.name, TypeKeyword(sig), BitRangeText(sig.startBit, sig.size)];
    var e, d, ln := TableTokens(sig), ["/d:" + sig.initialValue], LongNameTokens(sig);
    assert SignalTokens(sig) == fixed + (e + d + ln);
    DropAppend(fixed, e + d + ln, 3);
    assert fixed[3..] == [];
    AppendEmpty(e + d + ln);
  }

  /** `/e:` and `/d:` restore the value table and the initial value. */
  lemma TableAndInitial(sig: Signal)
    requires Exportable(sig)
    ensures ApplySwitches(Bare(sig), TableTokens(sig) + ["/d:" + sig.initialValue])
      == sig.(attributes := map[])
  {
    var e, d := TableTokens(sig), ["/d:" + sig.initialValue];
    ApplySwitchesConcat(Bare(sig), e, d);
    var s1 := Bare(sig).(valueTable := sig.valueTable);
    if sig.valueTable.Some? {
      ApplyTableSwitch(Bare(sig), sig.valueTable.value);
    } else {
      assert ApplySwitches(Bare(sig), e) == s1;
    }
    ApplyInitialSwitch(s1, sig.initialValue);
  }

  /** The long name switch, if written, restores the only attribute. */
  lemma LongNameRestores(sig: Signal)
    requires Exportable(sig)
    ensures ApplySwitches(sig.(attributes := map[]), LongNameTokens(sig)) == sig
  {
    var s2 := sig.(attributes := map[]);
    if "LongName" in sig.attributes {
      var ln := sig.attributes["LongName"];
      ApplyLongNameSwitch(s2, ln);
      assert sig.attributes == map["LongName" := ln];
    } else {
      assert sig.attributes == map[];
      assert LongNameTokens(sig) == [];
    }
  }

  lemma SwitchesOfCreated(sig: Signal)
    requires Exportable(sig)
    ensures ApplySwitches(Bare(sig), SignalTokens(sig)[3..]) == sig
  {
    var ed := TableTokens(sig) + ["/d:" + sig.initialValue];
    SwitchFields(sig);
    ApplySwitchesConcat(Bare(sig), ed, LongNameTokens(sig));
    TableAndInitial(sig);
    LongNameRestores(sig);
  }

  /** The fixed fields describe the signal without its switches, and a
      floating-point signal written at its own width raises nothing. */
  lemma BaseOfCreated(sig: Signal)
    requires Exportable(sig)
    ensures BaseSignal(sig.name, ParsedType(sig), (sig.startBit, sig.size)) == Bare(sig)
    ensures SizeWarnings(TypeKeyword(sig), ParsedType(sig), (sig.startBit, sig.size)) == []
  {
  }

  /** The text after `Var=` is read back as the signal, with no
      diagnostic. */
  lemma ParseVarOfCreated(sig: Signal)
    requires Exportable(sig)
    ensures ParseVar(Join(SignalTokens(sig), ' ')) == Ok(VarDecl(sig, []))
  {
    var ts := SignalTokens(sig);
    var fields := NonEmpty(SplitQuoted(Join(ts, ' '), Blanks));
    FieldsOfCreated(sig);
    assert fields == ts;
    assert ts[0] == sig.name && ts[1] == TypeKeyword(sig);
    assert ts[2] == BitRangeText(sig.startBit, sig.size);
    TypeKeywordRoundTrip(sig);
    ParseBitRangeText(sig.startBit, sig.size);
    UnbrokenQuoteFree(sig.name);
    UnquotePlain(sig.name);
    ParseVarOfFields(Join(ts, ' '), ts, ParsedType(sig), (sig.startBit, sig.size));
    BaseOfCreated(sig);
    SwitchesOfCreated(sig);
  }

  /** The line up to its long name: no quote, no `//`, and it neither starts
      nor ends with whitespace. */
  lemma HeadShape(sig: Signal)
    requires Plain(sig.name) && Plain(sig.initialValue)
    requires sig.valueTable.Some? ==> Plain(sig.valueTable.value)
    ensures var head := "Var=" + Join(PlainTokens(sig), ' ');
      '"' !in head && NoDoubleSlash(head) && head[0] == 'V'
      && !IsSpace(head[|head| - 1]) && head[|head| - 1] != '/'
  {
    var plain := PlainTokens(sig);
    var head := "Var=" + Join(plain, ' ');
    PlainTokensShape(sig);
    JoinUnbroken(plain);
    NoDoubleSlashConcat("Var=", Join(plain, ' '));
    JoinLast(plain, ' ');
    var dTok := "/d:" + sig.initialValue;
    assert plain[|plain| - 1] == dTok;
    assert head[|head| - 1] == dTok[|dTok| - 1];
  }

  lemma CleanOfLongNameLine(head: string, ln: string)
    requires '"' !in head && NoDoubleSlash(head) && head != [] && !IsSpace(head[0])
    requires head[|head| - 1] != '/' && '"' !in ln
    ensures Clean(head + " " + LongNameToken(ln)) == head + " " + LongNameToken(ln)
  {
    var a := head + " /ln:";
    NoDoubleSlashConcat(head, " /ln:");
    var line := head + " " + LongNameToken(ln);
    assert line == a + ['"'] + ln + ['"'];
    QuotedHasNoComment(a, ln);
    assert line[|line| - 1] == '"';
    assert line[0] == head[0];
    TrimTrimmed(line);
  }

  lemma CleanOfPlainLine(line: string)
    requires '"' !in line && NoDoubleSlash(line) && line != []
    requires !IsSpace(line[0]) && !IsSpace(line[|line| - 1])
    ensures Clean(line) == line
  {
    NoCommentWithoutSlashes(line, false);
    TrimTrimmed(line);
  }

  /** The written line is its plain fields, then the long name if any. */
  lemma LineShape(sig: Signal)
    ensures var head := "Var=" + Join(PlainTokens(sig), ' ');
      CreateSignal(sig) == if "LongName" in sig.attributes
        then head + " " + LongNameToken(sig.attributes["LongName"]) else head
  {
    var plain := PlainTokens(sig);
    if "LongName" in sig.attributes {
      var lnTok := LongNameToken(sig.attributes["LongName"]);
      JoinAppend(plain, [lnTok], ' ');
      assert SignalTokens(sig) == plain + [lnTok];
    } else {
      AppendEmpty(plain);
    }
  }

  /** A written line is left as it is by the comment stripping and trimming
      the reader applies to every line; a `//` in the long name is inside
      quotes. */
  lemma CleanOfCreated(sig: Signal)
    requires Exportable(sig)
    ensures Clean(CreateSignal(sig)) == CreateSignal(sig)
  {
    var head := "Var=" + Join(PlainTokens(sig), ' ');
    HeadShape(sig);
    LineShape(sig);
    if "LongName" in sig.attributes {
      CleanOfLongNameLine(head, sig.attributes["LongName"]);
    } else {
      CleanOfPlainLine(head);
    }
  }

  /** Reading a written `Var=` line gives back the signal that was written,
      long name included, and raises no diagnostic. */
  lemma ReadCreatedSignal(sig: Signal)
    requires Exportable(sig)
    ensures Clean(CreateSignal(sig)) == CreateSignal(sig)
    ensures ParseVar(CreateSignal(sig)[4..]) == Ok(VarDecl(sig, []))
  {
    CleanOfCreated(sig);
    assert CreateSignal(sig)[4..] == Join(SignalTokens(sig), ' ');
    ParseVarOfCreated(sig);
  }

  // ---------------------------------------------------------------------
  // The `/d:` segment.

  /** The words of `ws` that start with `p`, in order. */
  function WithPrefix(ws: seq<string>, p: string): (r: seq<string>)
    ensures forall i :: 0 <= i < |r| ==> p <= r[i]
    ensures forall w :: w in r ==> w in ws
    ensures forall w :: w in ws && p <= w ==> w in r
    decreases |ws|
  {
    if ws == [] then []
    else (if p <= ws[0] then [ws[0]] else []) + WithPrefix(ws[1..], p)
  }

  lemma {:induction false} WithPrefixConcat(a: seq<string>, b: seq<string>, p: string)
    ensures WithPrefix(a + b, p) == WithPrefix(a, p) + WithPrefix(b, p)
    decreases |a|
  {
    if a != [] {
      DropAppend(a, b, 1);
      assert (a + b)[0] == a[0];
      WithPrefixConcat(a[1..], b, p);
      AppendAssoc(if p <= a[0] then [a[0]] else [], WithPrefix(a[1..], p), WithPrefix(b, p));
    } else {
      AppendEmpty(b);
      AppendEmpty(WithPrefix(b, p));
    }
  }

  lemma {:induction false} NoneWithPrefix(ws: seq<string>, p: string)
    requires forall i :: 0 <= i < |ws| ==> !(p <= ws[i])
    ensures WithPrefix(ws, p) == []
    decreases |ws|
  {
    if ws != [] {
      NoneWithPrefix(ws[1..], p);
    }
  }

  /** Text without a slash has no word that starts with `/d:`. */
  lemma {:induction false} NoSlashWords(s: string)
    requires '/' !in s
    ensures WithPrefix(Words(s), "/d:") == []
    decreases |s|
  {
    if s != [] {
      if IsSpace(s[0]) {
        NoSlashWords(s[1..]);
      } else {
        var k := WordEnd(s);
        assert s[..k][0] == s[0];
        NoSlashWords(s[k..]);
      }
    }
  }

  /** A switch whose tag does not start with `d`, and whose value has no
      slash, contributes no word that starts with `/d:`. */
  lemma OtherSwitchWords(s: string)
    requires |s| > 1 && s[0] == '/' && s[1] != 'd' && '/' !in s[1..]
    ensures WithPrefix(Words(s), "/d:") == []
  {
    var k := WordEnd(s);
    var w := s[..k];
    assert !("/d:" <= w) by {
      if k > 1 {
        assert w[1] == s[1];
      }
    }
    assert s[k..] == s[1..][k - 1..];
    NoSlashWords(s[k..]);
  }

  /** The words of the written line, up to the long name. */
  function HeadWords(sig: Signal): seq<string> {
    ["Var=" + sig.name] + PlainTokens(sig)[1..]
  }

  lemma HeadWordsOfLine(sig: Signal)
    requires Plain(sig.name) && Plain(sig.initialValue)
    requires sig.valueTable.Some? ==> Plain(sig.valueTable.value)
    ensures "Var=" + Join(PlainTokens(sig), ' ') == Join(HeadWords(sig), ' ')
    ensures Words(Join(HeadWords(sig), ' ')) == HeadWords(sig)
  {
    var plain := PlainTokens(sig);
    var words := HeadWords(sig);
    var rest := plain[1..];
    var first := "Var=" + sig.name;
    assert plain == [sig.name] + rest;
    assert words == [first] + rest;
    JoinCons(sig.name, rest, ' ');
    JoinCons(first, rest, ' ');
    AppendAssoc("Var=", sig.name, [' ']);
    AppendAssoc("Var=", sig.name + [' '], Join(rest, ' '));
    PlainTokensShape(sig);
    UnbrokenConcat("Var=", sig.name);
    forall i | 0 <= i < |words| ensures words[i] != [] && Unbroken(words[i]) {
      if i > 0 {
        assert words[i] == plain[i];
      }
    }
    WordsOfJoin(words);
  }

  lemma WithPrefixOne(w: string, p: string)
    requires p <= w
    ensures WithPrefix([w], p) == [w]
  {
    assert [w][1..] == [];
  }

  lemma FixedNotDecimal(sig: Signal)
    ensures WithPrefix(["Var=" + sig.name, TypeKeyword(sig), BitRangeText(sig.startBit, sig.size)], "/d:") == []
  {
    var fixed := ["Var=" + sig.name, TypeKeyword(sig), BitRangeText(sig.startBit, sig.size)];
    TypeKeywordRoundTrip(sig);
    BitRangePlain(sig.startBit, sig.size);
    assert fixed[0][0] == 'V';
    NoneWithPrefix(fixed, "/d:");
  }

  lemma TableNotDecimal(sig: Signal)
    ensures WithPrefix(TableTokens(sig), "/d:") == []
  {
    var e := TableTokens(sig);
    if sig.valueTable.Some? {
      assert e[0][1] == 'e';
    }
    NoneWithPrefix(e, "/d:");
  }

  lemma HeadDecimalWords(sig: Signal)
    ensures WithPrefix(HeadWords(sig), "/d:") == ["/d:" + sig.initialValue]
  {
    var fixed := ["Var=" + sig.name, TypeKeyword(sig), BitRangeText(sig.startBit, sig.size)];
    var e := TableTokens(sig);
    var d := "/d:" + sig.initialValue;
    assert HeadWords(sig) == fixed + e + [d];
    FixedNotDecimal(sig);
    TableNotDecimal(sig);
    WithPrefixOne(d, "/d:");
    WithPrefixConcat(fixed, e, "/d:");
    WithPrefixConcat(fixed + e, [d], "/d:");
    AppendEmpty(e);
  }

  lemma LongNameNotDecimal(ln: string)
    requires '/' !in ln
    ensures WithPrefix(Words(LongNameToken(ln)), "/d:") == []
  {
    var tok := LongNameToken(ln);
    assert tok[1..] == "ln:" + ['"'] + ln + ['"'];
    assert tok[0] == '/' && tok[1] == 'l';
    OtherSwitchWords(tok);
  }

  lemma LongNameDecimalWords(words: seq<string>, ln: string)
    requires '/' !in ln
    ensures WithPrefix(Words(Join(words, ' ') + " " + LongNameToken(ln)), "/d:")
      == WithPrefix(Words(Join(words, ' ')), "/d:")
  {
    var head := Words(Join(words, ' '));
    WordsConcat(Join(words, ' '), LongNameToken(ln));
    LongNameNotDecimal(ln);
    WithPrefixConcat(head, Words(LongNameToken(ln)), "/d:");
    AppendEmpty(WithPrefix(head, "/d:"));
  }

  /** Splitting a written line on whitespace gives exactly one segment that
      starts with `/d:`, and the text after `/d:` is the initial-value
      literal as stored. */
  lemma DecimalSegment(sig: Signal)
    requires Plain(sig.name) && Plain(sig.initialValue)
    requires sig.valueTable.Some? ==> Plain(sig.valueTable.value)
    requires "LongName" in sig.attributes ==> '/' !in sig.attributes["LongName"]
    ensures WithPrefix(Words(CreateSignal(sig)), "/d:") == ["/d:" + sig.initialValue]
  {
    var words := HeadWords(sig);
    HeadWordsOfLine(sig);
    HeadDecimalWords(sig);
    LineShape(sig);
    if "LongName" in sig.attributes {
      LongNameDecimalWords(words, sig.attributes["LongName"]);
    }
  }
}
