/**
  Signals and the `Var=<name> <type> <start>,<length> [/tag:value ...]` lines
  that declare them.  The fields are separated by blanks outside quotes; the
  switches after the bit range carry a tag and a value separated by the first
  colon outside quotes, so a quoted value keeps its own colons.
*/
module Signals {
  import opened Wrappers
  import opened Text
  import opened Tokenizer
  import opened Diagnostics

  /** One signal of a frame.  The initial value is kept as the literal text
      it was written with; `multiplex` is the discriminator value of the
      `Mux=` line the signal was declared under, if any. */
  datatype Signal = Signal(
    name: string,
    startBit: nat,
    size: nat,
    isSigned: bool,
    isFloat: bool,
    initialValue: string,
    attributes: map<string, string>,
    valueTable: Option<string>,
    multiplex: Option<nat>)

  /** The value types a `Var=` line may name. */
  datatype ValueType = Unsigned | Signed | Float | Double

  function ParseType(keyword: string): (r: Option<ValueType>)
    ensures r.Some? <==> keyword in {"unsigned", "signed", "float", "double"}
    ensures r == Some(Float) <==> keyword == "float"
    ensures r == Some(Double) <==> keyword == "double"
  {
    if keyword == "unsigned" then Some(Unsigned)
    else if keyword == "signed" then Some(Signed)
    else if keyword == "float" then Some(Float)
    else if keyword == "double" then Some(Double)
    else None
  }

  /** The width a floating-point type fixes. */
  function FloatWidth(t: ValueType): nat
    requires t == Float || t == Double
  {
    if t == Float then 32 else 64
  }

  /** `start,length`, both decimal. */
  function ParseBitRange(text: string): (r: Option<(nat, nat)>)
    ensures r.Some? ==> ',' in text
  {
    var k := IndexOf(text, ',');
    if k == |text| then None
    else
      match ParseNat(text[..k])
      case None => None
      case Some(start) =>
        match ParseNat(text[k + 1..])
        case None => None
        case Some(size) => Some((start, size))
  }

  function BitRangeText(start: nat, size: nat): string {
    NatToString(start) + "," + NatToString(size)
  }

  lemma ParseBitRangeText(start: nat, size: nat)
    ensures ParseBitRange(BitRangeText(start, size)) == Some((start, size))
  {
    var a := NatToString(start);
    var b := NatToString(size);
    var text := BitRangeText(start, size);
    DigitsNoComma(a);
    IndexOfAfter(a, ',', b);
    assert text[..|a|] == a;
    assert text[|a| + 1..] == b;
    ParseNatRoundTrip(start);
    ParseNatRoundTrip(size);
  }

  lemma DigitsNoComma(s: string)
    requires AllDigits(s, 10)
    ensures ',' !in s
  {
    forall i | 0 <= i < |s| ensures s[i] != ',' {
      assert IsDigit(s[i], 10);
    }
  }

  // ---------------------------------------------------------------------
  // Switches.

  /** A switch `/tag:value` as its tag and its value: the tag ends at the
      first colon outside quotes, the value loses its quotes, and a switch
      without a colon has the empty value. */
  function ParseSwitch(token: string): (tv: (string, string))
    requires token != [] && token[0] == '/'
    ensures tv.0 <= token[1..]
    ensures ':' !in tv.0 || '"' in tv.0
    ensures '"' !in tv.1
    ensures |tv.0| + 1 < |token| ==> token[|tv.0| + 1] == ':' && tv.1 == Unquote(token[|tv.0| + 2..])
    ensures |tv.0| + 1 == |token| ==> tv.1 == ""
  {
    var body := token[1..];
    var k := FieldEnd(body, {':'}, false);
    ColonOutsideQuotes(body, k);
    assert k < |body| ==> body[k + 1..] == token[k + 2..];
    (body[..k], if k < |body| then Unquote(body[k + 1..]) else "")
  }

  /** A switch whose tag holds no colon and no quote splits at the colon
      after its tag, and the whole rest, colons included, is its value. */
  lemma ParseSwitchOf(tag: string, v: string)
    requires ':' !in tag && '"' !in tag
    ensures ParseSwitch("/" + tag + ":" + v) == (tag, Unquote(v))
  {
    var token := "/" + tag + ":" + v;
    assert token[1..] == tag + (":" + v);
    FieldEndPlain(tag, ":" + v);
    assert token[1..][..|tag|] == tag;
    assert token[|tag| + 2..] == v;
  }

  lemma {:induction false} FieldEndPlain(tag: string, rest: string)
    requires ':' !in tag && '"' !in tag && rest != [] && rest[0] == ':'
    ensures FieldEnd(tag + rest, {':'}, false) == |tag|
    decreases |tag|
  {
    if tag == [] {
      assert tag + rest == rest;
    } else {
      assert (tag + rest)[0] == tag[0] && (tag + rest)[1..] == tag[1..] + rest;
      FieldEndPlain(tag[1..], rest);
    }
  }

  /** A colon before the first unquoted one lies inside quotes, so a prefix
      without quotes has no colon. */
  lemma ColonOutsideQuotes(s: string, k: nat)
    requires k == FieldEnd(s, {':'}, false)
    ensures ':' !in s[..k] || '"' in s[..k]
  {
    if '"' !in s[..k] {
      assert s == s[..k] + s[k..];
      NoColonBeforeEnd(s, s[..k]);
    }
  }

  lemma {:induction false} NoColonBeforeEnd(s: string, p: string)
    requires p <= s && p == s[..FieldEnd(s, {':'}, false)] && '"' !in p
    ensures ':' !in p
    decreases |s|
  {
    if p != [] {
      assert s[0] == p[0] && s[0] != ':' && s[0] != '"';
      assert p[1..] == s[1..][..FieldEnd(s[1..], {':'}, false)];
      NoColonBeforeEnd(s[1..], p[1..]);
    }
  }

  /** What one token after the bit range does to the signal: `/ln:` sets the
      long name, `/e:` names the value table, `/d:` gives the initial value,
      any other switch is kept as an attribute under its own tag, and a token
      that is not a switch is ignored. */
  function ApplySwitch(sig: Signal, token: string): (r: Signal)
    ensures r.name == sig.name && r.startBit == sig.startBit && r.size == sig.size
    ensures r.isSigned == sig.isSigned && r.isFloat == sig.isFloat
    ensures r.multiplex == sig.multiplex
    ensures token == [] || token[0] != '/' ==> r == sig
    ensures token != [] && token[0] == '/' ==>
      var tv := ParseSwitch(token);
      && (tv.0 == "ln" ==> r == sig.(attributes := sig.attributes["LongName" := tv.1]))
      && (tv.0 == "e" ==> r == sig.(valueTable := Some(tv.1)))
      && (tv.0 == "d" ==> r == sig.(initialValue := tv.1))
      && (tv.0 !in {"ln", "e", "d"} ==> r == sig.(attributes := sig.attributes[tv.0 := tv.1]))
  {
    if token == [] || token[0] != '/' then sig
    else
      var tv := ParseSwitch(token);
      if tv.0 == "ln" then sig.(attributes := sig.attributes["LongName" := tv.1])
      else if tv.0 == "e" then sig.(valueTable := Some(tv.1))
      else if tv.0 == "d" then sig.(initialValue := tv.1)
      else sig.(attributes := sig.attributes[tv.0 := tv.1])
  }

  /** `/ln:` followed by any text sets the long name to that text without
      its quotes; the colons in it are kept. */
  lemma LongNameKeepsColons(sig: Signal, v: string)
    ensures ApplySwitch(sig, "/ln:" + v) == sig.(attributes := sig.attributes["LongName" := Unquote(v)])
  {
    assert "/ln:" + v == "/" + "ln" + ":" + v;
    ParseSwitchOf("ln", v);
  }

  function ApplySwitches(sig: Signal, tokens: seq<string>): (r: Signal)
    ensures r.name == sig.name && r.startBit == sig.startBit && r.size == sig.size
    ensures r.isSigned == sig.isSigned && r.isFloat == sig.isFloat
    ensures r.multiplex == sig.multiplex
    decreases |tokens|
  {
    if tokens == [] then sig else ApplySwitches(ApplySwitch(sig, tokens[0]), tokens[1..])
  }

  lemma {:induction false} ApplySwitchesConcat(sig: Signal, a: seq<string>, b: seq<string>)
    ensures ApplySwitches(sig, a + b) == ApplySwitches(ApplySwitches(sig, a), b)
    decreases |a|
  {
    if a != [] {
      assert (a + b)[1..] == a[1..] + b;
      ApplySwitchesConcat(ApplySwitch(sig, a[0]), a[1..], b);
    } else {
      assert a + b == b;
    }
  }

  // ---------------------------------------------------------------------
  // Whole declarations.

  /** A parsed declaration and the diagnostics it raised while still
      yielding a signal. */
  datatype VarDecl = VarDecl(signal: Signal, warnings: seq<ErrorKind>)

  /** The text after `Var=`.  The signal has no multiplexer value yet (the
      reader supplies it); a floating-point type fixes the size at 32 or 64
      bits and reports a declared length that differs. */
  function ParseVar(text: string): (r: Result<VarDecl, ErrorKind>)
    ensures r.Ok? ==> r.value.signal.multiplex == None
    ensures r.Ok? && r.value.signal.isFloat ==> r.value.signal.size in {32, 64}
    ensures r.Ok? && r.value.signal.isFloat ==> !r.value.signal.isSigned
    ensures r.Ok? ==> forall w :: w in r.value.warnings ==> w.FloatSize?
    ensures var fields := NonEmpty(SplitQuoted(text, Blanks));
      r.Ok? <==> |fields| >= 3 && ParseType(fields[1]).Some? && ParseBitRange(fields[2]).Some?
    ensures var fields := NonEmpty(SplitQuoted(text, Blanks));
      r.Err? ==> r.error == (if |fields| < 3 then MissingFields(text)
                             else if ParseType(fields[1]).None? then UnknownSignalType(fields[1])
                             else MalformedNumber(fields[2]))
    ensures var fields := NonEmpty(SplitQuoted(text, Blanks));
      r.Ok? ==> (
        && |fields| >= 3 && ParseBitRange(fields[2]).Some?
        && var range := ParseBitRange(fields[2]).value;
           var s := r.value.signal;
           && s.name == Unquote(fields[0]) && s.startBit == range.0
           && (s.isFloat <==> fields[1] in {"float", "double"})
           && (s.isSigned <==> fields[1] == "signed")
           && s.size == (if fields[1] == "float" then 32 else if fields[1] == "double" then 64 else range.1)
           && r.value.warnings == (if s.isFloat && s.size != range.1 then [FloatSize(fields[1], range.1)] else []))
  {
    var fields := NonEmpty(SplitQuoted(text, Blanks));
    if |fields| < 3 then Err(MissingFields(text))
    else
      match ParseType(fields[1])
      case None => Err(UnknownSignalType(fields[1]))
      case Some(t) =>
        match ParseBitRange(fields[2])
        case None => Err(MalformedNumber(fields[2]))
        case Some(range) =>
          Ok(VarDecl(ApplySwitches(BaseSignal(Unquote(fields[0]), t, range), fields[3..]),
                     SizeWarnings(fields[1], t, range)))
  }

  /** A `Var=` text whose fields have a known type and a bit range declares
      a signal: the first field, unquoted, names it, the range gives its
      start bit, `float` and `double` make it floating-point and fix its
      size at 32 and 64 bits, `signed` makes it signed, and otherwise the
      range gives its size. */
  lemma ParseVarFields(text: string, fields: seq<string>, t: ValueType, range: (nat, nat))
    requires NonEmpty(SplitQuoted(text, Blanks)) == fields && |fields| >= 3
    requires ParseType(fields[1]) == Some(t) && ParseBitRange(fields[2]) == Some(range)
    ensures ParseVar(text).Ok?
    ensures var s := ParseVar(text).value.signal;
      && s.name == Unquote(fields[0]) && s.startBit == range.0
      && (s.isFloat <==> fields[1] in {"float", "double"})
      && (s.isSigned <==> fields[1] == "signed")
      && s.size == (if fields[1] == "float" then 32 else if fields[1] == "double" then 64 else range.1)
  {
  }

  /** The same text, as the parts the parser puts together. */
  lemma ParseVarOfFields(text: string, fields: seq<string>, t: ValueType, range: (nat, nat))
    requires NonEmpty(SplitQuoted(text, Blanks)) == fields && |fields| >= 3
    requires ParseType(fields[1]) == Some(t) && ParseBitRange(fields[2]) == Some(range)
    ensures ParseVar(text)
      == Ok(VarDecl(ApplySwitches(BaseSignal(Unquote(fields[0]), t, range), fields[3..]),
                    SizeWarnings(fields[1], t, range)))
  {
  }

  /** The signal the fixed fields of a `Var=` line describe, before its
      switches; a floating-point type fixes the size at its own width. */
  function BaseSignal(name: string, t: ValueType, range: (nat, nat)): Signal {
    var isFloat := t == Float || t == Double;
    Signal(name, range.0, if isFloat then FloatWidth(t) else range.1, t == Signed, isFloat,
           "0", map[], None, None)
  }

  /** A floating-point type whose width differs from the declared length
      raises one diagnostic. */
  function SizeWarnings(keyword: string, t: ValueType, range: (nat, nat)): seq<ErrorKind> {
    if (t == Float || t == Double) && FloatWidth(t) != range.1 then [FloatSize(keyword, range.1)] else []
  }

  // ---------------------------------------------------------------------
  // Hexadecimal values and multiplexer declarations.

  /** `<hex digits>h`, as in `ID=0CFFC3F7h` and the discriminator of a
      `Mux=` line. */
  function ParseHexValue(text: string): (r: Option<nat>)
    ensures r.Some? ==> |text| > 1 && text[|text| - 1] == 'h'
  {
    if text != [] && text[|text| - 1] == 'h' then ParseHex(text[..|text| - 1]) else None
  }

  function HexValueText(v: nat): string {
    HexString(v) + "h"
  }

  lemma ParseHexValueText(v: nat)
    ensures ParseHexValue(HexValueText(v)) == Some(v)
  {
    assert HexValueText(v)[..|HexValueText(v)| - 1] == HexString(v);
    ParseHexRoundTrip(v);
  }

  /** `Mux=<group> <start>,<length> <value>h`: the group that owns the
      discriminator value, the selector's bit range and the value. */
  datatype MuxDecl = MuxDecl(group: string, startBit: nat, size: nat, value: nat)

  /** The text after `Mux=`. */
  function ParseMux(text: string): (r: Result<MuxDecl, ErrorKind>)
    ensures r.Err? ==> r.error.MissingFields? || r.error.MalformedNumber?
  {
    var fields := NonEmpty(SplitQuoted(text, Blanks));
    if |fields| < 3 then Err(MissingFields(text))
    else
      match ParseBitRange(fields[1])
      case None => Err(MalformedNumber(fields[1]))
      case Some(range) =>
        match ParseHexValue(fields[2])
        case None => Err(MalformedNumber(fields[2]))
        case Some(v) => Ok(MuxDecl(Unquote(fields[0]), range.0, range.1, v))
  }

  /** The text after `Mux=` for a declaration. */
  function MuxText(m: MuxDecl): string {
    Join([m.group, BitRangeText(m.startBit, m.size), HexValueText(m.value)], ' ')
  }

  /** A group name that stays one field: no blank and no quote. */
  predicate IsGroupName(g: string) {
    g != [] && forall i :: 0 <= i < |g| ==> g[i] !in Blanks && g[i] != '"'
  }

  lemma DigitsField(s: string)
    requires AllDigits(s, 16) || (AllDigits(s[..|s| - 1], 16) && |s| > 0 && s[|s| - 1] == 'h')
    ensures IsField(s, Blanks)
  {
    forall i | 0 <= i < |s| ensures s[i] !in Blanks && s[i] != '"' {
      if i < |s| - 1 || AllDigits(s, 16) {
        assert IsDigit(s[i], 16);
      }
    }
    PlainIsField(s, Blanks);
  }

  lemma BitRangeField(start: nat, size: nat)
    ensures IsField(BitRangeText(start, size), Blanks)
    ensures BitRangeText(start, size) != []
  {
    var a := NatToString(start);
    var b := NatToString(size);
    var s := BitRangeText(start, size);
    forall i | 0 <= i < |s| ensures s[i] !in Blanks && s[i] != '"' {
      if i < |a| {
        assert IsDigit(a[i], 10);
      } else if i > |a| {
        assert s[i] == b[i - |a| - 1];
        assert IsDigit(b[i - |a| - 1], 10);
      }
    }
    PlainIsField(s, Blanks);
  }

  /** A written multiplexer declaration is read back as itself. */
  lemma ParseMuxText(m: MuxDecl)
    requires IsGroupName(m.group)
    ensures ParseMux(MuxText(m)) == Ok(m)
  {
    var fs := [m.group, BitRangeText(m.startBit, m.size), HexValueText(m.value)];
    PlainIsField(m.group, Blanks);
    BitRangeField(m.startBit, m.size);
    var h := HexValueText(m.value);
    assert h[..|h| - 1] == HexString(m.value);
    DigitsField(h);
    SplitQuotedJoin(fs, ' ', Blanks);
    NonEmptyAll(fs);
    ParseBitRangeText(m.startBit, m.size);
    ParseHexValueText(m.value);
    UnquotePlain(m.group);
  }
}
