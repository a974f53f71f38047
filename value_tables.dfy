/**
  Value tables: the `enum Name(code="label", ...)` declarations of the
  `{ENUMS}` section.  Entries are separated by commas outside quotes, so a
  quoted label may itself contain commas (and colons, equals signs or
  parentheses); whitespace around entries is irregular and ignored.
*/
module ValueTables {
  import opened Wrappers
  import opened Text
  import opened Tokenizer
  import opened Diagnostics

  /** A value table maps each integer code to its label. */
  type ValueTable = map<int, string>

  /** Drops every trailing `c` (Python's str.rstrip(c)). */
  function StripTrailing(s: string, c: char): (r: string)
    ensures r <= s
    decreases |s|
  {
    if s != [] && s[|s| - 1] == c then StripTrailing(s[..|s| - 1], c) else s
  }

  /** What follows the `enum` keyword, stripped. */
  function AfterKeyword(decl: string): string {
    Trim(if |decl| >= 4 then decl[4..] else [])
  }

  /** A declaration is complete once the text after `enum` ends with `)`;
      until then the reader appends the following lines to it. */
  predicate IsClosed(decl: string) {
    var rest := AfterKeyword(decl);
    rest != [] && rest[|rest| - 1] == ')'
  }

  /** One `code="label"` entry: the code before the first `=`, and the label
      after it with its quotes removed and stripped. */
  function ParseEntry(field: string): Result<(int, string), ErrorKind> {
    ParseStrippedEntry(Trim(field))
  }

  function ParseStrippedEntry(t: string): Result<(int, string), ErrorKind> {
    var k := IndexOf(t, '=');
    if k == |t| then Err(MalformedEnum(t))
    else
      match ParseInt(Trim(t[..k]))
      case None => Err(MalformedEnum(t))
      case Some(code) => Ok((code, Trim(Unquote(t[k + 1..]))))
  }

  /** Adds the entries of `fields` to `table` from left to right, a later
      entry for a code replacing an earlier one; blank fields are skipped. */
  function AddEntries(table: ValueTable, fields: seq<string>): Result<ValueTable, ErrorKind>
    decreases |fields|
  {
    if fields == [] then Ok(table)
    else
      match AddField(table, fields[0])
      case Err(e) => Err(e)
      case Ok(next) => AddEntries(next, fields[1..])
  }

  /** Adds the entry of one field; a blank field adds nothing. */
  function AddField(table: ValueTable, field: string): Result<ValueTable, ErrorKind> {
    if Trim(field) == [] then Ok(table)
    else
      match ParseEntry(field)
      case Err(e) => Err(e)
      case Ok(entry) => Ok(table[entry.0 := entry.1])
  }

  /** Parses one complete declaration (all its lines already joined) into the
      table's name and its table. */
  function ParseEnum(decl: string): Result<(string, ValueTable), ErrorKind> {
    var rest := StripTrailing(AfterKeyword(decl), ')');
    var k := IndexOf(rest, '(');
    if k == |rest| then Err(MalformedEnum(decl))
    else Named(Trim(rest[..k]), AddEntries(map[], SplitQuoted(rest[k + 1..], {','})))
  }

  /** The table under its name, or the error that stopped it. */
  function Named(name: string, r: Result<ValueTable, ErrorKind>): Result<(string, ValueTable), ErrorKind> {
    match r
    case Err(e) => Err(e)
    case Ok(table) => Ok((name, table))
  }

  // ---------------------------------------------------------------------
  // A reference rendering of declarations, and the round trip through it.

  datatype Entry = Entry(code: int, desc: string)

  /** `code="label"`. */
  function EntryText(e: Entry): string {
    IntToString(e.code) + "=" + ['"'] + e.desc + ['"']
  }

  /** The entry fields, each preceded by its own run of whitespace. */
  function EntryFields(entries: seq<Entry>, pads: seq<string>): (fs: seq<string>)
    requires |pads| == |entries|
    ensures |fs| == |entries|
    ensures forall i :: 0 <= i < |fs| ==> fs[i] == pads[i] + EntryText(entries[i])
  {
    seq(|entries|, i requires 0 <= i < |entries| => pads[i] + EntryText(entries[i]))
  }

  /** The comma-separated entries, with the given whitespace before each. */
  function EnumBody(entries: seq<Entry>, pads: seq<string>): string
    requires |pads| == |entries|
  {
    Join(EntryFields(entries, pads), ',')
  }

  /** `enum Name(body)`. */
  function DeclText(name: string, body: string): string {
    "enum " + (name + "(" + body + ")")
  }

  /** `enum Name(e1,e2,...)`. */
  function EnumDecl(name: string, entries: seq<Entry>, pads: seq<string>): string
    requires |pads| == |entries|
  {
    DeclText(name, EnumBody(entries, pads))
  }

  /** `table` with the entries added from left to right: a later entry for
      a code replaces an earlier one. */
  function Extend(table: ValueTable, entries: seq<Entry>): (t: ValueTable)
    ensures t.Keys == table.Keys + set i | 0 <= i < |entries| :: entries[i].code
    decreases |entries|
  {
    if entries == [] then table
    else
      var t := Extend(table[entries[0].code := entries[0].desc], entries[1..]);
      assert forall i :: 1 <= i < |entries| ==> entries[i] == entries[1..][i - 1];
      t
  }

  /** The table that a declaration's entries describe. */
  function TableOf(entries: seq<Entry>): (t: ValueTable)
    ensures t.Keys == set i | 0 <= i < |entries| :: entries[i].code
  {
    Extend(map[], entries)
  }

  lemma {:induction false} ExtendKeepsOthers(table: ValueTable, entries: seq<Entry>, k: int)
    requires k in table
    requires forall i :: 0 <= i < |entries| ==> entries[i].code != k
    ensures Extend(table, entries)[k] == table[k]
    decreases |entries|
  {
    if entries != [] {
      ExtendKeepsOthers(table[entries[0].code := entries[0].desc], entries[1..], k);
    }
  }

  /** With distinct codes every declared entry is in the table as written. */
  lemma {:induction false} ExtendDistinct(table: ValueTable, entries: seq<Entry>, i: nat)
    requires forall a, b :: 0 <= a < b < |entries| ==> entries[a].code != entries[b].code
    requires i < |entries|
    ensures Extend(table, entries)[entries[i].code] == entries[i].desc
    decreases |entries|
  {
    var next := table[entries[0].code := entries[0].desc];
    if i == 0 {
      ExtendKeepsOthers(next, entries[1..], entries[0].code);
    } else {
      ExtendDistinct(next, entries[1..], i - 1);
    }
  }

  predicate WellFormedEntry(e: Entry) {
    '"' !in e.desc && IsTrimmed(e.desc)
  }

  lemma DigitsHaveNo(s: string, c: char)
    requires AllDigits(s, 10) && !IsDigit(c, 10)
    ensures c !in s
  {
    forall i | 0 <= i < |s| ensures s[i] != c {
      assert IsDigit(s[i], 10);
    }
  }

  lemma IntTextHasNo(i: int, c: char)
    requires !IsDigit(c, 10) && c != '-'
    ensures c !in IntToString(i)
  {
    if i < 0 {
      DigitsHaveNo(NatToString(-i), c);
    } else {
      DigitsHaveNo(NatToString(i), c);
    }
  }

  lemma EntryFieldIsField(pad: string, e: Entry)
    requires AllSpace(pad) && WellFormedEntry(e)
    ensures IsField(pad + EntryText(e), {','})
  {
    var code := IntToString(e.code);
    var head := pad + code + "=";
    IntTextHasNo(e.code, '"');
    IntTextHasNo(e.code, ',');
    forall i | 0 <= i < |head| ensures head[i] != ',' && head[i] != '"' {
      if i < |pad| {
        assert IsSpace(pad[i]);
      } else if i < |pad| + |code| {
        assert head[i] == code[i - |pad|];
      }
    }
    QuotedIsField(head, e.desc, {','});
    assert pad + EntryText(e) == head + ['"'] + e.desc + ['"'];
  }

  lemma EntryTextTrimmed(pad: string, e: Entry)
    requires AllSpace(pad)
    ensures IsTrimmed(EntryText(e))
    ensures Trim(pad + EntryText(e)) == EntryText(e)
  {
    var text := EntryText(e);
    assert text[|text| - 1] == '"';
    assert text[0] == IntToString(e.code)[0];
    TrimPadded(pad, text, []);
    assert pad + text + [] == pad + text;
  }

  lemma ParseEntryText(e: Entry)
    requires WellFormedEntry(e)
    ensures ParseStrippedEntry(EntryText(e)) == Ok((e.code, e.desc))
  {
    var code := IntToString(e.code);
    var quoted := ['"'] + e.desc + ['"'];
    var text := EntryText(e);
    IntTextHasNo(e.code, '=');
    assert text == code + ['='] + quoted;
    IndexOfAfter(code, '=', quoted);
    var k := IndexOf(text, '=');
    assert k == |code|;
    assert text[..k] == code;
    TrimTrimmed(code);
    ParseIntRoundTrip(e.code);
    assert ParseInt(Trim(text[..k])) == Some(e.code);
    assert text[k + 1..] == quoted;
    UnquoteQuoted(e.desc);
    TrimTrimmed(e.desc);
    assert Trim(Unquote(text[k + 1..])) == e.desc;
  }

  lemma EntryFieldShape(pad: string, e: Entry)
    requires AllSpace(pad) && WellFormedEntry(e)
    ensures IsField(pad + EntryText(e), {','})
    ensures Trim(pad + EntryText(e)) != []
    ensures ParseEntry(pad + EntryText(e)) == Ok((e.code, e.desc))
  {
    EntryFieldIsField(pad, e);
    EntryTextTrimmed(pad, e);
    EntryTextTrimmed([], e);
    assert [] + EntryText(e) == EntryText(e);
    ParseEntryText(e);
  }

  lemma AddFieldRendered(table: ValueTable, pad: string, e: Entry)
    requires AllSpace(pad) && WellFormedEntry(e)
    ensures AddField(table, pad + EntryText(e)) == Ok(table[e.code := e.desc])
  {
    EntryFieldShape(pad, e);
  }

  lemma {:induction false} AddEntriesRendered(table: ValueTable, entries: seq<Entry>, pads: seq<string>)
    requires |pads| == |entries|
    requires forall i :: 0 <= i < |entries| ==> AllSpace(pads[i]) && WellFormedEntry(entries[i])
    ensures AddEntries(table, EntryFields(entries, pads)) == Ok(Extend(table, entries))
    decreases |entries|
  {
    if entries != [] {
      var fs := EntryFields(entries, pads);
      AddFieldRendered(table, pads[0], entries[0]);
      assert fs[1..] == EntryFields(entries[1..], pads[1..]);
      AddEntriesRendered(table[entries[0].code := entries[0].desc], entries[1..], pads[1..]);
    }
  }

  lemma TrimClosed(name: string, body: string)
    requires IsTrimmed(name)
    ensures Trim(" " + (name + "(" + body + ")")) == name + "(" + body + ")"
  {
    var closed := name + "(" + body + ")";
    assert IsTrimmed(closed) by {
      assert closed[|closed| - 1] == ')';
      assert closed[0] == if name == [] then '(' else name[0];
    }
    TrimPadded(" ", closed, []);
    assert " " + closed + [] == " " + closed;
  }

  lemma StripClosing(name: string, body: string)
    requires body == [] || body[|body| - 1] == '"'
    ensures StripTrailing(name + "(" + body + ")", ')') == name + "(" + body
  {
    var inner := name + "(" + body;
    assert (inner + ")")[..|inner|] == inner;
    assert inner[|inner| - 1] != ')';
  }

  /** The declaration without its keyword and closing parenthesis. */
  lemma DeclShape(name: string, body: string)
    requires IsTrimmed(name)
    requires body == [] || body[|body| - 1] == '"'
    ensures AfterKeyword(DeclText(name, body)) == name + "(" + body + ")"
    ensures StripTrailing(name + "(" + body + ")", ')') == name + "(" + body
  {
    var closed := name + "(" + body + ")";
    DropAppend("enum ", closed, 4);
    assert "enum "[4..] == " ";
    TrimClosed(name, body);
    StripClosing(name, body);
  }

  lemma EntriesOfBody(entries: seq<Entry>, pads: seq<string>)
    requires |pads| == |entries|
    requires forall i :: 0 <= i < |entries| ==> AllSpace(pads[i]) && WellFormedEntry(entries[i])
    ensures AddEntries(map[], SplitQuoted(EnumBody(entries, pads), {','})) == Ok(TableOf(entries))
  {
    var fields := EntryFields(entries, pads);
    AddEntriesRendered(map[], entries, pads);
    if entries == [] {
      BodyEnd(fields, entries, pads);
      assert SplitQuoted([], {','}) == [[]];
      assert Trim([]) == [];
      assert AddField(map[], []) == Ok(map[]);
    } else {
      forall i | 0 <= i < |fields| ensures IsField(fields[i], {','}) {
        EntryFieldShape(pads[i], entries[i]);
      }
      SplitQuotedJoin(fields, ',', {','});
    }
  }

  /** ParseEnum once the text before the parenthesis is found. */
  lemma ParseEnumRest(decl: string, rest: string, k: nat)
    requires StripTrailing(AfterKeyword(decl), ')') == rest
    requires k < |rest| && IndexOf(rest, '(') == k
    ensures ParseEnum(decl) == Named(Trim(rest[..k]), AddEntries(map[], SplitQuoted(rest[k + 1..], {','})))
  {
  }

  /** A text ending with `)` is closed once it follows the keyword. */
  lemma ClosedOf(decl: string, closed: string)
    requires AfterKeyword(decl) == closed && closed != [] && closed[|closed| - 1] == ')'
    ensures IsClosed(decl)
  {
  }

  /** A declaration is read as its name and the entries of its body. */
  lemma ParseDeclText(name: string, body: string)
    requires IsTrimmed(name) && '(' !in name
    requires body == [] || body[|body| - 1] == '"'
    ensures IsClosed(DeclText(name, body))
    ensures ParseEnum(DeclText(name, body)) == Named(name, AddEntries(map[], SplitQuoted(body, {','})))
  {
    var inner := name + "(" + body;
    InnerOf(name, body);
    ClosedOf(DeclText(name, body), inner + ")");
    ParseEnumRest(DeclText(name, body), inner, |name|);
  }

  lemma InnerOf(name: string, body: string)
    requires IsTrimmed(name) && '(' !in name
    requires body == [] || body[|body| - 1] == '"'
    ensures AfterKeyword(DeclText(name, body)) == name + "(" + body + ")"
    ensures StripTrailing(AfterKeyword(DeclText(name, body)), ')') == name + "(" + body
    ensures IndexOf(name + "(" + body, '(') == |name|
    ensures (name + "(" + body)[..|name|] == name
    ensures (name + "(" + body)[|name| + 1..] == body
    ensures Trim(name) == name
  {
    var inner := name + "(" + body;
    DeclShape(name, body);
    IndexOfAfter(name, '(', body);
    assert inner[..|name|] == name;
    assert inner[|name| + 1..] == body;
    TrimTrimmed(name);
  }

  /** Reading a rendered declaration gives back its name and exactly the
      table of its entries: a comma, colon or parenthesis inside a quoted
      label does not split it, and any whitespace before an entry is
      ignored. */
  lemma ParseEnumDecl(name: string, entries: seq<Entry>, pads: seq<string>)
    requires |pads| == |entries|
    requires IsTrimmed(name) && '(' !in name
    requires forall i :: 0 <= i < |entries| ==> AllSpace(pads[i]) && WellFormedEntry(entries[i])
    ensures IsClosed(EnumDecl(name, entries, pads))
    ensures ParseEnum(EnumDecl(name, entries, pads)) == Ok((name, TableOf(entries)))
  {
    BodyEnd(EntryFields(entries, pads), entries, pads);
    ParseDeclText(name, EnumBody(entries, pads));
    EntriesOfBody(entries, pads);
  }

  /** The entry list ends in a quote (or is empty), so only the closing
      parenthesis of the declaration is stripped. */
  lemma BodyEnd(fields: seq<string>, entries: seq<Entry>, pads: seq<string>)
    requires |pads| == |entries| && fields == EntryFields(entries, pads)
    ensures var body := Join(fields, ','); body == [] || body[|body| - 1] == '"'
    ensures entries == [] ==> Join(fields, ',') == []
    decreases |fields|
  {
    if |fields| > 1 {
      assert fields[1..] == EntryFields(entries[1..], pads[1..]);
      BodyEnd(fields[1..], entries[1..], pads[1..]);
    }
  }
}
