/**
  The load errors the reader collects in `load_errors`: every anomaly is a
  record with the 1-based line it was found on, none of them stops the
  reading, and each renders as `line <N>: <description>`.
*/
module Diagnostics {
  import opened Wrappers
  import opened Text

  datatype ErrorKind =
      /** A `Mux=` line claims a discriminator value its frame already gave
          to another multiplexer group (DuplicateMuxIdError). */
    | DuplicateMuxId(id: nat, oldGroup: string, newGroup: string)
    | UnknownSignalType(keyword: string)
      /** A floating-point type whose declared length is not its width. */
    | FloatSize(keyword: string, declared: nat)
    | MalformedNumber(text: string)
    | MissingFields(text: string)
    | UnknownValueTable(name: string)
    | MalformedEnum(text: string)
    | UnterminatedEnum(text: string)
    | NoCurrentFrame
      /** A frame line outside the message sections, or a value table
          outside `{ENUMS}`. */
    | OutOfSection(text: string)

  datatype LoadError = LoadError(lineNumber: nat, kind: ErrorKind)

  function Message(k: ErrorKind): string {
    match k
    case DuplicateMuxId(id, oldGroup, newGroup) =>
      HexString(id) + "h already in use (old: " + oldGroup + ", new: " + newGroup + ")"
    case UnknownSignalType(keyword) => "unknown signal type " + keyword
    case FloatSize(keyword, declared) => keyword + " signal declared with " + NatToString(declared) + " bits"
    case MalformedNumber(text) => "malformed number " + text
    case MissingFields(text) => "missing fields in " + text
    case UnknownValueTable(name) => "unknown value table " + name
    case MalformedEnum(text) => "malformed enum " + text
    case UnterminatedEnum(text) => "enum without closing parenthesis " + text
    case NoCurrentFrame => "no frame is open"
    case OutOfSection(text) => "not allowed in this section: " + text
  }

  /** The text of an error, as str() gives it. */
  function Render(e: LoadError): string {
    "line " + NatToString(e.lineNumber) + ": " + Message(e.kind)
  }

  /** Reads back the line number at the head of a rendered error. */
  function RenderedLineNumber(text: string): Option<nat> {
    if "line " <= text then
      var rest := text[5..];
      var k := IndexOf(rest, ':');
      if k < |rest| then ParseNat(rest[..k]) else None
    else
      None
  }

  /** A line number followed by `: ` and any message is read back. */
  lemma LineNumberRoundTrip(n: nat, msg: string)
    ensures RenderedLineNumber("line " + NatToString(n) + ": " + msg) == Some(n)
  {
    var digits := NatToString(n);
    var text := "line " + digits + ": " + msg;
    assert text[5..] == digits + [':'] + (" " + msg);
    assert ':' !in digits by {
      forall i | 0 <= i < |digits| ensures digits[i] != ':' {
        assert IsDigit(digits[i], 10);
      }
    }
    IndexOfAfter(digits, ':', " " + msg);
    assert text[5..][..|digits|] == digits;
    ParseNatRoundTrip(n);
  }

  /** A rendered error starts with `line <N>: ` where N is its own line
      number, and that number can be read back from the text. */
  lemma RenderLineNumber(e: LoadError)
    ensures ("line " + NatToString(e.lineNumber) + ": ") <= Render(e)
    ensures RenderedLineNumber(Render(e)) == Some(e.lineNumber)
  {
    LineNumberRoundTrip(e.lineNumber, Message(e.kind));
  }

  /** Both group names occur in a text that lists them after `old: ` and
      `new: `. */
  lemma GroupsInfix(lead: string, mid: string, oldGroup: string, newGroup: string)
    ensures IsInfix(oldGroup, lead + (mid + oldGroup + ", new: " + newGroup + ")"))
    ensures IsInfix(newGroup, lead + (mid + oldGroup + ", new: " + newGroup + ")"))
  {
    var text := lead + (mid + oldGroup + ", new: " + newGroup + ")");
    var head := lead + mid;
    assert text == head + (oldGroup + (", new: " + newGroup + ")"));
    InfixOfPrefix(oldGroup, head, oldGroup + (", new: " + newGroup + ")"));
    var head2 := head + oldGroup + ", new: ";
    assert text == head2 + (newGroup + ")");
    InfixOfPrefix(newGroup, head2, newGroup + ")");
  }

  /** The collision message names both the group that owns the value and the
      group whose claim was refused. */
  lemma DuplicateNamesBothGroups(n: nat, id: nat, oldGroup: string, newGroup: string)
    ensures IsInfix(oldGroup, Render(LoadError(n, DuplicateMuxId(id, oldGroup, newGroup))))
    ensures IsInfix(newGroup, Render(LoadError(n, DuplicateMuxId(id, oldGroup, newGroup))))
  {
    GroupsInfix("line " + NatToString(n) + ": ", HexString(id) + "h already in use (old: ", oldGroup, newGroup);
  }
}
