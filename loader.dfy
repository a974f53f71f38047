/**
  The reader of symbol files (sym.load), as a function of its input lines.

  The reader is a state machine over the lines, numbered from 1.  Each line
  is first cleaned (its unquoted `//` comment removed, then stripped) and
  classified by its leading keyword.  Section headers switch the section;
  `[Name]` opens a frame, or re-opens the frame of that name declared
  earlier; `ID=`, `Type=`, `DLC=`, `Var=` and `Mux=` lines fill in the open
  frame; an `enum` declaration in `{ENUMS}` runs on over the following lines
  until its closing parenthesis.  Nothing stops the reading: every anomaly
  becomes a load error carrying its line number, appended in line order.
*/
module Loader {
  import opened Wrappers
  import opened Text
  import opened Tokenizer
  import opened Diagnostics
  import opened ValueTables
  import opened Signals

  datatype Section = Outside | Send | Receive | SendReceive | Enums

  /** The sections whose lines describe frames. */
  predicate CarriesFrames(s: Section) {
    s == Send || s == Receive || s == SendReceive
  }

  /** A claim of a discriminator value by a multiplexer group, with the line
      of the `Mux=` declaration that made it. */
  datatype MuxClaim = MuxClaim(group: string, startBit: nat, size: nat, lineNumber: nat)

  datatype Frame = Frame(
    name: string,
    id: nat,
    extended: bool,
    dlc: nat,
    signals: seq<Signal>,
    muxClaims: map<nat, MuxClaim>)

  function NewFrame(name: string): Frame {
    Frame(name, 0, false, 0, [], map[])
  }

  /** What a load returns: the frames in the order they were first declared,
      the value tables by name, and the load errors in line order. */
  datatype Database = Database(
    frames: seq<Frame>,
    valueTables: map<string, ValueTable>,
    loadErrors: seq<LoadError>)

  /** The reader between two lines: the database so far, the current
      section, the index of the open frame, and the discriminator value of
      the latest `Mux=` line of that frame. */
  datatype State = State(db: Database, section: Section, current: Option<nat>, mux: Option<nat>)

  /** A frame is open only inside a section that carries frames, and it is
      one of the frames of the database. */
  predicate Valid(st: State) {
    st.current.Some? ==> st.current.value < |st.db.frames| && CarriesFrames(st.section)
  }

  const Initial: State := State(Database([], map[], []), Outside, None, None)

  /** `after` is `before` with errors appended, all of them on line `n`. */
  predicate AppendsAt(before: seq<LoadError>, after: seq<LoadError>, n: nat) {
    before <= after && forall j :: |before| <= j < |after| ==> after[j].lineNumber == n
  }

  /** `after` keeps every frame of `before` at its place, under its name,
      with every multiplexer claim it had. */
  predicate Keeps(before: seq<Frame>, after: seq<Frame>) {
    |before| <= |after|
    && forall k :: 0 <= k < |before| ==>
      after[k].name == before[k].name
      && forall v :: v in before[k].muxClaims ==>
        v in after[k].muxClaims && after[k].muxClaims[v] == before[k].muxClaims[v]
  }

  lemma KeepsItself(frames: seq<Frame>)
    ensures Keeps(frames, frames)
  {
  }

  // ---------------------------------------------------------------------
  // Classifying lines.

  datatype Line =
    | Blank
    | SectionHeader(section: Section)
    | EnumStart
    | FrameHeader(name: string)
    | IdLine(text: string)
    | TypeLine(text: string)
    | DlcLine(text: string)
    | VarLine(text: string)
    | MuxLine(text: string)
    | Other

  /** The lines that fill in the open frame. */
  predicate IsFrameLine(l: Line) {
    l.IdLine? || l.TypeLine? || l.DlcLine? || l.VarLine? || l.MuxLine?
  }

  /** The kind of a cleaned line, by its leading keyword, with what follows
      the keyword; `FormatVersion=`, `Title=` and unknown lines are `Other`
      and skipped. */
  function Classify(text: string): (l: Line)
    ensures l == Blank <==> text == []
    ensures l.SectionHeader? ==> text in {"{SEND}", "{RECEIVE}", "{SENDRECEIVE}", "{ENUMS}"}
    ensures l == EnumStart ==> "enum" <= text
    ensures l.FrameHeader? ==> |text| >= 2 && text[0] == '[' && text[|text| - 1] == ']'
    ensures l.FrameHeader? ==> l.name == Trim(text[1..|text| - 1])
    ensures l.IdLine? ==> "ID=" <= text && l.text == Trim(text[3..])
    ensures l.TypeLine? ==> "Type=" <= text && l.text == Trim(text[5..])
    ensures l.DlcLine? ==> "DLC=" <= text && l.text == Trim(text[4..])
    ensures l.VarLine? ==> "Var=" <= text && l.text == text[4..]
    ensures l.MuxLine? ==> "Mux=" <= text && l.text == text[4..]
  {
    if text == [] then Blank
    else if text == "{SEND}" then SectionHeader(Send)
    else if text == "{RECEIVE}" then SectionHeader(Receive)
    else if text == "{SENDRECEIVE}" then SectionHeader(SendReceive)
    else if text == "{ENUMS}" then SectionHeader(Enums)
    else if "enum" <= text then EnumStart
    else if |text| >= 2 && text[0] == '[' && text[|text| - 1] == ']' then
      FrameHeader(Trim(text[1..|text| - 1]))
    else if "ID=" <= text then IdLine(Trim(text[3..]))
    else if "Type=" <= text then TypeLine(Trim(text[5..]))
    else if "DLC=" <= text then DlcLine(Trim(text[4..]))
    else if "Var=" <= text then VarLine(text[4..])
    else if "Mux=" <= text then MuxLine(text[4..])
    else Other
  }

  // ---------------------------------------------------------------------
  // Frames.

  /** The first frame called `name`, if any. */
  function FindFrame(frames: seq<Frame>, name: string): (r: Option<nat>)
    ensures r.Some? ==> r.value < |frames| && frames[r.value].name == name
    ensures r.Some? ==> forall k :: 0 <= k < r.value ==> frames[k].name != name
    ensures r.None? ==> forall k :: 0 <= k < |frames| ==> frames[k].name != name
  {
    FindFrameFrom(frames, name, 0)
  }

  function FindFrameFrom(frames: seq<Frame>, name: string, from: nat): (r: Option<nat>)
    requires from <= |frames|
    requires forall k :: 0 <= k < from ==> frames[k].name != name
    ensures r.Some? ==> from <= r.value < |frames| && frames[r.value].name == name
    ensures r.Some? ==> forall k :: 0 <= k < r.value ==> frames[k].name != name
    ensures r.None? ==> forall k :: 0 <= k < |frames| ==> frames[k].name != name
    decreases |frames| - from
  {
    if from == |frames| then None
    else if frames[from].name == name then Some(from)
    else FindFrameFrom(frames, name, from + 1)
  }

  function AddError(st: State, n: nat, k: ErrorKind): (r: State)
    ensures r.db.loadErrors == st.db.loadErrors + [LoadError(n, k)]
    ensures Valid(st) ==> Valid(r)
  {
    st.(db := st.db.(loadErrors := st.db.loadErrors + [LoadError(n, k)]))
  }

  function AddErrors(st: State, n: nat, ks: seq<ErrorKind>): (r: State)
    ensures st.db.loadErrors <= r.db.loadErrors
    ensures |r.db.loadErrors| == |st.db.loadErrors| + |ks|
    ensures forall j :: |st.db.loadErrors| <= j < |r.db.loadErrors| ==>
      r.db.loadErrors[j] == LoadError(n, ks[j - |st.db.loadErrors|])
    ensures Valid(st) ==> Valid(r)
  {
    st.(db := st.db.(loadErrors := st.db.loadErrors + seq(|ks|, i requires 0 <= i < |ks| => LoadError(n, ks[i]))))
  }

  /** Replaces the open frame. */
  function SetFrame(st: State, f: Frame): (r: State)
    requires Valid(st) && st.current.Some?
    ensures Valid(r) && r.current == st.current
    ensures r.db.frames == st.db.frames[st.current.value := f]
  {
    st.(db := st.db.(frames := st.db.frames[st.current.value := f]))
  }

  /** `[Name]`: re-opens the frame of that name, or appends a new one. */
  function OpenFrame(st: State, name: string): (r: State)
    requires CarriesFrames(st.section)
    ensures Valid(r) && r.current.Some?
    ensures r.db.frames[r.current.value].name == name
    ensures r.db.loadErrors == st.db.loadErrors && Keeps(st.db.frames, r.db.frames)
  {
    match FindFrame(st.db.frames, name)
    case Some(k) => st.(current := Some(k), mux := None)
    case None =>
      st.(db := st.db.(frames := st.db.frames + [NewFrame(name)]),
          current := Some(|st.db.frames|), mux := None)
  }

  /** `Var=`: appends the signal, under the latest multiplexer value.  A
      value table that has not been declared is reported and not kept. */
  function VarStep(st: State, n: nat, text: string): (r: State)
    requires Valid(st) && st.current.Some?
    ensures Valid(r)
    ensures AppendsAt(st.db.loadErrors, r.db.loadErrors, n)
    ensures Keeps(st.db.frames, r.db.frames) && |r.db.frames| == |st.db.frames|
    ensures r.section == st.section && r.current == st.current && r.mux == st.mux
    ensures r.db.valueTables == st.db.valueTables
    ensures ParseVar(text).Err? ==>
      r.db.frames == st.db.frames && r.db.loadErrors == st.db.loadErrors + [LoadError(n, ParseVar(text).error)]
    ensures ParseVar(text).Ok? ==>
      var f := st.db.frames[st.current.value];
      var sig := Resolved(st.db.valueTables, ParseVar(text).value.signal.(multiplex := st.mux));
      r.db.frames == st.db.frames[st.current.value := f.(signals := f.signals + [sig])]
  {
    match ParseVar(text)
    case Err(k) => AddError(st, n, k)
    case Ok(decl) =>
      var f := st.db.frames[st.current.value];
      var sig := decl.signal.(multiplex := st.mux);
      var known := sig.valueTable.None? || sig.valueTable.value in st.db.valueTables;
      var errors := decl.warnings + (if known then [] else [UnknownValueTable(sig.valueTable.value)]);
      AddErrors(SetFrame(st, f.(signals := f.signals + [Resolved(st.db.valueTables, sig)])), n, errors)
  }

  /** The signal as it is stored: a reference to a table that has not been
      declared is dropped, anything else is kept. */
  function Resolved(tables: map<string, ValueTable>, sig: Signal): (r: Signal)
    ensures r.valueTable.Some? ==> r.valueTable.value in tables
    ensures r.valueTable.Some? || sig.valueTable.None? ==> r == sig
    ensures r.valueTable.None? ==> r == sig.(valueTable := None)
  {
    if sig.valueTable.Some? && sig.valueTable.value !in tables then sig.(valueTable := None) else sig
  }

  /** `Mux=`: claims the discriminator value for the group.  A value the
      frame has already given to a group keeps its first claim, and the new
      declaration is reported with both group names; either way the
      following signals belong to that value. */
  function MuxStep(st: State, n: nat, text: string): (r: State)
    requires Valid(st) && st.current.Some?
    ensures Valid(r)
    ensures AppendsAt(st.db.loadErrors, r.db.loadErrors, n)
    ensures Keeps(st.db.frames, r.db.frames) && |r.db.frames| == |st.db.frames|
  {
    match ParseMux(text)
    case Err(k) => AddError(st, n, k)
    case Ok(m) =>
      var f := st.db.frames[st.current.value];
      if m.value in f.muxClaims then
        AddError(st.(mux := Some(m.value)), n, DuplicateMuxId(m.value, f.muxClaims[m.value].group, m.group))
      else
        var claim := MuxClaim(m.group, m.startBit, m.size, n);
        SetFrame(st, f.(muxClaims := f.muxClaims[m.value := claim])).(mux := Some(m.value))
  }

  /** A line that fills in the open frame. */
  function FrameStep(st: State, n: nat, l: Line): (r: State)
    requires Valid(st) && st.current.Some? && IsFrameLine(l)
    ensures Valid(r)
    ensures AppendsAt(st.db.loadErrors, r.db.loadErrors, n)
    ensures Keeps(st.db.frames, r.db.frames) && |r.db.frames| == |st.db.frames|
  {
    var f := st.db.frames[st.current.value];
    match l
    case IdLine(v) =>
      (match ParseHexValue(v)
       case None => AddError(st, n, MalformedNumber(v))
       case Some(id) => SetFrame(st, f.(id := id)))
    case TypeLine(v) => SetFrame(st, f.(extended := v == "Extended"))
    case DlcLine(v) =>
      (match ParseNat(v)
       case None => AddError(st, n, MalformedNumber(v))
       case Some(dlc) => SetFrame(st, f.(dlc := dlc)))
    case VarLine(v) => VarStep(st, n, v)
    case MuxLine(v) => MuxStep(st, n, v)
  }

  /** One cleaned line, numbered `n`.  (A value table that starts on the
      line is read by LoadFrom, which sees the lines after it.) */
  function StepLine(st: State, n: nat, text: string): (r: State)
    requires Valid(st)
    ensures Valid(r)
    ensures AppendsAt(st.db.loadErrors, r.db.loadErrors, n)
    ensures Keeps(st.db.frames, r.db.frames)
  {
    LineStep(st, n, text, Classify(text))
  }

  /** A line of kind `l`; `text` is the line itself, for the error that
      reports a frame header outside a message section. */
  function LineStep(st: State, n: nat, text: string, l: Line): (r: State)
    requires Valid(st)
    ensures Valid(r)
    ensures AppendsAt(st.db.loadErrors, r.db.loadErrors, n)
    ensures Keeps(st.db.frames, r.db.frames)
  {
    KeepsItself(st.db.frames);
    if l.Blank? || l.Other? || l.EnumStart? then st
    else if l.SectionHeader? then st.(section := l.section, current := None, mux := None)
    else if l.FrameHeader? then
      if CarriesFrames(st.section) then OpenFrame(st, l.name) else AddError(st, n, OutOfSection(text))
    else if st.current.None? then AddError(st, n, NoCurrentFrame)
    else FrameStep(st, n, l)
  }

  // ---------------------------------------------------------------------
  // Value tables across lines.

  /** A declaration gathered from its first line and the lines after it. */
  datatype Gathered = Gathered(decl: string, next: nat, closed: bool)

  /** Every line, cleaned. */
  function CleanAll(lines: seq<string>): (r: seq<string>)
    ensures |r| == |lines|
    ensures forall m :: 0 <= m < |r| ==> r[m] == Clean(lines[m])
  {
    seq(|lines|, m requires 0 <= m < |lines| => Clean(lines[m]))
  }

  /** Appends the cleaned lines from index `j` on to `decl`, a blank between
      each, until the declaration is closed or the input ends. */
  function Gather(cleaned: seq<string>, j: nat, decl: string): (g: Gathered)
    requires j <= |cleaned|
    ensures j <= g.next <= |cleaned|
    ensures g.closed <==> IsClosed(g.decl)
    ensures !g.closed ==> g.next == |cleaned|
    ensures IsClosed(decl) ==> g == Gathered(decl, j, true)
    decreases |cleaned| - j
  {
    if IsClosed(decl) then Gathered(decl, j, true)
    else if j == |cleaned| then Gathered(decl, j, false)
    else Gather(cleaned, j + 1, decl + " " + cleaned[j])
  }

  /** A value table whose declaration started on line `n`. */
  function EnumStep(st: State, n: nat, g: Gathered): (r: State)
    ensures AppendsAt(st.db.loadErrors, r.db.loadErrors, n)
    ensures r.db.frames == st.db.frames && r.current == st.current && r.section == st.section
  {
    if !g.closed then AddError(st, n, UnterminatedEnum(g.decl))
    else
      match ParseEnum(g.decl)
      case Err(k) => AddError(st, n, k)
      case Ok(nt) => st.(db := st.db.(valueTables := st.db.valueTables[nt.0 := nt.1]))
  }

  // ---------------------------------------------------------------------
  // The whole input.

  /** Reads the lines from index `i` on; the line at index `i` is line
      `i + 1`. */
  function LoadFrom(st: State, lines: seq<string>, i: nat): State
    requires Valid(st) && i <= |lines|
    decreases |lines| - i
  {
    if i == |lines| then st
    else
      var text := Clean(lines[i]);
      if Classify(text) == EnumStart then
        if st.section == Enums then
          var g := Gather(CleanAll(lines), i + 1, text);
          LoadFrom(EnumStep(st, i + 1, g), lines, g.next)
        else
          LoadFrom(AddError(st, i + 1, OutOfSection(text)), lines, i + 1)
      else
        LoadFrom(StepLine(st, i + 1, text), lines, i + 1)
  }

  function Load(lines: seq<string>): Database {
    LoadFrom(Initial, lines, 0).db
  }
}
