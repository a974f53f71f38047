/**
  The reader as it runs: one object whose fields hold the database being
  built and the reader's position (section, open frame, latest multiplexer
  value), updated in place line by line.  Every method is proved to do to
  those fields what the corresponding function of module Loader does to a
  State, so the properties proved of Loader hold of the object.
*/
module Reader {
  import opened Wrappers
  import opened Tokenizer
  import opened Diagnostics
  import opened ValueTables
  import opened Loader

  class SymReader {
    var frames: seq<Frame>
    var valueTables: map<string, ValueTable>
    var loadErrors: seq<LoadError>
    var section: Section
    var current: Option<nat>
    var mux: Option<nat>

    /** The fields as a reader state. */
    function Model(): State
      reads this
    {
      State(Database(frames, valueTables, loadErrors), section, current, mux)
    }

    constructor()
      ensures Model() == Initial
    {
      frames := [];
      valueTables := map[];
      loadErrors := [];
      section := Outside;
      current := None;
      mux := None;
    }

    method Report(n: nat, k: ErrorKind)
      modifies this
      ensures Model() == AddError(old(Model()), n, k)
    {
      loadErrors := loadErrors + [LoadError(n, k)];
    }

    /** Appends one error per kind, in order, all on line `n`. */
    method ReportAll(n: nat, ks: seq<ErrorKind>)
      modifies this
      ensures Model() == AddErrors(old(Model()), n, ks)
    {
      var j := 0;
      while j < |ks|
        invariant 0 <= j <= |ks|
        invariant Model() == old(Model()).(db := old(Model()).db.(loadErrors :=
          old(loadErrors) + seq(j, i requires 0 <= i < j => LoadError(n, ks[i]))))
      {
        loadErrors := loadErrors + [LoadError(n, ks[j])];
        j := j + 1;
      }
    }

    /** The index of the first frame named `name`. */
    method Lookup(name: string) returns (r: Option<nat>)
      ensures r == FindFrame(frames, name)
    {
      var k := 0;
      while k < |frames| && frames[k].name != name
        invariant 0 <= k <= |frames|
        invariant forall j :: 0 <= j < k ==> frames[j].name != name
      {
        k := k + 1;
      }
      r := if k < |frames| then Some(k) else None;
    }

    /** `[Name]` in a message section. */
    method Open(name: string)
      requires CarriesFrames(section)
      modifies this
      ensures Model() == OpenFrame(old(Model()), name)
    {
      var k := Lookup(name);
      if k.None? {
        current := Some(|frames|);
        frames := frames + [NewFrame(name)];
      } else {
        current := k;
      }
      mux := None;
    }

    /** Replaces the open frame. */
    method Replace(f: Frame)
      requires Valid(Model()) && current.Some?
      modifies this
      ensures Model() == SetFrame(old(Model()), f)
    {
      frames := frames[current.value := f];
    }

    /** `Var=` in the open frame. */
    method DeclareSignal(n: nat, text: string)
      requires Valid(Model()) && current.Some?
      modifies this
      ensures Model() == VarStep(old(Model()), n, text)
    {
      match Signals.ParseVar(text)
      case Err(k) =>
        Report(n, k);
      case Ok(decl) =>
        var f := frames[current.value];
        var sig := decl.signal.(multiplex := mux);
        var known := sig.valueTable.None? || sig.valueTable.value in valueTables;
        var kept := if known then sig else sig.(valueTable := None);
        var errors := decl.warnings + (if known then [] else [UnknownValueTable(sig.valueTable.value)]);
        Replace(f.(signals := f.signals + [kept]));
        ReportAll(n, errors);
    }

    /** `Mux=` in the open frame. */
    method DeclareMux(n: nat, text: string)
      requires Valid(Model()) && current.Some?
      modifies this
      ensures Model() == MuxStep(old(Model()), n, text)
    {
      match Signals.ParseMux(text)
      case Err(k) =>
        Report(n, k);
      case Ok(m) =>
        var f := frames[current.value];
        if m.value in f.muxClaims {
          mux := Some(m.value);
          Report(n, DuplicateMuxId(m.value, f.muxClaims[m.value].group, m.group));
        } else {
          Replace(f.(muxClaims := f.muxClaims[m.value := MuxClaim(m.group, m.startBit, m.size, n)]));
          mux := Some(m.value);
        }
    }

    /** A line that fills in the open frame. */
    method FillFrame(n: nat, l: Line)
      requires Valid(Model()) && current.Some? && IsFrameLine(l)
      modifies this
      ensures Model() == FrameStep(old(Model()), n, l)
    {
      var f := frames[current.value];
      match l
      case IdLine(v) =>
        match Signals.ParseHexValue(v) {
          case None => Report(n, MalformedNumber(v));
          case Some(id) => Replace(f.(id := id));
        }
      case TypeLine(v) =>
        Replace(f.(extended := v == "Extended"));
      case DlcLine(v) =>
        match Text.ParseNat(v) {
          case None => Report(n, MalformedNumber(v));
          case Some(dlc) => Replace(f.(dlc := dlc));
        }
      case VarLine(v) =>
        DeclareSignal(n, v);
      case MuxLine(v) =>
        DeclareMux(n, v);
    }

    /** One cleaned line, numbered `n`. */
    method Step(n: nat, text: string)
      requires Valid(Model())
      modifies this
      ensures Model() == StepLine(old(Model()), n, text)
    {
      var l := Classify(text);
      if l.Blank? || l.Other? || l.EnumStart? {
      } else if l.SectionHeader? {
        section, current, mux := l.section, None, None;
      } else if l.FrameHeader? {
        if CarriesFrames(section) {
          Open(l.name);
        } else {
          Report(n, OutOfSection(text));
        }
      } else if current.None? {
        Report(n, NoCurrentFrame);
      } else {
        FillFrame(n, l);
      }
    }

    /** A value table declared from line `n` on. */
    method DeclareTable(n: nat, g: Gathered)
      modifies this
      ensures Model() == EnumStep(old(Model()), n, g)
    {
      if !g.closed {
        Report(n, UnterminatedEnum(g.decl));
      } else {
        match ParseEnum(g.decl)
        case Err(k) => Report(n, k);
        case Ok(nt) => valueTables := valueTables[nt.0 := nt.1];
      }
    }

    /** Reads the line at index `i` and, for a value table, the lines that
        continue it; returns the index of the next line to read. */
    method ReadAt(lines: seq<string>, i: nat) returns (next: nat)
      requires Valid(Model()) && i < |lines|
      modifies this
      ensures Valid(Model()) && i < next <= |lines|
      ensures LoadFrom(old(Model()), lines, i) == LoadFrom(Model(), lines, next)
    {
      var text := Clean(lines[i]);
      if Classify(text) == EnumStart {
        if section == Enums {
          var g := GatherLines(lines, i + 1, text);
          DeclareTable(i + 1, g);
          next := g.next;
        } else {
          Report(i + 1, OutOfSection(text));
          next := i + 1;
        }
      } else {
        Step(i + 1, text);
        next := i + 1;
      }
    }
  }

  /** Runs a value table declaration on over the lines from index `j` until
      it is closed or the input ends. */
  method GatherLines(lines: seq<string>, j: nat, decl: string) returns (g: Gathered)
    requires j <= |lines|
    ensures g == Gather(CleanAll(lines), j, decl)
  {
    var d := decl;
    var k := j;
    while !IsClosed(d) && k < |lines|
      invariant j <= k <= |lines|
      invariant Gather(CleanAll(lines), k, d) == Gather(CleanAll(lines), j, decl)
      decreases |lines| - k
    {
      d := d + " " + Clean(lines[k]);
      k := k + 1;
    }
    g := Gathered(d, k, IsClosed(d));
  }

  /** Reads a whole symbol file, one line after the other. */
  method Read(lines: seq<string>) returns (db: Database)
    ensures db == Load(lines)
  {
    var r := new SymReader();
    var i := 0;
    while i < |lines|
      invariant 0 <= i <= |lines| && Valid(r.Model())
      invariant LoadFrom(r.Model(), lines, i) == LoadFrom(Initial, lines, 0)
      decreases |lines| - i
    {
      i := r.ReadAt(lines, i);
    }
    db := Database(r.frames, r.valueTables, r.loadErrors);
  }
}
