/**
  What the reader guarantees over a whole input: load errors are only ever
  appended, in line order, each with the number of a line of the input;
  frames are never removed or renamed and there is one per name; and a
  multiplexer claim, once made, is never overwritten.
*/
module LoadProperties {
  import opened Wrappers
  import opened Text
  import opened Tokenizer
  import opened Diagnostics
  import opened Signals
  import opened Loader

  /** Errors sorted by line number. */
  predicate Ordered(errors: seq<LoadError>) {
    forall a, b :: 0 <= a < b < |errors| ==> errors[a].lineNumber <= errors[b].lineNumber
  }

  /** Every error is on a line before `i + 1`. */
  predicate Before(errors: seq<LoadError>, i: nat) {
    forall j :: 0 <= j < |errors| ==> errors[j].lineNumber <= i
  }

  lemma AppendOrdered(before: seq<LoadError>, after: seq<LoadError>, n: nat)
    requires Ordered(before) && Before(before, n) && AppendsAt(before, after, n)
    ensures Ordered(after) && Before(after, n)
  {
    forall a, b | 0 <= a < b < |after| ensures after[a].lineNumber <= after[b].lineNumber {
      if b < |before| {
        assert after[a] == before[a] && after[b] == before[b];
      } else if a < |before| {
        assert after[a] == before[a];
      }
    }
    forall j | 0 <= j < |after| ensures after[j].lineNumber <= n {
      if j < |before| {
        assert after[j] == before[j];
      }
    }
  }

  /** Reading on from line `i + 1` appends errors only, in line order, and
      each new error is on one of the lines read. */
  lemma {:induction false} LoadFromErrors(st: State, lines: seq<string>, i: nat)
    requires Valid(st) && i <= |lines|
    requires Ordered(st.db.loadErrors) && Before(st.db.loadErrors, i)
    ensures var errors := LoadFrom(st, lines, i).db.loadErrors;
      st.db.loadErrors <= errors && Ordered(errors) && Before(errors, |lines|)
      && forall j :: |st.db.loadErrors| <= j < |errors| ==> i < errors[j].lineNumber
    decreases |lines| - i
  {
    if i < |lines| {
      var next, j := ReadOne(st, lines, i);
      AppendOrdered(st.db.loadErrors, next.db.loadErrors, i + 1);
      assert Before(next.db.loadErrors, j);
      LoadFromErrors(next, lines, j);
    }
  }

  /** Reading the line at index `i` (or the declaration it starts) gives a
      valid state that has only appended errors on line `i + 1` and kept
      every frame, and reading goes on from index `j`. */
  lemma ReadOne(st: State, lines: seq<string>, i: nat) returns (next: State, j: nat)
    requires Valid(st) && i < |lines|
    ensures Valid(next) && i < j <= |lines|
    ensures LoadFrom(st, lines, i) == LoadFrom(next, lines, j)
    ensures AppendsAt(st.db.loadErrors, next.db.loadErrors, i + 1)
    ensures Keeps(st.db.frames, next.db.frames)
  {
    var text := Clean(lines[i]);
    if Classify(text) == EnumStart && st.section == Enums {
      var g := Gather(CleanAll(lines), i + 1, text);
      next, j := EnumStep(st, i + 1, g), g.next;
      KeepsItself(st.db.frames);
    } else if Classify(text) == EnumStart {
      next, j := AddError(st, i + 1, OutOfSection(text)), i + 1;
      KeepsItself(st.db.frames);
    } else {
      next, j := StepLine(st, i + 1, text), i + 1;
    }
  }

  /** The load errors of a whole input are in line order, and each names a
      line of the input (numbered from 1). */
  lemma LoadErrorsInLineOrder(lines: seq<string>)
    ensures Ordered(Load(lines).loadErrors)
    ensures forall j :: 0 <= j < |Load(lines).loadErrors| ==>
      1 <= Load(lines).loadErrors[j].lineNumber <= |lines|
  {
    LoadFromErrors(Initial, lines, 0);
  }

  // ---------------------------------------------------------------------
  // Frames and multiplexer claims.

  lemma KeepsTransitive(a: seq<Frame>, b: seq<Frame>, c: seq<Frame>)
    requires Keeps(a, b) && Keeps(b, c)
    ensures Keeps(a, c)
  {
    forall k | 0 <= k < |a|
      ensures c[k].name == a[k].name
      ensures forall v :: v in a[k].muxClaims ==> v in c[k].muxClaims && c[k].muxClaims[v] == a[k].muxClaims[v]
    {
      assert b[k].name == a[k].name;
    }
  }

  /** Reading on never removes or renames a frame and never overwrites a
      multiplexer claim: the first group to claim a value keeps it. */
  lemma {:induction false} LoadFromKeeps(st: State, lines: seq<string>, i: nat)
    requires Valid(st) && i <= |lines|
    ensures Keeps(st.db.frames, LoadFrom(st, lines, i).db.frames)
    decreases |lines| - i
  {
    if i == |lines| {
      KeepsItself(st.db.frames);
    } else {
      var next, j := ReadOne(st, lines, i);
      LoadFromKeeps(next, lines, j);
      KeepsTransitive(st.db.frames, next.db.frames, LoadFrom(next, lines, j).db.frames);
    }
  }

  /** No two frames share a name. */
  predicate DistinctNames(frames: seq<Frame>) {
    forall a, b :: 0 <= a < b < |frames| ==> frames[a].name != frames[b].name
  }

  lemma SameNamesDistinct(a: seq<Frame>, b: seq<Frame>)
    requires DistinctNames(a) && Keeps(a, b) && |b| == |a|
    ensures DistinctNames(b)
  {
    forall x, y | 0 <= x < y < |b| ensures b[x].name != b[y].name {
      assert a[x].name != a[y].name;
    }
  }

  /** A frame header re-opens the frame of its name if there is one, and
      otherwise appends a frame under a name no frame has. */
  lemma OpenFrameDistinct(st: State, name: string)
    requires CarriesFrames(st.section) && DistinctNames(st.db.frames)
    ensures DistinctNames(OpenFrame(st, name).db.frames)
    ensures (exists k :: 0 <= k < |st.db.frames| && st.db.frames[k].name == name) ==>
      OpenFrame(st, name).db.frames == st.db.frames
    ensures (forall k :: 0 <= k < |st.db.frames| ==> st.db.frames[k].name != name) ==>
      OpenFrame(st, name).db.frames == st.db.frames + [NewFrame(name)]
  {
  }

  lemma StepDistinct(st: State, n: nat, text: string)
    requires Valid(st) && DistinctNames(st.db.frames)
    ensures DistinctNames(StepLine(st, n, text).db.frames)
  {
    var l := Classify(text);
    var r := StepLine(st, n, text);
    if l.FrameHeader? && CarriesFrames(st.section) {
      OpenFrameDistinct(st, l.name);
    } else if IsFrameLine(l) && st.current.Some? {
      SameNamesDistinct(st.db.frames, r.db.frames);
    }
  }

  lemma {:induction false} LoadFromDistinct(st: State, lines: seq<string>, i: nat)
    requires Valid(st) && i <= |lines| && DistinctNames(st.db.frames)
    ensures DistinctNames(LoadFrom(st, lines, i).db.frames)
    decreases |lines| - i
  {
    if i < |lines| {
      var text := Clean(lines[i]);
      if Classify(text) == EnumStart && st.section == Enums {
        var g := Gather(CleanAll(lines), i + 1, text);
        LoadFromDistinct(EnumStep(st, i + 1, g), lines, g.next);
      } else if Classify(text) == EnumStart {
        LoadFromDistinct(AddError(st, i + 1, OutOfSection(text)), lines, i + 1);
      } else {
        StepDistinct(st, i + 1, text);
        LoadFromDistinct(StepLine(st, i + 1, text), lines, i + 1);
      }
    }
  }

  /** Repeated `[Name]` blocks build one frame: the frames of a load have
      distinct names. */
  lemma LoadFrameNamesDistinct(lines: seq<string>)
    ensures DistinctNames(Load(lines).frames)
  {
    LoadFromDistinct(Initial, lines, 0);
  }

  /** A `Mux=` line for the open frame reports an error exactly when its
      discriminator value is already claimed in that frame: the error is on
      the line of the new declaration, names the group that holds the value
      and the group that was refused, and the first claim stays.  Otherwise
      the value is claimed for the new group on this line.  Either way the
      following signals belong to the value. */
  lemma MuxLineClaims(st: State, n: nat, text: string, m: MuxDecl)
    requires Valid(st) && st.current.Some? && ParseMux(text) == Ok(m)
    ensures var f := st.db.frames[st.current.value];
      var r := MuxStep(st, n, text);
      && r.mux == Some(m.value)
      && (r.db.loadErrors != st.db.loadErrors <==> m.value in f.muxClaims)
      && (m.value in f.muxClaims ==>
            r.db.loadErrors == st.db.loadErrors
              + [LoadError(n, DuplicateMuxId(m.value, f.muxClaims[m.value].group, m.group))]
            && r.db.frames == st.db.frames)
      && (m.value !in f.muxClaims ==>
            r.db.loadErrors == st.db.loadErrors
            && r.db.frames == st.db.frames[st.current.value :=
                 f.(muxClaims := f.muxClaims[m.value := MuxClaim(m.group, m.startBit, m.size, n)])])
      && r.current == st.current && r.section == st.section && r.db.valueTables == st.db.valueTables
  {
  }
}
