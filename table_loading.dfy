/**
  Value tables as the reader meets them in a whole input: a declaration in
  `{ENUMS}` may run on over several lines, every line but its last ending
  with a comma, and is read as the table of its entries without an error;
  a signal that names a declared table keeps the reference, and one that
  names any other table loses it and is reported.
*/
module TableLoading {
  import opened Wrappers
  import opened Text
  import opened Tokenizer
  import opened Diagnostics
  import opened ValueTables
  import opened Signals
  import opened Loader

  /** The lines from index `i` up to index `k`, each cleaned. */
  function CleanLines(lines: seq<string>, i: nat, k: nat): (r: seq<string>)
    requires i <= k <= |lines|
    ensures |r| == k - i
    ensures forall m :: 0 <= m < |r| ==> r[m] == Clean(lines[i + m])
  {
    seq(k - i, m requires 0 <= m < k - i => Clean(lines[i + m]))
  }

  /** The declaration on the lines from index `i` up to index `k`: the
      cleaned lines with a blank between each two. */
  function DeclarationOn(lines: seq<string>, i: nat, k: nat): string
    requires i <= k <= |lines|
  {
    Join(CleanLines(lines, i, k), ' ')
  }

  /** A line after which the declaration goes on. */
  predicate EndsWithComma(s: string) {
    s != [] && s[|s| - 1] == ','
  }

  /** Stripping keeps a last character that is not whitespace. */
  lemma {:induction false} TrimKeepsLast(s: string)
    requires s != [] && !IsSpace(s[|s| - 1])
    ensures Trim(s) != [] && Trim(s)[|Trim(s)| - 1] == s[|s| - 1]
    decreases |s|
  {
    if IsSpace(s[0]) {
      assert |s| > 1;
      TrimKeepsLast(s[1..]);
    }
  }

  /** Text ending with a comma is not a complete declaration. */
  lemma CommaNotClosed(s: string)
    requires EndsWithComma(s)
    ensures !IsClosed(s)
  {
    if |s| > 4 {
      TrimKeepsLast(s[4..]);
    }
  }

  /** A join ends with its last field, when that field is not empty. */
  lemma JoinEndsWith(fs: seq<string>, d: char)
    requires fs != [] && fs[|fs| - 1] != []
    ensures var j := Join(fs, d); j != [] && j[|j| - 1] == fs[|fs| - 1][|fs[|fs| - 1]| - 1]
  {
    if |fs| > 1 {
      JoinLast(fs, d);
    }
  }

  /** One more line of the declaration. */
  lemma DeclarationGrows(lines: seq<string>, i: nat, j: nat)
    requires i < j < |lines|
    ensures DeclarationOn(lines, i, j + 1) == DeclarationOn(lines, i, j) + " " + Clean(lines[j])
  {
    var before := CleanLines(lines, i, j);
    assert CleanLines(lines, i, j + 1) == before + [Clean(lines[j])];
    JoinAppend(before, [Clean(lines[j])], ' ');
  }

  /** Gathering from index `j` runs through the texts `ds`, each the one
      before with the next cleaned line appended, and stops at the first
      closed one. */
  lemma {:induction false} GatherRuns(cleaned: seq<string>, j: nat, k: nat, ds: seq<string>)
    requires j <= k <= |cleaned| && |ds| == k - j + 1
    requires forall m :: 0 <= m < k - j ==> !IsClosed(ds[m]) && ds[m + 1] == ds[m] + " " + cleaned[j + m]
    requires IsClosed(ds[k - j])
    ensures Gather(cleaned, j, ds[0]) == Gathered(ds[k - j], k, true)
    decreases k - j
  {
    if j < k {
      assert ds[1] == ds[0] + " " + cleaned[j];
      GatherRuns(cleaned, j + 1, k, ds[1..]);
    }
  }

  /** Part way through a declaration, the text so far is not closed and
      grows by the next line. */
  lemma DeclarationOpen(lines: seq<string>, i: nat, j: nat)
    requires i < j < |lines|
    requires EndsWithComma(Clean(lines[j - 1]))
    ensures !IsClosed(DeclarationOn(lines, i, j))
    ensures DeclarationOn(lines, i, j + 1) == DeclarationOn(lines, i, j) + " " + Clean(lines[j])
  {
    var partial := CleanLines(lines, i, j);
    assert partial[|partial| - 1] == Clean(lines[j - 1]);
    JoinEndsWith(partial, ' ');
    CommaNotClosed(DeclarationOn(lines, i, j));
    DeclarationGrows(lines, i, j);
  }

  /** The declaration as it stands after each of the lines from index `j`
      up to index `k`. */
  function Partials(lines: seq<string>, i: nat, j: nat, k: nat): (ds: seq<string>)
    requires i < j <= k <= |lines|
    ensures |ds| == k - j + 1
    ensures forall m :: 0 <= m <= k - j ==> ds[m] == DeclarationOn(lines, i, j + m)
  {
    seq(k - j + 1, m requires 0 <= m <= k - j => DeclarationOn(lines, i, j + m))
  }

  /** Each partial declaration but the last is open and grows by the next
      cleaned line. */
  lemma PartialsGrow(lines: seq<string>, i: nat, j: nat, k: nat)
    requires i < j <= k <= |lines|
    requires forall m :: i <= m < k - 1 ==> EndsWithComma(Clean(lines[m]))
    ensures var ds := Partials(lines, i, j, k);
      forall m :: 0 <= m < k - j ==>
        !IsClosed(ds[m]) && ds[m + 1] == ds[m] + " " + CleanAll(lines)[j + m]
  {
    var ds := Partials(lines, i, j, k);
    forall m | 0 <= m < k - j
      ensures !IsClosed(ds[m]) && ds[m + 1] == ds[m] + " " + CleanAll(lines)[j + m]
    {
      DeclarationOpen(lines, i, j + m);
    }
  }

  /** Gathering from index `j`, part way through a declaration whose lines
      but the last end with a comma, stops after its last line with all its
      lines joined. */
  lemma GatherDeclaration(lines: seq<string>, i: nat, j: nat, k: nat)
    requires i < j <= k <= |lines|
    requires forall m :: i <= m < k - 1 ==> EndsWithComma(Clean(lines[m]))
    requires IsClosed(DeclarationOn(lines, i, k))
    ensures Gather(CleanAll(lines), j, DeclarationOn(lines, i, j)) == Gathered(DeclarationOn(lines, i, k), k, true)
  {
    PartialsGrow(lines, i, j, k);
    GatherRuns(CleanAll(lines), j, k, Partials(lines, i, j, k));
  }

  /** A declaration written over the lines from index `i` up to index `k`,
      the first line beginning with the keyword and every line but the last
      ending with a comma, adds its table under its
      name, reports nothing, and reading goes on after its last line.  The
      labels may hold commas, and the entries any whitespace before them. */
  lemma DeclarationAcrossLines(st: State, lines: seq<string>, i: nat, k: nat,
                               name: string, entries: seq<Entry>, pads: seq<string>)
    requires Valid(st) && st.section == Enums && i < k <= |lines|
    requires "enum" <= Clean(lines[i])
    requires forall m :: i <= m < k - 1 ==> EndsWithComma(Clean(lines[m]))
    requires |pads| == |entries| && IsTrimmed(name) && '(' !in name
    requires forall e :: 0 <= e < |entries| ==> AllSpace(pads[e]) && WellFormedEntry(entries[e])
    requires DeclarationOn(lines, i, k) == EnumDecl(name, entries, pads)
    ensures LoadFrom(st, lines, i) ==
      LoadFrom(st.(db := st.db.(valueTables := st.db.valueTables[name := TableOf(entries)])), lines, k)
  {
    var first := Clean(lines[i]);
    assert DeclarationOn(lines, i, i + 1) == first by {
      assert CleanLines(lines, i, i + 1) == [first];
    }
    ParseEnumDecl(name, entries, pads);
    GatherDeclaration(lines, i, i + 1, k);
    EnumStarts(first);
  }

  /** A line beginning with the keyword starts a declaration. */
  lemma EnumStarts(text: string)
    requires "enum" <= text
    ensures Classify(text) == EnumStart
  {
    assert text[0] == 'e';
  }

  /** The latest signal of the open frame. */
  function LatestSignal(st: State): Option<Signal>
    requires Valid(st)
  {
    if st.current.None? then None
    else
      var sigs := st.db.frames[st.current.value].signals;
      if sigs == [] then None else Some(sigs[|sigs| - 1])
  }

  /** A `Var=` line naming value table `t`: if `t` is declared the signal
      keeps the reference and only the declaration's own warnings are
      reported; otherwise the reference is dropped and one more error names
      the table. */
  lemma TableReference(st: State, n: nat, text: string, decl: VarDecl, t: string)
    requires Valid(st) && st.current.Some?
    requires ParseVar(text) == Ok(decl) && decl.signal.valueTable == Some(t)
    ensures var r := VarStep(st, n, text);
      LatestSignal(r).Some?
      && (LatestSignal(r).value.valueTable == Some(t) <==> t in st.db.valueTables)
      && r.db.loadErrors == st.db.loadErrors
           + seq(|decl.warnings|, j requires 0 <= j < |decl.warnings| => LoadError(n, decl.warnings[j]))
           + (if t in st.db.valueTables then [] else [LoadError(n, UnknownValueTable(t))])
  {
    SignalAppended(st, n, text, decl);
  }

  /** A `Var=` line that parses reports the declaration's own warnings on
      its line, then, when its value table has not been declared, one error
      naming the table. */
  lemma SignalAppended(st: State, n: nat, text: string, decl: VarDecl)
    requires Valid(st) && st.current.Some? && ParseVar(text) == Ok(decl)
    ensures var dropped := decl.signal.valueTable.Some? && decl.signal.valueTable.value !in st.db.valueTables;
      VarStep(st, n, text).db.loadErrors == st.db.loadErrors
        + seq(|decl.warnings|, j requires 0 <= j < |decl.warnings| => LoadError(n, decl.warnings[j]))
        + (if dropped then [LoadError(n, UnknownValueTable(decl.signal.valueTable.value))] else [])
  {
    var sig := decl.signal.(multiplex := st.mux);
    var known := sig.valueTable.None? || sig.valueTable.value in st.db.valueTables;
    var f := st.db.frames[st.current.value];
    var mid := SetFrame(st, f.(signals := f.signals + [Resolved(st.db.valueTables, sig)]));
    var extra := if known then [] else [UnknownValueTable(sig.valueTable.value)];
    assert VarStep(st, n, text) == AddErrors(mid, n, decl.warnings + extra);
    ErrorsAppended(mid, n, decl.warnings, extra);
  }

  /** Reporting two runs of errors reports the first, then the second, and
      leaves the frames alone. */
  lemma ErrorsAppended(st: State, n: nat, a: seq<ErrorKind>, b: seq<ErrorKind>)
    ensures var r := AddErrors(st, n, a + b);
      r.current == st.current && r.db.frames == st.db.frames
      && r.db.loadErrors == st.db.loadErrors
           + seq(|a|, j requires 0 <= j < |a| => LoadError(n, a[j]))
           + seq(|b|, j requires 0 <= j < |b| => LoadError(n, b[j]))
  {
    var ab := seq(|a + b|, j requires 0 <= j < |a + b| => LoadError(n, (a + b)[j]));
    assert ab == seq(|a|, j requires 0 <= j < |a| => LoadError(n, a[j]))
      + seq(|b|, j requires 0 <= j < |b| => LoadError(n, b[j]));
  }
}
