/**
  Quote-aware tokenising of symbol-file lines.

  Every scanner here carries the double-quote state: text between a pair of
  `"` characters is opaque, so a delimiter, a comment marker or a blank that
  sits inside quotes neither splits nor ends anything.  A quote that is never
  closed leaves the rest of the line quoted.
*/
module Tokenizer {
  import opened Text

  /** Quote state after reading `c` in quote state `q`. */
  function Toggle(c: char, q: bool): bool {
    if c == '"' then !q else q
  }

  /** Quote state after reading all of `s`, starting in quote state `q`. */
  function QuoteAfter(s: string, q: bool): bool
    decreases |s|
  {
    if s == [] then q else QuoteAfter(s[1..], Toggle(s[0], q))
  }

  lemma {:induction false} QuoteAfterConcat(a: string, b: string, q: bool)
    ensures QuoteAfter(a + b, q) == QuoteAfter(b, QuoteAfter(a, q))
    decreases |a|
  {
    if a == [] {
      AppendEmpty(b);
    } else {
      DropAppend(a, b, 1);
      QuoteAfterConcat(a[1..], b, Toggle(a[0], q));
    }
  }

  // ---------------------------------------------------------------------
  // Splitting on delimiters that sit outside quotes.

  /** Index of the first character of `s` that is one of `delims` and is not
      inside quotes, starting in quote state `q`; |s| when there is none. */
  function FieldEnd(s: string, delims: set<char>, q: bool): (k: nat)
    ensures k <= |s|
    ensures k < |s| ==> s[k] in delims
    decreases |s|
  {
    if s == [] then 0
    else if s[0] in delims && !q then 0
    else 1 + FieldEnd(s[1..], delims, Toggle(s[0], q))
  }

  /** `f` can stand as a single field: it holds no delimiter outside quotes
      and closes every quote it opens. */
  predicate IsField(f: string, delims: set<char>) {
    FieldEnd(f, delims, false) == |f| && !QuoteAfter(f, false)
  }

  /** The fields of `s` between unquoted delimiters; quotes are kept in the
      fields (the splitting primitive used for `,`, `:` and blanks). */
  function SplitQuoted(s: string, delims: set<char>): (r: seq<string>)
    ensures |r| > 0
    decreases |s|
  {
    var k := FieldEnd(s, delims, false);
    if k == |s| then [s] else [s[..k]] + SplitQuoted(s[k + 1..], delims)
  }

  /** The fields `fs` written one after the other with `d` between them. */
  function Join(fs: seq<string>, d: char): string
    decreases |fs|
  {
    if |fs| == 0 then ""
    else if |fs| == 1 then fs[0]
    else fs[0] + [d] + Join(fs[1..], d)
  }

  lemma JoinAppend(fs: seq<string>, gs: seq<string>, d: char)
    requires |fs| > 0 && |gs| > 0
    ensures Join(fs + gs, d) == Join(fs, d) + [d] + Join(gs, d)
    decreases |fs|
  {
    DropAppend(fs, gs, 1);
    if |fs| == 1 {
      AppendEmpty(gs);
    } else {
      JoinAppend(fs[1..], gs, d);
      var a, j := fs[0] + [d], Join(fs[1..], d);
      AppendAssoc(a, j, [d]);
      AppendAssoc(a, j + [d], Join(gs, d));
    }
  }

  lemma JoinCons(f: string, fs: seq<string>, d: char)
    requires fs != []
    ensures Join([f] + fs, d) == f + [d] + Join(fs, d)
  {
    DropAppend([f], fs, 1);
    AppendEmpty(fs);
  }

  /** The last field of a join, after the last delimiter. */
  lemma JoinLast(ts: seq<string>, d: char)
    requires |ts| > 1
    ensures Join(ts, d) == Join(ts[..|ts| - 1], d) + [d] + ts[|ts| - 1]
  {
    var init, last := ts[..|ts| - 1], ts[|ts| - 1];
    assert init + [last] == ts;
    JoinAppend(init, [last], d);
    assert Join([last], d) == last;
  }

  /** Splitting on a single delimiter loses nothing: joining the fields with
      that delimiter gives the input back. */
  lemma {:induction false} JoinSplitQuoted(s: string, d: char)
    ensures Join(SplitQuoted(s, {d}), d) == s
    decreases |s|
  {
    var k := FieldEnd(s, {d}, false);
    if k < |s| {
      JoinSplitQuoted(s[k + 1..], d);
      JoinCons(s[..k], SplitQuoted(s[k + 1..], {d}), d);
      SplitAt(s, k);
    }
  }

  lemma {:induction false} FieldEndConcat(a: string, b: string, ds: set<char>, q: bool)
    requires FieldEnd(a, ds, q) == |a|
    ensures FieldEnd(a + b, ds, q) == |a| + FieldEnd(b, ds, QuoteAfter(a, q))
    decreases |a|
  {
    if a == [] {
      AppendEmpty(b);
    } else {
      DropAppend(a, b, 1);
      FieldEndConcat(a[1..], b, ds, Toggle(a[0], q));
    }
  }

  /** Text without quotes is scanned in a single quote state: a delimiter-free
      run is one field, and inside quotes even delimiters are part of it. */
  lemma {:induction false} FieldEndUnquoted(s: string, ds: set<char>, q: bool)
    requires '"' !in s
    requires q || forall i :: 0 <= i < |s| ==> s[i] !in ds
    ensures FieldEnd(s, ds, q) == |s| && QuoteAfter(s, q) == q
    decreases |s|
  {
    if s != [] {
      FieldEndUnquoted(s[1..], ds, q);
    }
  }

  /** `a"b"` is a single field when `a` holds neither delimiters nor quotes and
      `b` holds no quotes, whatever delimiters `b` contains. */
  lemma QuotedIsField(a: string, b: string, ds: set<char>)
    requires '"' !in a && '"' !in b && '"' !in ds
    requires forall i :: 0 <= i < |a| ==> a[i] !in ds
    ensures IsField(a + ['"'] + b + ['"'], ds)
  {
    var open := a + ['"'];
    FieldEndUnquoted(a, ds, false);
    FieldEndConcat(a, ['"'], ds, false);
    QuoteAfterConcat(a, ['"'], false);
    assert FieldEnd(open, ds, false) == |open|;
    assert QuoteAfter(open, false);
    FieldEndUnquoted(b, ds, true);
    FieldEndConcat(open, b, ds, false);
    QuoteAfterConcat(open, b, false);
    var inner := open + b;
    assert FieldEnd(inner, ds, false) == |inner|;
    assert QuoteAfter(inner, false);
    FieldEndConcat(inner, ['"'], ds, false);
    QuoteAfterConcat(inner, ['"'], false);
  }

  lemma PlainIsField(a: string, ds: set<char>)
    requires '"' !in a
    requires forall i :: 0 <= i < |a| ==> a[i] !in ds
    ensures IsField(a, ds)
  {
    FieldEndUnquoted(a, ds, false);
  }

  lemma FieldEndAtDelimiter(d: char, rest: string, ds: set<char>, q: bool)
    requires d in ds && !q
    ensures FieldEnd([d] + rest, ds, q) == 0
  {
    assert ([d] + rest)[0] == d;
  }

  /** Splitting is the inverse of joining: fields that are each a single field
      come back unchanged, quoted delimiters included. */
  lemma {:induction false} SplitQuotedJoin(fs: seq<string>, d: char, ds: set<char>)
    requires |fs| > 0 && d in ds
    requires forall i :: 0 <= i < |fs| ==> IsField(fs[i], ds)
    ensures SplitQuoted(Join(fs, d), ds) == fs
    decreases |fs|
  {
    if |fs| > 1 {
      var rest := Join(fs[1..], d);
      var s := Join(fs, d);
      assert s == fs[0] + [d] + rest;
      AppendAssoc(fs[0], [d], rest);
      FieldEndConcat(fs[0], [d] + rest, ds, false);
      FieldEndAtDelimiter(d, rest, ds, QuoteAfter(fs[0], false));
      assert FieldEnd(s, ds, false) == |fs[0]|;
      AfterSeparator(fs[0], d, rest);
      assert SplitQuoted(s, ds) == [fs[0]] + SplitQuoted(rest, ds);
      SplitQuotedJoin(fs[1..], d, ds);
      HeadTail(fs);
    } else {
      assert Join(fs, d) == fs[0];
    }
  }

  // ---------------------------------------------------------------------
  // Comments.

  /** Index where a `//` comment outside quotes starts, or |s|. */
  function CommentStart(s: string, q: bool): (k: nat)
    ensures k <= |s|
    ensures k < |s| ==> k + 1 < |s| && s[k] == '/' && s[k + 1] == '/'
    decreases |s|
  {
    if |s| < 2 then |s|
    else if !q && s[0] == '/' && s[1] == '/' then 0
    else 1 + CommentStart(s[1..], Toggle(s[0], q))
  }

  /** The line without a trailing `// ...` comment that sits outside quotes. */
  function StripComment(s: string): (r: string)
    ensures r <= s
  {
    s[..CommentStart(s, false)]
  }

  predicate HasNoComment(s: string) {
    CommentStart(s, false) == |s|
  }

  lemma {:induction false} CommentStartPrefix(s: string, q: bool)
    ensures CommentStart(s[..CommentStart(s, q)], q) == CommentStart(s, q)
    decreases |s|
  {
    var k := CommentStart(s, q);
    if |s| >= 2 && !(!q && s[0] == '/' && s[1] == '/') {
      CommentStartPrefix(s[1..], Toggle(s[0], q));
      var k' := CommentStart(s[1..], Toggle(s[0], q));
      assert s[..k][1..] == s[1..][..k'];
    }
  }

  /** What StripComment leaves is free of comments, so stripping twice is
      stripping once. */
  lemma StripCommentIdempotent(s: string)
    ensures HasNoComment(StripComment(s))
    ensures StripComment(StripComment(s)) == StripComment(s)
  {
    CommentStartPrefix(s, false);
  }

  lemma {:induction false} CommentStartConcat(a: string, b: string, q: bool)
    requires CommentStart(a, q) == |a|
    requires a != [] ==> a[|a| - 1] != '/'
    ensures CommentStart(a + b, q) == |a| + CommentStart(b, QuoteAfter(a, q))
    decreases |a|
  {
    if a == [] {
      AppendEmpty(b);
    } else {
      DropAppend(a, b, 1);
      assert (a + b)[0] == a[0];
      if |a| == 1 {
        assert a[1..] == [];
        AppendEmpty(b);
      } else {
        assert (a + b)[1] == a[1];
        CommentStartConcat(a[1..], b, Toggle(a[0], q));
      }
    }
  }

  lemma CommentAtStart(comment: string, q: bool)
    requires !q
    ensures CommentStart("//" + comment, q) == 0
  {
    assert ("//" + comment)[0] == '/' && ("//" + comment)[1] == '/';
  }

  /** Appending a comment to a line that closes its quotes and does not end in
      `/` is undone by StripComment. */
  lemma StripAppendedComment(s: string, comment: string)
    requires HasNoComment(s) && !QuoteAfter(s, false)
    requires s != [] ==> s[|s| - 1] != '/'
    ensures StripComment(s + "//" + comment) == s
  {
    AppendAssoc(s, "//", comment);
    CommentStartConcat(s, "//" + comment, false);
    CommentAtStart(comment, QuoteAfter(s, false));
    TakeAppend(s, "//" + comment);
  }

  /** No two consecutive slashes. */
  predicate NoDoubleSlash(s: string) {
    forall i :: 0 <= i < |s| - 1 ==> !(s[i] == '/' && s[i + 1] == '/')
  }

  lemma NoDoubleSlashConcat(a: string, b: string)
    requires NoDoubleSlash(a) && NoDoubleSlash(b)
    requires a == [] || b == [] || a[|a| - 1] != '/' || b[0] != '/'
    ensures NoDoubleSlash(a + b)
  {
    var s := a + b;
    forall i | 0 <= i < |s| - 1 ensures !(s[i] == '/' && s[i + 1] == '/') {
      if i + 1 < |a| {
        assert s[i] == a[i] && s[i + 1] == a[i + 1];
      } else if i >= |a| {
        assert s[i] == b[i - |a|] && s[i + 1] == b[i + 1 - |a|];
      }
    }
  }

  /** Text without `//` holds no comment, whether it starts inside quotes
      or not. */
  lemma {:induction false} NoCommentWithoutSlashes(s: string, q: bool)
    requires NoDoubleSlash(s)
    ensures CommentStart(s, q) == |s|
    decreases |s|
  {
    if |s| >= 2 {
      assert !(s[0] == '/' && s[1] == '/');
      assert NoDoubleSlash(s[1..]) by {
        forall i | 0 <= i < |s[1..]| - 1 ensures !(s[1..][i] == '/' && s[1..][i + 1] == '/') {
          assert s[1..][i] == s[i + 1] && s[1..][i + 1] == s[i + 2];
        }
      }
      NoCommentWithoutSlashes(s[1..], Toggle(s[0], q));
    }
  }

  lemma {:induction false} NoCommentQuoted(s: string)
    requires '"' !in s
    ensures CommentStart(s + ['"'], true) == |s| + 1
    decreases |s|
  {
    if s != [] {
      assert (s + ['"'])[1..] == s[1..] + ['"'];
      NoCommentQuoted(s[1..]);
    }
  }

  /** A `//` inside quotes is not a comment. */
  lemma QuotedHasNoComment(a: string, b: string)
    requires '"' !in a && NoDoubleSlash(a) && '"' !in b
    requires a == [] || a[|a| - 1] != '/'
    ensures HasNoComment(a + ['"'] + b + ['"'])
    ensures !QuoteAfter(a + ['"'] + b + ['"'], false)
  {
    var open := a + ['"'];
    NoCommentWithoutSlashes(a, false);
    CommentStartConcat(a, ['"'], false);
    FieldEndUnquoted(a, {}, false);
    QuoteAfterConcat(a, ['"'], false);
    assert QuoteAfter(open, false);
    NoCommentQuoted(b);
    CommentStartConcat(open, b + ['"'], false);
    assert a + ['"'] + b + ['"'] == open + (b + ['"']);
    FieldEndUnquoted(b, {}, true);
    QuoteAfterConcat(open, b + ['"'], false);
    QuoteAfterConcat(b, ['"'], true);
  }

  /** The line as the reader sees it: comment removed, then stripped. */
  function Clean(line: string): (r: string)
    ensures IsTrimmed(r)
  {
    TrimResult(StripComment(line));
    Trim(StripComment(line))
  }

  // ---------------------------------------------------------------------
  // Blank-separated tokens, with double quotes removed.  Single quotes and
  // backslashes are ordinary characters.

  const Blanks: set<char> := {' ', '\t'}

  /** `s` with every double quote removed. */
  function Unquote(s: string): (r: string)
    ensures '"' !in r
    decreases |s|
  {
    if s == [] then [] else (if s[0] == '"' then [] else [s[0]]) + Unquote(s[1..])
  }

  lemma {:induction false} UnquoteConcat(a: string, b: string)
    ensures Unquote(a + b) == Unquote(a) + Unquote(b)
    decreases |a|
  {
    if a != [] {
      assert (a + b)[1..] == a[1..] + b;
      UnquoteConcat(a[1..], b);
    } else {
      assert a + b == b;
    }
  }

  lemma UnquoteQuoted(d: string)
    requires '"' !in d
    ensures Unquote(['"'] + d + ['"']) == d
  {
    assert ['"'] + d + ['"'] == ['"'] + (d + ['"']);
    UnquoteConcat(['"'], d + ['"']);
    UnquoteConcat(d, ['"']);
    UnquotePlain(d);
    assert Unquote(['"']) == [];
  }

  lemma {:induction false} UnquotePlain(s: string)
    requires '"' !in s
    ensures Unquote(s) == s
    decreases |s|
  {
    if s != [] {
      UnquotePlain(s[1..]);
    }
  }

  function NonEmpty(fs: seq<string>): (r: seq<string>)
    ensures forall i :: 0 <= i < |r| ==> r[i] != []
    decreases |fs|
  {
    if fs == [] then [] else (if fs[0] == [] then [] else [fs[0]]) + NonEmpty(fs[1..])
  }

  function UnquoteAll(fs: seq<string>): (r: seq<string>)
    ensures |r| == |fs|
    ensures forall i :: 0 <= i < |fs| ==> r[i] == Unquote(fs[i])
  {
    seq(|fs|, i requires 0 <= i < |fs| => Unquote(fs[i]))
  }

  /** The blank-separated tokens of `s`: runs of blanks outside quotes separate
      tokens, and the quotes themselves are dropped. */
  function Tokens(s: string): seq<string> {
    UnquoteAll(NonEmpty(SplitQuoted(s, Blanks)))
  }

  lemma NonEmptyAll(fs: seq<string>)
    requires forall i :: 0 <= i < |fs| ==> fs[i] != []
    ensures NonEmpty(fs) == fs
  {
    if fs != [] {
      NonEmptyAll(fs[1..]);
    }
  }

  /** Tokens written with single blanks between them are read back as the
      same tokens without their quotes. */
  lemma TokensOfJoin(ts: seq<string>)
    requires |ts| > 0
    requires forall i :: 0 <= i < |ts| ==> ts[i] != [] && IsField(ts[i], Blanks)
    ensures Tokens(Join(ts, ' ')) == UnquoteAll(ts)
  {
    SplitQuotedJoin(ts, ' ', Blanks);
    NonEmptyAll(ts);
  }

  // ---------------------------------------------------------------------
  // Whitespace-separated words, ignoring quotes, with whitespace as `IsSpace`
  // defines it.

  function WordEnd(s: string): (k: nat)
    ensures k <= |s|
    ensures s != [] && !IsSpace(s[0]) ==> k > 0
    ensures k < |s| ==> IsSpace(s[k])
    ensures forall i :: 0 <= i < k ==> !IsSpace(s[i])
    decreases |s|
  {
    if s == [] || IsSpace(s[0]) then 0 else 1 + WordEnd(s[1..])
  }

  function Words(s: string): (r: seq<string>)
    decreases |s|
  {
    if s == [] then []
    else if IsSpace(s[0]) then Words(s[1..])
    else [s[..WordEnd(s)]] + Words(s[WordEnd(s)..])
  }

  lemma {:induction false} WordEndConcat(a: string, b: string)
    requires b == [] || IsSpace(b[0])
    ensures WordEnd(a + b) == WordEnd(a)
    decreases |a|
  {
    if a == [] {
      assert a + b == b;
    } else if !IsSpace(a[0]) {
      assert (a + b)[1..] == a[1..] + b;
      WordEndConcat(a[1..], b);
    }
  }

  /** A blank between two texts separates their words. */
  lemma {:induction false} WordsConcat(a: string, b: string)
    ensures Words(a + " " + b) == Words(a) + Words(b)
    decreases |a|
  {
    var s := a + " " + b;
    if a == [] {
      assert s[1..] == b;
    } else if IsSpace(a[0]) {
      assert s[1..] == a[1..] + " " + b;
      WordsConcat(a[1..], b);
    } else {
      WordEndConcat(a, " " + b);
      assert s == a + (" " + b);
      var k := WordEnd(a);
      assert s[..k] == a[..k];
      assert s[k..] == a[k..] + " " + b;
      WordsConcat(a[k..], b);
    }
  }

  lemma WordsOfWord(w: string)
    requires w != [] && forall i :: 0 <= i < |w| ==> !IsSpace(w[i])
    ensures Words(w) == [w]
  {
    var k := WordEnd(w);
    assert w[..k] == w;
    assert w[k..] == [];
    assert Words(w) == [w[..k]] + Words(w[k..]);
  }

  /** Every word is a non-empty run of non-whitespace characters of the text
      it came from. */
  lemma {:induction false} WordsAreInfixes(s: string, w: string)
    requires w in Words(s)
    ensures IsInfix(w, s)
    ensures w != [] && forall i :: 0 <= i < |w| ==> !IsSpace(w[i])
    decreases |s|
  {
    if IsSpace(s[0]) {
      WordsAreInfixes(s[1..], w);
      InfixOfSuffix(w, s[..1], s[1..]);
      assert s == s[..1] + s[1..];
    } else {
      var k := WordEnd(s);
      assert s == s[..k] + s[k..];
      if w == s[..k] {
        assert w <= s;
      } else {
        WordsAreInfixes(s[k..], w);
        InfixOfSuffix(w, s[..k], s[k..]);
      }
    }
  }
}
