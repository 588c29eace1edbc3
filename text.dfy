/** The Python string operations the bot relies on: `re.split("\s+", …)`,
    `str.split(sep)[1]`, `str.strip()`, `str.lower()`, `str.startswith`,
    the `in` substring test and `int()` on a token. */
module Text {

  datatype Option<T> = None | Some(value: T)

  /** The characters Python's `str.isspace()` accepts (the `\s` of `re`). */
  const SpaceChars: set<char> := {
    ' ', '\t', '\n', '\U{0b}', '\U{0c}', '\r', '\U{1c}', '\U{1d}', '\U{1e}', '\U{1f}',
    '\U{85}', '\U{a0}', '\U{1680}',
    '\U{2000}', '\U{2001}', '\U{2002}', '\U{2003}', '\U{2004}', '\U{2005}',
    '\U{2006}', '\U{2007}', '\U{2008}', '\U{2009}', '\U{200a}',
    '\U{2028}', '\U{2029}', '\U{202f}', '\U{205f}', '\U{3000}'}

  predicate IsSpace(c: char) {
    c in SpaceChars
  }

  predicate NoSpace(s: string) {
    forall i :: 0 <= i < |s| ==> !IsSpace(s[i])
  }

  /** Length of the longest prefix of `s` without whitespace. */
  function WordLen(s: string): (n: nat)
    ensures n <= |s| && NoSpace(s[..n])
    ensures n < |s| ==> IsSpace(s[n])
  {
    if s == [] || IsSpace(s[0]) then 0
    else
      var m := WordLen(s[1..]);
      assert s[..m + 1] == [s[0]] + s[1..][..m];
      m + 1
  }

  /** Length of the longest prefix of `s` made of whitespace. */
  function SpaceLen(s: string): (n: nat)
    ensures n <= |s|
    ensures forall i :: 0 <= i < n ==> IsSpace(s[i])
    ensures n < |s| ==> !IsSpace(s[n])
  {
    if s == [] || !IsSpace(s[0]) then 0 else 1 + SpaceLen(s[1..])
  }

  /** Length of the longest suffix of `s` made of whitespace. */
  function TrailLen(s: string): (n: nat)
    ensures n <= |s|
    ensures forall i :: |s| - n <= i < |s| ==> IsSpace(s[i])
    ensures n < |s| ==> !IsSpace(s[|s| - n - 1])
  {
    if s == [] || !IsSpace(s[|s| - 1]) then 0 else 1 + TrailLen(s[..|s| - 1])
  }

  /** `re.split("\s+", s)`: the pieces between maximal runs of whitespace.
      Leading (trailing) whitespace gives an empty first (last) piece, and
      the empty string gives the single piece "". */
  function SplitWs(s: string): (r: seq<string>)
    ensures |r| >= 1
    ensures forall k :: 0 <= k < |r| ==> NoSpace(r[k])
    decreases |s|
  {
    if WordLen(s) == |s| then [s]
    else [s[..WordLen(s)]] + SplitWs(AfterGap(s))
  }

  /** What follows the first word of `s` and the whitespace run after it. */
  function AfterGap(s: string): (r: string)
    requires WordLen(s) < |s|
    ensures |r| < |s|
  {
    var t := s[WordLen(s)..];
    t[SpaceLen(t)..]
  }

  /** All characters of `s` that are not whitespace, in order. */
  function DropSpaces(s: string): string {
    if s == [] then [] else Keep(s[0]) + DropSpaces(s[1..])
  }

  /** A character as `DropSpaces` keeps it: nothing for whitespace. */
  function Keep(c: char): string {
    if IsSpace(c) then [] else [c]
  }

  function Concat(ss: seq<string>): string {
    if ss == [] then [] else ss[0] + Concat(ss[1..])
  }

  lemma {:induction false} DropSpacesAppend(a: string, b: string)
    ensures DropSpaces(a + b) == DropSpaces(a) + DropSpaces(b)
  {
    if a == [] {
      assert a + b == b;
    } else {
      DropSpacesAppend(a[1..], b);
      assert (a + b)[0] == a[0] && (a + b)[1..] == a[1..] + b;
      assert DropSpaces(a + b) == Keep(a[0]) + DropSpaces(a[1..] + b);
      var k, x, y := Keep(a[0]), DropSpaces(a[1..]), DropSpaces(b);
      assert k + (x + y) == (k + x) + y;
    }
  }

  lemma {:induction false} DropSpacesOfWord(s: string)
    requires NoSpace(s)
    ensures DropSpaces(s) == s
  {
    if s != [] {
      DropSpacesOfWord(s[1..]);
    }
  }

  lemma {:induction false} DropSpacesOfBlank(s: string)
    requires forall i :: 0 <= i < |s| ==> IsSpace(s[i])
    ensures DropSpaces(s) == []
  {
    if s != [] {
      DropSpacesOfBlank(s[1..]);
    }
  }

  lemma ConcatCons(x: string, ys: seq<string>)
    ensures Concat([x] + ys) == x + Concat(ys)
  {
    assert ([x] + ys)[1..] == ys;
  }

  /** The pieces of `re.split("\s+", s)` hold exactly the non-whitespace
      characters of `s`, in their original order: splitting loses only the
      separators and never alters a character. */
  lemma {:induction false} SplitWsKeepsText(s: string)
    ensures Concat(SplitWs(s)) == DropSpaces(s)
    decreases |s|
  {
    if WordLen(s) == |s| {
      assert s[..WordLen(s)] == s;
      DropSpacesOfWord(s);
      ConcatCons(s, []);
      assert [s] + [] == [s];
    } else {
      var w, b, rest := SplitWsStep(s);
      calc {
        Concat(SplitWs(s));
        { ConcatCons(w, SplitWs(rest)); }
        w + Concat(SplitWs(rest));
        { SplitWsKeepsText(rest); }
        w + DropSpaces(rest);
        { assert [] + DropSpaces(rest) == DropSpaces(rest); }
        DropSpaces(w) + (DropSpaces(b) + DropSpaces(rest));
        { DropSpacesAppend(b, rest); }
        DropSpaces(w) + DropSpaces(b + rest);
        { DropSpacesAppend(w, b + rest); }
        DropSpaces(s);
      }
    }
  }

  /** One step of `SplitWs` on a text holding whitespace: a word, a run of
      whitespace, and the rest. */
  lemma SplitWsStep(s: string) returns (w: string, b: string, rest: string)
    requires WordLen(s) < |s|
    ensures s == w + (b + rest) && |rest| < |s|
    ensures DropSpaces(w) == w && DropSpaces(b) == []
    ensures SplitWs(s) == [w] + SplitWs(rest)
  {
    w, b, rest := SplitWsParts(s);
    DropSpacesOfWord(w);
    DropSpacesOfBlank(b);
  }

  /** The word, the whitespace run and the rest that one step of `SplitWs`
      cuts a text into. */
  lemma SplitWsParts(s: string) returns (w: string, b: string, rest: string)
    requires WordLen(s) < |s|
    ensures s == w + (b + rest) && |rest| < |s|
    ensures NoSpace(w) && b != [] && AllSpace(b) && (rest == [] || !IsSpace(rest[0]))
    ensures (w == []) == IsSpace(s[0])
    ensures SplitWs(s) == [w] + SplitWs(rest) && Gaps(s) == [b] + Gaps(rest)
  {
    var n := WordLen(s);
    var t := s[n..];
    w, b, rest := s[..n], t[..SpaceLen(t)], AfterGap(s);
    GapOf(t);
    assert s == w + t;
    assert t[0] == s[n];
  }

  /** A text that starts with whitespace is its first run followed by a
      rest that does not. */
  lemma GapOf(t: string)
    requires t != [] && IsSpace(t[0])
    ensures var k := SpaceLen(t);
      && t == t[..k] + t[k..] && t[..k] != [] && AllSpace(t[..k])
      && (t[k..] == [] || !IsSpace(t[k..][0]))
  {
    var k := SpaceLen(t);
    forall i | 0 <= i < k ensures IsSpace(t[..k][i]) {
      assert t[..k][i] == t[i];
    }
  }

  predicate AllSpace(s: string) {
    forall i :: 0 <= i < |s| ==> IsSpace(s[i])
  }

  /** The whitespace runs `re.split("\s+", s)` cuts at, in order. */
  function Gaps(s: string): seq<string>
    decreases |s|
  {
    if WordLen(s) == |s| then []
    else
      var t := s[WordLen(s)..];
      [t[..SpaceLen(t)]] + Gaps(AfterGap(s))
  }

  /** The pieces joined back together with the separators between them. */
  function Interleave(pieces: seq<string>, seps: seq<string>): string
    requires |pieces| == |seps| + 1
    decreases |seps|
  {
    if seps == [] then pieces[0] else pieces[0] + (seps[0] + Interleave(pieces[1..], seps[1..]))
  }

  /** `pieces` and `seps` form a split on whitespace runs: no piece holds
      whitespace, every separator is a non-empty run of whitespace, and only
      the first and the last piece may be empty. */
  predicate Separated(pieces: seq<string>, seps: seq<string>) {
    && |pieces| == |seps| + 1
    && (forall k :: 0 <= k < |pieces| ==> NoSpace(pieces[k]))
    && (forall k :: 0 <= k < |seps| ==> seps[k] != [] && AllSpace(seps[k]))
    && (forall k :: 0 < k < |pieces| - 1 ==> pieces[k] != [])
  }

  /** `re.split("\s+", s)` cuts `s` at its maximal whitespace runs: `s` is
      the pieces with those runs between them, no piece holds whitespace,
      every run is non-empty, only the first and the last piece may be
      empty, and the first (last) piece is empty exactly when `s` is empty
      or starts (ends) with whitespace. */
  lemma SplitWsRoundTrip(s: string)
    ensures var r, g := SplitWs(s), Gaps(s);
      && |g| == |r| - 1
      && s == Interleave(r, g)
      && (forall k :: 0 <= k < |g| ==> g[k] != [] && AllSpace(g[k]))
      && (forall k :: 0 < k < |r| - 1 ==> r[k] != [])
      && (r[0] == [] <==> s == [] || IsSpace(s[0]))
      && (r[|r| - 1] == [] <==> s == [] || IsSpace(s[|s| - 1]))
  {
    SplitWsJoins(s);
    SplitWsGapsAreRuns(s);
    SplitWsInnerPieces(s);
    SplitWsFirstPiece(s);
    SplitWsLastPiece(s);
  }

  lemma {:induction false} SplitWsJoins(s: string)
    ensures |Gaps(s)| == |SplitWs(s)| - 1 && s == Interleave(SplitWs(s), Gaps(s))
    decreases |s|
  {
    if WordLen(s) == |s| {
      assert s[..WordLen(s)] == s;
    } else {
      var w, b, rest := SplitWsParts(s);
      SplitWsJoins(rest);
      var r, g := SplitWs(s), Gaps(s);
      assert r[1..] == SplitWs(rest) && g[1..] == Gaps(rest);
    }
  }

  lemma {:induction false} SplitWsGapsAreRuns(s: string)
    ensures forall k :: 0 <= k < |Gaps(s)| ==> Gaps(s)[k] != [] && AllSpace(Gaps(s)[k])
    decreases |s|
  {
    if WordLen(s) < |s| {
      var w, b, rest := SplitWsParts(s);
      SplitWsGapsAreRuns(rest);
      GapsCons(Gaps(s), b, Gaps(rest));
    }
  }

  lemma SplitWsFirstPiece(s: string)
    ensures SplitWs(s)[0] == [] <==> s == [] || IsSpace(s[0])
  {
    if WordLen(s) == |s| {
      assert s[..WordLen(s)] == s;
    } else {
      var w, b, rest := SplitWsParts(s);
    }
  }

  lemma {:induction false} SplitWsLastPiece(s: string)
    ensures var r := SplitWs(s); r[|r| - 1] == [] <==> s == [] || IsSpace(s[|s| - 1])
    decreases |s|
  {
    if WordLen(s) == |s| {
      assert s[..WordLen(s)] == s;
    } else {
      var w, b, rest := SplitWsParts(s);
      SplitWsLastPiece(rest);
      SplitWsOfEmpty();
      LastPieceCons(s, w, b, rest, SplitWs(s), SplitWs(rest));
    }
  }

  lemma {:induction false} SplitWsInnerPieces(s: string)
    ensures var r := SplitWs(s); forall k :: 0 < k < |r| - 1 ==> r[k] != []
    decreases |s|
  {
    if WordLen(s) < |s| {
      var w, b, rest := SplitWsParts(s);
      SplitWsInnerPieces(rest);
      SplitWsFirstPiece(rest);
      SplitWsOfEmpty();
      InnerPiecesCons(SplitWs(s), w, SplitWs(rest));
    }
  }

  lemma SplitWsOfEmpty()
    ensures SplitWs([]) == [[]]
  {
    var e: string := [];
    assert e[..WordLen(e)] == e;
  }

  /** Prepending one non-empty whitespace run to a list of such runs. */
  lemma GapsCons(g: seq<string>, b: string, g': seq<string>)
    requires g == [b] + g' && b != [] && AllSpace(b)
    requires forall k :: 0 <= k < |g'| ==> g'[k] != [] && AllSpace(g'[k])
    ensures forall k :: 0 <= k < |g| ==> g[k] != [] && AllSpace(g[k])
  {
    forall k | 0 < k < |g| ensures g[k] != [] && AllSpace(g[k]) {
      assert g[k] == g'[k - 1];
    }
  }

  /** Prepending a piece keeps the inner pieces non-empty when the old
      first piece becomes an inner one only if it is non-empty. */
  lemma InnerPiecesCons(r: seq<string>, w: string, r': seq<string>)
    requires r == [w] + r' && |r'| >= 1
    requires forall k :: 0 < k < |r'| - 1 ==> r'[k] != []
    requires |r'| > 1 ==> r'[0] != []
    ensures forall k :: 0 < k < |r| - 1 ==> r[k] != []
  {
    forall k | 0 < k < |r| - 1 ensures r[k] != [] {
      assert r[k] == r'[k - 1];
    }
  }

  /** The last piece of a text that is a word, a run and a rest. */
  lemma LastPieceCons(s: string, w: string, b: string, rest: string, r: seq<string>, r': seq<string>)
    requires s == w + (b + rest) && b != [] && AllSpace(b)
    requires r == [w] + r' && |r'| >= 1
    requires rest == [] ==> r' == [[]]
    requires rest != [] ==> (r'[|r'| - 1] == [] <==> IsSpace(rest[|rest| - 1]))
    ensures r[|r| - 1] == [] <==> IsSpace(s[|s| - 1])
  {
    LastOfJoin(s, w, b, rest);
    assert r[|r| - 1] == r'[|r'| - 1];
  }

  /** The split is unique: whatever pieces and whitespace runs form a split
      in the sense of `Separated`, `re.split("\s+", …)` of their
      interleaving gives back exactly those pieces. */
  lemma {:induction false} SplitWsOfInterleave(pieces: seq<string>, seps: seq<string>)
    requires Separated(pieces, seps)
    ensures SplitWs(Interleave(pieces, seps)) == pieces
    decreases |seps|
  {
    var s := Interleave(pieces, seps);
    var w := pieces[0];
    if seps == [] {
      WordLenOfWord(s, w, []);
      assert s[..WordLen(s)] == s;
    } else {
      var b := seps[0];
      var x := Interleave(pieces[1..], seps[1..]);
      SeparatedStep(pieces, seps);
      SplitWsOfInterleave(pieces[1..], seps[1..]);
      SplitWsOfJoin(s, w, b, x);
      assert [w] + pieces[1..] == pieces;
    }
  }

  /** Dropping the first piece and the first run of a split leaves a split
      whose interleaving does not start with whitespace. */
  lemma SeparatedStep(pieces: seq<string>, seps: seq<string>)
    requires Separated(pieces, seps) && seps != []
    ensures Separated(pieces[1..], seps[1..])
    ensures var x := Interleave(pieces[1..], seps[1..]);
      && Interleave(pieces, seps) == pieces[0] + (seps[0] + x)
      && (x == [] || !IsSpace(x[0]))
  {
    forall k | 0 < k < |pieces| - 2 ensures pieces[1..][k] != [] {
      assert pieces[1..][k] == pieces[k + 1];
    }
    var x := Interleave(pieces[1..], seps[1..]);
    if |seps| > 1 {
      assert pieces[1] != [];
      assert x == pieces[1] + (seps[1] + Interleave(pieces[2..], seps[2..]));
    }
  }

  /** A word, then a whitespace run, then a text that does not start with
      whitespace: the word is the first piece and the split goes on after
      the run. */
  lemma SplitWsOfJoin(s: string, w: string, b: string, x: string)
    requires s == w + (b + x) && NoSpace(w) && b != [] && AllSpace(b)
    requires x == [] || !IsSpace(x[0])
    ensures SplitWs(s) == [w] + SplitWs(x)
  {
    WordLenOfWord(s, w, b + x);
    SpaceLenOfRun(b + x, b, x);
    assert s[WordLen(s)..] == b + x;
    assert AfterGap(s) == x;
  }

  /** The first word of a text that is a word followed by whitespace. */
  lemma WordLenOfWord(s: string, w: string, t: string)
    requires s == w + t && NoSpace(w) && (t == [] || IsSpace(t[0]))
    ensures WordLen(s) == |w| && s[..|w|] == w
  {
  }

  /** The first whitespace run of a text that is a run followed by a
      non-whitespace character or the end. */
  lemma SpaceLenOfRun(s: string, b: string, x: string)
    requires s == b + x && AllSpace(b) && (x == [] || !IsSpace(x[0]))
    ensures SpaceLen(s) == |b|
  {
    assert forall i :: 0 <= i < |b| ==> s[i] == b[i];
    assert x != [] ==> s[|b|] == x[0];
  }

  /** The last character of a word, a run and a rest joined together. */
  lemma LastOfJoin(s: string, w: string, b: string, rest: string)
    requires s == w + (b + rest) && b != []
    ensures s[|s| - 1] == (if rest == [] then b[|b| - 1] else rest[|rest| - 1])
  {
  }

  /** `p` occurs in `s` at position `j`. */
  predicate MatchAt(s: string, p: string, j: int) {
    0 <= j && j + |p| <= |s| && s[j..j + |p|] == p
  }

  /** Python's `p in s`. */
  predicate Contains(s: string, p: string) {
    exists j | 0 <= j <= |s| :: MatchAt(s, p, j)
  }

  /** One mismatching character, or running off the end, rules out a match. */
  lemma NoMatchAt(s: string, p: string, j: nat, d: nat)
    requires d < |p|
    requires j + |p| > |s| || s[j + d] != p[d]
    ensures !MatchAt(s, p, j)
  {
  }

  /** The first position at or after `i` where `p` occurs in `s`. */
  function IndexFrom(s: string, p: string, i: nat): (r: Option<nat>)
    requires i <= |s|
    ensures r.Some? ==> i <= r.value && MatchAt(s, p, r.value)
    ensures r.Some? ==> forall j :: i <= j < r.value ==> !MatchAt(s, p, j)
    ensures r.None? ==> forall j :: i <= j ==> !MatchAt(s, p, j)
    decreases |s| - i
  {
    if MatchAt(s, p, i) then Some(i)
    else if i + |p| >= |s| then None
    else IndexFrom(s, p, i + 1)
  }

  /** Python's `s.find(p)`: the first occurrence of `p` in `s`. */
  function IndexOf(s: string, p: string): (r: Option<nat>)
    ensures r.Some? <==> Contains(s, p)
    ensures r.Some? ==> MatchAt(s, p, r.value) && forall j :: 0 <= j < r.value ==> !MatchAt(s, p, j)
  {
    IndexFrom(s, p, 0)
  }

  /** `p` occurs in `s` at `i` and nowhere before. */
  predicate FirstMatch(s: string, p: string, i: int) {
    MatchAt(s, p, i) && forall j :: 0 <= j < i ==> !MatchAt(s, p, j)
  }

  /** `f` is the field of `s` that starts at `off`: the text from `off` up to
      the next position where `sep` starts, or up to the end of `s` when
      `sep` does not start anywhere from `off` on. */
  predicate FieldAt(s: string, sep: string, off: int, f: string) {
    && 0 <= off && off + |f| <= |s| && f == s[off..off + |f|]
    && (forall j :: off <= j < off + |f| ==> !MatchAt(s, sep, j))
    && (off + |f| == |s| || MatchAt(s, sep, off + |f|))
  }

  /** Python's `s.split(sep)[1]` for a non-empty separator that occurs in `s`:
      the text between the first and the second occurrence of `sep` (or the
      end of `s` when it occurs only once). */
  function SecondField(s: string, sep: string): (r: string)
    requires |sep| > 0 && Contains(s, sep)
    ensures !Contains(r, sep)
    ensures exists i :: FirstMatch(s, sep, i) && FieldAt(s, sep, i + |sep|, r)
  {
    var i := IndexOf(s, sep).value;
    var off := i + |sep|;
    var rest := s[off..];
    match IndexOf(rest, sep)
    case None =>
      assert rest == s[off..off + |rest|];
      NoMatchAfter(s, sep, off);
      NoMatchBefore(rest, sep, |rest|);
      assert rest[..|rest|] == rest;
      assert FirstMatch(s, sep, i);
      rest
    case Some(j) =>
      var r := rest[..j];
      MatchShift(s, sep, off, j);
      NoMatchBefore(rest, sep, j);
      NoMatchBetween(s, sep, off, j);
      assert r == s[off..off + |r|];
      assert FirstMatch(s, sep, i);
      r
  }

  /** The field that starts at a given position is unique. */
  lemma FieldAtUnique(s: string, sep: string, off: int, f: string, g: string)
    requires FieldAt(s, sep, off, f) && FieldAt(s, sep, off, g)
    ensures f == g
  {
    assert |f| < |g| ==> !MatchAt(s, sep, off + |f|);
    assert |g| < |f| ==> !MatchAt(s, sep, off + |g|);
  }

  /** The first match is unique. */
  lemma FirstMatchUnique(s: string, p: string, i: int, i': int)
    requires FirstMatch(s, p, i) && FirstMatch(s, p, i')
    ensures i == i'
  {
  }

  /** `SecondField` is the one field that follows the first separator. */
  lemma SecondFieldIsField(s: string, sep: string, i: int, f: string)
    requires |sep| > 0 && Contains(s, sep)
    requires FirstMatch(s, sep, i) && FieldAt(s, sep, i + |sep|, f)
    ensures SecondField(s, sep) == f
  {
    SecondFieldUnique(s, sep, i, f, SecondField(s, sep));
  }

  /** Two fields that both follow the first separator are the same. */
  lemma SecondFieldUnique(s: string, sep: string, i: int, f: string, r: string)
    requires FirstMatch(s, sep, i) && FieldAt(s, sep, i + |sep|, f)
    requires exists i' :: FirstMatch(s, sep, i') && FieldAt(s, sep, i' + |sep|, r)
    ensures r == f
  {
    var i' :| FirstMatch(s, sep, i') && FieldAt(s, sep, i' + |sep|, r);
    FirstMatchUnique(s, sep, i, i');
    FieldAtUnique(s, sep, i + |sep|, f, r);
  }

  /** A match in a suffix is a match in the whole text. */
  lemma MatchShift(s: string, p: string, off: nat, j: nat)
    requires off <= |s| && MatchAt(s[off..], p, j)
    ensures MatchAt(s, p, off + j)
  {
    assert s[off + j..off + j + |p|] == s[off..][j..j + |p|];
  }

  /** A match in the whole text at or after `off` is a match in the suffix. */
  lemma MatchUnshift(s: string, p: string, off: nat, k: nat)
    requires off <= k && MatchAt(s, p, k)
    ensures MatchAt(s[off..], p, k - off)
  {
    assert s[k..k + |p|] == s[off..][k - off..k - off + |p|];
  }

  /** No match in the suffix from `off` means no match in `s` from `off`. */
  lemma NoMatchAfter(s: string, p: string, off: nat)
    requires off <= |s| && forall j :: 0 <= j ==> !MatchAt(s[off..], p, j)
    ensures forall k :: off <= k ==> !MatchAt(s, p, k)
  {
    forall k | off <= k && MatchAt(s, p, k) ensures false {
      MatchUnshift(s, p, off, k);
    }
  }

  /** No match in the suffix before `j` means no match in `s` between `off`
      and `off + j`. */
  lemma NoMatchBetween(s: string, p: string, off: nat, j: nat)
    requires off <= |s| && forall k :: 0 <= k < j ==> !MatchAt(s[off..], p, k)
    ensures forall k :: off <= k < off + j ==> !MatchAt(s, p, k)
  {
    forall k | off <= k < off + j && MatchAt(s, p, k) ensures false {
      MatchUnshift(s, p, off, k);
    }
  }

  /** Text before the first match of a non-empty pattern holds no match. */
  lemma NoMatchBefore(t: string, p: string, j: nat)
    requires |p| > 0 && j <= |t| && forall k :: 0 <= k < j ==> !MatchAt(t, p, k)
    ensures !Contains(t[..j], p)
  {
    forall k | MatchAt(t[..j], p, k) ensures false {
      assert t[k..k + |p|] == t[..j][k..k + |p|];
      assert MatchAt(t, p, k);
    }
  }

  /** Python's `s.strip()`: `s` without its leading and trailing whitespace. */
  function Strip(s: string): (r: string)
    ensures r == [] || (!IsSpace(r[0]) && !IsSpace(r[|r| - 1]))
    ensures exists i :: MatchAt(s, r, i)
                        && (forall k :: 0 <= k < i ==> IsSpace(s[k]))
                        && (forall k :: i + |r| <= k < |s| ==> IsSpace(s[k]))
  {
    var a := SpaceLen(s);
    var t := s[a..];
    var r := t[..|t| - TrailLen(t)];
    assert r == s[a..a + |r|];
    assert MatchAt(s, r, a);
    assert forall k :: a + |r| <= k < |s| ==> IsSpace(s[k]) by {
      forall k | a + |r| <= k < |s| ensures IsSpace(s[k]) {
        assert s[k] == t[k - a];
      }
    }
    r
  }

  function LowerChar(c: char): char {
    if 'A' <= c <= 'Z' then (c as int - 'A' as int + 'a' as int) as char else c
  }

  /** Python's `s.lower()` on ASCII letters. */
  function Lower(s: string): (r: string)
    ensures |r| == |s|
    ensures forall i :: 0 <= i < |r| ==> !('A' <= r[i] <= 'Z')
    ensures forall i :: 0 <= i < |r| && !('A' <= s[i] <= 'Z') ==> r[i] == s[i]
    ensures forall i :: 0 <= i < |r| && 'A' <= s[i] <= 'Z' ==> r[i] as int == s[i] as int + 32
    ensures forall i :: 0 <= i < |r| ==> (IsSpace(r[i]) <==> IsSpace(s[i]))
  {
    seq(|s|, i requires 0 <= i < |s| => LowerChar(s[i]))
  }

  /** Python's `s.startswith(p)`. */
  predicate StartsWith(s: string, p: string) {
    p <= s
  }

  predicate IsDigit(c: char) {
    '0' <= c <= '9'
  }

  predicate AllDigits(s: string) {
    forall i :: 0 <= i < |s| ==> IsDigit(s[i])
  }

  function DigitValue(c: char): nat
    requires IsDigit(c)
  {
    c as int - '0' as int
  }

  /** The value of a decimal numeral. */
  function DigitsValue(s: string): nat
    requires AllDigits(s)
  {
    if s == [] then 0 else 10 * DigitsValue(s[..|s| - 1]) + DigitValue(s[|s| - 1])
  }

  /** The most digits `int()` converts from a string: Python's default
      integer string conversion length limit (`sys.int_info.default_max_str_digits`). */
  const MaxStrDigits := 4300

  /** A run of one to `MaxStrDigits` decimal digits. */
  predicate Numeral(d: string) {
    d != [] && AllDigits(d) && |d| <= MaxStrDigits
  }

  /** Python's `int(token)` on a whitespace-free token: an optional sign and
      one to `MaxStrDigits` decimal digits; anything else raises ValueError
      (None), a longer numeral included. */
  function ParseInt(s: string): (r: Option<int>)
    ensures r.Some? <==> (s != [] && AllDigits(s) && |s| <= MaxStrDigits)
                         || (|s| > 1 && (s[0] == '+' || s[0] == '-') && AllDigits(s[1..])
                             && |s| - 1 <= MaxStrDigits)
    ensures r.Some? && IsDigit(s[0]) ==> r.value == DigitsValue(s)
    ensures r.Some? && s[0] == '+' ==> r.value == DigitsValue(s[1..])
    ensures r.Some? && s[0] == '-' ==> r.value == -(DigitsValue(s[1..]) as int)
    ensures r.Some? ==> s != [] && NoSpace(s)
  {
    if s != [] && (s[0] == '+' || s[0] == '-') then
      var d := s[1..];
      var v: int := if Numeral(d) then DigitsValue(d) else 0;
      if Numeral(d) then Some(if s[0] == '-' then -v else v)
      else None
    else if Numeral(s) then Some(DigitsValue(s))
    else None
  }

  /** The decimal numeral of `n`, without sign or leading zeros. */
  function Decimal(n: nat): (r: string)
    ensures r != [] && AllDigits(r)
  {
    if n < 10 then [('0' as int + n) as char]
    else Decimal(n / 10) + [('0' as int + n % 10) as char]
  }

  lemma {:induction false} DecimalValue(n: nat)
    ensures DigitsValue(Decimal(n)) == n
  {
    if n >= 10 {
      DecimalValue(n / 10);
      var d := Decimal(n);
      assert d[..|d| - 1] == Decimal(n / 10);
    }
  }

  /** `int()` reads back every numeral `Decimal` writes within the length
      limit, with either sign. */
  lemma ParseIntDecimal(n: nat)
    requires |Decimal(n)| <= MaxStrDigits
    ensures ParseInt(Decimal(n)) == Some(n)
    ensures ParseInt("-" + Decimal(n)) == Some(-(n as int))
    ensures ParseInt("+" + Decimal(n)) == Some(n)
  {
    var d := Decimal(n);
    DecimalValue(n);
    assert Numeral(d);
    assert ("-" + d)[0] == '-' && ("-" + d)[1..] == d;
    assert ("+" + d)[0] == '+' && ("+" + d)[1..] == d;
  }

  /** What `int()` makes of some tokens: leading zeros are read, a lone
      sign, a doubled sign, a trailing sign, a letter or nothing at all is
      a ValueError, and so is a numeral of 4301 digits. */
  lemma ParseIntExamples()
    ensures ParseInt("0080") == Some(80)
    ensures ParseInt("+0") == Some(0)
    ensures ParseInt("-7") == Some(-7)
    ensures ParseInt("") == None
    ensures ParseInt("+") == None
    ensures ParseInt("--1") == None
    ensures ParseInt("1-") == None
    ensures ParseInt("80a") == None
    ensures ParseInt(seq(MaxStrDigits + 1, _ => '1')) == None
  {
    assert DigitsValue("0080") == 80 by {
      assert "0080"[..3] == "008";
      assert "008"[..2] == "00";
      assert "00"[..1] == "0";
      assert "0"[..0] == "";
    }
    assert "+0"[1..] == "0" && "0"[..0] == "";
    assert "-7"[1..] == "7" && "7"[..0] == "";
    assert !IsDigit("--1"[1..][0]);
    assert !IsDigit("1-"[1]);
    assert !IsDigit("80a"[2]);
  }

  /** `SecondField` ends at the first later position where the separator
      starts, even when that occurrence overlaps the next one. */
  lemma SecondFieldOverlap()
    ensures MatchAt("aaxaaa", "aa", 0) && SecondField("aaxaaa", "aa") == "x"
  {
    var s, sep := "aaxaaa", "aa";
    assert MatchAt(s, sep, 0) by { assert s[0..2] == sep; }
    assert MatchAt(s, sep, 3) by { assert s[3..5] == sep; }
    assert !MatchAt(s, sep, 2) by { assert s[2..4][0] == 'x'; }
    assert "x" == s[2..3];
    SecondFieldIsField(s, sep, 0, "x");
  }

  /** `Contains` is Python's substring test: `p in s` exactly when `s` is
      some text, then `p`, then some text. */
  lemma ContainsIsSubstring(s: string, p: string)
    ensures Contains(s, p) <==> exists a: string, b: string :: s == a + p + b
  {
    if Contains(s, p) {
      var j :| 0 <= j <= |s| && MatchAt(s, p, j);
      assert s == s[..j] + p + s[j + |p|..];
    }
    if exists a: string, b: string :: s == a + p + b {
      var a: string, b: string :| s == a + p + b;
      assert s[|a|..|a| + |p|] == p;
      assert MatchAt(s, p, |a|);
    }
  }

  /** `StartsWith` is Python's prefix test. */
  lemma StartsWithIsPrefix(s: string, p: string)
    ensures StartsWith(s, p) <==> exists t: string :: s == p + t
  {
    if StartsWith(s, p) {
      assert s == p + s[|p|..];
    }
  }

  /** Printable ASCII text other than the blank holds no whitespace. */
  lemma PrintableNoSpace(s: string)
    requires forall i :: 0 <= i < |s| ==> '!' <= s[i] <= '~'
    ensures NoSpace(s)
  {
  }
}
