/**
 * The lexical side of the SQL splitter: white space, quotes, comments and words,
 * and where the token that starts at an index ends.
 */
module SqlText {
  // ---------------------------------------------------------------- Characters

  /** What `trim` removes. */
  predicate IsSpace(c: char) {
    var u := c as int;
    || 0x09 <= u <= 0x0d || u == 0x20 || u == 0xa0 || u == 0x1680 || 0x2000 <= u <= 0x200a
    || u == 0x2028 || u == 0x2029 || u == 0x202f || u == 0x205f || u == 0x3000 || u == 0xfeff
  }

  predicate IsLetter(c: char) {
    'a' <= c <= 'z' || 'A' <= c <= 'Z' || c == '_'
  }

  predicate IsWordChar(c: char) {
    IsLetter(c) || '0' <= c <= '9'
  }

  predicate IsQuote(c: char) {
    c == '\'' || c == '"' || c == '`' || c == '['
  }

  function CloseOf(c: char): char {
    if c == '[' then ']' else c
  }

  function Upper(s: string): string {
    seq(|s|, i requires 0 <= i < |s| => if 'a' <= s[i] <= 'z' then s[i] - 32 as char else s[i])
  }

  predicate At(s: string, i: nat, pattern: string) {
    i + |pattern| <= |s| && s[i..i + |pattern|] == pattern
  }

  // ---------------------------------------------------------------- Trimming

  ghost predicate AllSpace(s: string) {
    forall i :: 0 <= i < |s| ==> IsSpace(s[i])
  }

  ghost predicate Trimmed(s: string) {
    s != [] ==> !IsSpace(s[0]) && !IsSpace(s[|s| - 1])
  }

  function TrimStart(s: string): string {
    if s != [] && IsSpace(s[0]) then TrimStart(s[1..]) else s
  }

  function TrimEnd(s: string): string {
    if s != [] && IsSpace(s[|s| - 1]) then TrimEnd(s[..|s| - 1]) else s
  }

  function Trim(s: string): string {
    TrimEnd(TrimStart(s))
  }

  lemma {:induction false} TrimStartSplits(s: string) returns (w: string)
    ensures AllSpace(w) && s == w + TrimStart(s)
    ensures TrimStart(s) != [] ==> !IsSpace(TrimStart(s)[0])
  {
    if s != [] && IsSpace(s[0]) {
      var w' := TrimStartSplits(s[1..]);
      assert s == [s[0]] + s[1..];
      w := [s[0]] + w';
    } else {
      w := [];
    }
  }

  lemma {:induction false} TrimEndSplits(s: string) returns (w: string)
    ensures AllSpace(w) && s == TrimEnd(s) + w
    ensures TrimEnd(s) != [] ==> !IsSpace(TrimEnd(s)[|TrimEnd(s)| - 1])
  {
    if s != [] && IsSpace(s[|s| - 1]) {
      var w' := TrimEndSplits(s[..|s| - 1]);
      assert s == s[..|s| - 1] + [s[|s| - 1]];
      w := w' + [s[|s| - 1]];
    } else {
      w := [];
    }
  }

  /** A text is its trimmed middle between two runs of white space. */
  lemma TrimSplits(s: string) returns (left: string, right: string)
    ensures AllSpace(left) && AllSpace(right) && s == left + Trim(s) + right
    ensures Trimmed(Trim(s))
  {
    left := TrimStartSplits(s);
    right := TrimEndSplits(TrimStart(s));
    if Trim(s) != [] { assert TrimStart(s)[0] == Trim(s)[0]; }
  }

  lemma {:induction false} TrimStartDrops(w: string, s: string)
    requires AllSpace(w) && (s != [] ==> !IsSpace(s[0]))
    ensures TrimStart(w + s) == s
    decreases |w|
  {
    if w == [] {
      assert w + s == s;
    } else {
      assert (w + s)[1..] == w[1..] + s;
      TrimStartDrops(w[1..], s);
    }
  }

  lemma {:induction false} TrimEndDrops(s: string, w: string)
    requires AllSpace(w) && (s != [] ==> !IsSpace(s[|s| - 1]))
    ensures TrimEnd(s + w) == s
    decreases |w|
  {
    if w == [] {
      assert s + w == s;
    } else {
      assert (s + w)[..|s + w| - 1] == s + w[..|w| - 1];
      TrimEndDrops(s, w[..|w| - 1]);
    }
  }

  /** Trimming finds a trimmed text between any white space. */
  lemma TrimFinds(left: string, s: string, right: string)
    requires AllSpace(left) && AllSpace(right) && Trimmed(s)
    ensures Trim(left + s + right) == s
  {
    if s == [] {
      assert left + s + right == (left + right) + s;
      TrimStartDrops(left + right, s);
    } else {
      assert left + s + right == left + (s + right);
      TrimStartDrops(left, s + right);
      TrimEndDrops(s, right);
    }
  }

  // ---------------------------------------------------------------- Tokens

  /** Past the closing quote, a doubled quote being an escaped one; the end of the text if it never closes. */
  function QuoteEnd(s: string, j: nat, close: char): (e: nat)
    requires j <= |s|
    ensures j <= e <= |s|
    decreases |s| - j
  {
    if j == |s| then j
    else if s[j] == close then
      if close != ']' && j + 1 < |s| && s[j + 1] == close then QuoteEnd(s, j + 2, close) else j + 1
    else QuoteEnd(s, j + 1, close)
  }

  /** The next line break, or the end of the text. */
  function LineEnd(s: string, j: nat): (e: nat)
    requires j <= |s|
    ensures j <= e <= |s|
    decreases |s| - j
  {
    if j == |s| || s[j] == '\n' then j else LineEnd(s, j + 1)
  }

  /** Past the next end of comment, or the end of the text. */
  function BlockEnd(s: string, j: nat): (e: nat)
    requires j <= |s|
    ensures j <= e <= |s|
    decreases |s| - j
  {
    if j == |s| then j else if At(s, j, "*/") then j + 2 else BlockEnd(s, j + 1)
  }

  function WordEnd(s: string, j: nat): (e: nat)
    requires j <= |s|
    ensures j <= e <= |s|
    decreases |s| - j
  {
    if j == |s| || !IsWordChar(s[j]) then j else WordEnd(s, j + 1)
  }

  predicate IsComment(s: string, i: nat) {
    At(s, i, "--") || At(s, i, "/*")
  }

  predicate IsWord(s: string, i: nat)
    requires i < |s|
  {
    !IsQuote(s[i]) && !IsComment(s, i) && IsLetter(s[i])
  }

  function TokenEnd(s: string, i: nat): (e: nat)
    requires i < |s|
    ensures i < e <= |s|
  {
    if IsQuote(s[i]) then QuoteEnd(s, i + 1, CloseOf(s[i]))
    else if At(s, i, "--") then LineEnd(s, i + 2)
    else if At(s, i, "/*") then BlockEnd(s, i + 2)
    else if IsLetter(s[i]) then WordEnd(s, i + 1)
    else i + 1
  }

  /** White space and semicolons are tokens of one character. */
  lemma OneCharToken(s: string, i: nat)
    requires i < |s| && (IsSpace(s[i]) || s[i] == ';')
    ensures TokenEnd(s, i) == i + 1 && !IsWord(s, i)
  {
    AtStarts(s, i, "--");
    AtStarts(s, i, "/*");
  }

  lemma AtStarts(s: string, i: nat, pattern: string)
    requires i < |s| && pattern != []
    ensures At(s, i, pattern) ==> s[i] == pattern[0]
  {
    if At(s, i, pattern) { assert s[i] == s[i..i + |pattern|][0]; }
  }

  // ---------------------------------------------------------------- Tokens look no further than one past their end

  /** s and t agree on the indices up to and including c. */
  ghost predicate Agree(s: string, t: string, c: nat) {
    c < |s| && c < |t| && s[..c + 1] == t[..c + 1]
  }

  lemma {:induction false} QuoteAgrees(s: string, t: string, c: nat, j: nat, close: char)
    requires Agree(s, t, c) && j <= |s| && QuoteEnd(s, j, close) <= c
    ensures QuoteEnd(t, j, close) == QuoteEnd(s, j, close)
    decreases |s| - j
  {
    assert s[j] == s[..c + 1][j] == t[j];
    if s[j] != close {
      QuoteAgrees(s, t, c, j + 1, close);
    } else {
      assert s[j + 1] == s[..c + 1][j + 1] == t[j + 1];
      if close != ']' && s[j + 1] == close { QuoteAgrees(s, t, c, j + 2, close); }
    }
  }

  lemma {:induction false} LineAgrees(s: string, t: string, c: nat, j: nat)
    requires Agree(s, t, c) && j <= |s| && LineEnd(s, j) <= c
    ensures LineEnd(t, j) == LineEnd(s, j)
    decreases |s| - j
  {
    assert s[j] == s[..c + 1][j] == t[j];
    if s[j] != '\n' { LineAgrees(s, t, c, j + 1); }
  }

  lemma {:induction false} BlockAgrees(s: string, t: string, c: nat, j: nat)
    requires Agree(s, t, c) && j <= |s| && BlockEnd(s, j) <= c
    ensures BlockEnd(t, j) == BlockEnd(s, j)
    decreases |s| - j
  {
    AtAgrees(s, t, c, j, "*/");
    if !At(s, j, "*/") { BlockAgrees(s, t, c, j + 1); }
  }

  lemma {:induction false} WordAgrees(s: string, t: string, c: nat, j: nat)
    requires Agree(s, t, c) && j <= |s| && WordEnd(s, j) <= c
    ensures WordEnd(t, j) == WordEnd(s, j)
    decreases |s| - j
  {
    assert s[j] == s[..c + 1][j] == t[j];
    if IsWordChar(s[j]) { WordAgrees(s, t, c, j + 1); }
  }

  lemma AtAgrees(s: string, t: string, c: nat, i: nat, pattern: string)
    requires Agree(s, t, c) && i + |pattern| <= c + 1
    ensures At(s, i, pattern) <==> At(t, i, pattern)
  {
    assert s[i..i + |pattern|] == s[..c + 1][i..i + |pattern|];
    assert t[i..i + |pattern|] == t[..c + 1][i..i + |pattern|];
  }

  /** A token that ends at or before c is the same token in every text that agrees up to c. */
  lemma TokenAgrees(s: string, t: string, c: nat, i: nat)
    requires Agree(s, t, c) && i < |s| && TokenEnd(s, i) <= c
    ensures TokenEnd(t, i) == TokenEnd(s, i) && IsWord(t, i) == IsWord(s, i)
  {
    assert s[i] == s[..c + 1][i] == t[i];
    AtAgrees(s, t, c, i, "--");
    AtAgrees(s, t, c, i, "/*");
    if IsQuote(s[i]) {
      QuoteAgrees(s, t, c, i + 1, CloseOf(s[i]));
    } else if At(s, i, "--") {
      LineAgrees(s, t, c, i + 2);
    } else if At(s, i, "/*") {
      BlockAgrees(s, t, c, i + 2);
    } else if IsLetter(s[i]) {
      WordAgrees(s, t, c, i + 1);
    }
  }

  // ---------------------------------------------------------------- Tokens do not look back

  lemma {:induction false} QuoteShifts(w: string, s: string, j: nat, close: char)
    requires j <= |s|
    ensures QuoteEnd(w + s, |w| + j, close) == |w| + QuoteEnd(s, j, close)
    decreases |s| - j
  {
    if j < |s| {
      if s[j] != close {
        QuoteShifts(w, s, j + 1, close);
      } else if close != ']' && j + 1 < |s| && s[j + 1] == close {
        QuoteShifts(w, s, j + 2, close);
      }
    }
  }

  lemma {:induction false} LineShifts(w: string, s: string, j: nat)
    requires j <= |s|
    ensures LineEnd(w + s, |w| + j) == |w| + LineEnd(s, j)
    decreases |s| - j
  {
    if j < |s| && s[j] != '\n' { LineShifts(w, s, j + 1); }
  }

  lemma {:induction false} BlockShifts(w: string, s: string, j: nat)
    requires j <= |s|
    ensures BlockEnd(w + s, |w| + j) == |w| + BlockEnd(s, j)
    decreases |s| - j
  {
    AtShifts(w, s, j, "*/");
    if j < |s| && !At(s, j, "*/") { BlockShifts(w, s, j + 1); }
  }

  lemma {:induction false} WordShifts(w: string, s: string, j: nat)
    requires j <= |s|
    ensures WordEnd(w + s, |w| + j) == |w| + WordEnd(s, j)
    decreases |s| - j
  {
    if j < |s| && IsWordChar(s[j]) { WordShifts(w, s, j + 1); }
  }

  lemma AtShifts(w: string, s: string, i: nat, pattern: string)
    ensures At(w + s, |w| + i, pattern) <==> At(s, i, pattern)
  {
    if i + |pattern| <= |s| {
      assert (w + s)[|w| + i..|w| + i + |pattern|] == s[i..i + |pattern|];
    }
  }

  lemma TokenShifts(w: string, s: string, i: nat)
    requires i < |s|
    ensures TokenEnd(w + s, |w| + i) == |w| + TokenEnd(s, i)
    ensures IsWord(w + s, |w| + i) == IsWord(s, i)
  {
    AtShifts(w, s, i, "--");
    AtShifts(w, s, i, "/*");
    var c := s[i];
    assert (w + s)[|w| + i] == c;
    if IsQuote(c) {
      QuoteShifts(w, s, i + 1, CloseOf(c));
    } else if At(s, i, "--") {
      LineShifts(w, s, i + 2);
    } else if At(s, i, "/*") {
      BlockShifts(w, s, i + 2);
    } else if IsLetter(c) {
      WordShifts(w, s, i + 1);
    }
  }

  // ---------------------------------------------------------------- Tokens at the edge of trailing white space

  /** A piece up to and including the semicolon it was cut at, with its trailing white space. */
  ghost function AsCut(t: string, w: string): string {
    t + w + ";"
  }

  /** The same piece the way it is joined again. */
  ghost function AsJoined(t: string): string {
    t + "\n;"
  }

  lemma {:induction false} QuoteStaysOpen(t: string, w: string, j: nat, close: char)
    requires AllSpace(w) && |t| <= j <= |AsCut(t, w)| && !IsSpace(close) && close != ';'
    ensures QuoteEnd(AsCut(t, w), j, close) == |AsCut(t, w)|
    decreases |AsCut(t, w)| - j
  {
    if j < |AsCut(t, w)| {
      assert j < |t + w| ==> AsCut(t, w)[j] == w[j - |t|];
      QuoteStaysOpen(t, w, j + 1, close);
    }
  }

  lemma {:induction false} QuoteAtEdge(t: string, w: string, j: nat, close: char)
    requires AllSpace(w) && j <= |t| && !IsSpace(close) && close != ';'
    requires QuoteEnd(AsCut(t, w), j, close) <= |t + w|
    ensures QuoteEnd(AsCut(t, w), j, close) <= |t|
    ensures QuoteEnd(AsJoined(t), j, close) == QuoteEnd(AsCut(t, w), j, close)
    decreases |t| - j
  {
    var u, v := AsCut(t, w), AsJoined(t);
    QuoteStaysOpen(t, w, |t|, close);
    assert j < |t|;
    assert u[j] == t[j] == v[j];
    if t[j] != close {
      QuoteAtEdge(t, w, j + 1, close);
    } else if j + 1 < |t| {
      assert u[j + 1] == t[j + 1] == v[j + 1];
      if close != ']' && t[j + 1] == close { QuoteAtEdge(t, w, j + 2, close); }
    } else {
      assert u[|t|] == if w == [] then ';' else w[0];
    }
  }

  lemma {:induction false} LineAtEdge(t: string, w: string, j: nat)
    requires j <= |t| <= LineEnd(AsCut(t, w), j)
    ensures LineEnd(AsJoined(t), j) == |t|
    decreases |t| - j
  {
    if j < |t| {
      assert AsCut(t, w)[j] == t[j] == AsJoined(t)[j];
      LineAtEdge(t, w, j + 1);
    }
  }

  lemma {:induction false} BlockStaysOpen(t: string, w: string, j: nat)
    requires AllSpace(w) && |t| <= j + 1 && j <= |AsCut(t, w)|
    ensures BlockEnd(AsCut(t, w), j) == |AsCut(t, w)|
    decreases |AsCut(t, w)| - j
  {
    var u := AsCut(t, w);
    if j < |u| {
      if j + 1 < |u| {
        assert u[j + 1] == if j + 1 < |t + w| then w[j + 1 - |t|] else ';';
        assert u[j..j + 2][1] == u[j + 1];
      }
      BlockStaysOpen(t, w, j + 1);
    }
  }

  lemma {:induction false} BlockAtEdge(t: string, w: string, j: nat)
    requires AllSpace(w) && j <= |t|
    requires BlockEnd(AsCut(t, w), j) <= |t + w|
    ensures BlockEnd(AsCut(t, w), j) <= |t|
    ensures BlockEnd(AsJoined(t), j) == BlockEnd(AsCut(t, w), j)
    decreases |t| - j
  {
    var u, v := AsCut(t, w), AsJoined(t);
    if j + 1 >= |t| { BlockStaysOpen(t, w, j); }
    assert j + 1 < |t|;
    assert u[j..j + 2] == t[j..j + 2] == v[j..j + 2];
    if !At(u, j, "*/") { BlockAtEdge(t, w, j + 1); }
  }

  lemma {:induction false} WordAtEdge(t: string, w: string, j: nat)
    requires AllSpace(w) && j <= |t|
    ensures WordEnd(AsCut(t, w), j) <= |t|
    ensures WordEnd(AsJoined(t), j) == WordEnd(AsCut(t, w), j)
    decreases |t| - j
  {
    var u, v := AsCut(t, w), AsJoined(t);
    if j < |t| {
      assert u[j] == t[j] == v[j];
      if IsWordChar(t[j]) { WordAtEdge(t, w, j + 1); }
    } else {
      assert u[|t|] == if w == [] then ';' else w[0];
    }
  }

  lemma PairAtEdge(t: string, w: string, i: nat, pattern: string)
    requires AllSpace(w) && i < |t| && |pattern| == 2 && !IsSpace(pattern[1]) && pattern[1] != ';'
    ensures At(AsCut(t, w), i, pattern) <==> At(t, i, pattern)
    ensures At(AsJoined(t), i, pattern) <==> At(t, i, pattern)
  {
    var u, v := AsCut(t, w), AsJoined(t);
    if i + 2 <= |t| {
      assert u[i..i + 2] == t[i..i + 2] == v[i..i + 2];
    } else {
      assert u[i..i + 2][1] == if w == [] then ';' else w[0];
      assert v[i..i + 2][1] == '\n';
    }
  }

  /** A token that starts in t and ends before the cut ends in t, the same way in both; only a line comment runs into the space. */
  lemma TokenAtEdge(t: string, w: string, i: nat)
    requires AllSpace(w) && i < |t| && TokenEnd(AsCut(t, w), i) <= |t + w|
    ensures var e := TokenEnd(AsCut(t, w), i);
            TokenEnd(AsJoined(t), i) == if e < |t| then e else |t|
    ensures IsWord(AsJoined(t), i) == IsWord(AsCut(t, w), i)
    ensures IsWord(AsCut(t, w), i) ==> TokenEnd(AsCut(t, w), i) <= |t|
  {
    var u, v := AsCut(t, w), AsJoined(t);
    assert u[i] == t[i] == v[i];
    PairAtEdge(t, w, i, "--");
    PairAtEdge(t, w, i, "/*");
    if IsQuote(t[i]) {
      QuoteAtEdge(t, w, i + 1, CloseOf(t[i]));
    } else if At(t, i, "--") {
      if LineEnd(u, i + 2) >= |t| {
        LineAtEdge(t, w, i + 2);
      } else {
        var e := LineEnd(u, i + 2);
        assert u[..e + 1] == v[..e + 1];
        LineAgrees(u, v, e, i + 2);
      }
    } else if At(t, i, "/*") {
      BlockAtEdge(t, w, i + 2);
    } else if IsLetter(t[i]) {
      WordAtEdge(t, w, i + 1);
    }
  }
}
