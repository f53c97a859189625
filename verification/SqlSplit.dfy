/**
 * Splitting a SQLite script into statements at the semicolons outside quotes,
 * comments and trigger bodies.
 */
module SqlSplit {
  import opened SqlText
  import opened Texts

  // ---------------------------------------------------------------- Where a piece is cut

  /** The word TRIGGER, in any case, with a word boundary on both sides. */
  predicate HasTrigger(s: string) {
    exists k :: 0 <= k <= |s| - 7 && TriggerAt(s, k)
  }

  predicate TriggerAt(s: string, k: int)
    requires 0 <= k <= |s| - 7
  {
    && Upper(s[k..k + 7]) == "TRIGGER"
    && (k == 0 || !IsWordChar(s[k - 1]))
    && (k + 7 == |s| || !IsWordChar(s[k + 7]))
  }

  /** BEGIN … END nesting after a word, given the piece up to that word. */
  function DepthAfterWord(piece: string, word: string, depth: nat): nat {
    if Upper(word) == "BEGIN" && HasTrigger(piece) then depth + 1
    else if Upper(word) == "END" && depth > 0 then depth - 1
    else depth
  }

  function DepthAfter(s: string, i: nat, depth: nat): nat
    requires i < |s|
  {
    if IsWord(s, i) then DepthAfterWord(s[..i], s[i..TokenEnd(s, i)], depth) else depth
  }

  /** The first semicolon at depth 0 that is a token of its own, from the token at i on; |s| if there is none. */
  function Cut(s: string, i: nat, depth: nat): (c: nat)
    requires i <= |s|
    ensures i <= c <= |s| && (c < |s| ==> s[c] == ';')
    decreases |s| - i
  {
    if i == |s| then i
    else if s[i] == ';' && depth == 0 then i
    else Cut(s, TokenEnd(s, i), DepthAfter(s, i, depth))
  }

  function Pieces(s: string): (ps: seq<string>)
    ensures ps != []
    decreases |s|
  {
    var c := Cut(s, 0, 0);
    if c == |s| then [s] else [s[..c]] + Pieces(s[c + 1..])
  }

  // ---------------------------------------------------------------- Statements

  /** What is left of a statement without its comments, as the source's pattern strips them: quotes count for nothing. */
  function StripComments(s: string, i: nat): string
    requires i <= |s|
    decreases |s| - i
  {
    if i == |s| then []
    else if At(s, i, "--") then StripComments(s, LineEnd(s, i + 2))
    else if At(s, i, "/*") && Closes(s, i + 2) then StripComments(s, BlockEnd(s, i + 2))
    else [s[i]] + StripComments(s, i + 1)
  }

  /** An end of comment follows. */
  predicate Closes(s: string, j: nat)
    requires j <= |s|
    decreases |s| - j
  {
    j < |s| && (At(s, j, "*/") || Closes(s, j + 1))
  }

  predicate Says(statement: string) {
    Trim(StripComments(statement, 0)) != []
  }

  function Kept(pieces: seq<string>): seq<string> {
    if pieces == [] then []
    else (if Says(Trim(pieces[0])) then [Trim(pieces[0])] else []) + Kept(pieces[1..])
  }

  function Split(script: string): seq<string> {
    Kept(Pieces(script))
  }

  // ---------------------------------------------------------------- Cuts are local

  lemma {:induction false} CutAgrees(s: string, t: string, i: nat, depth: nat)
    requires i <= |s| && Cut(s, i, depth) < |s|
    requires Agree(s, t, Cut(s, i, depth))
    ensures i <= |t| && Cut(t, i, depth) == Cut(s, i, depth)
    decreases |s| - i
  {
    var c := Cut(s, i, depth);
    assert s[i] == s[..c + 1][i] == t[i];
    if !(s[i] == ';' && depth == 0) {
      TokenAgrees(s, t, c, i);
      DepthAgrees(s, t, c, i, depth);
      CutAgrees(s, t, TokenEnd(s, i), DepthAfter(s, i, depth));
    }
  }

  lemma DepthAgrees(s: string, t: string, c: nat, i: nat, depth: nat)
    requires Agree(s, t, c) && i < |s| && TokenEnd(s, i) <= c
    ensures i < |t| && DepthAfter(t, i, depth) == DepthAfter(s, i, depth)
  {
    TokenAgrees(s, t, c, i);
    var e := TokenEnd(s, i);
    assert s[..i] == s[..c + 1][..i] && t[..i] == t[..c + 1][..i];
    assert s[i..e] == s[..c + 1][i..e] && t[i..e] == t[..c + 1][i..e];
  }

  /** The text scans to its end without a cut. */
  ghost predicate Solid(p: string) {
    Cut(p, 0, 0) == |p|
  }

  /** A semicolon right after the text is a cut: no token is left open, no trigger body either. */
  ghost predicate Closed(p: string) {
    Cut(p + ";", 0, 0) == |p|
  }

  /** A text that is not cut is not cut when it is shortened. */
  lemma {:induction false} PrefixSolid(t: string, w: string, i: nat, depth: nat)
    requires i <= |t| <= Cut(t + w, i, depth)
    ensures Cut(t, i, depth) == |t|
    decreases |t| - i
  {
    var s := t + w;
    if i < |t| {
      assert t[i] == s[i];
      var e := TokenEnd(t, i);
      if e < |t| {
        assert t[..e + 1] == s[..e + 1];
        TokenAgrees(t, s, e, i);
        DepthAgrees(t, s, e, i, depth);
        PrefixSolid(t, w, e, DepthAfter(t, i, depth));
      }
    }
  }

  lemma ClosedIsSolid(p: string)
    requires Closed(p)
    ensures Solid(p)
  {
    PrefixSolid(p, ";", 0, 0);
  }

  // ---------------------------------------------------------------- Nothing is lost, and the cuts are the only ones

  /** Every piece but the last can be followed by a cut, and no piece holds one. */
  ghost predicate WellCut(ps: seq<string>) {
    && ps != []
    && (forall k :: 0 <= k < |ps| - 1 ==> Closed(ps[k]))
    && Solid(ps[|ps| - 1])
  }

  /** The script is its pieces joined by the semicolons it was cut at. */
  lemma {:induction false} NothingLost(s: string)
    ensures Join(Pieces(s), ";") == s && WellCut(Pieces(s))
    decreases |s|
  {
    var c := Cut(s, 0, 0);
    if c < |s| {
      var p, rest := s[..c], s[c + 1..];
      NothingLost(rest);
      assert s == p + ";" + rest;
      assert (p + ";")[..c + 1] == s[..c + 1];
      CutAgrees(s, p + ";", 0, 0);
      var ps := Pieces(rest);
      assert ([p] + ps)[1..] == ps;
    }
  }

  /** No other list of pieces will do. */
  lemma {:induction false} PiecesAreTheOnlyCut(ps: seq<string>)
    requires WellCut(ps)
    ensures Pieces(Join(ps, ";")) == ps
    decreases |ps|
  {
    if |ps| > 1 {
      var p, rest := ps[0], Join(ps[1..], ";");
      var s := Join(ps, ";");
      assert s == p + ";" + rest;
      assert (p + ";")[..|p| + 1] == s[..|p| + 1];
      CutAgrees(p + ";", s, 0, 0);
      assert s[..|p|] == p && s[|p| + 1..] == rest;
      PiecesAreTheOnlyCut(ps[1..]);
      assert ps == [p] + ps[1..];
    }
  }

  // ---------------------------------------------------------------- White space around a piece changes nothing

  lemma {:induction false} SpacesAreSkipped(w: string, s: string, i: nat)
    requires AllSpace(w) && i <= |w|
    ensures Cut(w + s, i, 0) == Cut(w + s, |w|, 0)
    decreases |w| - i
  {
    if i < |w| {
      OneCharToken(w + s, i);
      SpacesAreSkipped(w, s, i + 1);
    }
  }

  lemma TriggerAfterSpace(w: string, s: string)
    requires AllSpace(w)
    ensures HasTrigger(w + s) <==> HasTrigger(s)
  {
    if HasTrigger(s) {
      var k :| 0 <= k <= |s| - 7 && TriggerAt(s, k);
      assert (w + s)[|w| + k..|w| + k + 7] == s[k..k + 7];
      assert TriggerAt(w + s, |w| + k);
    }
    if HasTrigger(w + s) {
      var k :| 0 <= k <= |w + s| - 7 && TriggerAt(w + s, k);
      var first := (w + s)[k];
      assert Upper((w + s)[k..k + 7])[0] == "TRIGGER"[0];
      assert k < |w| ==> IsSpace(first);
      assert (w + s)[k..k + 7] == s[k - |w|..k - |w| + 7];
      assert TriggerAt(s, k - |w|);
    }
  }

  lemma DepthShifts(w: string, s: string, i: nat, depth: nat)
    requires AllSpace(w) && i < |s|
    ensures DepthAfter(w + s, |w| + i, depth) == DepthAfter(s, i, depth)
  {
    TokenShifts(w, s, i);
    if IsWord(s, i) {
      var e := TokenEnd(s, i);
      TriggerAfterSpace(w, s[..i]);
      assert (w + s)[..|w| + i] == w + s[..i];
      assert (w + s)[|w| + i..|w| + e] == s[i..e];
    }
  }

  lemma {:induction false} CutShifts(w: string, s: string, i: nat, depth: nat)
    requires AllSpace(w) && i <= |s|
    ensures Cut(w + s, |w| + i, depth) == |w| + Cut(s, i, depth)
    decreases |s| - i
  {
    if i < |s| {
      var c := s[i];
      assert (w + s)[|w| + i] == c;
      if !(c == ';' && depth == 0) {
        TokenShifts(w, s, i);
        DepthShifts(w, s, i, depth);
        CutShifts(w, s, TokenEnd(s, i), DepthAfter(s, i, depth));
      }
    }
  }

  lemma SpaceBefore(w: string, s: string)
    requires AllSpace(w)
    ensures Solid(w + s) <==> Solid(s)
    ensures Closed(w + s) <==> Closed(s)
  {
    hide Cut, AllSpace;
    SpacesAreSkipped(w, s, 0);
    CutShifts(w, s, 0, 0);
    assert (w + s) + ";" == w + (s + ";");
    SpacesAreSkipped(w, s + ";", 0);
    CutShifts(w, s + ";", 0, 0);
  }

  lemma {:induction false} DepthAtCut(t: string, w: string, i: nat, depth: nat)
    requires AllSpace(w) && |t| <= i <= |t + w| && Cut(AsCut(t, w), i, depth) == |t + w|
    ensures depth == 0
    decreases |t + w| - i
  {
    var u := AsCut(t, w);
    OneCharToken(u, i);
    if i < |t + w| {
      DepthAtCut(t, w, i + 1, depth);
    }
  }

  lemma {:induction false} CutAtEdge(t: string, w: string, i: nat, depth: nat)
    requires AllSpace(w) && i <= |t| && Cut(AsCut(t, w), i, depth) == |t + w|
    ensures Cut(AsJoined(t), i, depth) == |t| + 1
    decreases |t| - i
  {
    var u, v := AsCut(t, w), AsJoined(t);
    if i == |t| {
      DepthAtCut(t, w, i, depth);
      LineBreakThenCut(t);
    } else {
      assert u[i] == t[i] == v[i];
      var e := TokenEnd(u, i);
      TokenAtEdge(t, w, i);
      assert u[..i] == t[..i] == v[..i];
      if e <= |t| { assert u[i..e] == t[i..e] == v[i..e]; }
      assert DepthAfter(u, i, depth) == DepthAfter(v, i, depth);
      if e <= |t| {
        CutAtEdge(t, w, e, DepthAfter(u, i, depth));
      } else {
        DepthAtCut(t, w, e, DepthAfter(u, i, depth));
        LineBreakThenCut(t);
      }
    }
  }

  lemma LineBreakThenCut(t: string)
    ensures Cut(AsJoined(t), |t|, 0) == |t| + 1
  {
    var v := AsJoined(t);
    assert v[|t|] == '\n' && v[|t| + 1] == ';';
    OneCharToken(v, |t|);
  }

  /** Trailing white space can be traded for one line break (which also ends a line comment). */
  lemma SpaceAfter(t: string, w: string)
    requires AllSpace(w) && Closed(t + w)
    ensures Closed(t + "\n")
  {
    CutAtEdge(t, w, 0, 0);
    assert t + "\n" + ";" == AsJoined(t);
  }

  // ---------------------------------------------------------------- Re-joining undoes splitting

  /** Statements that can stand in a script one after the other. */
  ghost predicate Rejoinable(ts: seq<string>) {
    && (forall k :: 0 <= k < |ts| ==> Trimmed(ts[k]) && Says(ts[k]) && Solid(ts[k]))
    && (forall k :: 0 <= k < |ts| - 1 ==> Closed(ts[k] + "\n"))
  }

  lemma TrimmedPiece(p: string)
    requires Solid(p)
    ensures Trimmed(Trim(p)) && Solid(Trim(p))
    ensures Closed(p) ==> Closed(Trim(p) + "\n")
  {
    var left, right := TrimSplits(p);
    var t := Trim(p);
    assert p == left + (t + right);
    SpaceBefore(left, t + right);
    PrefixSolid(t, right, 0, 0);
    if Closed(p) { SpaceAfter(t, right); }
  }

  lemma {:induction false} KeptIsRejoinable(ps: seq<string>)
    requires WellCut(ps)
    ensures Rejoinable(Kept(ps))
    decreases |ps|
  {
    if |ps| > 1 { ClosedIsSolid(ps[0]); }
    TrimmedPiece(ps[0]);
    if |ps| > 1 {
      KeptIsRejoinable(ps[1..]);
    } else {
      assert Kept(ps[1..]) == [];
    }
  }

  /** The pieces of the re-joined script. */
  ghost function Padded(lead: string, ts: seq<string>): seq<string>
    decreases |ts|
  {
    if |ts| <= 1 then [lead + if ts == [] then "" else ts[0]]
    else [lead + ts[0] + "\n"] + Padded("\n", ts[1..])
  }

  lemma {:induction false} PaddedJoin(lead: string, ts: seq<string>)
    ensures Join(Padded(lead, ts), ";") == lead + Join(ts, "\n;\n")
    decreases |ts|
  {
    if |ts| > 1 {
      PaddedJoin("\n", ts[1..]);
      assert Padded(lead, ts)[1..] == Padded("\n", ts[1..]);
      assert lead + ts[0] + "\n" + ";" + ("\n" + Join(ts[1..], "\n;\n")) == lead + (ts[0] + "\n;\n" + Join(ts[1..], "\n;\n"));
    }
  }

  lemma PaddedPiece(lead: string, t: string)
    requires AllSpace(lead) && Trimmed(t)
    ensures Solid(t) ==> Solid(lead + t) && Trim(lead + t) == t
    ensures Closed(t + "\n") ==> Closed(lead + t + "\n") && Trim(lead + t + "\n") == t
  {
    SpaceBefore(lead, t);
    assert lead + t == lead + t + "";
    TrimFinds(lead, t, "");
    assert lead + t + "\n" == lead + (t + "\n");
    SpaceBefore(lead, t + "\n");
    TrimFinds(lead, t, "\n");
  }

  lemma {:induction false} PaddedIsWellCut(lead: string, ts: seq<string>)
    requires AllSpace(lead) && ts != [] && Rejoinable(ts)
    ensures WellCut(Padded(lead, ts)) && Kept(Padded(lead, ts)) == ts
    decreases |ts|
  {
    hide Cut, Trim, Says;
    PaddedPiece(lead, ts[0]);
    var tail := Padded(lead, ts)[1..];
    if |ts| == 1 {
      assert tail == [];
    } else {
      PaddedIsWellCut("\n", ts[1..]);
      assert tail == Padded("\n", ts[1..]);
    }
  }

  /** Splitting the re-joined statements gives the same statements, whatever the script. */
  lemma RejoinSplits(script: string)
    ensures Split(Join(Split(script), "\n;\n")) == Split(script)
  {
    NothingLost(script);
    KeptIsRejoinable(Pieces(script));
    RejoinableSplits(Split(script));
  }

  lemma EmptyScript()
    ensures Split("") == []
  {
    assert Pieces("") == [""];
    assert Kept([""][1..]) == [];
  }

  lemma PiecesOfRejoined(ts: seq<string>)
    requires Rejoinable(ts) && ts != []
    ensures Pieces(Join(ts, "\n;\n")) == Padded("", ts) && Kept(Padded("", ts)) == ts
  {
    hide Cut, Pieces, Kept;
    PaddedIsWellCut("", ts);
    PaddedJoin("", ts);
    var joined := Join(ts, "\n;\n");
    assert "" + joined == joined;
    PiecesAreTheOnlyCut(Padded("", ts));
  }

  lemma RejoinableSplits(ts: seq<string>)
    requires Rejoinable(ts)
    ensures Split(Join(ts, "\n;\n")) == ts
  {
    if ts == [] {
      EmptyScript();
    } else {
      PiecesOfRejoined(ts);
    }
  }

  /** A returned statement is one statement. */
  lemma StatementIsWhole(script: string, k: nat)
    requires k < |Split(script)|
    ensures Split(Split(script)[k]) == [Split(script)[k]]
  {
    NothingLost(script);
    KeptIsRejoinable(Pieces(script));
    RejoinableSplits([Split(script)[k]]);
  }

  // ---------------------------------------------------------------- Which pieces are dropped

  /** Nothing but white space and complete comments, token by token. */
  ghost predicate Silent(s: string, i: nat)
    requires i <= |s|
    decreases |s| - i
  {
    || i == |s|
    || (&& (IsSpace(s[i]) || At(s, i, "--") || (At(s, i, "/*") && Closes(s, i + 2)))
        && Silent(s, TokenEnd(s, i)))
  }

  lemma TrimOfSpace(s: string)
    ensures Trim(s) == [] <==> AllSpace(s)
  {
    var left, right := TrimSplits(s);
    if AllSpace(s) {
      assert s == s + [] + [];
      TrimFinds(s, [], []);
    }
  }

  lemma {:induction false} SilentStrip(s: string, i: nat)
    requires i <= |s|
    ensures AllSpace(StripComments(s, i)) <==> Silent(s, i)
    decreases |s| - i
  {
    if i < |s| {
      AtStarts(s, i, "--");
      AtStarts(s, i, "/*");
      if At(s, i, "--") || (At(s, i, "/*") && Closes(s, i + 2)) {
        SilentStrip(s, TokenEnd(s, i));
      } else {
        var rest := StripComments(s, i + 1);
        assert StripComments(s, i) == [s[i]] + rest;
        assert AllSpace([s[i]] + rest) <==> IsSpace(s[i]) && AllSpace(rest) by {
          assert ([s[i]] + rest)[0] == s[i] && forall k :: 0 <= k < |rest| ==> ([s[i]] + rest)[k + 1] == rest[k];
        }
        if IsSpace(s[i]) {
          OneCharToken(s, i);
          SilentStrip(s, i + 1);
        }
      }
    }
  }

  /** Stripping comments without regard to quotes still drops exactly the statements that are only comments. */
  lemma DroppedMeansOnlyComments(s: string)
    ensures Says(s) <==> !Silent(s, 0)
  {
    SilentStrip(s, 0);
    TrimOfSpace(StripComments(s, 0));
  }

  // ---------------------------------------------------------------- The scanner

  /** The statements so far, then those of what is left from the start of the current piece. */
  ghost predicate Scanned(script: string, statements: seq<string>, from: nat, at: nat, depth: nat, current: string) {
    && from <= at <= |script|
    && current == script[from..at]
    && Split(script) == statements + Kept(Pieces(script[from..]))
    && Cut(script[from..], 0, 0) == Cut(script[from..], at - from, depth)
  }

  /** A token is the same in the script and in the piece that starts at `from`. */
  lemma TokenOfPiece(script: string, from: nat, i: nat)
    requires from <= i < |script|
    ensures var rest := script[from..];
            && TokenEnd(rest, i - from) == TokenEnd(script, i) - from
            && IsWord(rest, i - from) == IsWord(script, i)
  {
    assert script == script[..from] + script[from..];
    TokenShifts(script[..from], script[from..], i - from);
  }

  lemma DepthOfPiece(script: string, from: nat, i: nat, depth: nat)
    requires from <= i < |script|
    ensures DepthAfter(script[from..], i - from, depth)
         == if IsWord(script, i) then DepthAfterWord(script[from..i], script[i..TokenEnd(script, i)], depth) else depth
  {
    TokenOfPiece(script, from, i);
    var rest, e := script[from..], TokenEnd(script, i);
    assert rest[..i - from] == script[from..i];
    assert rest[i - from..e - from] == script[i..e];
  }

  /** One turn of the scanner: a token is taken over whole. */
  lemma TokenDone(script: string, statements: seq<string>, from: nat, i: nat, depth: nat, current: string)
    requires i < |script| && !(script[i] == ';' && depth == 0)
    requires Scanned(script, statements, from, i, depth, current)
    ensures var e := TokenEnd(script, i);
            var depth' := if IsWord(script, i) then DepthAfterWord(current, script[i..e], depth) else depth;
            Scanned(script, statements, from, e, depth', current + script[i..e])
  {
    TokenOfPiece(script, from, i);
    DepthOfPiece(script, from, i, depth);
    assert script[from..][i - from] == script[i];
    assert current + script[i..TokenEnd(script, i)] == script[from..TokenEnd(script, i)];
  }

  function WithStatement(statements: seq<string>, piece: string): seq<string> {
    statements + if Says(Trim(piece)) then [Trim(piece)] else []
  }

  lemma CutHere(s: string, i: nat)
    requires i < |s| && s[i] == ';'
    ensures Cut(s, i, 0) == i
  {
  }

  /** The statements of a script whose first cut is at c. */
  lemma SplitAtCut(s: string, c: nat, statements: seq<string>)
    requires c < |s| && Cut(s, 0, 0) == c
    ensures statements + Kept(Pieces(s)) == WithStatement(statements, s[..c]) + Kept(Pieces(s[c + 1..]))
  {
    hide Says, Trim, Cut;
    var p, ps := s[..c], Pieces(s[c + 1..]);
    assert Pieces(s) == [p] + ps && ([p] + ps)[1..] == ps;
    var kept := if Says(Trim(p)) then [Trim(p)] else [];
    assert Kept([p] + ps) == kept + Kept(ps);
    assert statements + (kept + Kept(ps)) == (statements + kept) + Kept(ps);
  }

  lemma PieceCut(script: string, statements: seq<string>, from: nat, i: nat, current: string)
    requires Scanned(script, statements, from, i, 0, current) && i < |script| && script[i] == ';'
    ensures Scanned(script, WithStatement(statements, current), i + 1, i + 1, 0, "")
  {
    CutHere(script[from..], i - from);
    SplitAtCut(script[from..], i - from, statements);
    hide Says, Trim, Cut, Pieces, Kept;
    assert script[from..][..i - from] == current && script[from..][i - from + 1..] == script[i + 1..];
  }

  lemma LastPiece(script: string, statements: seq<string>, from: nat, depth: nat, current: string)
    requires Scanned(script, statements, from, |script|, depth, current)
    ensures Split(script) == WithStatement(statements, current)
  {
    assert script[from..] == current && Pieces(current) == [current];
    assert Kept([current][1..]) == [];
  }

  /** To the quote that closes a token, or the end of the script; a doubled quote is one inside it. */
  method SkipQuoted(script: string, start: nat, close: char) returns (end: nat)
    requires start <= |script|
    ensures start <= end <= |script| && QuoteEnd(script, start, close) == if end < |script| then end + 1 else end
  {
    end := start;
    while end < |script|
      invariant start <= end <= |script| && QuoteEnd(script, end, close) == QuoteEnd(script, start, close)
    {
      if script[end] == close {
        if close != ']' && end + 1 < |script| && script[end + 1] == close {
          end := end + 2;
        } else {
          break;
        }
      } else {
        end := end + 1;
      }
    }
  }

  /** Takes over the token at i: everything the loop does except cutting. */
  method ScanToken(script: string, i: nat, depth: nat, current: string)
    returns (i': nat, depth': nat, current': string)
    requires i < |script| && !(script[i] == ';' && depth == 0)
    ensures TokenEnd(script, i) == if i' < |script| then i' else |script|
    ensures current' == current + script[i..TokenEnd(script, i)]
    ensures depth' == if IsWord(script, i) then DepthAfterWord(current, script[i..TokenEnd(script, i)], depth) else depth
  {
    var c := script[i];
    depth' := depth;
    if IsQuote(c) {
      var close := CloseOf(c);
      var end := SkipQuoted(script, i + 1, close);
      current' := current + script[i..if end < |script| then end + 1 else end];
      i' := end + 1;
    } else if At(script, i, "--") {
      var stop := LineEnd(script, i + 2);
      current' := current + script[i..stop];
      i' := stop;
    } else if At(script, i, "/*") {
      var stop := BlockEnd(script, i + 2);
      current' := current + script[i..stop];
      i' := stop;
    } else if IsLetter(c) {
      var word := script[i..WordEnd(script, i + 1)];
      depth' := DepthAfterWord(current, word, depth);
      current' := current + word;
      i' := i + |word|;
    } else {
      current' := current + [c];
      i' := i + 1;
    }
  }

  method SplitSql(script: string) returns (statements: seq<string>)
    ensures statements == Split(script)
  {
    hide Says, Trim, TokenEnd, Pieces, Kept;
    statements := [];
    var current, depth, i := "", 0, 0;
    ghost var from := 0;
    assert script[0..] == script;
    while i < |script|
      invariant Scanned(script, statements, from, if i <= |script| then i else |script|, depth, current)
      decreases |script| - i
    {
      if script[i] == ';' && depth == 0 {
        PieceCut(script, statements, from, i, current);
        var statement := Trim(current);
        if Says(statement) {
          statements := statements + [statement];
        }
        current := "";
        i := i + 1;
        from := i;
      } else {
        TokenDone(script, statements, from, i, depth, current);
        i, depth, current := ScanToken(script, i, depth, current);
      }
    }
    LastPiece(script, statements, from, depth, current);
    var statement := Trim(current);
    if Says(statement) {
      statements := statements + [statement];
    }
  }
}
