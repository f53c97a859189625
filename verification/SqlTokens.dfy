/**
 * What the tokens of a script are, said by how each is written, and where a
 * script is cut, said over its tokens.
 */
module SqlTokens {
  import opened SqlSplit
  import opened SqlText
  import opened Texts

  // ---------------------------------------------------------------- How tokens are written

  /** A quoted, bracketed or commented token that is not closed runs to the end of the script. */
  datatype Token =
    | Mark(c: char)
    | Word(text: string)
    | Quoted(quote: char, body: string, closed: bool)
    | Bracketed(body: string, closed: bool)
    | LineComment(text: string)
    | BlockComment(text: string, closed: bool)

  /** The body with every quote in it doubled. */
  ghost function Doubled(quote: char, body: string): string {
    if body == [] then [] else (if body[0] == quote then [quote, quote] else [body[0]]) + Doubled(quote, body[1..])
  }

  ghost function Ending(mark: string, closed: bool): string {
    if closed then mark else []
  }

  ghost function Write(t: Token): string {
    match t
    case Mark(c) => [c]
    case Word(text) => text
    case Quoted(quote, body, closed) => [quote] + (Doubled(quote, body) + Ending([quote], closed))
    case Bracketed(body, closed) => "[" + (body + Ending("]", closed))
    case LineComment(text) => "--" + text
    case BlockComment(text, closed) => "/*" + (text + Ending("*/", closed))
  }

  ghost function WriteAll(ts: seq<Token>): string {
    if ts == [] then [] else Write(ts[0]) + WriteAll(ts[1..])
  }

  ghost predicate Letter(c: char) {
    'a' <= c <= 'z' || 'A' <= c <= 'Z' || c == '_'
  }

  ghost predicate LetterOrDigit(c: char) {
    Letter(c) || '0' <= c <= '9'
  }

  ghost predicate WellWritten(t: Token) {
    match t
    case Mark(c) => !Letter(c) && c !in "'\"`["
    case Word(text) => text != [] && Letter(text[0]) && forall c <- text :: LetterOrDigit(c)
    case Quoted(quote, _, _) => quote in "'\"`"
    case Bracketed(body, _) => ']' !in body
    case LineComment(text) => '\n' !in text
    case BlockComment(text, _) => forall k :: 0 < k < |text| ==> !(text[k - 1] == '*' && text[k] == '/')
  }

  /** The token ends where the rest of the script starts. */
  ghost predicate EndsBefore(t: Token, rest: string) {
    match t
    case Mark(c) => rest != [] ==> !(c == '-' == rest[0]) && !(c == '/' && rest[0] == '*')
    case Word(_) => rest != [] ==> !LetterOrDigit(rest[0])
    case Quoted(quote, _, closed) => rest != [] ==> closed && rest[0] != quote
    case Bracketed(_, closed) => rest != [] ==> closed
    case LineComment(_) => rest != [] ==> rest[0] == '\n'
    case BlockComment(_, closed) => rest != [] ==> closed
  }

  ghost predicate Readable(ts: seq<Token>) {
    ts != [] ==> WellWritten(ts[0]) && EndsBefore(ts[0], WriteAll(ts[1..])) && Readable(ts[1..])
  }

  // ---------------------------------------------------------------- The scanner takes a token as it was written

  lemma QuoteStep(c: char, s: string, quote: char)
    requires c != quote
    ensures QuoteEnd([c] + s, 0, quote) == 1 + QuoteEnd(s, 0, quote)
  {
    assert ([c] + s)[0] == c;
    QuoteShifts([c], s, 0, quote);
  }

  lemma QuoteSkipsTwo(s: string, quote: char)
    requires quote != ']'
    ensures QuoteEnd([quote, quote] + s, 0, quote) == 2 + QuoteEnd(s, 0, quote)
  {
    var t := [quote, quote] + s;
    assert t[0] == quote && t[1] == quote;
    QuoteShifts([quote, quote], s, 0, quote);
  }

  lemma {:induction false} QuotedEnds(quote: char, body: string, closed: bool, rest: string)
    requires quote != ']' && (rest != [] ==> closed && rest[0] != quote)
    ensures QuoteEnd(Doubled(quote, body) + (Ending([quote], closed) + rest), 0, quote)
         == |Doubled(quote, body)| + |Ending([quote], closed)|
    decreases |body|
  {
    var tail := Ending([quote], closed) + rest;
    if body == [] {
      assert Doubled(quote, body) + tail == tail;
    } else {
      hide QuoteEnd;
      var inside := Doubled(quote, body[1..]);
      QuotedEnds(quote, body[1..], closed, rest);
      if body[0] == quote {
        Regroup([quote, quote], inside, tail);
        QuoteSkipsTwo(inside + tail, quote);
      } else {
        Regroup([body[0]], inside, tail);
        QuoteStep(body[0], inside + tail, quote);
      }
    }
  }

  lemma {:induction false} BracketedEnds(body: string, closed: bool, rest: string)
    requires ']' !in body && (rest != [] ==> closed)
    ensures QuoteEnd(body + (Ending("]", closed) + rest), 0, ']') == |body| + |Ending("]", closed)|
    decreases |body|
  {
    var tail := Ending("]", closed) + rest;
    if body == [] {
      assert body + tail == tail;
    } else {
      BracketedEnds(body[1..], closed, rest);
      Regroup([body[0]], body[1..], tail);
      assert body == [body[0]] + body[1..];
      QuoteStep(body[0], body[1..] + tail, ']');
    }
  }

  lemma AtTwo(s: string, pattern: string)
    requires |pattern| == 2
    ensures At(s, 0, pattern) <==> |s| >= 2 && s[0] == pattern[0] && s[1] == pattern[1]
  {
    if |s| >= 2 { assert s[0..2] == [s[0], s[1]]; }
    assert pattern == [pattern[0], pattern[1]];
  }

  lemma {:induction false} LineEnds(text: string, rest: string)
    requires '\n' !in text && (rest != [] ==> rest[0] == '\n')
    ensures LineEnd(text + rest, 0) == |text|
    decreases |text|
  {
    if text != [] {
      LineEnds(text[1..], rest);
      assert text + rest == [text[0]] + (text[1..] + rest);
      LineShifts([text[0]], text[1..] + rest, 0);
    }
  }

  lemma BlockStep(c: char, s: string)
    requires c == '*' ==> s != [] && s[0] != '/'
    ensures BlockEnd([c] + s, 0) == 1 + BlockEnd(s, 0)
  {
    AtTwo([c] + s, "*/");
    BlockShifts([c], s, 0);
  }

  lemma {:induction false} BlockEnds(text: string, closed: bool, rest: string)
    requires WellWritten(BlockComment(text, closed)) && (rest != [] ==> closed)
    ensures BlockEnd(text + (Ending("*/", closed) + rest), 0) == |text| + |Ending("*/", closed)|
    decreases |text|
  {
    var tail := Ending("*/", closed) + rest;
    if text == [] {
      assert text + tail == tail;
      AtTwo(tail, "*/");
    } else if text == "*" && !closed {
      assert text + tail == "*";
      assert !At("*", 0, "*/") && BlockEnd("*", 1) == 1;
    } else {
      hide BlockEnd;
      BlockEnds(text[1..], closed, rest);
      Regroup([text[0]], text[1..], tail);
      assert text == [text[0]] + text[1..];
      BlockStep(text[0], text[1..] + tail);
    }
  }

  lemma {:induction false} WordEnds(text: string, rest: string)
    requires (forall c <- text :: LetterOrDigit(c)) && (rest != [] ==> !LetterOrDigit(rest[0]))
    ensures WordEnd(text + rest, 0) == |text|
    decreases |text|
  {
    if text != [] {
      assert text[0] in text;
      WordEnds(text[1..], rest);
      assert text + rest == [text[0]] + (text[1..] + rest);
      WordShifts([text[0]], text[1..] + rest, 0);
    }
  }

  lemma WordStarts(text: string, rest: string)
    requires text != [] && IsWordChar(text[0])
    ensures WordEnd(text + rest, 1) == WordEnd(text + rest, 0)
  {
  }

  /** The first characters decide the kind of the token. */
  lemma TokenStarts(s: string)
    requires s != []
    ensures s[0] in "'\"`" ==> TokenEnd(s, 0) == QuoteEnd(s, 1, s[0]) && !IsWord(s, 0)
    ensures s[0] == '[' ==> TokenEnd(s, 0) == QuoteEnd(s, 1, ']') && !IsWord(s, 0)
    ensures |s| >= 2 && s[0] == '-' && s[1] == '-' ==> TokenEnd(s, 0) == LineEnd(s, 2) && !IsWord(s, 0)
    ensures |s| >= 2 && s[0] == '/' && s[1] == '*' ==> TokenEnd(s, 0) == BlockEnd(s, 2) && !IsWord(s, 0)
    ensures Letter(s[0]) ==> TokenEnd(s, 0) == WordEnd(s, 1) && IsWord(s, 0)
  {
    AtTwo(s, "--");
    AtTwo(s, "/*");
  }

  lemma MarkStarts(c: char, rest: string)
    requires WellWritten(Mark(c)) && EndsBefore(Mark(c), rest)
    ensures TokenEnd([c] + rest, 0) == 1 && !IsWord([c] + rest, 0)
  {
    AtTwo([c] + rest, "--");
    AtTwo([c] + rest, "/*");
  }

  lemma QuotedStarts(quote: char, body: string, closed: bool, rest: string)
    requires quote in "'\"`" && EndsBefore(Quoted(quote, body, closed), rest)
    ensures TokenEnd(Write(Quoted(quote, body, closed)) + rest, 0) == |Write(Quoted(quote, body, closed))|
    ensures !IsWord(Write(Quoted(quote, body, closed)) + rest, 0)
  {
    hide QuoteEnd, Doubled, TokenEnd, IsWord;
    var inside, end := Doubled(quote, body), Ending([quote], closed);
    QuotedEnds(quote, body, closed, rest);
    Regroup(inside, end, rest);
    Regroup([quote], inside + end, rest);
    QuoteShifts([quote], inside + (end + rest), 0, quote);
    TokenStarts([quote] + (inside + (end + rest)));
  }

  lemma BracketedStarts(body: string, closed: bool, rest: string)
    requires WellWritten(Bracketed(body, closed)) && EndsBefore(Bracketed(body, closed), rest)
    ensures TokenEnd(Write(Bracketed(body, closed)) + rest, 0) == |Write(Bracketed(body, closed))|
    ensures !IsWord(Write(Bracketed(body, closed)) + rest, 0)
  {
    hide QuoteEnd, TokenEnd, IsWord;
    var end := Ending("]", closed);
    BracketedEnds(body, closed, rest);
    Regroup(body, end, rest);
    Regroup("[", body + end, rest);
    QuoteShifts("[", body + (end + rest), 0, ']');
    TokenStarts("[" + (body + (end + rest)));
  }

  lemma BlockStarts(text: string, closed: bool, rest: string)
    requires WellWritten(BlockComment(text, closed)) && EndsBefore(BlockComment(text, closed), rest)
    ensures TokenEnd(Write(BlockComment(text, closed)) + rest, 0) == |Write(BlockComment(text, closed))|
    ensures !IsWord(Write(BlockComment(text, closed)) + rest, 0)
  {
    hide BlockEnd, TokenEnd, IsWord;
    var end := Ending("*/", closed);
    BlockEnds(text, closed, rest);
    Regroup(text, end, rest);
    Regroup("/*", text + end, rest);
    BlockShifts("/*", text + (end + rest), 0);
    TokenStarts("/*" + (text + (end + rest)));
  }

  lemma LineStarts(text: string, rest: string)
    requires WellWritten(LineComment(text)) && EndsBefore(LineComment(text), rest)
    ensures TokenEnd("--" + text + rest, 0) == |"--" + text| && !IsWord("--" + text + rest, 0)
  {
    hide LineEnd, TokenEnd, IsWord;
    LineEnds(text, rest);
    Regroup("--", text, rest);
    LineShifts("--", text + rest, 0);
    TokenStarts("--" + (text + rest));
  }

  /** The scanner takes a token as it was written. */
  lemma TokenWritten(t: Token, rest: string)
    requires WellWritten(t) && EndsBefore(t, rest)
    ensures Write(t) != []
    ensures TokenEnd(Write(t) + rest, 0) == |Write(t)| && IsWord(Write(t) + rest, 0) == t.Word?
  {
    hide QuoteEnd, LineEnd, BlockEnd, WordEnd, Doubled, At, TokenEnd, IsWord;
    match t
    case Mark(c) => MarkStarts(c, rest);
    case Word(text) =>
      WordEnds(text, rest);
      WordStarts(text, rest);
      TokenStarts(text + rest);
    case Quoted(quote, body, closed) => QuotedStarts(quote, body, closed, rest);
    case Bracketed(body, closed) => BracketedStarts(body, closed, rest);
    case LineComment(text) => LineStarts(text, rest);
    case BlockComment(text, closed) => BlockStarts(text, closed, rest);
  }

  // ---------------------------------------------------------------- Every script reads as tokens

  lemma {:induction false} ReadQuoted(s: string, quote: char) returns (body: string, closed: bool, rest: string)
    ensures s == Doubled(quote, body) + (Ending([quote], closed) + rest)
    ensures rest != [] ==> closed && rest[0] != quote
    decreases |s|
  {
    body, closed, rest := [], false, [];
    if s == [] {
    } else if s[0] == quote && (|s| == 1 || s[1] != quote) {
      closed, rest := true, s[1..];
      assert s == [quote] + rest;
    } else {
      var start := if s[0] == quote then [quote, quote] else [s[0]];
      body, closed, rest := ReadQuoted(s[|start|..], quote);
      assert s == start + s[|start|..];
      Regroup(start, Doubled(quote, body), Ending([quote], closed) + rest);
      assert ([s[0]] + body)[1..] == body;
      body := [s[0]] + body;
    }
  }

  lemma {:induction false} ReadBracketed(s: string) returns (body: string, closed: bool, rest: string)
    ensures s == body + (Ending("]", closed) + rest) && ']' !in body
    ensures rest != [] ==> closed
    decreases |s|
  {
    body, closed, rest := [], false, [];
    if s == [] {
    } else if s[0] == ']' {
      closed, rest := true, s[1..];
      assert s == "]" + rest;
    } else {
      body, closed, rest := ReadBracketed(s[1..]);
      Regroup([s[0]], body, Ending("]", closed) + rest);
      body := [s[0]] + body;
    }
  }

  lemma {:induction false} ReadLine(s: string) returns (text: string, rest: string)
    ensures s == text + rest && '\n' !in text && (rest != [] ==> rest[0] == '\n')
    decreases |s|
  {
    text, rest := [], s;
    if s != [] && s[0] != '\n' {
      text, rest := ReadLine(s[1..]);
      Regroup([s[0]], text, rest);
      text := [s[0]] + text;
    }
  }

  lemma {:induction false} ReadBlock(s: string) returns (text: string, closed: bool, rest: string)
    ensures s == text + (Ending("*/", closed) + rest) && WellWritten(BlockComment(text, closed))
    ensures rest != [] ==> closed
    decreases |s|
  {
    text, closed, rest := [], false, [];
    if s == [] {
    } else if |s| >= 2 && s[0] == '*' && s[1] == '/' {
      closed, rest := true, s[2..];
      assert s == "*/" + rest;
    } else {
      text, closed, rest := ReadBlock(s[1..]);
      Regroup([s[0]], text, Ending("*/", closed) + rest);
      assert text != [] ==> text[0] == s[1];
      text := [s[0]] + text;
    }
  }

  lemma {:induction false} ReadWord(s: string) returns (text: string, rest: string)
    ensures s == text + rest && (forall c <- text :: LetterOrDigit(c)) && (rest != [] ==> !LetterOrDigit(rest[0]))
    decreases |s|
  {
    text, rest := [], s;
    if s != [] && LetterOrDigit(s[0]) {
      text, rest := ReadWord(s[1..]);
      Regroup([s[0]], text, rest);
      text := [s[0]] + text;
    }
  }

  lemma ReadQuotedToken(s: string) returns (t: Token, rest: string)
    requires s != [] && s[0] in "'\"`"
    ensures WellWritten(t) && EndsBefore(t, rest) && s == Write(t) + rest
  {
    hide Doubled;
    var body, closed;
    body, closed, rest := ReadQuoted(s[1..], s[0]);
    t := Quoted(s[0], body, closed);
    Regroup(Doubled(s[0], body), Ending([s[0]], closed), rest);
    Regroup([s[0]], Doubled(s[0], body) + Ending([s[0]], closed), rest);
  }

  lemma ReadBracketedToken(s: string) returns (t: Token, rest: string)
    requires s != [] && s[0] == '['
    ensures WellWritten(t) && EndsBefore(t, rest) && s == Write(t) + rest
  {
    var body, closed;
    body, closed, rest := ReadBracketed(s[1..]);
    t := Bracketed(body, closed);
    Regroup(body, Ending("]", closed), rest);
    Regroup("[", body + Ending("]", closed), rest);
  }

  lemma ReadComment(s: string) returns (t: Token, rest: string)
    requires |s| >= 2 && (s[..2] == "--" || s[..2] == "/*")
    ensures WellWritten(t) && EndsBefore(t, rest) && s == Write(t) + rest
  {
    if s[..2] == "--" {
      var text;
      text, rest := ReadLine(s[2..]);
      t := LineComment(text);
      Regroup("--", text, rest);
    } else {
      var text, closed;
      text, closed, rest := ReadBlock(s[2..]);
      t := BlockComment(text, closed);
      Regroup(text, Ending("*/", closed), rest);
      Regroup("/*", text + Ending("*/", closed), rest);
    }
  }

  lemma ReadToken(s: string) returns (t: Token, rest: string)
    requires s != []
    ensures WellWritten(t) && EndsBefore(t, rest) && s == Write(t) + rest
  {
    if s[0] in "'\"`" {
      t, rest := ReadQuotedToken(s);
    } else if s[0] == '[' {
      t, rest := ReadBracketedToken(s);
    } else if |s| >= 2 && (s[..2] == "--" || s[..2] == "/*") {
      t, rest := ReadComment(s);
    } else if Letter(s[0]) {
      var text;
      text, rest := ReadWord(s);
      t := Word(text);
    } else {
      t, rest := Mark(s[0]), s[1..];
      if |s| >= 2 { assert s[..2] == [s[0], s[1]]; }
    }
  }

  /** Every script is some list of tokens, each written out and ending where the next one starts. */
  lemma {:induction false} EveryScriptReads(s: string) returns (ts: seq<Token>)
    ensures Readable(ts) && WriteAll(ts) == s
    decreases |s|
  {
    ts := [];
    if s != [] {
      var t, rest := ReadToken(s);
      TokenWritten(t, rest);
      ts := EveryScriptReads(rest);
      assert ([t] + ts)[1..] == ts;
      ts := [t] + ts;
    }
  }

  // ---------------------------------------------------------------- Where a script is cut

  /** The text is the word in any case, given in upper case. */
  ghost predicate Spells(text: string, word: string) {
    |text| == |word| && forall i :: 0 <= i < |text| ==> text[i] == word[i] || text[i] as int == word[i] as int + 32
  }

  /** The word TRIGGER stands somewhere in the text, inside quotes and comments too. */
  ghost predicate NamesTrigger(text: string) {
    exists k :: 0 <= k <= |text| - 7 && TriggerFrom(text, k)
  }

  ghost predicate TriggerFrom(text: string, k: int)
    requires 0 <= k <= |text| - 7
  {
    && Spells(text[k..k + 7], "TRIGGER")
    && (k > 0 ==> !LetterOrDigit(text[k - 1]))
    && (k + 7 < |text| ==> !LetterOrDigit(text[k + 7]))
  }

  /** How many trigger bodies are open after the tokens of one piece. */
  ghost function Nesting(ts: seq<Token>): nat
    decreases |ts|
  {
    if ts == [] then 0 else
      var before, t := ts[..|ts| - 1], ts[|ts| - 1];
      if t.Word? && Spells(t.text, "BEGIN") && NamesTrigger(WriteAll(before)) then Nesting(before) + 1
      else if t.Word? && Spells(t.text, "END") && Nesting(before) > 0 then Nesting(before) - 1
      else Nesting(before)
  }

  /** A semicolon of its own outside every trigger body. */
  ghost predicate IsCut(ts: seq<Token>, k: int)
    requires 0 <= k < |ts|
  {
    ts[k] == Mark(';') && Nesting(ts[..k]) == 0
  }

  lemma SpellsIsUpper(text: string, word: string)
    requires forall c <- word :: 'A' <= c <= 'Z'
    ensures Spells(text, word) <==> Upper(text) == word
  {
    if |text| == |word| {
      forall i | 0 <= i < |text|
        ensures (text[i] == word[i] || text[i] as int == word[i] as int + 32) <==> Upper(text)[i] == word[i]
      {
        assert word[i] in word;
      }
    }
  }

  lemma TriggerIsNamed(text: string)
    ensures HasTrigger(text) <==> NamesTrigger(text)
  {
    hide Upper, Spells;
    assert forall c <- "TRIGGER" :: 'A' <= c <= 'Z';
    forall k | 0 <= k <= |text| - 7
      ensures TriggerAt(text, k) <==> TriggerFrom(text, k)
    {
      SpellsIsUpper(text[k..k + 7], "TRIGGER");
    }
  }

  lemma {:induction false} WriteAllSplits(ts: seq<Token>, k: nat)
    requires k <= |ts|
    ensures WriteAll(ts) == WriteAll(ts[..k]) + WriteAll(ts[k..])
    decreases |ts|
  {
    if k == 0 {
      assert ts[0..] == ts;
    } else {
      hide Write;
      WriteAllSplits(ts[1..], k - 1);
      assert ts[..k][1..] == ts[1..][..k - 1] && ts[k..] == ts[1..][k - 1..];
      Regroup(Write(ts[0]), WriteAll(ts[1..][..k - 1]), WriteAll(ts[k..]));
    }
  }

  lemma WrittenAt(ts: seq<Token>, k: nat)
    requires k < |ts|
    ensures WriteAll(ts) == WriteAll(ts[..k]) + (Write(ts[k]) + WriteAll(ts[k + 1..]))
    ensures WriteAll(ts[..k + 1]) == WriteAll(ts[..k]) + Write(ts[k])
  {
    hide Write;
    WriteAllSplits(ts, k);
    assert ts[k..][0] == ts[k] && ts[k..][1..] == ts[k + 1..];
    WriteAllSplits(ts[..k + 1], k);
    assert ts[..k + 1][..k] == ts[..k] && ts[..k + 1][k..] == [ts[k]];
    assert [ts[k]][1..] == [];
    assert WriteAll([ts[k]]) == Write(ts[k]) + [];
  }

  lemma {:induction false} ReadableAt(ts: seq<Token>, k: nat)
    requires Readable(ts) && k < |ts|
    ensures WellWritten(ts[k]) && EndsBefore(ts[k], WriteAll(ts[k + 1..]))
    decreases k
  {
    hide WellWritten, EndsBefore;
    if k > 0 {
      ReadableAt(ts[1..], k - 1);
      assert ts[k + 1..] == ts[1..][k..];
    }
  }

  lemma SemicolonToken(t: Token)
    requires WellWritten(t) && Write(t) != []
    ensures Write(t)[0] == ';' <==> t == Mark(';')
  {
  }

  lemma NestingStep(ts: seq<Token>, k: nat)
    requires k < |ts|
    ensures Nesting(ts[..k + 1]) == match ts[k] {
              case Word(text) => DepthAfterWord(WriteAll(ts[..k]), text, Nesting(ts[..k]))
              case _ => Nesting(ts[..k])
            }
  {
    assert ts[..k + 1][..k] == ts[..k];
    if ts[k].Word? {
      hide Spells, Upper, HasTrigger, NamesTrigger, Write;
      assert forall c <- "BEGIN" :: 'A' <= c <= 'Z';
      assert forall c <- "END" :: 'A' <= c <= 'Z';
      SpellsIsUpper(ts[k].text, "BEGIN");
      SpellsIsUpper(ts[k].text, "END");
      TriggerIsNamed(WriteAll(ts[..k]));
    }
  }

  /** The scanner at the start of a token: it cuts there, or goes on to the next one. */
  lemma TokenStep(ts: seq<Token>, k: nat)
    requires Readable(ts) && k < |ts|
    ensures |WriteAll(ts[..k])| < |WriteAll(ts[..k + 1])| <= |WriteAll(ts)|
    ensures var s, i, depth := WriteAll(ts), |WriteAll(ts[..k])|, Nesting(ts[..k]);
            Cut(s, i, depth) == if IsCut(ts, k) then i else Cut(s, |WriteAll(ts[..k + 1])|, Nesting(ts[..k + 1]))
  {
    hide Readable, WellWritten, EndsBefore, Write, WriteAll, Nesting, TokenEnd, IsWord, DepthAfterWord;
    var s, before, t, rest := WriteAll(ts), WriteAll(ts[..k]), ts[k], WriteAll(ts[k + 1..]);
    ReadableAt(ts, k);
    WrittenAt(ts, k);
    TokenWritten(t, rest);
    SemicolonToken(t);
    TokenShifts(before, Write(t) + rest, 0);
    NestingStep(ts, k);
    var i := |before|;
    assert s[i] == Write(t)[0] && s[..i] == before && s[i..i + |Write(t)|] == Write(t);
    WordIsWritten(t);
  }

  lemma WordIsWritten(t: Token)
    ensures t.Word? ==> Write(t) == t.text
  {
  }

  /** From a token on, the cut is at the first one that is a cut, if any. */
  lemma {:induction false} CutAmongTokens(ts: seq<Token>, k: nat, m: nat)
    requires Readable(ts) && k <= m <= |ts|
    requires forall j :: k <= j < m ==> !IsCut(ts, j)
    requires m < |ts| ==> IsCut(ts, m)
    ensures |WriteAll(ts[..k])| <= |WriteAll(ts)|
    ensures Cut(WriteAll(ts), |WriteAll(ts[..k])|, Nesting(ts[..k])) == |WriteAll(ts[..m])|
    decreases m - k
  {
    hide Readable, Write, WriteAll, Nesting, Cut;
    if k < |ts| {
      TokenStep(ts, k);
      if k < m { CutAmongTokens(ts, k + 1, m); }
    } else {
      assert ts[..k] == ts;
      CutAtEnd(WriteAll(ts), Nesting(ts));
    }
  }

  lemma CutAtEnd(s: string, depth: nat)
    ensures Cut(s, |s|, depth) == |s|
  {
  }

  lemma FirstCutAt(ts: seq<Token>, m: nat)
    requires Readable(ts) && m <= |ts| && (m < |ts| ==> IsCut(ts, m))
    requires forall j :: 0 <= j < m ==> !IsCut(ts, j)
    ensures Cut(WriteAll(ts), 0, 0) == |WriteAll(ts[..m])|
  {
    hide Readable, Cut, Write, IsCut;
    assert ts[..0] == [];
    CutAmongTokens(ts, 0, m);
  }

  lemma PiecesAtCut(before: string, rest: string)
    requires Cut(before + (";" + rest), 0, 0) == |before|
    ensures Pieces(before + (";" + rest)) == [before] + Pieces(rest)
  {
    hide Cut;
    var s, c := before + (";" + rest), |before|;
    assert s[..c] == before && s[c + 1..] == rest;
  }

  lemma CutIsWritten(ts: seq<Token>, m: nat)
    requires m < |ts| && ts[m] == Mark(';')
    ensures WriteAll(ts) == WriteAll(ts[..m]) + (";" + WriteAll(ts[m + 1..]))
  {
    WrittenAt(ts, m);
  }

  /** The first piece ends at the first cut among the tokens. */
  lemma FirstCut(ts: seq<Token>, m: nat)
    requires Readable(ts) && m < |ts| && IsCut(ts, m)
    requires forall j :: 0 <= j < m ==> !IsCut(ts, j)
    ensures Pieces(WriteAll(ts)) == [WriteAll(ts[..m])] + Pieces(WriteAll(ts[m + 1..]))
  {
    hide Readable, Cut, Pieces, WriteAll, Nesting;
    FirstCutAt(ts, m);
    CutIsWritten(ts, m);
    PiecesAtCut(WriteAll(ts[..m]), WriteAll(ts[m + 1..]));
  }

  /** A script is one piece exactly when none of its tokens is a semicolon outside every trigger body. */
  lemma WholeIff(ts: seq<Token>)
    requires Readable(ts)
    ensures Pieces(WriteAll(ts)) == [WriteAll(ts)] <==> forall k :: 0 <= k < |ts| ==> !IsCut(ts, k)
  {
    hide Readable, Nesting, Cut, WriteAll, IsCut;
    if k :| 0 <= k < |ts| && IsCut(ts, k) {
      var m := FirstAmong(ts, k);
      FirstCut(ts, m);
      assert Pieces(WriteAll(ts[m + 1..])) != [];
    } else {
      NoCut(ts);
    }
  }

  lemma NoCut(ts: seq<Token>)
    requires Readable(ts) && forall k :: 0 <= k < |ts| ==> !IsCut(ts, k)
    ensures Pieces(WriteAll(ts)) == [WriteAll(ts)]
  {
    hide Readable, Cut, Write;
    assert ts[..|ts|] == ts;
    FirstCutAt(ts, |ts|);
  }

  lemma {:induction false} FirstAmong(ts: seq<Token>, k: nat) returns (m: nat)
    requires k < |ts| && IsCut(ts, k)
    ensures m < |ts| && IsCut(ts, m) && forall j :: 0 <= j < m ==> !IsCut(ts, j)
    decreases k
  {
    hide IsCut;
    m := k;
    if j :| 0 <= j < k && IsCut(ts, j) {
      m := FirstAmong(ts, j);
    }
  }

  // ---------------------------------------------------------------- Which statements are kept

  /** White space and complete comments say nothing. */
  ghost predicate Speaks(t: Token) {
    match t
    case Mark(c) => !IsSpace(c)
    case LineComment(_) => false
    case BlockComment(_, closed) => !closed
    case _ => true
  }

  lemma {:induction false} ClosesShifts(w: string, s: string, j: nat)
    requires j <= |s|
    ensures Closes(w + s, |w| + j) <==> Closes(s, j)
    decreases |s| - j
  {
    AtShifts(w, s, j, "*/");
    if j < |s| { ClosesShifts(w, s, j + 1); }
  }

  lemma {:induction false} BlockCloses(text: string, closed: bool, rest: string)
    requires WellWritten(BlockComment(text, closed)) && (rest != [] ==> closed)
    ensures Closes(text + (Ending("*/", closed) + rest), 0) <==> closed
    decreases |text|
  {
    var tail := Ending("*/", closed) + rest;
    if text == [] {
      assert text + tail == tail;
      AtTwo(tail, "*/");
    } else if text == "*" && !closed {
      assert text + tail == "*";
      assert !At("*", 0, "*/") && !Closes("*", 1);
    } else {
      BlockCloses(text[1..], closed, rest);
      Regroup([text[0]], text[1..], tail);
      assert text == [text[0]] + text[1..];
      var s := text[1..] + tail;
      AtTwo([text[0]] + s, "*/");
      ClosesShifts([text[0]], s, 0);
    }
  }

  ghost predicate QuietAt(s: string, i: nat)
    requires i < |s|
  {
    IsSpace(s[i]) || At(s, i, "--") || (At(s, i, "/*") && Closes(s, i + 2))
  }

  lemma BlockQuiet(text: string, closed: bool, rest: string)
    requires WellWritten(BlockComment(text, closed)) && (rest != [] ==> closed)
    ensures QuietAt(Write(BlockComment(text, closed)) + rest, 0) <==> closed
  {
    hide Closes;
    var end := Ending("*/", closed);
    BlockCloses(text, closed, rest);
    Regroup(text, end, rest);
    Regroup("/*", text + end, rest);
    ClosesShifts("/*", text + (end + rest), 0);
    var s := "/*" + (text + (end + rest));
    AtTwo(s, "--");
    AtTwo(s, "/*");
  }

  lemma TokenQuiet(t: Token, rest: string)
    requires WellWritten(t) && EndsBefore(t, rest) && Write(t) != []
    ensures QuietAt(Write(t) + rest, 0) <==> !Speaks(t)
  {
    hide Doubled, Closes;
    var s := Write(t) + rest;
    AtTwo(s, "--");
    AtTwo(s, "/*");
    match t
    case BlockComment(text, closed) => BlockQuiet(text, closed, rest);
    case Word(text) => assert s[0] == text[0];
    case _ =>
  }

  lemma QuietShifts(w: string, s: string)
    requires s != []
    ensures QuietAt(w + s, |w|) <==> QuietAt(s, 0)
  {
    hide Closes;
    AtShifts(w, s, 0, "--");
    AtShifts(w, s, 0, "/*");
    if |s| >= 2 { ClosesShifts(w, s, 2); }
  }

  lemma {:induction false} SilentTokens(ts: seq<Token>, k: nat)
    requires Readable(ts) && k <= |ts|
    ensures |WriteAll(ts[..k])| <= |WriteAll(ts)|
    ensures Silent(WriteAll(ts), |WriteAll(ts[..k])|) <==> forall j :: k <= j < |ts| ==> !Speaks(ts[j])
    decreases |ts| - k
  {
    hide Readable, WellWritten, EndsBefore, Write, WriteAll, TokenEnd, IsWord, QuietAt, Speaks, Silent;
    if k == |ts| {
      assert ts[..k] == ts;
      SilentAtEnd(WriteAll(ts));
    } else {
      SilentTokens(ts, k + 1);
      var before, t, rest := WriteAll(ts[..k]), ts[k], WriteAll(ts[k + 1..]);
      ReadableAt(ts, k);
      WrittenAt(ts, k);
      TokenWritten(t, rest);
      TokenQuiet(t, rest);
      TokenShifts(before, Write(t) + rest, 0);
      QuietShifts(before, Write(t) + rest);
      SilentStep(WriteAll(ts), |before|);
    }
  }

  lemma SilentAtEnd(s: string)
    ensures Silent(s, |s|)
  {
  }

  lemma SilentStep(s: string, i: nat)
    requires i < |s|
    ensures Silent(s, i) <==> QuietAt(s, i) && Silent(s, TokenEnd(s, i))
  {
  }

  /** A text is a statement when one of its tokens speaks. */
  lemma SaysIffSpeaks(ts: seq<Token>)
    requires Readable(ts)
    ensures Says(WriteAll(ts)) <==> exists k :: 0 <= k < |ts| && Speaks(ts[k])
  {
    hide Readable, Speaks, Says, Silent, Write;
    DroppedMeansOnlyComments(WriteAll(ts));
    SilentTokens(ts, 0);
    assert ts[..0] == [];
  }

  // ---------------------------------------------------------------- Trimming a statement does not silence it

  lemma StripStep(s: string, i: nat)
    requires i < |s|
    ensures StripComments(s, i)
         == if At(s, i, "--") then StripComments(s, LineEnd(s, i + 2))
            else if At(s, i, "/*") && Closes(s, i + 2) then StripComments(s, BlockEnd(s, i + 2))
            else [s[i]] + StripComments(s, i + 1)
  {
  }

  lemma StripAtEnd(s: string)
    ensures StripComments(s, |s|) == []
  {
  }

  lemma {:induction false} StripShifts(w: string, s: string, i: nat)
    requires i <= |s|
    ensures StripComments(w + s, |w| + i) == StripComments(s, i)
    decreases |s| - i
  {
    hide Closes, At, StripComments, LineEnd, BlockEnd;
    if i == |s| {
      StripAtEnd(w + s);
      StripAtEnd(s);
    } else {
      AtShifts(w, s, i, "--");
      AtShifts(w, s, i, "/*");
      PairFits(s, i);
      StripStep(s, i);
      StripStep(w + s, |w| + i);
      if At(s, i, "--") {
        LineShifts(w, s, i + 2);
        StripShifts(w, s, LineEnd(s, i + 2));
      } else {
        if At(s, i, "/*") {
          ClosesShifts(w, s, i + 2);
          BlockShifts(w, s, i + 2);
        }
        StripShifts(w, s, if At(s, i, "/*") && Closes(s, i + 2) then BlockEnd(s, i + 2) else i + 1);
      }
    }
  }

  lemma PairFits(s: string, i: nat)
    ensures At(s, i, "--") || At(s, i, "/*") || At(s, i, "*/") ==> i + 2 <= |s|
  {
  }

  lemma {:induction false} StripKeepsSpace(w: string, s: string)
    requires AllSpace(w)
    ensures AllSpace(StripComments(w + s, 0)) <==> AllSpace(StripComments(s, 0))
    decreases |w|
  {
    if w == [] {
      assert w + s == s;
    } else {
      hide StripComments, Closes, At;
      var t := w[1..] + s;
      StripKeepsSpace(w[1..], s);
      assert w + s == [w[0]] + t;
      AtTwo([w[0]] + t, "--");
      AtTwo([w[0]] + t, "/*");
      StripStep([w[0]] + t, 0);
      StripShifts([w[0]], t, 0);
      OneMoreSpace(w[0], StripComments(t, 0));
    }
  }

  lemma {:induction false} SpaceStrips(t: string, w: string, i: nat)
    requires AllSpace(w) && |t| <= i <= |t + w|
    ensures AllSpace(StripComments(t + w, i))
    decreases |t + w| - i
  {
    var s := t + w;
    if i < |s| {
      SpaceStrips(t, w, i + 1);
      AtStarts(s, i, "--");
      AtStarts(s, i, "/*");
      assert s[i] == w[i - |t|];
      var rest := StripComments(s, i + 1);
      assert forall k :: 0 <= k < |[s[i]] + rest| ==> IsSpace(([s[i]] + rest)[k]);
    }
  }

  lemma PairBeforeSpace(t: string, w: string, i: nat, pattern: string)
    requires AllSpace(w) && i <= |t| && |pattern| == 2 && !IsSpace(pattern[0]) && !IsSpace(pattern[1])
    ensures At(t + w, i, pattern) <==> At(t, i, pattern)
  {
    var s := t + w;
    if i + 2 <= |t| {
      assert s[i..i + 2] == t[i..i + 2];
    } else if i + 2 <= |s| {
      assert s[i..i + 2][1] == s[i + 1] == w[i + 1 - |t|];
    }
  }

  lemma {:induction false} NeverCloses(t: string, w: string, j: nat)
    requires AllSpace(w) && |t| <= j <= |t + w|
    ensures !Closes(t + w, j)
    decreases |t + w| - j
  {
    if j < |t + w| {
      AtStarts(t + w, j, "*/");
      NeverCloses(t, w, j + 1);
    }
  }

  lemma {:induction false} BlockBeforeSpace(t: string, w: string, j: nat)
    requires AllSpace(w) && j <= |t|
    ensures Closes(t + w, j) <==> Closes(t, j)
    ensures Closes(t, j) ==> BlockEnd(t + w, j) == BlockEnd(t, j)
    decreases |t| - j
  {
    PairBeforeSpace(t, w, j, "*/");
    if j < |t| {
      BlockBeforeSpace(t, w, j + 1);
    } else {
      NeverCloses(t, w, j);
    }
  }

  lemma {:induction false} LineBeforeSpace(t: string, w: string, j: nat)
    requires j <= |t|
    ensures LineEnd(t + w, j) == LineEnd(t, j) || (LineEnd(t, j) == |t| && |t| <= LineEnd(t + w, j))
    decreases |t| - j
  {
    if j < |t| && t[j] != '\n' { LineBeforeSpace(t, w, j + 1); }
  }

  lemma {:induction false} StripBeforeSpace(t: string, w: string, i: nat)
    requires AllSpace(w) && i <= |t|
    ensures AllSpace(StripComments(t + w, i)) <==> AllSpace(StripComments(t, i))
    decreases |t| - i
  {
    hide At, Closes, LineEnd, BlockEnd, StripComments;
    if i == |t| {
      SpaceStrips(t, w, i);
      StripAtEnd(t);
    } else {
      StripStep(t, i);
      StripStep(t + w, i);
      PairBeforeSpace(t, w, i, "--");
      PairBeforeSpace(t, w, i, "/*");
      PairFits(t, i);
      if At(t, i, "--") {
        var stop, stop' := LineEnd(t, i + 2), LineEnd(t + w, i + 2);
        LineBeforeSpace(t, w, i + 2);
        if stop == stop' {
          StripBeforeSpace(t, w, stop);
        } else {
          SpaceStrips(t, w, stop');
          StripAtEnd(t);
        }
      } else {
        if At(t, i, "/*") { BlockBeforeSpace(t, w, i + 2); }
        if At(t, i, "/*") && Closes(t, i + 2) {
          StripBeforeSpace(t, w, BlockEnd(t, i + 2));
        } else {
          StripBeforeSpace(t, w, i + 1);
          OneMoreSpace(t[i], StripComments(t + w, i + 1));
          OneMoreSpace(t[i], StripComments(t, i + 1));
        }
      }
    }
  }

  lemma OneMoreSpace(c: char, s: string)
    ensures AllSpace([c] + s) <==> IsSpace(c) && AllSpace(s)
  {
    assert ([c] + s)[0] == c && forall k :: 0 <= k < |s| ==> ([c] + s)[k + 1] == s[k];
  }

  lemma TrimmedSays(p: string)
    ensures Says(Trim(p)) <==> Says(p)
  {
    var left, right := TrimSplits(p);
    var t := Trim(p);
    hide StripComments, Trim;
    Regroup(left, t, right);
    StripKeepsSpace(left, t + right);
    StripBeforeSpace(t, right, 0);
    TrimOfSpace(StripComments(p, 0));
    TrimOfSpace(StripComments(t, 0));
  }

  // ---------------------------------------------------------------- The statements of a script

  ghost function Statement(ts: seq<Token>): seq<string> {
    if exists k :: 0 <= k < |ts| && Speaks(ts[k]) then [Trim(WriteAll(ts))] else []
  }

  lemma KeptOne(p: string, ps: seq<string>)
    ensures Kept([p] + ps) == (if Says(p) then [Trim(p)] else []) + Kept(ps)
  {
    hide Says, Trim;
    TrimmedSays(p);
    assert ([p] + ps)[1..] == ps;
  }

  lemma {:induction false} FirstReadable(ts: seq<Token>, m: nat)
    requires Readable(ts) && m < |ts| && ts[m] == Mark(';')
    ensures Readable(ts[..m])
    decreases m
  {
    hide Write;
    if m > 0 {
      FirstReadable(ts[1..], m - 1);
      assert ts[..m][1..] == ts[1..][..m - 1];
      EndsEarlier(ts, m);
    }
  }

  lemma EndsSooner(t: Token, before: string, rest: string)
    requires EndsBefore(t, rest) && (before != [] ==> rest != [] && before[0] == rest[0])
    ensures EndsBefore(t, before)
  {
  }

  lemma EndsEarlier(ts: seq<Token>, m: nat)
    requires Readable(ts) && 0 < m < |ts| && ts[m] == Mark(';')
    ensures EndsBefore(ts[0], WriteAll(ts[1..][..m - 1]))
  {
    hide Readable, EndsBefore, WriteAll;
    var before, rest := WriteAll(ts[1..][..m - 1]), WriteAll(ts[1..]);
    ReadableAt(ts, 0);
    WriteAllSplits(ts[1..], m - 1);
    if before != [] {
      assert before[0] == rest[0];
    }
    EndsSooner(ts[0], before, rest);
  }

  /** Up to the first cut is one statement, unless nothing in it speaks; what follows is split on its own. */
  lemma FirstStatement(ts: seq<Token>, m: nat)
    requires Readable(ts) && m < |ts| && IsCut(ts, m)
    requires forall j :: 0 <= j < m ==> !IsCut(ts, j)
    ensures Split(WriteAll(ts)) == Statement(ts[..m]) + Split(WriteAll(ts[m + 1..]))
  {
    FirstCut(ts, m);
    FirstReadable(ts, m);
    hide Readable, IsCut, Pieces, Says, Speaks, Trim, Kept, WriteAll;
    SaysIffSpeaks(ts[..m]);
    KeptOne(WriteAll(ts[..m]), Pieces(WriteAll(ts[m + 1..])));
  }

  /** A script without a cut is one statement, or none. */
  lemma LastStatement(ts: seq<Token>)
    requires Readable(ts) && forall k :: 0 <= k < |ts| ==> !IsCut(ts, k)
    ensures Split(WriteAll(ts)) == Statement(ts)
  {
    NoCut(ts);
    hide Readable, IsCut, Pieces, Says, Speaks, Trim, WriteAll;
    SaysIffSpeaks(ts);
    KeptOne(WriteAll(ts), []);
    assert [WriteAll(ts)] + [] == [WriteAll(ts)];
  }

  // ---------------------------------------------------------------- Trigger bodies

  /** How deep the tokens of a trigger's body lead, BEGIN adding a level and END taking one, until none is left. */
  ghost function Level(body: seq<Token>): nat
    decreases |body|
  {
    if body == [] then 1 else
      var before, t := Level(body[..|body| - 1]), body[|body| - 1];
      if !t.Word? then before
      else if Spells(t.text, "BEGIN") then before + 1
      else if Spells(t.text, "END") && before > 0 then before - 1
      else before
  }

  /**
   * The start of a trigger up to its BEGIN: it names TRIGGER, ends in no letter or
   * digit, and holds no semicolon of its own and no BEGIN.
   */
  ghost predicate TriggerHead(head: seq<Token>) {
    var text := WriteAll(head);
    && NamesTrigger(text) && !LetterOrDigit(text[|text| - 1])
    && NoSemicolon(head)
    && forall t <- head :: t.Word? ==> !Spells(t.text, "BEGIN")
  }

  ghost predicate NoSemicolon(ts: seq<Token>) {
    forall t <- ts :: t != Mark(';')
  }

  /** Neither BEGIN nor END among the words. */
  ghost predicate NoBeginEnd(ts: seq<Token>) {
    forall t <- ts :: t.Word? ==> !Spells(t.text, "BEGIN") && !Spells(t.text, "END")
  }

  lemma TriggerStaysNamed(text: string, more: string)
    requires NamesTrigger(text) && !LetterOrDigit(text[|text| - 1])
    ensures NamesTrigger(text + more)
  {
    hide Spells;
    var k :| 0 <= k <= |text| - 7 && TriggerFrom(text, k);
    var all := text + more;
    assert all[k..k + 7] == text[k..k + 7];
    if k + 7 == |text| {
      assert Spells(text[k..k + 7], "TRIGGER");
      LastLetter(text[k..k + 7]);
      assert false;
    }
    assert TriggerFrom(all, k);
  }

  lemma LastLetter(text: string)
    requires Spells(text, "TRIGGER")
    ensures |text| == 7 && LetterOrDigit(text[6])
  {
  }

  lemma {:induction false} HeadOpensNothing(head: seq<Token>, k: nat)
    requires k <= |head| && forall t <- head :: t.Word? ==> !Spells(t.text, "BEGIN")
    ensures Nesting(head[..k]) == 0
    decreases k
  {
    hide Spells, NamesTrigger;
    if k > 0 {
      HeadOpensNothing(head, k - 1);
      assert head[..k][..k - 1] == head[..k - 1];
      assert head[k - 1] in head;
    }
  }

  /** Inside the body the nesting is the level. */
  lemma {:induction false} NestingInBody(head: seq<Token>, begin: string, body: seq<Token>)
    requires TriggerHead(head) && Spells(begin, "BEGIN")
    ensures Nesting(head + [Word(begin)] + body) == Level(body)
    decreases |body|
  {
    hide Spells, NamesTrigger, Write, WriteAll, LetterOrDigit;
    var opening := head + [Word(begin)];
    var all := opening + body;
    var before := all[..|all| - 1];
    if body == [] {
      assert all == opening && before == head && head[..|head|] == head;
      HeadOpensNothing(head, |head|);
    } else {
      NestingInBody(head, begin, body[..|body| - 1]);
      assert before == opening + body[..|body| - 1] && all[|all| - 1] == body[|body| - 1];
      WriteAllSplits(before, |head|);
      assert before[..|head|] == head;
      TriggerStaysNamed(WriteAll(head), WriteAll(before[|head|..]));
    }
  }

  /** No cut before the body, and in it exactly the semicolons at level 0. */
  lemma CutsOfTrigger(head: seq<Token>, begin: string, body: seq<Token>)
    requires TriggerHead(head) && Spells(begin, "BEGIN")
    ensures var all := head + [Word(begin)] + body;
            && (forall k :: 0 <= k <= |head| ==> !IsCut(all, k))
            && (forall k :: 0 <= k < |body| ==>
                  (IsCut(all, |head| + 1 + k) <==> body[k] == Mark(';') && Level(body[..k]) == 0))
  {
    hide Spells, NamesTrigger, Nesting, Level, WriteAll;
    var opening := head + [Word(begin)];
    var all := opening + body;
    forall k | 0 <= k <= |head|
      ensures !IsCut(all, k)
    {
      if k < |head| { assert all[k] == head[k] && head[k] in head; }
    }
    forall k | 0 <= k < |body|
      ensures IsCut(all, |head| + 1 + k) <==> body[k] == Mark(';') && Level(body[..k]) == 0
    {
      NestingInBody(head, begin, body[..k]);
      assert all[..|head| + 1 + k] == opening + body[..k];
    }
  }

  /** A trigger stays one statement exactly when every semicolon of its body stands inside some BEGIN that no END has closed. */
  lemma TriggerIsWholeIff(head: seq<Token>, begin: string, body: seq<Token>)
    requires TriggerHead(head) && Spells(begin, "BEGIN")
    requires Readable(head + [Word(begin)] + body)
    ensures var script := WriteAll(head + [Word(begin)] + body);
            Pieces(script) == [script] <==> forall k :: 0 <= k < |body| && body[k] == Mark(';') ==> Level(body[..k]) > 0
  {
    hide TriggerHead, Spells, Readable, WriteAll, IsCut, Level, Pieces;
    var all := head + [Word(begin)] + body;
    CutsOfTrigger(head, begin, body);
    WholeIff(all);
    forall k | 0 <= k < |all| && IsCut(all, k)
      ensures exists j :: 0 <= j < |body| && body[j] == Mark(';') && Level(body[..j]) == 0
    {
      var j := k - |head| - 1;
      assert 0 <= j < |body| && IsCut(all, |head| + 1 + j);
      assert body[j] == Mark(';') && Level(body[..j]) == 0;
    }
    forall j | 0 <= j < |body| && body[j] == Mark(';') && Level(body[..j]) == 0
      ensures exists k :: 0 <= k < |all| && IsCut(all, k)
    {
      assert IsCut(all, |head| + 1 + j);
    }
  }

  lemma {:induction false} LevelStays(before: seq<Token>, ts: seq<Token>)
    requires NoBeginEnd(ts)
    ensures Level(before + ts) == Level(before)
    decreases |ts|
  {
    hide Spells;
    if ts == [] {
      assert before + ts == before;
    } else {
      var n := |ts| - 1;
      LevelStays(before, ts[..n]);
      assert (before + ts)[..|before + ts| - 1] == before + ts[..n];
      assert ts[n] in ts;
    }
  }

  lemma LevelIsOne(body: seq<Token>)
    requires NoBeginEnd(body)
    ensures Level(body) == 1
  {
    LevelStays([], body);
    assert [] + body == body;
  }

  /** The level in a body whose words are neither BEGIN nor END, and after the END that follows it. */
  lemma LevelsOf(body: seq<Token>, end: string)
    requires NoBeginEnd(body) && Spells(end, "END")
    ensures forall k :: 0 <= k <= |body| ==> Level(body[..k]) == 1
    ensures Level(body + [Word(end)]) == 0
  {
    forall k | 0 <= k <= |body|
      ensures Level(body[..k]) == 1
    {
      hide Level, Spells;
      LevelIsOne(body[..k]);
    }
    LevelAtEnd(body, end);
  }

  lemma LevelAtEnd(body: seq<Token>, end: string)
    requires NoBeginEnd(body) && Spells(end, "END")
    ensures Level(body + [Word(end)]) == 0
  {
    LevelIsOne(body);
    assert (body + [Word(end)])[..|body|] == body;
  }

  /** A trigger whose body has no other BEGIN or END is cut off right after its END, semicolons in the body or not. */
  lemma TriggerIsOne(head: seq<Token>, begin: string, body: seq<Token>, end: string, rest: seq<Token>)
    requires TriggerHead(head) && Spells(begin, "BEGIN") && NoBeginEnd(body) && Spells(end, "END")
    requires Readable(head + [Word(begin)] + (body + [Word(end), Mark(';')] + rest))
    ensures Pieces(WriteAll(head + [Word(begin)] + (body + [Word(end), Mark(';')] + rest)))
         == [WriteAll(head + [Word(begin)] + body + [Word(end)])] + Pieces(WriteAll(rest))
  {
    hide TriggerHead, Spells, Readable, WriteAll, Write, IsCut, Level, Pieces, NoBeginEnd;
    var inside := body + [Word(end), Mark(';')] + rest;
    var all, m := head + [Word(begin)] + inside, |head| + 1 + |body| + 1;
    CutsOfTrigger(head, begin, inside);
    LevelsOf(body, end);
    forall j | 0 <= j < m
      ensures !IsCut(all, j)
    {
      var k := j - |head| - 1;
      if 0 <= k <= |body| {
        assert inside[..k] == body[..k];
        assert !IsCut(all, |head| + 1 + k);
      }
    }
    assert inside[..|body| + 1] == body + [Word(end)];
    assert IsCut(all, |head| + 1 + (|body| + 1));
    FirstCut(all, m);
    assert all[..m] == head + [Word(begin)] + body + [Word(end)] && all[m + 1..] == rest;
  }

  /** The END of a CASE closes the body as well, and the next semicolon cuts the trigger in two. */
  lemma CaseEndsTheBody(head: seq<Token>, begin: string, body: seq<Token>, end: string, after: seq<Token>, rest: seq<Token>)
    requires TriggerHead(head) && Spells(begin, "BEGIN") && NoBeginEnd(body) && Spells(end, "END")
    requires NoBeginEnd(after) && NoSemicolon(after)
    requires Readable(head + [Word(begin)] + (body + [Word(end)] + after + [Mark(';')] + rest))
    ensures Pieces(WriteAll(head + [Word(begin)] + (body + [Word(end)] + after + [Mark(';')] + rest)))
         == [WriteAll(head + [Word(begin)] + body + [Word(end)] + after)] + Pieces(WriteAll(rest))
  {
    hide TriggerHead, Spells, Readable, WriteAll, Write, IsCut, Level, Pieces, NoBeginEnd;
    var closed := body + [Word(end)];
    var inside := closed + after + [Mark(';')] + rest;
    var all, m := head + [Word(begin)] + inside, |head| + 1 + |closed + after|;
    CutsOfTrigger(head, begin, inside);
    LevelsOf(body, end);
    forall j | 0 <= j < m
      ensures !IsCut(all, j)
    {
      var k := j - |head| - 1;
      if 0 <= k <= |body| {
        assert inside[..k] == body[..k];
        assert !IsCut(all, |head| + 1 + k);
      } else if k > |body| {
        assert inside[k] == after[k - |closed|] && inside[k] in after;
        assert !IsCut(all, |head| + 1 + k);
      }
    }
    LevelStays(closed, after);
    assert inside[..|closed + after|] == closed + after;
    assert IsCut(all, |head| + 1 + |closed + after|);
    FirstCut(all, m);
    assert all[..m] == head + [Word(begin)] + body + [Word(end)] + after && all[m + 1..] == rest;
  }

  // ---------------------------------------------------------------- Literals and comments in plain text

  /** No semicolon, quote, bracket or comment. */
  ghost predicate Plain(s: string) {
    && (forall c <- s :: c !in ";'\"`[")
    && (forall k :: 0 < k < |s| ==> !(s[k - 1] == '-' == s[k]) && !(s[k - 1] == '/' && s[k] == '*'))
  }

  /** At most one statement, and it is the script trimmed. */
  ghost predicate OneStatement(script: string) {
    Split(script) == [] || Split(script) == [Trim(script)]
  }

  ghost predicate PlainToken(t: Token) {
    (t.Mark? && t != Mark(';')) || t.Word?
  }

  lemma StartsPlain(before: string, t: Token, rest: string)
    requires WellWritten(t) && !PlainToken(t)
    ensures !Plain(before + (Write(t) + rest))
  {
    hide Doubled;
    var s, i := before + (Write(t) + rest), |before|;
    assert s[i] == Write(t)[0] && s[i] in s;
    if t.LineComment? || t.BlockComment? {
      assert s[i + 1] == Write(t)[1];
    }
  }

  lemma ReadsPlain(s: string) returns (ts: seq<Token>)
    requires Plain(s)
    ensures Readable(ts) && WriteAll(ts) == s && forall t <- ts :: PlainToken(t)
  {
    ts := EveryScriptReads(s);
    hide Plain, PlainToken, Readable, WriteAll, Write, WellWritten, EndsBefore;
    forall k | 0 <= k < |ts|
      ensures PlainToken(ts[k])
    {
      WrittenAt(ts, k);
      ReadableAt(ts, k);
      if !PlainToken(ts[k]) {
        StartsPlain(WriteAll(ts[..k]), ts[k], WriteAll(ts[k + 1..]));
      }
    }
  }

  lemma ReadableStep(t: Token, ts: seq<Token>)
    requires WellWritten(t) && EndsBefore(t, WriteAll(ts)) && Readable(ts)
    ensures Readable([t] + ts) && WriteAll([t] + ts) == Write(t) + WriteAll(ts)
  {
    assert ([t] + ts)[1..] == ts;
  }

  lemma ReadableParts(ts: seq<Token>)
    requires Readable(ts) && ts != []
    ensures WellWritten(ts[0]) && EndsBefore(ts[0], WriteAll(ts[1..])) && Readable(ts[1..])
    ensures WriteAll(ts) == Write(ts[0]) + WriteAll(ts[1..]) && ts == [ts[0]] + ts[1..]
  {
  }

  /** Tokens after plain ones, when the last plain one ends there. */
  lemma {:induction false} ReadableJoins(a: seq<Token>, b: seq<Token>)
    requires Readable(a) && Readable(b) && forall t <- a :: PlainToken(t)
    requires a != [] ==> EndsBefore(a[|a| - 1], WriteAll(b))
    ensures Readable(a + b) && WriteAll(a + b) == WriteAll(a) + WriteAll(b)
    decreases |a|
  {
    if a == [] {
      assert a + b == b;
    } else {
      hide Write, WellWritten, EndsBefore, PlainToken, Readable, WriteAll;
      var t, rest := a[0], a[1..];
      assert t in a && (rest != [] ==> rest[|rest| - 1] == a[|a| - 1]);
      ReadableParts(a);
      ReadableJoins(rest, b);
      PlainEndsLater(t, rest, WriteAll(b));
      ReadableStep(t, rest + b);
      Regroup([t], rest, b);
      Regroup(Write(t), WriteAll(rest), WriteAll(b));
    }
  }

  lemma PlainEndsLater(t: Token, rest: seq<Token>, more: string)
    requires PlainToken(t) && Readable(rest) && EndsBefore(t, WriteAll(rest))
    requires rest == [] ==> EndsBefore(t, more)
    ensures EndsBefore(t, WriteAll(rest) + more)
  {
    hide EndsBefore, PlainToken, Readable, Write;
    var next := WriteAll(rest);
    if rest == [] {
      assert next + more == more;
    } else {
      ReadableAt(rest, 0);
      TokenWritten(rest[0], WriteAll(rest[1..]));
      assert next != [] && (next + more)[0] == next[0];
      PlainEndsSooner(t, next, next + more);
    }
  }

  lemma PlainEndsSooner(t: Token, rest: string, longer: string)
    requires PlainToken(t) && EndsBefore(t, rest) && rest != [] && longer != [] && rest[0] == longer[0]
    ensures EndsBefore(t, longer)
  {
  }

  lemma OnePiece(s: string)
    requires Pieces(s) == [s]
    ensures OneStatement(s)
  {
    hide Says, Trim, Pieces;
    KeptOne(s, []);
    assert [s] + [] == [s];
  }

  lemma PlainIsNoCut(ts: seq<Token>)
    requires forall t <- ts :: t != Mark(';')
    ensures forall k :: 0 <= k < |ts| ==> !IsCut(ts, k)
  {
    assert forall k :: 0 <= k < |ts| ==> ts[k] in ts;
  }

  lemma JoinedPlain(x: seq<Token>, t: Token, z: seq<Token>)
    requires (forall u <- x + z :: PlainToken(u)) && t != Mark(';')
    ensures forall u <- x + ([t] + z) :: u != Mark(';')
  {
    forall u <- x + ([t] + z)
      ensures u != Mark(';')
    {
      assert u in x + z || u == t;
    }
  }

  /** A literal or a comment between plain texts. */
  lemma BetweenPlain(a: string, t: Token, b: string)
    requires Plain(a) && Plain(b) && WellWritten(t) && EndsBefore(t, b) && !t.Mark? && !t.Word?
    requires a != [] && t.LineComment? ==> a[|a| - 1] != '-'
    ensures OneStatement(a + (Write(t) + b))
  {
    hide Plain, OneStatement, IsCut, Pieces, PlainToken, Readable, WriteAll, Write, EndsBefore, WellWritten;
    var x := ReadsPlain(a);
    var z := ReadsPlain(b);
    ReadableStep(t, z);
    if x != [] {
      LastOfPlain(x);
      EndsAtLiteral(x[|x| - 1], t, b);
    }
    ReadableJoins(x, [t] + z);
    JoinedPlain(x, t, z);
    var ts := x + ([t] + z);
    PlainIsNoCut(ts);
    NoCut(ts);
    OnePiece(WriteAll(ts));
  }

  lemma LastOfPlain(ts: seq<Token>)
    requires Readable(ts) && ts != [] && forall t <- ts :: PlainToken(t)
    ensures PlainToken(ts[|ts| - 1])
    ensures WriteAll(ts) != []
    ensures ts[|ts| - 1].Mark? ==> WriteAll(ts)[|WriteAll(ts)| - 1] == ts[|ts| - 1].c
  {
    var n := |ts| - 1;
    assert ts[n] in ts;
    WrittenAt(ts, n);
    ReadableAt(ts, n);
    assert ts[n + 1..] == [];
  }

  lemma EndsAtLiteral(last: Token, t: Token, b: string)
    requires PlainToken(last) && WellWritten(t) && !t.Mark? && !t.Word?
    requires t.LineComment? && last.Mark? ==> last.c != '-'
    ensures EndsBefore(last, Write(t) + b)
  {
    hide Doubled;
  }

  lemma {:induction false} NothingDoubled(quote: char, body: string)
    requires quote !in body
    ensures Doubled(quote, body) == body
    decreases |body|
  {
    if body != [] {
      NothingDoubled(quote, body[1..]);
      assert body == [body[0]] + body[1..];
    }
  }

  lemma NothingIsPlain()
    ensures Plain([])
  {
  }

  lemma PlainEndsQuote(quote: char, b: string)
    requires quote in "'\"`" && Plain(b)
    ensures b != [] ==> b[0] != quote
  {
    if b != [] { assert b[0] in b; }
  }

  /** A quoted text is not cut, whatever it holds, its own quotes doubled; one never closed swallows the rest. */
  lemma QuotedIsOne(a: string, quote: char, body: string, b: string)
    requires quote in "'\"`" && Plain(a) && Plain(b)
    ensures OneStatement(a + ([quote] + (Doubled(quote, body) + [quote]) + b))
    ensures OneStatement(a + [quote] + Doubled(quote, body))
    ensures quote !in body ==> OneStatement(a + ([quote] + (body + [quote]) + b))
  {
    hide OneStatement, Plain;
    NothingIsPlain();
    PlainEndsQuote(quote, b);
    BetweenPlain(a, Quoted(quote, body, true), b);
    BetweenPlain(a, Quoted(quote, body, false), []);
    var inside := Doubled(quote, body);
    assert inside + [] == inside && a + ([quote] + inside + []) == a + [quote] + inside;
    if quote !in body { NothingDoubled(quote, body); }
  }

  lemma BracketedIsOne(a: string, body: string, b: string)
    requires ']' !in body && Plain(a) && Plain(b)
    ensures OneStatement(a + ("[" + (body + "]") + b))
    ensures OneStatement(a + "[" + body)
  {
    hide OneStatement, Plain;
    NothingIsPlain();
    BetweenPlain(a, Bracketed(body, true), b);
    BetweenPlain(a, Bracketed(body, false), []);
    assert body + [] == body && a + ("[" + body + []) == a + "[" + body;
  }

  /** A comment to the end of its line is not cut; the text after the line break is read again. */
  lemma LineCommentIsOne(a: string, text: string, b: string)
    requires Plain(a) && (a != [] ==> a[|a| - 1] != '-') && '\n' !in text && Plain(b) && (b != [] ==> b[0] == '\n')
    ensures OneStatement(a + ("--" + text + b))
  {
    BetweenPlain(a, LineComment(text), b);
  }

  /** A comment is not cut up to its first end, or the end of the script. */
  lemma BlockCommentIsOne(a: string, text: string, b: string)
    requires Plain(a) && Plain(b) && forall k :: 0 < k < |text| ==> !(text[k - 1] == '*' && text[k] == '/')
    ensures OneStatement(a + ("/*" + (text + "*/") + b))
    ensures OneStatement(a + "/*" + text)
  {
    hide OneStatement, Plain;
    NothingIsPlain();
    BetweenPlain(a, BlockComment(text, true), b);
    BetweenPlain(a, BlockComment(text, false), []);
    assert text + [] == text && a + ("/*" + text + []) == a + "/*" + text;
  }

  /** TRIGGER stands nowhere in the text, in no case, not even inside a longer word. */
  ghost predicate NoTrigger(text: string) {
    forall k, j :: 0 <= k && j == k + 7 <= |text| ==> !Spells(text[k..j], "TRIGGER")
  }

  lemma NoTriggerBefore(text: string, more: string)
    requires NoTrigger(text + more)
    ensures !NamesTrigger(text)
  {
    hide Spells;
    forall k | 0 <= k <= |text| - 7
      ensures !TriggerFrom(text, k)
    {
      assert (text + more)[k..k + 7] == text[k..k + 7];
    }
  }

  lemma {:induction false} NoTriggerNoNesting(ts: seq<Token>, n: nat)
    requires NoTrigger(WriteAll(ts)) && n <= |ts|
    ensures Nesting(ts[..n]) == 0
    decreases n
  {
    hide Spells, WriteAll, NamesTrigger, NoTrigger;
    if n > 0 {
      NoTriggerNoNesting(ts, n - 1);
      assert ts[..n][..n - 1] == ts[..n - 1];
      WriteAllSplits(ts, n - 1);
      NoTriggerBefore(WriteAll(ts[..n - 1]), WriteAll(ts[n - 1..]));
    }
  }

  lemma {:induction false} PlainSpeaks(ts: seq<Token>)
    requires Readable(ts) && forall t <- ts :: PlainToken(t)
    ensures AllSpace(WriteAll(ts)) <==> forall k :: 0 <= k < |ts| ==> !Speaks(ts[k])
    decreases |ts|
  {
    hide EndsBefore;
    if ts != [] {
      assert ts[0] in ts;
      PlainSpeaks(ts[1..]);
      assert forall k :: 0 <= k < |ts| - 1 ==> ts[1..][k] == ts[k + 1];
      var rest := WriteAll(ts[1..]);
      assert WriteAll(ts) == Write(ts[0]) + rest;
      assert forall k :: 0 <= k < |rest| ==> (Write(ts[0]) + rest)[|Write(ts[0])| + k] == rest[k];
      assert (Write(ts[0]) + rest)[0] == Write(ts[0])[0];
    }
  }

  /** A semicolon in plain text that names no trigger is cut at: the text before it is a statement unless it is all space. */
  lemma SemicolonCuts(a: string, b: string)
    requires Plain(a) && NoTrigger(a)
    ensures Split(a + (";" + b)) == (if AllSpace(a) then [] else [Trim(a)]) + Split(b)
  {
    hide Split, AllSpace, Speaks, NoTrigger, Plain, Trim, Readable, Nesting, PlainToken;
    var x := ReadsPlain(a);
    var z := EveryScriptReads(b);
    var y := [Mark(';')] + z;
    ReadableStep(Mark(';'), z);
    assert WriteAll(y) == ";" + b;
    EndsAtSemicolon(x, b);
    ReadableJoins(x, y);
    var ts, m := x + y, |x|;
    assert ts[..m] == x && ts[m + 1..] == z;
    NoTriggerNoNesting(x, m);
    assert x[..m] == x;
    assert IsCut(ts, m);
    forall j | 0 <= j < m
      ensures !IsCut(ts, j)
    {
      assert ts[j] == x[j] && x[j] in x;
      PlainIsNoSemicolon(x[j]);
    }
    FirstStatement(ts, m);
    PlainSpeaks(x);
  }

  lemma PlainIsNoSemicolon(t: Token)
    requires PlainToken(t)
    ensures t != Mark(';')
  {
  }

  lemma EndsAtSemicolon(x: seq<Token>, b: string)
    requires forall t <- x :: PlainToken(t)
    ensures x != [] ==> EndsBefore(x[|x| - 1], ";" + b)
  {
    if x != [] { assert x[|x| - 1] in x; }
  }

  // ---------------------------------------------------------------- A trigger that is cut in two

  /** The words with a space after each. */
  ghost function Spaced(words: seq<string>): seq<Token> {
    if words == [] then [] else [Word(words[0]), Mark(' ')] + Spaced(words[1..])
  }

  lemma {:induction false} SpacedReads(words: seq<string>, rest: seq<Token>)
    requires (forall w <- words :: WellWritten(Word(w))) && Readable(rest)
    ensures Readable(Spaced(words) + rest)
    decreases |words|
  {
    if words == [] {
      assert Spaced(words) + rest == rest;
    } else {
      hide Write, WriteAll, Readable, WellWritten;
      var tail := Spaced(words[1..]) + rest;
      SpacedReads(words[1..], rest);
      assert words[0] in words;
      WordThenSpace(words[0], tail);
      assert Spaced(words) + rest == [Word(words[0])] + ([Mark(' ')] + tail);
    }
  }

  lemma WordThenSpace(word: string, tail: seq<Token>)
    requires WellWritten(Word(word)) && Readable(tail)
    ensures Readable([Word(word)] + ([Mark(' ')] + tail))
  {
    ReadableStep(Mark(' '), tail);
    ReadableStep(Word(word), [Mark(' ')] + tail);
  }

  lemma {:induction false} SpacedTokens(words: seq<string>, t: Token)
    requires t in Spaced(words)
    ensures t == Mark(' ') || (t.Word? && t.text in words)
    decreases |words|
  {
    if words != [] && t != Word(words[0]) && t != Mark(' ') {
      SpacedTokens(words[1..], t);
    }
  }

  ghost function CaseHead(): seq<Token> {
    Spaced(["CREATE", "TRIGGER", "t"])
  }

  ghost function CaseBody(): seq<Token> {
    [Mark(' ')] + Spaced(["SELECT", "CASE", "a", "WHEN", "b", "THEN", "c"])
  }

  ghost function CaseRest(): seq<Token> {
    [Mark(' '), Word("END")]
  }

  lemma SpacedWrites(word: string, words: seq<string>)
    ensures WriteAll(Spaced([word] + words)) == word + (" " + WriteAll(Spaced(words)))
  {
    var tail := Spaced(words);
    assert ([word] + words)[1..] == words;
    assert Spaced([word] + words) == [Word(word)] + ([Mark(' ')] + tail);
    assert ([Word(word)] + ([Mark(' ')] + tail))[1..] == [Mark(' ')] + tail;
    assert ([Mark(' ')] + tail)[1..] == tail;
  }

  lemma CaseHeadWrites()
    ensures WriteAll(CaseHead()) == "CREATE TRIGGER t "
  {
    assert WriteAll(Spaced([])) == [];
    hide WriteAll, Spaced;
    assert ["CREATE", "TRIGGER", "t"] == ["CREATE"] + ["TRIGGER", "t"] && ["TRIGGER", "t"] == ["TRIGGER"] + ["t"];
    assert ["t"] == ["t"] + [];
    SpacedWrites("CREATE", ["TRIGGER", "t"]);
    SpacedWrites("TRIGGER", ["t"]);
    SpacedWrites("t", []);
  }

  lemma CaseHeadIsTrigger()
    ensures TriggerHead(CaseHead())
  {
    hide Spaced, WriteAll;
    CaseHeadWrites();
    var head, text := CaseHead(), WriteAll(CaseHead());
    forall t <- head
      ensures t != Mark(';') && (t.Word? ==> !Spells(t.text, "BEGIN"))
    {
      SpacedTokens(["CREATE", "TRIGGER", "t"], t);
    }
    assert text[7..14] == "TRIGGER";
    assert Spells("TRIGGER", "TRIGGER");
    assert TriggerFrom(text, 7);
  }

  lemma CaseBodyIsFlat()
    ensures NoBeginEnd(CaseBody())
  {
    hide Spaced;
    forall t <- CaseBody()
      ensures t.Word? ==> !Spells(t.text, "BEGIN") && !Spells(t.text, "END")
    {
      if t.Word? { SpacedTokens(["SELECT", "CASE", "a", "WHEN", "b", "THEN", "c"], t); }
    }
  }

  lemma CaseRestReads()
    ensures Readable(CaseRest()) && Readable([Word("END")] + ([Mark(';')] + CaseRest()))
    ensures Pieces(WriteAll(CaseRest())) == [" END"]
  {
    hide Pieces;
    ReadableStep(Word("END"), []);
    assert [Word("END")] + [] == [Word("END")] && WriteAll([Word("END")]) == "END";
    ReadableStep(Mark(' '), [Word("END")]);
    assert CaseRest() == [Mark(' ')] + [Word("END")] && WriteAll(CaseRest()) == " END";
    ReadableStep(Mark(';'), CaseRest());
    ReadableStep(Word("END"), [Mark(';')] + CaseRest());
    PlainIsNoCut(CaseRest());
    NoCut(CaseRest());
  }

  lemma Flatten<T>(a: seq<T>, b: T, c: T, d: seq<T>, e: T, f: T, g: seq<T>)
    ensures a + ([b] + ([c] + (d + ([e] + ([f] + g))))) == a + [b] + ([c] + d + [e] + [] + [f] + g)
  {
  }

  lemma TriggerReads(head: seq<Token>, words: seq<string>, begin: string, body: seq<Token>, bodyWords: seq<string>, end: string,
                     rest: seq<Token>)
    requires forall w <- words + bodyWords + [begin] :: WellWritten(Word(w))
    requires head == Spaced(words) && body == [Mark(' ')] + Spaced(bodyWords)
    requires Readable([Word(end)] + ([Mark(';')] + rest))
    ensures Readable(head + [Word(begin)] + (body + [Word(end)] + [] + [Mark(';')] + rest))
  {
    hide WriteAll, Readable, Write, Spaced, WellWritten;
    var tail := [Word(end)] + ([Mark(';')] + rest);
    assert (forall w <- words :: w in words + bodyWords + [begin]) && (forall w <- bodyWords :: w in words + bodyWords + [begin]);
    SpacedReads(bodyWords, tail);
    WordThenSpace(begin, Spaced(bodyWords) + tail);
    SpacedReads(words, [Word(begin)] + ([Mark(' ')] + (Spaced(bodyWords) + tail)));
    Flatten(Spaced(words), Word(begin), Mark(' '), Spaced(bodyWords), Word(end), Mark(';'), rest);
  }

  lemma NothingIsFlat()
    ensures NoBeginEnd([])
  {
  }

  lemma CaseWords()
    ensures CaseHead() == Spaced(["CREATE", "TRIGGER", "t"])
    ensures CaseBody() == [Mark(' ')] + Spaced(["SELECT", "CASE", "a", "WHEN", "b", "THEN", "c"])
  {
  }

  /** A trigger with a CASE in its body is cut after the CASE. */
  lemma CaseCutsTrigger()
    ensures Pieces(WriteAll(CaseHead() + [Word("BEGIN")] + (CaseBody() + [Word("END"), Mark(';')] + CaseRest())))
         == [WriteAll(CaseHead() + [Word("BEGIN")] + CaseBody() + [Word("END")]), " END"]
  {
    hide Pieces, WriteAll, TriggerHead, NoBeginEnd, Readable, CaseHead, CaseBody, CaseRest, Spaced;
    CaseHeadIsTrigger();
    CaseBodyIsFlat();
    CaseRestReads();
    CaseWords();
    NothingIsFlat();
    TriggerReads(CaseHead(), ["CREATE", "TRIGGER", "t"],
                 "BEGIN", CaseBody(), ["SELECT", "CASE", "a", "WHEN", "b", "THEN", "c"], "END", CaseRest());
    CaseEndsTheBody(CaseHead(), "BEGIN", CaseBody(), "END", [], CaseRest());
    assert CaseBody() + [Word("END")] + [] + [Mark(';')] == CaseBody() + [Word("END"), Mark(';')];
    var first := CaseHead() + [Word("BEGIN")] + CaseBody() + [Word("END")];
    assert first + [] == first;
  }
}
