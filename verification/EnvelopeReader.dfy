/** A reader of rendered envelopes, which undoes the rendering of any batch. */
module EnvelopeReader {
  import opened Texts
  import opened Wrappers
  import opened Envelopes

  // ---------------------------------------------------------------- Printing, followed by what comes after

  function AttributesThen(attributes: seq<(string, string)>, rest: string): string {
    if attributes == [] then rest
    else
      " " + (attributes[0].0 + ("=\"" + (EscapeAttribute(attributes[0].1) + ("\"" + AttributesThen(attributes[1..], rest)))))
  }

  function LineThen(line: Line, rest: string): string {
    "  <" + (line.name + AttributesThen(line.attributes,
      match line.content
      case None => "/>" + rest
      case Some(content) => ">" + (EscapeText(content) + ("</" + (line.name + (">" + rest))))))
  }

  function LinesThen(lines: seq<Line>, rest: string): string {
    if lines == [] then rest else "\n" + LineThen(lines[0], LinesThen(lines[1..], rest))
  }

  function EnvelopeThen(e: Envelope, rest: string): string {
    "<system_event type=\"" + (EscapeAttribute(e.kind) + ("\">" + LinesThen(e.lines, "\n</system_event>" + rest)))
  }

  function Print(es: seq<Envelope>): string {
    if es == [] then "" else EnvelopeThen(es[0], if |es| == 1 then "" else "\n\n" + Print(es[1..]))
  }

  // ---------------------------------------------------------------- Reading

  /** Where the first of these characters comes, or the end. */
  function Until(text: string, stops: set<char>): (n: nat)
    ensures n <= |text|
  {
    if text == "" || text[0] in stops then 0 else 1 + Until(text[1..], stops)
  }

  function Expect(text: string, token: string): Option<string> {
    if token <= text then Some(text[|token|..]) else None
  }

  function ReadAttributes(text: string): (r: Option<(seq<(string, string)>, string)>)
    ensures r.Some? ==> |r.value.1| <= |text|
    decreases |text|
  {
    if text == "" || text[0] != ' ' then Some(([], text))
    else
      var n := Until(text[1..], {'='});
      match Expect(text[1..][n..], "=\"")
      case None => None
      case Some(quoted) =>
        var m := Until(quoted, {'"'});
        match Expect(quoted[m..], "\"")
        case None => None
        case Some(after) =>
          match ReadAttributes(after)
          case None => None
          case Some((more, rest)) => Some(([(text[1..][..n], Unescape(quoted[..m]))] + more, rest))
  }

  function ReadLine(text: string): (r: Option<(Line, string)>)
    ensures r.Some? ==> |r.value.1| < |text|
  {
    match Expect(text, "  <")
    case None => None
    case Some(named) =>
      var n := Until(named, {' ', '>', '/'});
      match ReadAttributes(named[n..])
      case None => None
      case Some((attributes, after)) =>
        match Expect(after, "/>")
        case Some(rest) => Some((Line(named[..n], attributes, None), rest))
        case None =>
          match Expect(after, ">")
          case None => None
          case Some(content) =>
            var m := Until(content, {'<'});
            match Expect(content[m..], "</" + (named[..n] + ">"))
            case None => None
            case Some(rest) => Some((Line(named[..n], attributes, Some(Unescape(content[..m]))), rest))
  }

  function ReadLines(text: string): (r: Option<(seq<Line>, string)>)
    ensures r.Some? ==> |r.value.1| <= |text|
    decreases |text|
  {
    if !("\n  <" <= text) then Some(([], text))
    else
      match ReadLine(text[1..])
      case None => None
      case Some((line, after)) =>
        match ReadLines(after)
        case None => None
        case Some((lines, rest)) => Some(([line] + lines, rest))
  }

  function ReadEnvelope(text: string): (r: Option<(Envelope, string)>)
    ensures r.Some? ==> |r.value.1| < |text|
  {
    match Expect(text, "<system_event type=\"")
    case None => None
    case Some(quoted) =>
      var n := Until(quoted, {'"'});
      match Expect(quoted[n..], "\">")
      case None => None
      case Some(inner) =>
        match ReadLines(inner)
        case None => None
        case Some((lines, after)) =>
          match Expect(after, "\n</system_event>")
          case None => None
          case Some(rest) => Some((Envelope(Unescape(quoted[..n]), lines), rest))
  }

  function Read(text: string): Option<seq<Envelope>>
    decreases |text|
  {
    if text == "" then Some([])
    else
      match ReadEnvelope(text)
      case None => None
      case Some((e, after)) =>
        if after == "" then Some([e])
        else
          match Expect(after, "\n\n")
          case None => None
          case Some(rest) =>
            match Read(rest)
            case None => None
            case Some(es) => Some([e] + es)
  }

  // ---------------------------------------------------------------- Reading what was printed

  lemma {:induction false} UntilStops(text: string, rest: string, stops: set<char>)
    requires forall k :: 0 <= k < |text| ==> text[k] !in stops
    requires rest != "" && rest[0] in stops
    ensures Until(text + rest, stops) == |text|
    ensures (text + rest)[..|text|] == text && (text + rest)[|text|..] == rest
    decreases |text|
  {
    if text == "" {
      assert text + rest == rest;
    } else {
      assert (text + rest)[1..] == text[1..] + rest;
      UntilStops(text[1..], rest, stops);
    }
  }

  lemma ExpectToken(token: string, rest: string)
    ensures Expect(token + rest, token) == Some(rest)
  {
    assert (token + rest)[|token|..] == rest;
  }

  /** The names the renderer uses. */
  predicate Name(name: string) {
    name != "" && forall k :: 0 <= k < |name| ==> WordChar(name[k])
  }

  predicate NamedLine(line: Line) {
    Name(line.name) && forall k :: 0 <= k < |line.attributes| ==> Name(line.attributes[k].0)
  }

  function AttributeThen(name: string, value: string, after: string): string {
    name + ("=\"" + (EscapeAttribute(value) + ("\"" + after)))
  }

  /** One attribute, found where it was printed. */
  lemma FindsAttribute(name: string, value: string, after: string)
    requires Name(name)
    ensures var named := AttributeThen(name, value, after);
            var n := Until(named, {'='});
            && named[..n] == name
            && var quoted := Expect(named[n..], "=\"");
            && quoted.Some?
            && var m := Until(quoted.value, {'"'});
            && Unescape(quoted.value[..m]) == value
            && Expect(quoted.value[m..], "\"") == Some(after)
  {
    var closing := "\"" + after;
    var quoted := EscapeAttribute(value) + closing;
    EscapedIsPlain(value);
    UnescapesBack(value);
    ExpectToken("=\"", quoted);
    ExpectToken("\"", after);
    hide EscapeAttribute, Unescape, Until, Expect;
    UntilStops(name, "=\"" + quoted, {'='});
    UntilStops(EscapeAttribute(value), closing, {'"'});
  }

  /** Reading an attribute, then the rest. */
  lemma ReadsOneAttribute(name: string, value: string, after: string, more: seq<(string, string)>, rest: string)
    requires Name(name) && ReadAttributes(after) == Some((more, rest))
    ensures ReadAttributes(" " + AttributeThen(name, value, after)) == Some(([(name, value)] + more, rest))
  {
    FindsAttribute(name, value, after);
    hide AttributeThen, Name, Until, Expect, Unescape;
    var text, named := " " + AttributeThen(name, value, after), AttributeThen(name, value, after);
    assert text[0] == ' ' && text[1..] == named;
  }

  lemma {:induction false} ReadsAttributes(attributes: seq<(string, string)>, rest: string)
    requires forall k :: 0 <= k < |attributes| ==> Name(attributes[k].0)
    requires rest != "" && rest[0] != ' '
    ensures ReadAttributes(AttributesThen(attributes, rest)) == Some((attributes, rest))
    decreases |attributes|
  {
    if attributes == [] {
    } else {
      var (name, value) := attributes[0];
      assert Name(attributes[0].0);
      hide EscapeAttribute, Name, ReadAttributes;
      ReadsAttributes(attributes[1..], rest);
      ReadsOneAttribute(name, value, AttributesThen(attributes[1..], rest), attributes[1..], rest);
      assert [(name, value)] + attributes[1..] == attributes;
    }
  }

  lemma AttributesBegin(attributes: seq<(string, string)>, rest: string)
    requires rest != "" && rest[0] in {'>', '/'}
    ensures var text := AttributesThen(attributes, rest); text != "" && text[0] in {' ', '>', '/'}
  {
  }

  lemma ExpectNot(text: string, token: string)
    requires text != "" && token != "" && text[0] != token[0]
    ensures Expect(text, token) == None
  {
  }

  /** A name, its attributes, and what comes after them. */
  lemma ReadsHead(line: Line, tail: string)
    requires NamedLine(line) && tail != "" && tail[0] in {'>', '/'}
    ensures var named := line.name + AttributesThen(line.attributes, tail);
            && Expect("  <" + named, "  <") == Some(named)
            && Until(named, {' ', '>', '/'}) == |line.name| && named[..|line.name|] == line.name
            && ReadAttributes(named[|line.name|..]) == Some((line.attributes, tail))
  {
    var attributed := AttributesThen(line.attributes, tail);
    AttributesBegin(line.attributes, tail);
    ExpectToken("  <", line.name + attributed);
    hide AttributesThen, ReadAttributes, Expect, Until;
    UntilStops(line.name, attributed, {' ', '>', '/'});
    ReadsAttributes(line.attributes, tail);
  }

  lemma ReadsLine(line: Line, rest: string)
    requires NamedLine(line)
    ensures ReadLine(LineThen(line, rest)) == Some((line, rest))
  {
    hide AttributesThen, ReadAttributes, Expect, Until, EscapeText, Unescape, NamedLine;
    match line.content
    case None =>
      ReadsHead(line, "/>" + rest);
      ExpectToken("/>", rest);
    case Some(content) =>
      var escaped, closing := EscapeText(content), "</" + (line.name + (">" + rest));
      ReadsHead(line, ">" + (escaped + closing));
      ExpectNot(">" + (escaped + closing), "/>");
      ExpectToken(">", escaped + closing);
      EscapedIsPlain(content);
      UntilStops(escaped, closing, {'<'});
      assert closing == ("</" + (line.name + ">")) + rest;
      ExpectToken("</" + (line.name + ">"), rest);
      UnescapesBack(content);
  }

  lemma LineBegins(line: Line, rest: string)
    ensures "\n  <" <= "\n" + LineThen(line, rest)
  {
    hide AttributesThen, EscapeText;
    var text := "\n" + LineThen(line, rest);
    assert text[..4] == "\n  <";
  }

  lemma {:induction false} ReadsLines(lines: seq<Line>, rest: string)
    requires forall k :: 0 <= k < |lines| ==> NamedLine(lines[k])
    requires !("\n  <" <= rest)
    ensures ReadLines(LinesThen(lines, rest)) == Some((lines, rest))
    decreases |lines|
  {
    hide LineThen, ReadLine, NamedLine;
    if lines == [] {
    } else {
      var after := LinesThen(lines[1..], rest);
      var text := LinesThen(lines, rest);
      assert text == "\n" + LineThen(lines[0], after) && text[1..] == LineThen(lines[0], after);
      LineBegins(lines[0], after);
      ReadsLine(lines[0], after);
      ReadsLines(lines[1..], rest);
      assert [lines[0]] + lines[1..] == lines;
    }
  }

  lemma ReadsEnvelope(e: Envelope, rest: string)
    requires forall k :: 0 <= k < |e.lines| ==> NamedLine(e.lines[k])
    ensures ReadEnvelope(EnvelopeThen(e, rest)) == Some((e, rest))
  {
    var close := "\n</system_event>" + rest;
    var inner := LinesThen(e.lines, close);
    var quoted := EscapeAttribute(e.kind) + ("\">" + inner);
    ExpectToken("<system_event type=\"", quoted);
    EscapedIsPlain(e.kind);
    UntilStops(EscapeAttribute(e.kind), "\">" + inner, {'"'});
    ExpectToken("\">", inner);
    assert !("\n  <" <= close) by { assert close[1] == '<'; }
    ReadsLines(e.lines, close);
    ExpectToken("\n</system_event>", rest);
    UnescapesBack(e.kind);
    hide EscapeAttribute, Unescape, Until, LinesThen, ReadLines, Expect;
  }

  lemma EnvelopeIsSome(e: Envelope, rest: string)
    ensures EnvelopeThen(e, rest) != ""
  {
  }

  lemma {:induction false} ReadsBatch(es: seq<Envelope>)
    requires forall j, k :: 0 <= j < |es| && 0 <= k < |es[j].lines| ==> NamedLine(es[j].lines[k])
    ensures Read(Print(es)) == Some(es)
    decreases |es|
  {
    hide EnvelopeThen, ReadEnvelope, NamedLine;
    if es == [] {
    } else {
      var after := if |es| == 1 then "" else "\n\n" + Print(es[1..]);
      ReadsEnvelope(es[0], after);
      EnvelopeIsSome(es[0], after);
      if |es| == 1 {
        assert es == [es[0]];
      } else {
        ExpectToken("\n\n", Print(es[1..]));
        ReadsBatch(es[1..]);
        assert [es[0]] + es[1..] == es;
      }
    }
  }

  // ---------------------------------------------------------------- What is rendered is what is printed

  lemma {:induction false} AttributesThenAppend(attributes: seq<(string, string)>, a: string, b: string)
    ensures AttributesThen(attributes, a + b) == AttributesThen(attributes, a) + b
    decreases |attributes|
  {
    if attributes != [] { AttributesThenAppend(attributes[1..], a, b); }
    hide EscapeAttribute;
  }

  lemma LineThenAppend(line: Line, a: string, b: string)
    ensures LineThen(line, a + b) == LineThen(line, a) + b
  {
    hide AttributesThen, EscapeText;
    match line.content
    case None =>
      AttributesThenAppend(line.attributes, "/>" + a, b);
      assert ("/>" + a) + b == "/>" + (a + b);
    case Some(content) =>
      var escaped := EscapeText(content);
      AttributesThenAppend(line.attributes, ">" + (escaped + ("</" + (line.name + (">" + a)))), b);
      assert (">" + (escaped + ("</" + (line.name + (">" + a))))) + b == ">" + (escaped + ("</" + (line.name + (">" + (a + b)))));
  }

  lemma {:induction false} AttributesPrint(values: seq<(string, Option<string>)>, rest: string)
    ensures Attributes(values) + rest == AttributesThen(Present(values), rest)
    decreases |values|
  {
    hide EscapeAttribute;
    if values == [] {
      assert "" + rest == rest;
    } else {
      AttributesPrint(values[1..], rest);
      var (name, value) := values[0];
      if value.Some? {
        assert Present(values) == [(name, value.value)] + Present(values[1..]);
        assert Present(values)[1..] == Present(values[1..]);
        var escaped := EscapeAttribute(value.value);
        assert (" " + name + "=\"" + escaped + "\"" + Attributes(values[1..])) + rest
            == " " + (name + ("=\"" + (escaped + ("\"" + (Attributes(values[1..]) + rest)))));
      } else {
        assert Attributes(values) == Attributes(values[1..]) && Present(values) == Present(values[1..]);
      }
    }
  }

  /** These texts are these lines, printed. */
  ghost predicate Prints(texts: seq<string>, lines: seq<Line>) {
    |texts| == |lines| && forall k :: 0 <= k < |lines| ==> texts[k] == LineThen(lines[k], "") && NamedLine(lines[k])
  }

  lemma PrintsAppend(a: seq<string>, b: seq<string>, c: seq<Line>, d: seq<Line>)
    requires Prints(a, c) && Prints(b, d)
    ensures Prints(a + b, c + d)
  {
    hide LineThen, NamedLine;
  }

  predicate NamedAll(values: seq<(string, Option<string>)>) {
    forall k :: 0 <= k < |values| ==> Name(values[k].0)
  }

  lemma {:induction false} PresentNamed(values: seq<(string, Option<string>)>)
    requires NamedAll(values)
    ensures forall k :: 0 <= k < |Present(values)| ==> Name(Present(values)[k].0)
    decreases |values|
  {
    hide Name;
    if values == [] {
    } else {
      assert Name(values[0].0) && forall k :: 0 <= k < |values[1..]| ==> values[1..][k] == values[k + 1];
      PresentNamed(values[1..]);
    }
  }

  lemma RegroupTag(a: string, b: string, c: string, d: string, e: string, f: string, g: string, h: string)
    ensures a + b + c + d + e + f + g + h == a + (b + (c + (d + (e + (f + (g + h))))))
  {
    assert a + b + c + d == a + (b + (c + d));
    assert a + b + c + d + e + f + g + h == (a + b + c + d) + (e + (f + (g + h)));
  }

  lemma PrintsTagged(name: string, values: seq<(string, Option<string>)>, content: string)
    requires Name(name) && NamedAll(values)
    ensures Prints(["  <" + name + Attributes(values) + ">" + EscapeText(content) + "</" + name + ">"],
                   [Line(name, Present(values), Some(content))])
  {
    var escaped := EscapeText(content);
    PresentNamed(values);
    AttributesPrint(values, ">" + (escaped + ("</" + (name + (">" + "")))));
    hide Attributes, AttributesThen, Present, Name, EscapeText;
    RegroupTag("  <", name, Attributes(values), ">", escaped, "</", name, ">");
    assert ">" + "" == ">";
  }

  lemma PrintsClosed(name: string, values: seq<(string, Option<string>)>)
    requires Name(name) && NamedAll(values)
    ensures Prints(["  <" + name + Attributes(values) + "/>"], [Line(name, Present(values), None)])
  {
    PresentNamed(values);
    AttributesPrint(values, "/>" + "");
    hide Attributes, AttributesThen, Present, Name;
    assert "  <" + name + Attributes(values) + "/>" == "  <" + (name + (Attributes(values) + ("/>" + "")));
  }

  lemma PrintsElement(name: string, content: string)
    requires Name(name)
    ensures Prints([Element(name, content)], [Plain(name, content)])
  {
    PrintsTagged(name, [], content);
    hide EscapeText;
    assert "  <" + name + "" == "  <" + name;
  }

  lemma {:induction false} JoinPrints(head: string, texts: seq<string>, lines: seq<Line>, tail: string)
    requires Prints(texts, lines)
    ensures Join([head] + texts + [tail], "\n") == head + LinesThen(lines, "\n" + tail)
    decreases |texts|
  {
    var all := [head] + texts + [tail];
    assert all[1..] == texts + [tail];
    if texts == [] {
      assert all[1..] == [tail];
      assert Join([tail], "\n") == tail;
    } else {
      var rest := LinesThen(lines[1..], "\n" + tail);
      assert texts + [tail] == [texts[0]] + texts[1..] + [tail];
      assert Join(all, "\n") == head + "\n" + Join(texts + [tail], "\n");
      hide LineThen, Join;
      JoinPrints(texts[0], texts[1..], lines[1..], tail);
      LineThenAppend(lines[0], "", rest);
      assert "" + rest == rest;
    }
  }

  lemma EnvelopePrints(kind: string, texts: seq<string>, lines: seq<Line>)
    requires Prints(texts, lines)
    ensures EnvelopeText(kind, texts) == EnvelopeThen(Envelope(kind, lines), "")
  {
    hide Prints, LinesThen, Join, EscapeAttribute;
    var escaped := EscapeAttribute(kind);
    JoinPrints("<system_event type=\"" + escaped + "\">", texts, lines, "</system_event>");
    assert "\n" + "</system_event>" == "\n</system_event>" + "";
  }

  // ---------------------------------------------------------------- Every item

  lemma NamesAreNames()
    ensures Name("sent_at") && Name("occurred_at") && Name("text") && Name("data") && Name("source") && Name("reason")
    ensures Name("link") && Name("report") && Name("error") && Name("subscription_note") && Name("mail") && Name("task")
    ensures Name("reply_to") && Name("forwarded_from") && Name("attachment")
  {
  }

  lemma AttributesAreNamed()
    ensures Name("kind") && Name("username") && Name("sent_at") && Name("from") && Name("path") && Name("name") && Name("type")
    ensures Name("size") && Name("status") && Name("account") && Name("message") && Name("thread") && Name("id")
    ensures Name("trigger") && Name("capped") && Name("cancelled")
  {
  }

  lemma PrintsAttachment(a: Attachment)
    ensures Prints([RenderAttachment(a)],
                   [Line("attachment", Present(AttachmentAttributes(a)), if Problem(a) != "" then Some(Problem(a)) else None)])
  {
    NamesAreNames();
    AttributesAreNamed();
    hide Name, Prints, EscapeText, Attributes, Present, Problem;
    var values := AttachmentAttributes(a);
    assert "  <" + "attachment" == "  <attachment" && "</" + "attachment" + ">" == "</attachment>";
    if Problem(a) != "" {
      PrintsTagged("attachment", values, Problem(a));
      assert "  <" + "attachment" + Attributes(values) + ">" + EscapeText(Problem(a)) + "</" + "attachment" + ">"
          == "  <attachment" + Attributes(values) + ">" + EscapeText(Problem(a)) + "</attachment>";
    } else {
      PrintsClosed("attachment", values);
    }
  }

  lemma PrintsForward(f: Forward)
    ensures Prints(["  <forwarded_from" + Attributes([("kind", Some(f.kind)), ("username", f.username), ("sent_at", Some(f.sentAt))])
                    + ">" + EscapeText(f.name) + "</forwarded_from>"],
                   [Line("forwarded_from", Present([("kind", Some(f.kind)), ("username", f.username), ("sent_at", Some(f.sentAt))]),
                         Some(f.name))])
  {
    NamesAreNames();
    AttributesAreNamed();
    hide Name, Prints, EscapeText, Attributes, Present;
    var values := [("kind", Some(f.kind)), ("username", f.username), ("sent_at", Some(f.sentAt))];
    PrintsTagged("forwarded_from", values, f.name);
    assert "  <" + "forwarded_from" + Attributes(values) + ">" + EscapeText(f.name) + "</" + "forwarded_from" + ">"
        == "  <forwarded_from" + Attributes(values) + ">" + EscapeText(f.name) + "</forwarded_from>";
  }

  lemma PrintsReply(isReply: bool, replyTo: Option<Reply>)
    ensures Prints(ReplyLines(isReply, replyTo), ReplySays(isReply, replyTo))
  {
    NamesAreNames();
    AttributesAreNamed();
    NothingPrints();
    hide Name, Prints, EscapeText, Truncate;
    if isReply {
      match replyTo
      case None =>
        PrintsClosed("reply_to", []);
        assert "  <" + "reply_to" + "" + "/>" == "  <reply_to/>";
      case Some(r) => PrintsQuote(r.from, Truncate(r.text, QUOTE_MAX_CHARS));
    }
  }

  lemma PrintsQuote(from: string, quote: string)
    ensures Prints(["  <reply_to" + Attributes([("from", Some(from))]) + ">" + EscapeText(quote) + "</reply_to>"],
                   [Line("reply_to", [("from", from)], Some(quote))])
  {
    NamesAreNames();
    AttributesAreNamed();
    var values := [("from", Some(from))];
    assert Present(values) == [("from", from)] by { assert values[1..] == []; }
    hide Name, Prints, EscapeText, Attributes, Present;
    PrintsTagged("reply_to", values, quote);
    assert "  <" + "reply_to" == "  <reply_to";
    var before := "  <reply_to" + Attributes(values) + ">" + EscapeText(quote);
    assert before + "</" + "reply_to" + ">" == before + "</reply_to>";
  }

  lemma UserMessagePrints(m: Item)
    requires m.UserMessage?
    ensures RenderUserMessage(m) == EnvelopeThen(EnvelopeOf(m), "")
  {
    NamesAreNames();
    NothingPrints();
    PartsPrint(m);
    hide Name, Prints, ForwardLines, ForwardSays, ReplyLines, ReplySays, AttachmentLines, AttachmentSays, Element, Plain, EnvelopeText,
      EnvelopeThen;
    var t1, l1 := [Element("sent_at", m.sentAt)], [Plain("sent_at", m.sentAt)];
    PrintsElement("sent_at", m.sentAt);
    PrintsElement("source", "voice");
    PrintsElement("text", m.text);
    var t2, l2 := ForwardLines(m.forwardedFrom), ForwardSays(m.forwardedFrom);
    var t3, l3 := ReplyLines(m.isReply, m.replyTo), ReplySays(m.isReply, m.replyTo);
    var t4, l4 := AttachmentLines(m.attachment), AttachmentSays(m.attachment);
    var t5: seq<string> := if m.voice then [Element("source", "voice")] else [];
    var l5: seq<Line> := if m.voice then [Plain("source", "voice")] else [];
    var t6: seq<string> := if m.text != "" || m.attachment.None? then [Element("text", m.text)] else [];
    var l6: seq<Line> := if m.text != "" || m.attachment.None? then [Plain("text", m.text)] else [];
    PrintsAppend(t1, t2, l1, l2);
    PrintsAppend(t1 + t2, t3, l1 + l2, l3);
    PrintsAppend(t1 + t2 + t3, t4, l1 + l2 + l3, l4);
    PrintsAppend(t1 + t2 + t3 + t4, t5, l1 + l2 + l3 + l4, l5);
    PrintsAppend(t1 + t2 + t3 + t4 + t5, t6, l1 + l2 + l3 + l4 + l5, l6);
    EnvelopePrints("user_message", t1 + t2 + t3 + t4 + t5 + t6, l1 + l2 + l3 + l4 + l5 + l6);
  }

  lemma PartsPrint(m: Item)
    requires m.UserMessage?
    ensures Prints(ForwardLines(m.forwardedFrom), ForwardSays(m.forwardedFrom))
    ensures Prints(ReplyLines(m.isReply, m.replyTo), ReplySays(m.isReply, m.replyTo))
    ensures Prints(AttachmentLines(m.attachment), AttachmentSays(m.attachment))
  {
    NothingPrints();
    hide Prints, RenderAttachment, EscapeText, Attributes, Present, AttachmentAttributes, Problem, Truncate;
    if m.forwardedFrom.Some? { PrintsForward(m.forwardedFrom.value); }
    PrintsReply(m.isReply, m.replyTo);
    if m.attachment.Some? { PrintsAttachment(m.attachment.value); }
  }

  lemma PresentFour(a: string, va: string, b: string, vb: string, c: string, vc: string, d: string, vd: string)
    ensures Present([(a, Some(va)), (b, Some(vb)), (c, Some(vc)), (d, Some(vd))]) == [(a, va), (b, vb), (c, vc), (d, vd)]
  {
    var values := [(a, Some(va)), (b, Some(vb)), (c, Some(vc)), (d, Some(vd))];
    assert values[1..] == [(b, Some(vb)), (c, Some(vc)), (d, Some(vd))];
    assert values[1..][1..] == [(c, Some(vc)), (d, Some(vd))];
    assert values[1..][1..][1..] == [(d, Some(vd))];
    assert values[1..][1..][1..][1..] == [];
    assert Present(values[1..][1..][1..]) == [(d, vd)];
    assert Present(values[1..][1..]) == [(c, vc), (d, vd)];
    assert Present(values[1..]) == [(b, vb), (c, vc), (d, vd)];
  }

  lemma UserEmailPrints(m: Item)
    requires m.UserEmail?
    ensures RenderUserEmail(m) == EnvelopeThen(EnvelopeOf(m), "")
  {
    NamesAreNames();
    AttributesAreNamed();
    var values := [("account", Some(m.account)), ("from", Some(Sender(m))), ("message", Some(m.messageId)), ("thread", Some(m.threadId))];
    PresentFour("account", m.account, "from", Sender(m), "message", m.messageId, "thread", m.threadId);
    hide Name, Prints, EscapeText, Attributes, Present, Element, Plain, Sender, EnvelopeText, EnvelopeThen;
    PrintsElement("sent_at", m.sentAt);
    PrintsTagged("mail", values, m.subject);
    assert "  <" + "mail" + Attributes(values) + ">" + EscapeText(m.subject) + "</" + "mail" + ">"
        == "  <mail" + Attributes(values) + ">" + EscapeText(m.subject) + "</mail>";
    PrintsElement("text", m.text);
    PrintsElement("data", m.data);
    var mail := "  <mail" + Attributes(values) + ">" + EscapeText(m.subject) + "</mail>";
    var line := Line("mail", Present(values), Some(m.subject));
    FourPrint(Element("sent_at", m.sentAt), mail, Element("text", m.text), Element("data", m.data),
              Plain("sent_at", m.sentAt), line, Plain("text", m.text), Plain("data", m.data));
    EnvelopePrints("user_email", [Element("sent_at", m.sentAt), mail, Element("text", m.text), Element("data", m.data)],
                   [Plain("sent_at", m.sentAt), line, Plain("text", m.text), Plain("data", m.data)]);
  }

  lemma FourPrint(a: string, b: string, c: string, d: string, la: Line, lb: Line, lc: Line, ld: Line)
    requires Prints([a], [la]) && Prints([b], [lb]) && Prints([c], [lc]) && Prints([d], [ld])
    ensures Prints([a, b, c], [la, lb, lc]) && Prints([a, b, c, d], [la, lb, lc, ld])
  {
    hide Prints;
    PrintsAppend([a], [b], [la], [lb]);
    PrintsAppend([a] + [b], [c], [la] + [lb], [lc]);
    PrintsAppend([a] + [b] + [c], [d], [la] + [lb] + [lc], [ld]);
    assert [a] + [b] + [c] == [a, b, c] && [a] + [b] + [c] + [d] == [a, b, c, d];
    assert [la] + [lb] + [lc] == [la, lb, lc] && [la] + [lb] + [lc] + [ld] == [la, lb, lc, ld];
  }

  lemma TaskLinePrints(values: seq<(string, Option<string>)>, brief: string)
    requires NamedAll(values)
    ensures Prints(["  <task" + Attributes(values) + ">" + EscapeText(brief) + "</task>"], [Line("task", Present(values), Some(brief))])
  {
    NamesAreNames();
    hide Name, Prints, EscapeText, Attributes, Present;
    PrintsTagged("task", values, brief);
    assert "  <" + "task" + Attributes(values) + ">" + EscapeText(brief) + "</" + "task" + ">"
        == "  <task" + Attributes(values) + ">" + EscapeText(brief) + "</task>";
  }

  lemma NeedsUserPrints(t: Item)
    requires t.NeedsUser?
    ensures RenderTask(t) == EnvelopeThen(EnvelopeOf(t), "")
  {
    NamesAreNames();
    AttributesAreNamed();
    var values, link := [("id", Some(t.taskId))], if t.link.Some? then t.link.value else "";
    assert Present(values) == [("id", t.taskId)] by { assert values[1..] == []; }
    hide Name, Prints, EscapeText, Attributes, Present, Element, Plain, EnvelopeText, EnvelopeThen;
    PrintsElement("occurred_at", t.occurredAt);
    TaskLinePrints(values, t.brief);
    PrintsElement("reason", t.reason);
    PrintsElement("link", link);
    assert Prints([], []) by { NothingPrints(); }
    var at, task, reason := Element("occurred_at", t.occurredAt),
                            "  <task" + Attributes(values) + ">" + EscapeText(t.brief) + "</task>", Element("reason", t.reason);
    var lat, ltask, lreason := Plain("occurred_at", t.occurredAt), Line("task", Present(values), Some(t.brief)), Plain("reason", t.reason);
    FourPrint(at, task, reason, reason, lat, ltask, lreason, lreason);
    var t4: seq<string> := if link != "" then [Element("link", link)] else [];
    var l4: seq<Line> := if link != "" then [Plain("link", link)] else [];
    PrintsAppend([at, task, reason], t4, [lat, ltask, lreason], l4);
    EnvelopePrints("task.needs_user", [at, task, reason] + t4, [lat, ltask, lreason] + l4);
  }

  lemma NothingPrints()
    ensures Prints([], [])
  {
  }

  lemma TaskDonePrints(t: Item)
    requires t.TaskDone?
    ensures RenderTask(t) == EnvelopeThen(EnvelopeOf(t), "")
  {
    NamesAreNames();
    AttributesAreNamed();
    hide Name, Prints, EscapeText, Attributes, Present, Element, Plain, EnvelopeText, EnvelopeThen;
    var values := [("id", Some(t.taskId)), ("trigger", t.trigger), ("capped", Flag(t.capped)), ("cancelled", Flag(t.cancelled))];
    var name := if t.failed then "error" else "report";
    PrintsElement("occurred_at", t.occurredAt);
    TaskLinePrints(values, t.brief);
    PrintsElement(name, t.report);
    var at, task, report := Element("occurred_at", t.occurredAt),
                            "  <task" + Attributes(values) + ">" + EscapeText(t.brief) + "</task>", Element(name, t.report);
    var lat, ltask, lreport := Plain("occurred_at", t.occurredAt), Line("task", Present(values), Some(t.brief)), Plain(name, t.report);
    FourPrint(at, task, report, report, lat, ltask, lreport, lreport);
    EnvelopePrints(KindOf(t), [at, task, report], [lat, ltask, lreport]);
  }

  lemma EventPrints(e: Item)
    requires e.Event? && CatalogType(e.kind)
    ensures RenderEvent(e) == Some(EnvelopeThen(EnvelopeOf(e), ""))
  {
    NamesAreNames();
    assert Prints([], []);
    hide Name, Prints, EscapeText, Element, Plain, EnvelopeText, EnvelopeThen, CatalogType;
    var note := if e.note.Some? then e.note.value else "";
    PrintsElement("occurred_at", e.occurredAt);
    PrintsElement("subscription_note", note);
    PrintsElement("data", e.data);
    var t2: seq<string> := if e.note.Some? then [Element("subscription_note", note)] else [];
    var l2: seq<Line> := if e.note.Some? then [Plain("subscription_note", note)] else [];
    PrintsAppend([Element("occurred_at", e.occurredAt)], t2, [Plain("occurred_at", e.occurredAt)], l2);
    PrintsAppend([Element("occurred_at", e.occurredAt)] + t2, [Element("data", e.data)], [Plain("occurred_at", e.occurredAt)] + l2,
                 [Plain("data", e.data)]);
    EnvelopePrints(e.kind, [Element("occurred_at", e.occurredAt)] + t2 + [Element("data", e.data)],
                   [Plain("occurred_at", e.occurredAt)] + l2 + [Plain("data", e.data)]);
  }

  lemma ItemPrints(item: Item)
    requires RenderItem(item).Some?
    ensures RenderItem(item) == Some(EnvelopeThen(EnvelopeOf(item), ""))
  {
    match item
    case UserMessage(_, _, _, _, _, _, _) => UserMessagePrints(item);
    case UserEmail(_, _, _, _, _, _, _, _, _) => UserEmailPrints(item);
    case NeedsUser(_, _, _, _, _) => NeedsUserPrints(item);
    case TaskDone(_, _, _, _, _, _, _, _) => TaskDonePrints(item);
    case Event(_, _, _, _) => EventPrints(item);
    hide RenderUserMessage, RenderUserEmail, RenderTask, EnvelopeThen, EnvelopeOf, EnvelopeText, CatalogType;
  }

  ghost predicate AllNamed(lines: seq<Line>) {
    forall k :: 0 <= k < |lines| ==> NamedLine(lines[k])
  }

  lemma PrintsNamed(texts: seq<string>, lines: seq<Line>)
    requires Prints(texts, lines)
    ensures AllNamed(lines)
  {
  }

  lemma UserMessageNamed(m: Item)
    requires m.UserMessage?
    ensures AllNamed(LinesOf(m))
  {
    PartsPrint(m);
    NamesAreNames();
    hide Prints, ForwardLines, ForwardSays, ReplyLines, ReplySays, AttachmentLines, AttachmentSays, Name;
    PrintsNamed(ForwardLines(m.forwardedFrom), ForwardSays(m.forwardedFrom));
    PrintsNamed(ReplyLines(m.isReply, m.replyTo), ReplySays(m.isReply, m.replyTo));
    PrintsNamed(AttachmentLines(m.attachment), AttachmentSays(m.attachment));
    assert NamedLine(Plain("sent_at", m.sentAt)) && NamedLine(Plain("source", "voice")) && NamedLine(Plain("text", m.text));
    hide NamedLine;
  }

  /** Every item's lines have names the reader knows. */
  lemma ItemNamed(item: Item)
    requires RenderItem(item).Some?
    ensures forall k :: 0 <= k < |LinesOf(item)| ==> NamedLine(LinesOf(item)[k])
  {
    NamesAreNames();
    AttributesAreNamed();
    hide Name, EscapeText, Attributes, Truncate, Problem, EnvelopeText, RenderItem, Sender;
    match item
    case UserMessage(_, _, _, _, _, _, _) =>
      UserMessageNamed(item);
      hide LinesOf;
    case UserEmail(_, _, _, _, _, _, _, _, _) =>
    case NeedsUser(_, _, _, _, _) =>
    case TaskDone(_, _, taskId, _, _, capped, cancelled, trigger) =>
      PresentNamed([("id", Some(taskId)), ("trigger", trigger), ("capped", Flag(capped)), ("cancelled", Flag(cancelled))]);
      hide Present;
    case Event(_, _, _, _) =>
  }

  function EnvelopesOf(items: seq<Item>): seq<Envelope> {
    if items == [] then [] else [EnvelopeOf(items[0])] + EnvelopesOf(items[1..])
  }

  lemma {:induction false} EachRenders(items: seq<Item>)
    requires RenderEach(items).Some?
    ensures |EnvelopesOf(items)| == |items| == |RenderEach(items).value|
    ensures forall k :: 0 <= k < |items| ==> RenderItem(items[k]).Some? && EnvelopesOf(items)[k] == EnvelopeOf(items[k])
    ensures forall k :: 0 <= k < |items| ==> RenderEach(items).value[k] == EnvelopeThen(EnvelopesOf(items)[k], "")
    decreases |items|
  {
    hide RenderItem, EnvelopeOf, EnvelopeThen;
    if items == [] {
    } else {
      assert RenderItem(items[0]).Some? && RenderEach(items[1..]).Some?;
      ItemPrints(items[0]);
      var text, rest := RenderItem(items[0]).value, items[1..];
      var texts := RenderEach(rest).value;
      EachRenders(rest);
      assert RenderEach(items) == Some([text] + texts) && EnvelopesOf(items) == [EnvelopeOf(items[0])] + EnvelopesOf(rest);
      hide RenderEach, EnvelopesOf;
      forall k | 0 <= k < |items|
        ensures RenderItem(items[k]).Some? && EnvelopesOf(items)[k] == EnvelopeOf(items[k])
        ensures RenderEach(items).value[k] == EnvelopeThen(EnvelopesOf(items)[k], "")
      {
        if k > 0 { assert items[k] == rest[k - 1]; }
      }
    }
  }

  lemma {:induction false} JoinIsPrint(texts: seq<string>, es: seq<Envelope>)
    requires |texts| == |es| && forall k :: 0 <= k < |es| ==> texts[k] == EnvelopeThen(es[k], "")
    ensures Join(texts, "\n\n") == Print(es)
    decreases |es|
  {
    hide EnvelopeThen;
    if |es| > 1 {
      var after := "\n\n" + Print(es[1..]);
      JoinIsPrint(texts[1..], es[1..]);
      EnvelopeThenAppend(es[0], after);
      assert texts[0] + "\n\n" + Join(texts[1..], "\n\n") == texts[0] + ("\n\n" + Join(texts[1..], "\n\n"));
    }
  }

  lemma BatchPrints(items: seq<Item>)
    requires RenderBatch(items).Some?
    ensures RenderBatch(items) == Some(Print(EnvelopesOf(items)))
    ensures |EnvelopesOf(items)| == |items| && forall k :: 0 <= k < |items| ==> RenderItem(items[k]).Some? && EnvelopesOf(items)[k] == EnvelopeOf(items[k])
  {
    hide RenderItem, EnvelopeOf, EnvelopeThen, RenderEach, EnvelopesOf, Print, Join;
    EachRenders(items);
    JoinIsPrint(RenderEach(items).value, EnvelopesOf(items));
  }

  lemma {:induction false} LinesThenAppend(lines: seq<Line>, a: string, b: string)
    ensures LinesThen(lines, a + b) == LinesThen(lines, a) + b
    decreases |lines|
  {
    hide LineThen;
    if lines == [] {
    } else {
      LinesThenAppend(lines[1..], a, b);
      LineThenAppend(lines[0], LinesThen(lines[1..], a), b);
    }
  }

  lemma EnvelopeThenAppend(e: Envelope, rest: string)
    ensures EnvelopeThen(e, rest) == EnvelopeThen(e, "") + rest
  {
    hide EscapeAttribute, LinesThen;
    var close, escaped := "\n</system_event>", EscapeAttribute(e.kind);
    LinesThenAppend(e.lines, close, rest);
    assert close + "" == close;
    var inner := LinesThen(e.lines, close);
    assert ("<system_event type=\"" + (escaped + ("\">" + inner))) + rest == "<system_event type=\"" + (escaped + ("\">" + (inner + rest)));
  }

  // ---------------------------------------------------------------- What a reader of the batch sees

  /**
   * Rendering can be undone, for all payloads: from what a batch renders to the reader
   * recovers one envelope per item, in order, with its type and every text in it as
   * it was. No payload closes a tag or opens an envelope of its own.
   */
  lemma BatchReadsBack(items: seq<Item>)
    requires RenderBatch(items).Some?
    ensures Read(RenderBatch(items).value) == Some(EnvelopesOf(items))
    ensures |EnvelopesOf(items)| == |items| && forall k :: 0 <= k < |items| ==> EnvelopesOf(items)[k] == EnvelopeOf(items[k])
  {
    BatchPrints(items);
    hide RenderBatch, Print, Read, NamedLine, LinesOf, RenderItem, EnvelopesOf;
    forall j, k | 0 <= j < |items| && 0 <= k < |EnvelopesOf(items)[j].lines| ensures NamedLine(EnvelopesOf(items)[j].lines[k]) {
      ItemNamed(items[j]);
    }
    ReadsBatch(EnvelopesOf(items));
  }

  lemma {:induction false} CatalogTypesHaveADot(t: string)
    requires CatalogType(t)
    ensures '.' in t
  {
  }

  /**
   * The user speaks only where the user spoke: an envelope of the batch has the type
   * `user_message`, or `user_email`, exactly when its item is one.
   */
  lemma OnlyTheUserSpeaks(items: seq<Item>, k: nat)
    requires RenderBatch(items).Some? && k < |items|
    ensures var es := Read(RenderBatch(items).value);
            && es.Some? && k < |es.value|
            && (es.value[k].kind == "user_message" <==> items[k].UserMessage?)
            && (es.value[k].kind == "user_email" <==> items[k].UserEmail?)
  {
    hide RenderBatch, Read, EnvelopesOf, LinesOf, KindOf, RenderItem;
    BatchReadsBack(items);
    BatchPrints(items);
    KindsTell(items[k]);
  }

  lemma KindsTell(item: Item)
    requires RenderItem(item).Some?
    ensures KindOf(item) == "user_message" <==> item.UserMessage?
    ensures KindOf(item) == "user_email" <==> item.UserEmail?
  {
    hide RenderUserMessage, RenderUserEmail, RenderTask, EnvelopeText, CatalogType;
    var kind := KindOf(item);
    if item.Event? {
      CatalogTypesHaveADot(kind);
      assert '.' !in "user_message" && '.' !in "user_email";
    } else {
      assert kind[0] == if item.UserMessage? || item.UserEmail? then 'u' else 't';
      assert "user_message"[0] == 'u' && "user_email"[0] == 'u' && |"user_message"| == 12 && |"user_email"| == 10;
    }
  }
}
