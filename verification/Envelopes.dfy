/**
 * Inbound items rendered as the envelopes agents read, and a reader that gets
 * every one of them back, whatever the payloads say.
 *
 * Times, file sizes and JSON arrive as the text the helpers for them produce.
 */
module Envelopes {
  import opened Texts
  import opened Wrappers

  // ---------------------------------------------------------------- Escaping

  function ReplaceAll(text: string, c: char, entity: string): string {
    if text == "" then "" else (if text[0] == c then entity else [text[0]]) + ReplaceAll(text[1..], c, entity)
  }

  function EscapeText(text: string): string {
    ReplaceAll(ReplaceAll(ReplaceAll(text, '&', "&amp;"), '<', "&lt;"), '>', "&gt;")
  }

  function EscapeAttribute(text: string): string {
    ReplaceAll(EscapeText(text), '"', "&quot;")
  }

  function EscapeChar(c: char): string {
    if c == '&' then "&amp;" else if c == '<' then "&lt;" else if c == '>' then "&gt;" else [c]
  }

  function EscapeQuoted(c: char): string {
    if c == '"' then "&quot;" else EscapeChar(c)
  }

  function Each(text: string, f: char -> string): string {
    if text == "" then "" else f(text[0]) + Each(text[1..], f)
  }

  function Unescape(text: string): string {
    if text == "" then ""
    else if "&amp;" <= text then "&" + Unescape(text[5..])
    else if "&lt;" <= text then "<" + Unescape(text[4..])
    else if "&gt;" <= text then ">" + Unescape(text[4..])
    else if "&quot;" <= text then "\"" + Unescape(text[6..])
    else [text[0]] + Unescape(text[1..])
  }

  lemma {:induction false} ReplaceAllAppend(a: string, b: string, c: char, entity: string)
    ensures ReplaceAll(a + b, c, entity) == ReplaceAll(a, c, entity) + ReplaceAll(b, c, entity)
    decreases |a|
  {
    if a == "" {
      assert a + b == b;
    } else {
      assert (a + b)[1..] == a[1..] + b;
      ReplaceAllAppend(a[1..], b, c, entity);
    }
  }

  lemma {:induction false} NothingToReplace(text: string, c: char, entity: string)
    requires c !in text
    ensures ReplaceAll(text, c, entity) == text
    decreases |text|
  {
    if text != "" { NothingToReplace(text[1..], c, entity); }
  }

  lemma ReplaceOne(c: char, d: char, entity: string)
    ensures ReplaceAll([c], d, entity) == if c == d then entity else [c]
  {
    assert [c][1..] == "";
    assert ReplaceAll("", d, entity) == "";
  }

  /** An entity, once there, is left alone. */
  lemma EntityStays(entity: string, c: char, other: string)
    requires entity in ["&amp;", "&lt;", "&gt;"] && c in ['<', '>', '"']
    ensures ReplaceAll(entity, c, other) == entity
  {
    NothingToReplace(entity, c, other);
  }

  lemma EscapeOne(c: char)
    ensures EscapeText([c]) == EscapeChar(c) && EscapeAttribute([c]) == EscapeQuoted(c)
  {
    hide ReplaceAll;
    ReplaceOne(c, '&', "&amp;");
    ReplaceOne(c, '<', "&lt;");
    ReplaceOne(c, '>', "&gt;");
    ReplaceOne(c, '"', "&quot;");
    if c == '&' {
      EntityStays("&amp;", '<', "&lt;");
      EntityStays("&amp;", '>', "&gt;");
      EntityStays("&amp;", '"', "&quot;");
    } else if c == '<' {
      EntityStays("&lt;", '>', "&gt;");
      EntityStays("&lt;", '"', "&quot;");
    } else if c == '>' {
      EntityStays("&gt;", '"', "&quot;");
    }
  }

  /** The replacements one after another come to one per character: `&` first, so nothing is escaped twice. */
  lemma {:induction false} EscapesEachChar(text: string)
    ensures EscapeText(text) == Each(text, EscapeChar)
    ensures EscapeAttribute(text) == Each(text, EscapeQuoted)
    decreases |text|
  {
    if text != "" {
      var c, rest := text[..1], text[1..];
      assert text == c + rest && c == [text[0]];
      EscapeOne(text[0]);
      EscapesEachChar(rest);
      ReplaceAllAppend(c, rest, '&', "&amp;");
      var c1, rest1 := ReplaceAll(c, '&', "&amp;"), ReplaceAll(rest, '&', "&amp;");
      ReplaceAllAppend(c1, rest1, '<', "&lt;");
      var c2, rest2 := ReplaceAll(c1, '<', "&lt;"), ReplaceAll(rest1, '<', "&lt;");
      ReplaceAllAppend(c2, rest2, '>', "&gt;");
      ReplaceAllAppend(EscapeText(c), EscapeText(rest), '"', "&quot;");
      hide ReplaceAll;
    }
  }

  /** What is escaped holds no tag and ends no attribute. */
  lemma {:induction false} EscapedIsPlain(text: string)
    ensures '<' !in EscapeText(text) && '>' !in EscapeText(text)
    ensures '<' !in EscapeAttribute(text) && '>' !in EscapeAttribute(text) && '"' !in EscapeAttribute(text)
    decreases |text|
  {
    EscapesEachChar(text);
    hide EscapeText, EscapeAttribute;
    if text != "" {
      EscapesEachChar(text[1..]);
      EscapedIsPlain(text[1..]);
    }
  }

  lemma UnescapeAmp(rest: string)
    ensures Unescape("&amp;" + rest) == "&" + Unescape(rest)
  {
    assert ("&amp;" + rest)[5..] == rest;
  }

  lemma UnescapeLt(rest: string)
    ensures Unescape("&lt;" + rest) == "<" + Unescape(rest)
  {
    var t := "&lt;" + rest;
    assert t[4..] == rest && t[1] == 'l' && "&amp;"[1] == 'a';
  }

  lemma UnescapeGt(rest: string)
    ensures Unescape("&gt;" + rest) == ">" + Unescape(rest)
  {
    var t := "&gt;" + rest;
    assert t[4..] == rest && t[1] == 'g' && "&amp;"[1] == 'a' && "&lt;"[1] == 'l';
  }

  lemma UnescapeQuot(rest: string)
    ensures Unescape("&quot;" + rest) == "\"" + Unescape(rest)
  {
    var t := "&quot;" + rest;
    assert t[6..] == rest && t[1] == 'q' && "&amp;"[1] == 'a' && "&lt;"[1] == 'l' && "&gt;"[1] == 'g';
  }

  lemma UnescapePlain(c: char, rest: string)
    requires c != '&'
    ensures Unescape([c] + rest) == [c] + Unescape(rest)
  {
    var t := [c] + rest;
    assert t[1..] == rest && t[0] == c && "&amp;"[0] == '&' && "&lt;"[0] == '&' && "&gt;"[0] == '&' && "&quot;"[0] == '&';
  }

  lemma UnescapeOne(c: char, rest: string)
    ensures Unescape(EscapeQuoted(c) + rest) == [c] + Unescape(rest)
    ensures Unescape(EscapeChar(c) + rest) == [c] + Unescape(rest)
  {
    hide Unescape;
    UnescapeAmp(rest);
    UnescapeLt(rest);
    UnescapeGt(rest);
    UnescapeQuot(rest);
    if c != '&' { UnescapePlain(c, rest); }
  }

  /** Escaping loses nothing. */
  lemma {:induction false} UnescapesBack(text: string)
    ensures Unescape(EscapeText(text)) == text && Unescape(EscapeAttribute(text)) == text
    decreases |text|
  {
    EscapesEachChar(text);
    if text != "" {
      var rest := text[1..];
      UnescapesBack(rest);
      EscapesEachChar(rest);
      UnescapeOne(text[0], Each(rest, EscapeChar));
      UnescapeOne(text[0], Each(rest, EscapeQuoted));
      assert [text[0]] + rest == text;
      hide Unescape, EscapeText, EscapeAttribute, EscapeChar, EscapeQuoted;
    }
  }

  // ---------------------------------------------------------------- The pieces of an envelope

  function Element(name: string, content: string): string {
    "  <" + name + ">" + EscapeText(content) + "</" + name + ">"
  }

  /** The attributes that are there, in order. */
  function Attributes(values: seq<(string, Option<string>)>): string {
    if values == [] then ""
    else
      var (name, value) := values[0];
      (if value.None? then "" else " " + name + "=\"" + EscapeAttribute(value.value) + "\"") + Attributes(values[1..])
  }

  function EnvelopeText(kind: string, lines: seq<string>): string {
    Join(["<system_event type=\"" + EscapeAttribute(kind) + "\">"] + lines + ["</system_event>"], "\n")
  }

  const QUOTE_MAX_CHARS := 300

  /** A character is a code point, so nothing is cut in half. */
  function Truncate(text: string, maxChars: nat): string {
    if |text| <= maxChars then text else text[..maxChars] + "\U{2026}"
  }

  // ---------------------------------------------------------------- Items

  datatype Status = Pending | Saved | TooLarge | Failed

  datatype Attachment = Attachment(
    kind: string, fileName: Option<string>, mimeType: Option<string>, size: Option<string>,
    status: Status, path: Option<string>, transcriptionFailed: bool)

  datatype Forward = Forward(kind: string, name: string, username: Option<string>, sentAt: string)

  datatype Reply = Reply(from: string, text: string)

  datatype Item =
    | UserMessage(sentAt: string, text: string, isReply: bool, replyTo: Option<Reply>,
                  forwardedFrom: Option<Forward>, attachment: Option<Attachment>, voice: bool)
    | UserEmail(sentAt: string, account: string, fromName: Option<string>, fromEmail: string,
                messageId: string, threadId: string, subject: string, text: string, data: string)
    | NeedsUser(occurredAt: string, taskId: string, brief: string, reason: string, link: Option<string>)
    | TaskDone(failed: bool, occurredAt: string, taskId: string, brief: string, report: string,
               capped: bool, cancelled: bool, trigger: Option<string>)
    | Event(kind: string, occurredAt: string, note: Option<string>, data: string)

  function StatusName(status: Status): string {
    match status
    case Pending => "pending"
    case Saved => "saved"
    case TooLarge => "too_large"
    case Failed => "failed"
  }

  /** Why a file isn't there, if it is worth a word. */
  function Problem(a: Attachment): string {
    if a.transcriptionFailed then "Not transcribed: the speech couldn't be made out."
    else if a.status.TooLarge? then "Not saved: Telegram only lets bots download files up to 20 MB."
    else if a.status.Failed? then "Not saved: downloading it failed."
    else ""
  }

  function AttachmentAttributes(a: Attachment): seq<(string, Option<string>)> {
    var saved := a.status.Saved?;
    [("kind", Some(a.kind)), ("path", if saved then a.path else None), ("name", if saved then None else a.fileName),
     ("type", a.mimeType), ("size", a.size), ("status", if saved then None else Some(StatusName(a.status)))]
  }

  function RenderAttachment(a: Attachment): string {
    var attrs := Attributes(AttachmentAttributes(a));
    if Problem(a) != "" then "  <attachment" + attrs + ">" + EscapeText(Problem(a)) + "</attachment>"
    else "  <attachment" + attrs + "/>"
  }

  function ForwardLines(forwardedFrom: Option<Forward>): seq<string> {
    match forwardedFrom
    case None => []
    case Some(f) =>
      ["  <forwarded_from" + Attributes([("kind", Some(f.kind)), ("username", f.username), ("sent_at", Some(f.sentAt))])
       + ">" + EscapeText(f.name) + "</forwarded_from>"]
  }

  function ReplyLines(isReply: bool, replyTo: Option<Reply>): seq<string> {
    if !isReply then []
    else
      match replyTo
      case None => ["  <reply_to/>"]
      case Some(r) =>
        ["  <reply_to" + Attributes([("from", Some(r.from))]) + ">" + EscapeText(Truncate(r.text, QUOTE_MAX_CHARS)) + "</reply_to>"]
  }

  function AttachmentLines(attachment: Option<Attachment>): seq<string> {
    match attachment
    case None => []
    case Some(a) => [RenderAttachment(a)]
  }

  function RenderUserMessage(m: Item): string
    requires m.UserMessage?
  {
    EnvelopeText("user_message",
      [Element("sent_at", m.sentAt)]
      + ForwardLines(m.forwardedFrom)
      + ReplyLines(m.isReply, m.replyTo)
      + AttachmentLines(m.attachment)
      + (if m.voice then [Element("source", "voice")] else [])
      + (if m.text != "" || m.attachment.None? then [Element("text", m.text)] else []))
  }

  function Sender(m: Item): string
    requires m.UserEmail?
  {
    if m.fromName.Some? && m.fromName.value != "" then m.fromName.value + " <" + m.fromEmail + ">" else m.fromEmail
  }

  function RenderUserEmail(m: Item): string
    requires m.UserEmail?
  {
    EnvelopeText("user_email",
      [Element("sent_at", m.sentAt),
       "  <mail" + Attributes([("account", Some(m.account)), ("from", Some(Sender(m))), ("message", Some(m.messageId)),
                               ("thread", Some(m.threadId))])
       + ">" + EscapeText(m.subject) + "</mail>",
       Element("text", m.text),
       Element("data", m.data)])
  }

  function Flag(b: bool): Option<string> {
    if b then Some("true") else None
  }

  function RenderTask(t: Item): string
    requires t.NeedsUser? || t.TaskDone?
  {
    match t
    case NeedsUser(occurredAt, taskId, brief, reason, link) =>
      EnvelopeText("task.needs_user",
        [Element("occurred_at", occurredAt),
         "  <task" + Attributes([("id", Some(taskId))]) + ">" + EscapeText(brief) + "</task>",
         Element("reason", reason)]
        + (if link.Some? && link.value != "" then [Element("link", link.value)] else []))
    case TaskDone(failed, occurredAt, taskId, brief, report, capped, cancelled, trigger) =>
      EnvelopeText(if failed then "task.failed" else "task.completed",
        [Element("occurred_at", occurredAt),
         "  <task" + Attributes([("id", Some(taskId)), ("trigger", trigger), ("capped", Flag(capped)), ("cancelled", Flag(cancelled))])
         + ">" + EscapeText(brief) + "</task>",
         Element(if failed then "error" else "report", report)])
  }

  predicate WordChar(c: char) {
    'a' <= c <= 'z' || c == '_'
  }

  predicate Word(w: string) {
    w != "" && 'a' <= w[0] <= 'z' && forall k :: 0 <= k < |w| ==> WordChar(w[k])
  }

  /** Words of lower-case letters and underscores, two at least, with dots between. */
  predicate CatalogType(t: string)
    decreases |t|
  {
    exists k :: 0 < k < |t| && t[k] == '.' && Word(t[..k]) && (Word(t[k + 1..]) || CatalogType(t[k + 1..]))
  }

  function RenderEvent(e: Item): Option<string>
    requires e.Event?
  {
    if !CatalogType(e.kind) then None
    else
      Some(EnvelopeText(e.kind,
        [Element("occurred_at", e.occurredAt)]
        + (if e.note.Some? then [Element("subscription_note", e.note.value)] else [])
        + [Element("data", e.data)]))
  }

  /** None where the source throws: an event that isn't of a catalog type. */
  function RenderItem(item: Item): Option<string> {
    match item
    case UserMessage(_, _, _, _, _, _, _) => Some(RenderUserMessage(item))
    case UserEmail(_, _, _, _, _, _, _, _, _) => Some(RenderUserEmail(item))
    case Event(_, _, _, _) => RenderEvent(item)
    case _ => Some(RenderTask(item))
  }

  function RenderEach(items: seq<Item>): Option<seq<string>> {
    if items == [] then Some([])
    else
      match (RenderItem(items[0]), RenderEach(items[1..]))
      case (Some(text), Some(rest)) => Some([text] + rest)
      case _ => None
  }

  function RenderBatch(items: seq<Item>): Option<string> {
    match RenderEach(items)
    case None => None
    case Some(texts) => Some(Join(texts, "\n\n"))
  }

  // ---------------------------------------------------------------- What an item says

  /** A line of an envelope, with the texts as they were before escaping. No content is `<name/>`. */
  datatype Line = Line(name: string, attributes: seq<(string, string)>, content: Option<string>)

  datatype Envelope = Envelope(kind: string, lines: seq<Line>)

  function Present(values: seq<(string, Option<string>)>): seq<(string, string)> {
    if values == [] then []
    else (if values[0].1.None? then [] else [(values[0].0, values[0].1.value)]) + Present(values[1..])
  }

  function Plain(name: string, content: string): Line {
    Line(name, [], Some(content))
  }

  function KindOf(item: Item): string {
    match item
    case UserMessage(_, _, _, _, _, _, _) => "user_message"
    case UserEmail(_, _, _, _, _, _, _, _, _) => "user_email"
    case NeedsUser(_, _, _, _, _) => "task.needs_user"
    case TaskDone(failed, _, _, _, _, _, _, _) => if failed then "task.failed" else "task.completed"
    case Event(kind, _, _, _) => kind
  }

  function ForwardSays(forwardedFrom: Option<Forward>): seq<Line> {
    match forwardedFrom
    case None => []
    case Some(f) =>
      [Line("forwarded_from", Present([("kind", Some(f.kind)), ("username", f.username), ("sent_at", Some(f.sentAt))]), Some(f.name))]
  }

  function ReplySays(isReply: bool, replyTo: Option<Reply>): seq<Line> {
    if !isReply then []
    else
      match replyTo
      case None => [Line("reply_to", [], None)]
      case Some(r) => [Line("reply_to", [("from", r.from)], Some(Truncate(r.text, QUOTE_MAX_CHARS)))]
  }

  function AttachmentSays(attachment: Option<Attachment>): seq<Line> {
    match attachment
    case None => []
    case Some(a) => [Line("attachment", Present(AttachmentAttributes(a)), if Problem(a) != "" then Some(Problem(a)) else None)]
  }

  function LinesOf(item: Item): seq<Line> {
    match item
    case UserMessage(sentAt, text, isReply, replyTo, forwardedFrom, attachment, voice) =>
      [Plain("sent_at", sentAt)]
      + ForwardSays(forwardedFrom)
      + ReplySays(isReply, replyTo)
      + AttachmentSays(attachment)
      + (if voice then [Plain("source", "voice")] else [])
      + (if text != "" || attachment.None? then [Plain("text", text)] else [])
    case UserEmail(sentAt, account, _, _, messageId, threadId, subject, text, data) =>
      [Plain("sent_at", sentAt),
       Line("mail", [("account", account), ("from", Sender(item)), ("message", messageId), ("thread", threadId)], Some(subject)),
       Plain("text", text), Plain("data", data)]
    case NeedsUser(occurredAt, taskId, brief, reason, link) =>
      [Plain("occurred_at", occurredAt), Line("task", [("id", taskId)], Some(brief)), Plain("reason", reason)]
      + (if link.Some? && link.value != "" then [Plain("link", link.value)] else [])
    case TaskDone(failed, occurredAt, taskId, brief, report, capped, cancelled, trigger) =>
      [Plain("occurred_at", occurredAt),
       Line("task", Present([("id", Some(taskId)), ("trigger", trigger), ("capped", Flag(capped)), ("cancelled", Flag(cancelled))]),
            Some(brief)),
       Plain(if failed then "error" else "report", report)]
    case Event(_, occurredAt, note, data) =>
      [Plain("occurred_at", occurredAt)]
      + (if note.Some? then [Plain("subscription_note", note.value)] else [])
      + [Plain("data", data)]
  }

  function EnvelopeOf(item: Item): Envelope {
    Envelope(KindOf(item), LinesOf(item))
  }

  // ---------------------------------------------------------------- What the parts tell the agent

  lemma {:induction false} PresentHas(values: seq<(string, Option<string>)>, name: string, value: string)
    ensures (name, value) in Present(values) <==> (name, Some(value)) in values
    decreases |values|
  {
    if values != [] {
      PresentHas(values[1..], name, value);
      assert values == [values[0]] + values[1..];
    }
  }

  /** A saved file has its path and no status, any other its name and what became of it; what went wrong is said. */
  lemma AttachmentSaid(a: Attachment, name: string, value: string)
    ensures var said := AttachmentSays(Some(a));
            && |said| == 1 && said[0].name == "attachment"
            && ((name, value) in said[0].attributes <==>
                  || (name == "kind" && value == a.kind)
                  || (name == "path" && a.status == Saved && a.path == Some(value))
                  || (name == "name" && a.status != Saved && a.fileName == Some(value))
                  || (name == "type" && a.mimeType == Some(value))
                  || (name == "size" && a.size == Some(value))
                  || (name == "status" && ((a.status == Pending && value == "pending") || (a.status == TooLarge && value == "too_large")
                                           || (a.status == Failed && value == "failed"))))
            && said[0].content == if a.transcriptionFailed then Some("Not transcribed: the speech couldn't be made out.")
                                  else if a.status == TooLarge then Some("Not saved: Telegram only lets bots download files up to 20 MB.")
                                  else if a.status == Failed then Some("Not saved: downloading it failed.")
                                  else None
  {
    PresentHas(AttachmentAttributes(a), name, value);
  }

  /** A reply quotes at most 300 characters, with an ellipsis where it was cut. */
  lemma ReplySaid(from: string, text: string)
    ensures var said := ReplySays(true, Some(Reply(from, text)));
            && |said| == 1 && said[0].name == "reply_to" && said[0].attributes == [("from", from)]
            && said[0].content == Some(if |text| <= 300 then text else text[..300] + "\U{2026}")
  {
  }

  /** A mail names its sender where the name is known and not empty. */
  lemma MailSaid(m: Item)
    requires m.UserEmail?
    ensures var lines := LinesOf(m);
            && |lines| == 4 && lines[1].name == "mail" && lines[1].content == Some(m.subject)
            && lines[1].attributes == [("account", m.account),
                                       ("from", if m.fromName == None || m.fromName == Some("") then m.fromEmail
                                                else m.fromName.value + " <" + m.fromEmail + ">"),
                                       ("message", m.messageId), ("thread", m.threadId)]
  {
  }

  /** A task's outcome says when its run was capped or cancelled, and what triggered it. */
  lemma OutcomeSaid(t: Item, name: string, value: string)
    requires t.TaskDone?
    ensures var lines := LinesOf(t);
            && |lines| == 3 && lines[1].name == "task" && lines[1].content == Some(t.brief)
            && ((name, value) in lines[1].attributes <==>
                  || (name == "id" && value == t.taskId)
                  || (name == "trigger" && t.trigger == Some(value))
                  || (name == "capped" && value == "true" && t.capped)
                  || (name == "cancelled" && value == "true" && t.cancelled))
  {
    PresentHas([("id", Some(t.taskId)), ("trigger", t.trigger), ("capped", Flag(t.capped)), ("cancelled", Flag(t.cancelled))],
               name, value);
  }

  /** A lower-case letter, then lower-case letters and underscores. */
  ghost predicate Named(word: string) {
    word != "" && 'a' <= word[0] <= 'z' && forall c <- word :: 'a' <= c <= 'z' || c == '_'
  }

  lemma NamedIsWord(word: string)
    ensures Named(word) <==> Word(word)
  {
    if Named(word) { assert forall k :: 0 <= k < |word| ==> word[k] in word; }
  }

  lemma {:induction false} WordsMakeAType(words: seq<string>)
    requires |words| >= 2 && forall w <- words :: Named(w)
    ensures CatalogType(Join(words, "."))
    decreases |words|
  {
    assert words[0] in words && words[0] != "";
    hide Named, Word;
    var first, rest := words[0], words[1..];
    var t := Join(words, ".");
    assert first in words && words[1] in words && words == [first] + rest;
    NamedIsWord(first);
    assert t == first + "." + Join(rest, ".") && t[..|first|] == first && t[|first|] == '.' && t[|first| + 1..] == Join(rest, ".");
    if |words| == 2 {
      NamedIsWord(words[1]);
      assert rest == [words[1]];
    } else {
      WordsMakeAType(rest);
    }
    TypeAt(t, |first|);
  }

  lemma TypeAt(t: string, k: nat)
    requires 0 < k < |t| && t[k] == '.' && Word(t[..k]) && (Word(t[k + 1..]) || CatalogType(t[k + 1..]))
    ensures CatalogType(t)
  {
  }

  lemma {:induction false} WordsOfType(t: string) returns (words: seq<string>)
    requires CatalogType(t)
    ensures |words| >= 2 && Join(words, ".") == t && forall w <- words :: Named(w)
    decreases |t|
  {
    hide Named, Word;
    var k :| 0 < k < |t| && t[k] == '.' && Word(t[..k]) && (Word(t[k + 1..]) || CatalogType(t[k + 1..]));
    var first, rest := t[..k], t[k + 1..];
    NamedIsWord(first);
    if Word(rest) {
      NamedIsWord(rest);
      words := [rest];
    } else {
      words := WordsOfType(rest);
    }
    assert t == first + "." + rest;
    assert ([first] + words)[1..] == words;
    words := [first] + words;
  }

  /** An event is rendered exactly when its type is two or more such words with dots between. */
  lemma EventIffType(e: Item)
    requires e.Event?
    ensures RenderItem(e).Some? <==> exists words: seq<string> :: |words| >= 2 && Join(words, ".") == e.kind && forall w <- words :: Named(w)
  {
    hide CatalogType, Named;
    if CatalogType(e.kind) { var words := WordsOfType(e.kind); }
    if words: seq<string> :| |words| >= 2 && Join(words, ".") == e.kind && forall w <- words :: Named(w) {
      WordsMakeAType(words);
    }
  }
}
