/**
 * How the workspace shows a message: `renderContent` turns a parsed JSON
 * value into nested paragraphs, lists and labelled fields, and
 * `writeAiMessage` falls back to plain text when the AI's text is not JSON.
 */
module Render {

  import opened Wrappers
  import opened JsonValue
  import opened Messages

  datatype View =
    | Paragraph(text: string)        // <p>
    | BulletList(items: seq<View>)   // <ul> with one <li> per element
    | Fields(fields: seq<Field>)     // one labelled <div> per property
    | Panel(body: View)              // the dark box around a parsed AI message

  datatype Field = Field(heading: string, body: View)

  const UnsupportedNotice: string := "Unsupported content type"

  /** The first index of `c` in `s`. */
  function FirstIndex(s: string, c: char): (i: nat)
    requires c in s
    ensures i < |s| && s[i] == c && c !in s[..i]
  {
    if s[0] == c then 0 else 1 + FirstIndex(s[1..], c)
  }

  /** `s.replace(from, to)` with a one-character string pattern: only the first match is replaced. */
  function ReplaceFirst(s: string, from: char, to: char): (r: string)
    ensures |r| == |s|
    ensures forall k :: 0 <= k < |s| ==>
      r[k] == if from in s && k == FirstIndex(s, from) then to else s[k]
  {
    if s == [] then []
    else if s[0] == from then [to] + s[1..]
    else [s[0]] + ReplaceFirst(s[1..], from, to)
  }

  /** `toUpperCase` on one character, for the ASCII letters. */
  function UpperChar(c: char): char {
    if 'a' <= c <= 'z' then (c as int - 'a' as int + 'A' as int) as char else c
  }

  /** `toUpperCase` on a string: no lower-case ASCII letter is left, and every other character is kept. */
  function Upper(s: string): (r: string)
    ensures |r| == |s|
    ensures forall k :: 0 <= k < |r| ==> !('a' <= r[k] <= 'z')
    ensures forall k :: 0 <= k < |s| && !('a' <= s[k] <= 'z') ==> r[k] == s[k]
    ensures forall k :: 0 <= k < |s| && 'a' <= s[k] <= 'z' ==> r[k] as int == s[k] as int - 32
  {
    seq(|s|, k requires 0 <= k < |s| => UpperChar(s[k]))
  }

  /** Upper-casing twice is upper-casing once. */
  lemma UpperIdempotent(s: string)
    ensures Upper(Upper(s)) == Upper(s)
  {
    var u := Upper(s);
    assert forall k :: 0 <= k < |u| ==> Upper(u)[k] == u[k];
  }

  /**
   * The label shown for a property name: `key.replace("_", " ").toUpperCase()`.
   * Only the first underscore becomes a space; later ones stay.
   */
  function Label(key: string): (r: string)
    ensures |r| == |key|
    ensures forall k :: 0 <= k < |r| ==> !('a' <= r[k] <= 'z')
    ensures '_' in key ==> r[FirstIndex(key, '_')] == ' '
    ensures forall k :: 0 <= k < |key| && key[k] != '_' ==> r[k] == UpperChar(key[k])
    ensures forall k :: 0 <= k < |key| && key[k] == '_' && k != FirstIndex(key, '_') ==> r[k] == '_'
  {
    Upper(ReplaceFirst(key, '_', ' '))
  }

  /** `renderContent`: a string is a paragraph, an array a list, an object labelled fields, anything else a notice. */
  function RenderContent(content: Json): (r: View)
    ensures content.JString? ==> r == Paragraph(content.s)
    ensures content.JArray? ==> r.BulletList? && |r.items| == |content.items|
    ensures content.JObject? ==>
      && r.Fields? && |r.fields| == |content.entries|
      && forall i :: 0 <= i < |r.fields| ==> r.fields[i].heading == Label(content.entries[i].key)
    ensures content.JNull? || content.JBool? || content.JNumber? ==> r == Paragraph(UnsupportedNotice)
  {
    match content
    case JString(s) => Paragraph(s)
    case JArray(items) =>
      BulletList(seq(|items|, i requires 0 <= i < |items| => RenderContent(items[i])))
    case JObject(entries) =>
      Fields(seq(|entries|, i requires 0 <= i < |entries| =>
        Field(Label(entries[i].key), RenderContent(entries[i].value))))
    case _ => Paragraph(UnsupportedNotice)
  }

  function Flatten(parts: seq<seq<string>>): seq<string> {
    if parts == [] then [] else parts[0] + Flatten(parts[1..])
  }

  /** The paragraph texts of a view, in document order. */
  function Texts(v: View): seq<string> {
    match v
    case Paragraph(t) => [t]
    case BulletList(items) => Flatten(seq(|items|, i requires 0 <= i < |items| => Texts(items[i])))
    case Fields(fields) => Flatten(seq(|fields|, i requires 0 <= i < |fields| => Texts(fields[i].body)))
    case Panel(body) => Texts(body)
  }

  /**
   * What a reader should see of a JSON value, in order: every string as it
   * is, and the notice in place of every `null`, boolean and number.
   */
  function Leaves(content: Json): seq<string> {
    match content
    case JString(s) => [s]
    case JArray(items) => Flatten(seq(|items|, i requires 0 <= i < |items| => Leaves(items[i])))
    case JObject(entries) => Flatten(seq(|entries|, i requires 0 <= i < |entries| => Leaves(entries[i].value)))
    case _ => [UnsupportedNotice]
  }

  /** Rendering loses no text, invents none and keeps the order of the value. */
  lemma {:induction false} RenderTexts(content: Json)
    ensures Texts(RenderContent(content)) == Leaves(content)
  {
    match content
    case JString(s) =>
    case JArray(items) =>
      var views := seq(|items|, i requires 0 <= i < |items| => RenderContent(items[i]));
      forall i | 0 <= i < |items| ensures Texts(views[i]) == Leaves(items[i]) {
        RenderTexts(items[i]);
      }
      assert seq(|views|, i requires 0 <= i < |views| => Texts(views[i]))
          == seq(|items|, i requires 0 <= i < |items| => Leaves(items[i]));
    case JObject(entries) =>
      var fields := seq(|entries|, i requires 0 <= i < |entries| =>
        Field(Label(entries[i].key), RenderContent(entries[i].value)));
      forall i | 0 <= i < |entries| ensures Texts(fields[i].body) == Leaves(entries[i].value) {
        RenderTexts(entries[i].value);
      }
      assert seq(|fields|, i requires 0 <= i < |fields| => Texts(fields[i].body))
          == seq(|entries|, i requires 0 <= i < |entries| => Leaves(entries[i].value));
    case _ =>
  }

  /**
   * `writeAiMessage`: the AI's text, parsed, rendered in a panel; text that
   * does not parse is shown as it is.
   */
  function WriteAiMessage(text: string, parse: string -> Option<Json>): (r: View)
    ensures r.Paragraph? <==> parse(text).None?
    ensures r.Paragraph? ==> r.text == text
    ensures parse(text).Some? ==> r == Panel(RenderContent(parse(text).value))
  {
    match parse(text)
    case None => Paragraph(text)
    case Some(content) => Panel(RenderContent(content))
  }

  /** What the reader sees of an AI message: its own text when it is not JSON, the value's leaves when it is. */
  lemma AiMessageTexts(text: string, parse: string -> Option<Json>)
    ensures Texts(WriteAiMessage(text, parse))
         == if parse(text).None? then [text] else Leaves(parse(text).value)
  {
    if parse(text).Some? {
      RenderTexts(parse(text).value);
    }
  }

  /** One entry of the message list: the AI's messages go through `writeAiMessage`, the others are plain text. */
  function RenderMessage(m: Message, parse: string -> Option<Json>): (r: View)
    ensures !FromAi(m) ==> r == Paragraph(m.text)
    ensures FromAi(m) && parse(m.text).None? ==> r == Paragraph(m.text)
    ensures FromAi(m) && parse(m.text).Some? ==> r == Panel(RenderContent(parse(m.text).value))
  {
    if FromAi(m) then WriteAiMessage(m.text, parse) else Paragraph(m.text)
  }
}
