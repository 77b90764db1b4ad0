/**
  The chat page's message handling: `extractMessageText`, which turns a UI
  message into the text shown for it, and the submit handler, which appends
  the typed input as a user message only when it holds more than white space.
 */
module ChatPage {
  import opened Wrappers
  import opened JsBuiltins

  /** One part of a message: its `type` and its `text`, which may be missing
      (`join` renders a missing text as the empty string). */
  datatype Part = Part(kind: string, text: Option<string>)

  /** `message.content`: a string, or anything else (absent, an array, an object). */
  datatype ContentField = StringContent(s: string) | NonStringContent

  /** `message.parts`: an array, or anything that is not one. */
  datatype PartsField = PartsArray(parts: seq<Part>) | NoPartsArray

  datatype UiMessage = UiMessage(role: string, content: ContentField, parts: PartsField)

  /** `parts.filter(p => p.type === 'text')`: exactly the text parts, in order,
      each as often as it occurs. */
  function TextParts(parts: seq<Part>): (r: seq<Part>)
    ensures forall p :: p in r <==> p in parts && p.kind == "text"
    ensures multiset(r) <= multiset(parts)
    ensures forall p :: multiset(r)[p] == (if p.kind == "text" then multiset(parts)[p] else 0)
    ensures forall i :: 0 <= i < |r| ==> r[i].kind == "text"
  {
    if parts == [] then []
    else
      assert parts == [parts[0]] + parts[1..];
      if parts[0].kind == "text" then [parts[0]] + TextParts(parts[1..])
      else TextParts(parts[1..])
  }

  /** `.map(p => p.text)` */
  function TextsOf(parts: seq<Part>): (r: seq<Option<string>>)
    ensures |r| == |parts|
    ensures forall i :: 0 <= i < |parts| ==> r[i] == parts[i].text
  {
    if parts == [] then [] else [parts[0].text] + TextsOf(parts[1..])
  }

  /** `.join('')`: the strings one after another, a missing one as empty. The
      result is at least as long as each string, and only missing or empty
      strings join to "". */
  function JoinNoSeparator(texts: seq<Option<string>>): (r: string)
    ensures forall i :: 0 <= i < |texts| && texts[i].Some? ==> |texts[i].value| <= |r|
    ensures r == "" <==> forall i :: 0 <= i < |texts| ==> texts[i].None? || texts[i].value == ""
  {
    if texts == [] then ""
    else (match texts[0] case Some(t) => t case None => "") + JoinNoSeparator(texts[1..])
  }

  /** extractMessageText */
  function ExtractMessageText(message: UiMessage): (text: string)
    ensures message.content.StringContent? ==> text == message.content.s
    ensures message.content.NonStringContent? && message.parts.NoPartsArray? ==> text == ""
    ensures message.content.NonStringContent? && message.parts.PartsArray? ==> text == PartText(message.parts.parts)
  {
    match message.content
    case StringContent(s) => s
    case NonStringContent =>
      match message.parts
      case PartsArray(parts) =>
        FilterMapJoinIsPartText(parts);
        JoinNoSeparator(TextsOf(TextParts(parts)))
      case NoPartsArray => ""
  }

  /** What a part contributes to the text: its text if it is a text part, else nothing. */
  function Contribution(p: Part): string {
    if p.kind == "text" then (match p.text case Some(t) => t case None => "") else ""
  }

  /** The text of a parts array, part by part: an independent statement of
      filter-map-join as one pass. */
  function PartText(parts: seq<Part>): string {
    if parts == [] then "" else Contribution(parts[0]) + PartText(parts[1..])
  }

  /** The filter, map and join pipeline is the one-pass concatenation. */
  lemma {:induction false} FilterMapJoinIsPartText(parts: seq<Part>)
    ensures JoinNoSeparator(TextsOf(TextParts(parts))) == PartText(parts)
  {
    if parts != [] {
      FilterMapJoinIsPartText(parts[1..]);
      if parts[0].kind == "text" {
        assert TextsOf([parts[0]] + TextParts(parts[1..])) == [parts[0].text] + TextsOf(TextParts(parts[1..]));
      }
    }
  }

  /** The text of consecutive runs of parts is the texts of the runs, in order. */
  lemma {:induction false} PartTextAppend(a: seq<Part>, b: seq<Part>)
    ensures PartText(a + b) == PartText(a) + PartText(b)
  {
    if a == [] {
      assert a + b == b;
    } else {
      assert (a + b)[0] == a[0];
      assert (a + b)[1..] == a[1..] + b;
      PartTextAppend(a[1..], b);
    }
  }

  /** A non-text part inserted anywhere changes nothing. */
  lemma NonTextPartContributesNothing(parts: seq<Part>, i: nat, p: Part)
    requires i <= |parts| && p.kind != "text"
    ensures PartText(parts[..i] + [p] + parts[i..]) == PartText(parts)
  {
    var front, back := parts[..i], parts[i..];
    assert PartText([p]) == "" by {
      assert [p][1..] == [];
    }
    calc {
      PartText(front + [p] + back);
      { PartTextAppend(front + [p], back); }
      PartText(front + [p]) + PartText(back);
      { PartTextAppend(front, [p]); }
      PartText(front) + PartText(back);
      { PartTextAppend(front, back); }
      PartText(front + back);
      { assert front + back == parts; }
      PartText(parts);
    }
  }

  /** With no text parts at all the text is empty. */
  lemma {:induction false} NoTextPartsNoText(parts: seq<Part>)
    ensures (forall j :: 0 <= j < |parts| ==> parts[j].kind != "text") ==> PartText(parts) == ""
  {
    if parts != [] && forall j :: 0 <= j < |parts| ==> parts[j].kind != "text" {
      NoTextPartsNoText(parts[1..]);
      assert forall j :: 0 <= j < |parts[1..]| ==> parts[1..][j] == parts[j + 1];
    }
  }

  /** The message the submit handler appends: the input as typed, untrimmed. */
  function UserMessage(input: string): UiMessage {
    UiMessage("user", StringContent(input), NoPartsArray)
  }

  /** A submitted message is shown as exactly the text that was typed. */
  lemma SubmittedTextShown(input: string)
    ensures ExtractMessageText(UserMessage(input)) == input
    ensures UserMessage(input).role == "user"
  {
  }

  /** The chat state the page keeps: the message list and the input box. */
  class ChatSession {
    var messages: seq<UiMessage>
    var input: string

    /** A fresh chat: no messages, an empty input. */
    constructor ()
      ensures messages == [] && input == ""
    {
      messages := [];
      input := "";
    }

    /** onSubmit: when the trimmed input is non-empty, append it as a user
        message and clear the input; otherwise change nothing. */
    method Submit()
      modifies this
      ensures AllWhitespace(old(input)) ==> messages == old(messages) && input == old(input)
      ensures !AllWhitespace(old(input)) ==> messages == old(messages) + [UserMessage(old(input))] && input == ""
    {
      TrimEmpty(input);
      if Trim(input) != [] {
        messages := messages + [UserMessage(input)];
        input := "";
      }
    }
  }
}
