// Chat messages as azure_openai_response_retry.py reads and writes them:
// None, dicts (copied when their text is replaced) and objects (written in
// place, so every list that holds the object sees the new text).
module ContextMessages {
  import opened Wrappers
  import opened Decimals

  // What a message field holds: None, a string, or a value with its str().
  datatype Content = NoContent | Text(text: string) | Other(shown: string)

  // The fields the code looks at. "shown" is str() of the whole message, used
  // when it has none of the three; the flags say which attributes of an
  // object raise when they are set.
  datatype Fields = Fields(
    role: Option<string>,
    content: Option<Content>,
    text: Option<Content>,
    contents: Option<Content>,
    shown: string,
    contentLocked: bool,
    textLocked: bool)

  datatype Message = NoMessage | DictMessage(fields: Fields) | ObjectMessage(id: nat)

  type Objects = map<nat, Fields>

  predicate Known(objects: Objects, m: Message) {
    m.ObjectMessage? ==> m.id in objects
  }

  predicate AllKnown(objects: Objects, messages: seq<Message>) {
    forall i :: 0 <= i < |messages| ==> Known(objects, messages[i])
  }

  // _safe_str
  function SafeStr(c: Content): string {
    match c
    case NoContent => ""
    case Text(text) => text
    case Other(shown) => shown
  }

  function FieldText(f: Fields): string {
    if f.content.Some? then SafeStr(f.content.value)
    else if f.text.Some? then SafeStr(f.text.value)
    else if f.contents.Some? then SafeStr(f.contents.value)
    else f.shown
  }

  // _estimate_message_text
  function Estimate(objects: Objects, m: Message): string
    requires Known(objects, m)
  {
    match m
    case NoMessage => ""
    case DictMessage(f) => FieldText(f)
    case ObjectMessage(id) => FieldText(objects[id])
  }

  // _get_message_role
  function Role(objects: Objects, m: Message): Option<string>
    requires Known(objects, m)
  {
    match m
    case NoMessage => None
    case DictMessage(f) => f.role
    case ObjectMessage(id) => objects[id].role
  }

  function WithDictText(f: Fields, text: string): Fields {
    if f.content.Some? then f.(content := Some(Text(text)))
    else if f.text.Some? then f.(text := Some(Text(text)))
    else if f.contents.Some? then f.(contents := Some(Text(text)))
    else f.(content := Some(Text(text)))
  }

  // The first attribute of "content" and "text" that exists and can be set.
  function WithObjectText(f: Fields, text: string): Fields {
    if f.content.Some? && !f.contentLocked then f.(content := Some(Text(text)))
    else if f.text.Some? && !f.textLocked then f.(text := Some(Text(text)))
    else f
  }

  // _set_message_text: the message to use from now on, and the objects after.
  function AfterSet(objects: Objects, m: Message, text: string): (r: (Message, Objects))
    requires Known(objects, m)
    ensures r.1.Keys == objects.Keys && Known(r.1, r.0)
  {
    match m
    case NoMessage => (m, objects)
    case DictMessage(f) => (DictMessage(WithDictText(f, text)), objects)
    case ObjectMessage(id) => (m, objects[id := WithObjectText(objects[id], text)])
  }

  // Whether setting a message's text changes the text that is read from it.
  predicate Writable(objects: Objects, m: Message)
    requires Known(objects, m)
  {
    match m
    case NoMessage => false
    case DictMessage(_) => true
    case ObjectMessage(id) =>
      var f := objects[id];
      if f.content.Some? then !f.contentLocked else f.text.Some? && !f.textLocked
  }

  // Reading a message after its text was set: the new text if the message is
  // writable, the old one if it is not; no other message changes.
  lemma ReadAfterSet(objects: Objects, m: Message, text: string, other: Message)
    requires Known(objects, m) && Known(objects, other)
    ensures var (r, after) := AfterSet(objects, m, text);
            && Estimate(after, r) == (if Writable(objects, m) then text else Estimate(objects, m))
            && Role(after, r) == Role(objects, m)
            && (!other.ObjectMessage? || other != m ==> Estimate(after, other) == Estimate(objects, other))
  {
  }

  // ---- _truncate_text --------------------------------------------------------

  function Clamp(n: int, high: nat): (r: nat)
    ensures r <= high && (0 <= n <= high ==> r == n)
  {
    if n < 0 then 0 else if n > high then high else n
  }

  function Marker(omitted: nat): string {
    "\n... [TRUNCATED " + Dec(omitted) + " CHARS] ...\n"
  }

  function Prefix(s: string, n: nat): string {
    if |s| > n then s[..n] else s
  }

  function TruncateText(text: string, maxChars: int, keepHead: int, keepTail: int): string {
    if maxChars <= 0 || |text| <= maxChars then (if maxChars <= 0 then "" else text)
    else
      var head := text[..Clamp(keepHead, maxChars)];
      var tailLength := Clamp(keepTail, maxChars - |head|);
      if tailLength == 0 then head
      else
        var tail := text[|text| - tailLength..];
        head + Prefix(Marker(|text| - |head| - |tail|), maxChars - |head| - |tail|) + tail
  }

  // The result r keeps h characters of the head and t of the tail.
  predicate KeepsEnds(text: string, r: string, h: nat, t: nat, maxChars: nat)
    requires h + t <= maxChars < |text|
  {
    && h + t <= |r| && r[..h] == text[..h] && r[|r| - t..] == text[|text| - t..]
    && (t == 0 ==> |r| == h)
    && (t > 0 ==> r[h..|r| - t] <= Marker(|text| - h - t))
    && (t > 0 && |r| < maxChars ==> r[h..|r| - t] == Marker(|text| - h - t))
  }

  // What is left of a text: never more than the limit; unchanged within it;
  // else the kept head, and, when any tail is kept, the tail with the number
  // of omitted characters announced in between as far as there is room.
  lemma TruncationKeepsEnds(text: string, maxChars: int, keepHead: int, keepTail: int)
    ensures var r := TruncateText(text, maxChars, keepHead, keepTail);
            && |r| <= (if maxChars > 0 then maxChars else 0)
            && (0 < maxChars && |text| <= maxChars ==> r == text)
            && (0 < maxChars < |text| ==>
                  var h := Clamp(keepHead, maxChars);
                  KeepsEnds(text, r, h, Clamp(keepTail, maxChars - h), maxChars))
  {
    if 0 < maxChars < |text| {
      var h := Clamp(keepHead, maxChars);
      LongTruncation(text, maxChars, keepHead, keepTail, h, Clamp(keepTail, maxChars - h));
      hide TruncateText, KeepsEnds;
    }
  }

  lemma LongTruncation(text: string, maxChars: nat, keepHead: int, keepTail: int, h: nat, t: nat)
    requires 0 < maxChars < |text| && h == Clamp(keepHead, maxChars) && t == Clamp(keepTail, maxChars - h)
    ensures var r := TruncateText(text, maxChars, keepHead, keepTail);
            KeepsEnds(text, r, h, t, maxChars) && |r| <= maxChars
  {
    HeadAlone(text, h, maxChars);
    BothEnds(text, h, t, maxChars);
    TruncatedIs(text, maxChars, keepHead, keepTail, h, t);
    hide *;
  }

  lemma TruncatedIs(text: string, maxChars: nat, keepHead: int, keepTail: int, h: nat, t: nat)
    requires 0 < maxChars < |text| && h == Clamp(keepHead, maxChars) && t == Clamp(keepTail, maxChars - h)
    ensures TruncateText(text, maxChars, keepHead, keepTail)
         == if t == 0 then text[..h]
            else text[..h] + Prefix(Marker(|text| - h - t), maxChars - h - t) + text[|text| - t..]
  {
    hide Prefix, Marker;
  }

  lemma HeadAlone(text: string, h: nat, maxChars: nat)
    requires h <= maxChars < |text|
    ensures KeepsEnds(text, text[..h], h, 0, maxChars)
  {
  }

  lemma BothEnds(text: string, h: nat, t: nat, maxChars: nat)
    requires h + t <= maxChars < |text|
    ensures var r := text[..h] + Prefix(Marker(|text| - h - t), maxChars - h - t) + text[|text| - t..];
            (t > 0 ==> KeepsEnds(text, r, h, t, maxChars)) && |r| <= maxChars
  {
    hide Marker;
    var head, tail := text[..h], text[|text| - t..];
    var middle := Prefix(Marker(|text| - h - t), maxChars - h - t);
    var r := head + middle + tail;
    assert |head| == h && |tail| == t && |middle| <= maxChars - h - t;
    assert r[..h] == head && r[|r| - t..] == tail && r[h..|r| - t] == middle;
  }
}
