// parse_claim_task_parameters_from_queue_content: reading a claim id from a
// queue payload that may or may not have been Base64-encoded on the way.
module ClaimPayload {
  import opened Wrappers
  import opened JsonValues
  import opened Base64
  import opened Utf8

  datatype Raw = NoContent | TextContent(text: string) | BytesContent(bytes: seq<Byte>)

  datatype PayloadError = EmptyContent | NotUtf8 | NotAnObjectText | InvalidJson | NotAnObject | MissingId | EmptyId

  // The characters str.strip() removes.
  predicate IsSpace(c: char) {
    var n := c as int;
    || 9 <= n <= 13 || 28 <= n <= 32 || n == 0x85 || n == 0xA0 || n == 0x1680 || 0x2000 <= n <= 0x200A
    || n == 0x2028 || n == 0x2029 || n == 0x202F || n == 0x205F || n == 0x3000
  }

  function LeftStrip(s: string): string {
    if s != "" && IsSpace(s[0]) then LeftStrip(s[1..]) else s
  }

  function RightStrip(s: string): string {
    if s != "" && IsSpace(s[|s| - 1]) then RightStrip(s[..|s| - 1]) else s
  }

  // str.strip
  function Strip(s: string): string { RightStrip(LeftStrip(s)) }

  // The text to read: what a strict Base64 text decodes to, if that is UTF-8.
  function Unwrapped(content: string): string {
    match Decode(content)
    case None => content
    case Some(bytes) =>
      match DecodeText(bytes)
      case None => content
      case Some(text) => text
  }

  // Reading the JSON text. json.loads and str() of a JSON value are parameters.
  function ReadJson(text: string, loads: string -> Option<Json>, show: Json -> string): Result<string, PayloadError> {
    var content := Strip(text);
    if content == "" then Err(EmptyContent)
    else if content[0] != '{' then Err(NotAnObjectText)
    else
      match loads(content)
      case None => Err(InvalidJson)
      case Some(data) =>
        if !data.Obj? then Err(NotAnObject)
        else
          match Lookup(data.members, "claim_process_id")
          case None => Err(MissingId)
          case Some(id) =>
            var claim := Strip(if Truthy(id) then (if id.Str? then id.s else show(id)) else "");
            if claim == "" then Err(EmptyId) else Ok(claim)
  }

  function Parse(raw: Raw, loads: string -> Option<Json>, show: Json -> string): Result<string, PayloadError> {
    match raw
    case NoContent => Err(EmptyContent)
    case TextContent(text) => ReadJson(Unwrapped(text), loads, show)
    case BytesContent(bytes) =>
      match DecodeText(bytes)
      case None => Err(NotUtf8)
      case Some(text) => ReadJson(Unwrapped(text), loads, show)
  }

  // _build_task_param: the parser, then one more strip and emptiness check.
  function BuildTaskParam(raw: Raw, loads: string -> Option<Json>, show: Json -> string): Result<string, PayloadError> {
    match Parse(raw, loads, show)
    case Err(e) => Err(e)
    case Ok(id) => var claim := Strip(id); if claim == "" then Err(EmptyId) else Ok(claim)
  }

  // ---- one meaning for both forms ------------------------------------------------

  lemma EncodedIsAscii(b: seq<Byte>)
    ensures Unwrapped(Encode(b)) == (match DecodeText(b) case None => Encode(b) case Some(text) => text)
  {
    RoundTrip(b, false);
  }

  // A text with a brace, such as any JSON object, never decodes strictly, so
  // it is read as it stands.
  lemma BraceIsKept(text: string, i: nat)
    requires i < |text| && text[i] == '{'
    ensures Unwrapped(text) == text && !IsBase64Encoded(text)
  {
    ForeignNeverDecodes(text, false, i);
  }

  // The same result for a JSON object text, its UTF-8 bytes, the Base64 of
  // those bytes, and the bytes of that.
  lemma BothFormsAgree(text: string, i: nat, loads: string -> Option<Json>, show: Json -> string)
    requires i < |text| && text[i] == '{'
    ensures var direct := Parse(TextContent(text), loads, show);
            && Parse(BytesContent(EncodeText(text)), loads, show) == direct
            && Parse(TextContent(Encode(EncodeText(text))), loads, show) == direct
            && Parse(BytesContent(EncodeText(Encode(EncodeText(text)))), loads, show) == direct
  {
    BraceIsKept(text, i);
    TextRoundTrip(text);
    EncodedIsAscii(EncodeText(text));
    TextRoundTrip(Encode(EncodeText(text)));
  }

  lemma {:induction false} StripKeepsFront(s: string)
    requires s != "" && !IsSpace(s[0])
    ensures LeftStrip(s) == s && RightStrip(s) != "" && RightStrip(s) <= s
    decreases |s|
  {
    if IsSpace(s[|s| - 1]) { StripKeepsFront(s[..|s| - 1]); }
  }

  lemma {:induction false} StrippedFromText(s: string)
    requires Strip(s) != ""
    ensures exists i :: 0 <= i < |s| && s[i] == Strip(s)[0]
    decreases |s|
  {
    if IsSpace(s[0]) {
      StrippedFromText(s[1..]);
      var i :| 0 <= i < |s[1..]| && s[1..][i] == Strip(s[1..])[0];
      assert s[i + 1] == Strip(s)[0];
    } else {
      StripKeepsFront(s);
      assert s[0] == Strip(s)[0];
    }
  }

  // The text of a payload that has one.
  function TextOf(raw: Raw): Option<string> {
    match raw
    case NoContent => None
    case TextContent(text) => Some(text)
    case BytesContent(bytes) => DecodeText(bytes)
  }

  // Any payload that yields a claim id is the text or the bytes of a JSON
  // object, or the Base64 of one, and each of the four forms yields that id.
  lemma AcceptedIsJson(raw: Raw, loads: string -> Option<Json>, show: Json -> string)
    requires Parse(raw, loads, show).Ok?
    ensures TextOf(raw).Some?
    ensures var json, res := Unwrapped(TextOf(raw).value), Parse(raw, loads, show);
            && Strip(json) != "" && Strip(json)[0] == '{'
            && Parse(TextContent(json), loads, show) == res
            && Parse(BytesContent(EncodeText(json)), loads, show) == res
            && Parse(TextContent(Encode(EncodeText(json))), loads, show) == res
            && Parse(BytesContent(EncodeText(Encode(EncodeText(json)))), loads, show) == res
  {
    var json := Unwrapped(TextOf(raw).value);
    StrippedFromText(json);
    var i :| 0 <= i < |json| && json[i] == '{';
    BraceIsKept(json, i);
    BothFormsAgree(json, i, loads, show);
  }

  // Nothing to strip at either end.
  predicate Stripped(s: string) { s != "" ==> !IsSpace(s[0]) && !IsSpace(s[|s| - 1]) }

  lemma {:induction false} StripStrips(s: string)
    ensures Stripped(Strip(s))
    decreases |s|
  {
    if s != "" {
      if IsSpace(s[0]) {
        StripStrips(s[1..]);
      } else {
        StripKeepsFront(s);
        RightStrips(s);
      }
    }
  }

  lemma {:induction false} RightStrips(s: string)
    ensures RightStrip(s) != "" ==> !IsSpace(RightStrip(s)[|RightStrip(s)| - 1])
    decreases |s|
  {
    if s != "" && IsSpace(s[|s| - 1]) { RightStrips(s[..|s| - 1]); }
  }

  // A claim id comes from the id member of a JSON object, is not empty and has
  // no space at either end, so the second check of the caller changes nothing.
  lemma ClaimIdIsClean(raw: Raw, loads: string -> Option<Json>, show: Json -> string)
    ensures BuildTaskParam(raw, loads, show) == Parse(raw, loads, show)
    ensures Parse(raw, loads, show).Ok? ==>
              && Parse(raw, loads, show).value != "" && Stripped(Parse(raw, loads, show).value)
              && exists text, ms :: loads(text) == Some(Obj(ms)) && Stripped(text) && Has(ms, "claim_process_id")
  {
    if Parse(raw, loads, show).Ok? {
      var claim := Parse(raw, loads, show).value;
      var text := if raw.TextContent? then raw.text else DecodeText(raw.bytes).value;
      assert ReadJson(Unwrapped(text), loads, show) == Ok(claim);
      IdIsClean(Unwrapped(text), loads, show, claim);
      StrippedStays(claim);
      hide Strip, Stripped, ReadJson, Parse, Unwrapped;
    }
  }

  lemma IdIsClean(text: string, loads: string -> Option<Json>, show: Json -> string, claim: string)
    requires ReadJson(text, loads, show) == Ok(claim)
    ensures claim != "" && Stripped(claim)
    ensures exists json, ms :: loads(json) == Some(Obj(ms)) && Stripped(json) && Has(ms, "claim_process_id")
  {
    StripStrips(text);
    var ms := loads(Strip(text)).value.members;
    var id := Lookup(ms, "claim_process_id").value;
    StripStrips(if Truthy(id) then (if id.Str? then id.s else show(id)) else "");
    hide Strip, Stripped;
    assert loads(Strip(text)) == Some(Obj(ms));
  }

  lemma StrippedStays(s: string)
    requires Stripped(s)
    ensures Strip(s) == s
  {
  }

  // ---- exactly the accepted payloads ----------------------------------------------

  // t is s without the spaces at its ends.
  ghost predicate TrimsTo(s: string, t: string) {
    exists i: nat, j: nat :: TrimsAt(s, t, i, j)
  }

  predicate TrimsAt(s: string, t: string, i: nat, j: nat) {
    && i <= j <= |s| && t == s[i..j] && Stripped(t)
    && (forall k :: 0 <= k < i ==> IsSpace(s[k])) && (forall k :: j <= k < |s| ==> IsSpace(s[k]))
  }

  lemma {:induction false} LeftGone(s: string)
    ensures var l := LeftStrip(s);
            |l| <= |s| && l == s[|s| - |l|..] && forall k :: 0 <= k < |s| - |l| ==> IsSpace(s[k])
    decreases |s|
  {
    if s != "" && IsSpace(s[0]) {
      LeftGone(s[1..]);
      hide IsSpace;
      assert forall k :: 1 <= k < |s| ==> s[k] == s[1..][k - 1];
    }
  }

  lemma {:induction false} RightGone(s: string)
    ensures var r := RightStrip(s);
            |r| <= |s| && r == s[..|r|] && forall k :: |r| <= k < |s| ==> IsSpace(s[k])
    decreases |s|
  {
    if s != "" && IsSpace(s[|s| - 1]) {
      RightGone(s[..|s| - 1]);
      hide IsSpace;
      assert forall k :: 0 <= k < |s| - 1 ==> s[k] == s[..|s| - 1][k];
    }
  }

  lemma StripTrims(s: string)
    ensures TrimsTo(s, Strip(s))
  {
    StripStrips(s);
    var l := LeftStrip(s);
    LeftGone(s);
    RightGone(l);
    hide LeftStrip, RightStrip, IsSpace, Stripped;
    var t, i := RightStrip(l), |s| - |l|;
    forall k | i + |t| <= k < |s| ensures IsSpace(s[k]) { assert s[k] == l[k - i]; }
    assert t == s[i..i + |t|];
    assert TrimsAt(s, t, i, i + |t|);
  }

  lemma TrimmedOnce(s: string, t: string, i: nat, j: nat, u: string, k: nat, l: nat)
    requires TrimsAt(s, t, i, j) && TrimsAt(s, u, k, l)
    requires t != "" && i <= k
    ensures t == u
  {
    hide IsSpace;
    assert s[i] == t[0] && s[j - 1] == t[|t| - 1];
    assert k == i;
    assert l > i;
    assert s[l - 1] == u[|u| - 1];
  }

  lemma TrimsExactly(s: string, t: string)
    ensures TrimsTo(s, t) <==> t == Strip(s)
  {
    StripTrims(s);
    if TrimsTo(s, t) {
      var u := Strip(s);
      hide Strip, IsSpace, Stripped;
      var i: nat, j: nat :| TrimsAt(s, t, i, j);
      var k: nat, l: nat :| TrimsAt(s, u, k, l);
      if t != "" && i <= k { TrimmedOnce(s, t, i, j, u, k, l); }
      else if u != "" && k <= i { TrimmedOnce(s, u, k, l, t, i, j); }
      else if t != "" { NoneLeft(s, t, i, j, k, l); }
      else if u != "" { NoneLeft(s, u, k, l, i, j); }
    }
  }

  lemma SpacesOnly(s: string, i: nat, j: nat)
    requires i <= j <= |s| && forall x :: 0 <= x < |s| ==> IsSpace(s[x])
    ensures forall x :: 0 <= x < |s[i..j]| ==> IsSpace(s[i..j][x])
  {
    hide IsSpace;
  }

  lemma NoneLeft(s: string, t: string, i: nat, j: nat, k: nat, l: nat)
    requires TrimsAt(s, t, i, j) && TrimsAt(s, "", k, l)
    ensures t == ""
  {
    hide IsSpace;
    assert k == l;
    assert forall x :: 0 <= x < |s| ==> IsSpace(s[x]);
    SpacesOnly(s, i, j);
  }

  // The first member of that name, and a value that counts as one.
  predicate NamesClaim(ms: seq<Member>, i: nat) {
    && i < |ms| && ms[i].key == "claim_process_id"
    && (forall j :: 0 <= j < i ==> ms[j].key != "claim_process_id")
    && var id := ms[i].value;
       id != Null && id != Bool(false) && id != Num(0.0) && id != Str("") && id != Arr([]) && id != Obj([])
  }

  // str() of it
  function IdText(id: Json, show: Json -> string): string {
    if id.Str? then id.s else show(id)
  }

  ghost predicate ClaimIn(text: string, loads: string -> Option<Json>, show: Json -> string, claim: string) {
    exists content: string, ms: seq<Member>, i: nat ::
      && TrimsTo(text, content) && content != "" && content[0] == '{'
      && loads(content) == Some(Obj(ms)) && NamesClaim(ms, i)
      && claim != "" && TrimsTo(IdText(ms[i].value, show), claim)
  }

  // A payload gives a claim id exactly if its trimmed text is the text of an
  // object whose "claim_process_id" has one, and that is the id.
  lemma ClaimIdExactly(raw: Raw, loads: string -> Option<Json>, show: Json -> string, claim: string)
    ensures Parse(raw, loads, show) == Ok(claim) <==>
            TextOf(raw).Some? && ClaimIn(Unwrapped(TextOf(raw).value), loads, show, claim)
  {
    if TextOf(raw).Some? {
      var text := Unwrapped(TextOf(raw).value);
      assert Parse(raw, loads, show) == ReadJson(text, loads, show);
      hide *;
      ReadExactly(text, loads, show, claim);
    }
  }

  lemma {:induction false} FirstClaim(ms: seq<Member>, i: nat)
    requires NamesClaim(ms, i)
    ensures Lookup(ms, "claim_process_id") == Some(ms[i].value)
    decreases i
  {
    if i > 0 {
      assert forall j :: 0 < j < |ms| ==> ms[j] == ms[1..][j - 1];
      FirstClaim(ms[1..], i - 1);
    }
  }

  lemma {:induction false} ClaimPosition(ms: seq<Member>) returns (i: nat)
    requires Has(ms, "claim_process_id")
    ensures i < |ms| && ms[i].key == "claim_process_id"
    ensures ms[i].value == Lookup(ms, "claim_process_id").value
    ensures forall j :: 0 <= j < i ==> ms[j].key != "claim_process_id"
    decreases |ms|
  {
    if ms[0].key == "claim_process_id" {
      i := 0;
    } else {
      i := ClaimPosition(ms[1..]);
      i := i + 1;
      assert forall j :: 0 < j < |ms| ==> ms[j] == ms[1..][j - 1];
    }
  }

  lemma ReadExactly(text: string, loads: string -> Option<Json>, show: Json -> string, claim: string)
    ensures ReadJson(text, loads, show) == Ok(claim) <==> ClaimIn(text, loads, show, claim)
  {
    hide ReadJson, ClaimIn;
    if ReadJson(text, loads, show) == Ok(claim) { ReadIsClaim(text, loads, show, claim); }
    if ClaimIn(text, loads, show, claim) { ClaimIsRead(text, loads, show, claim); }
  }

  lemma ReadIsClaim(text: string, loads: string -> Option<Json>, show: Json -> string, claim: string)
    requires ReadJson(text, loads, show) == Ok(claim)
    ensures ClaimIn(text, loads, show, claim)
  {
    var content := Strip(text);
    var ms := loads(content).value.members;
    var i := ClaimPosition(ms);
    StripTrims(text);
    StripTrims(IdText(ms[i].value, show));
    hide Strip, TrimsTo, Lookup;
    assert NamesClaim(ms, i);
  }

  lemma ClaimIsRead(text: string, loads: string -> Option<Json>, show: Json -> string, claim: string)
    requires ClaimIn(text, loads, show, claim)
    ensures ReadJson(text, loads, show) == Ok(claim)
  {
    var content: string, ms: seq<Member>, i: nat :|
      && TrimsTo(text, content) && content != "" && content[0] == '{'
      && loads(content) == Some(Obj(ms)) && NamesClaim(ms, i)
      && claim != "" && TrimsTo(IdText(ms[i].value, show), claim);
    TrimsExactly(text, content);
    TrimsExactly(IdText(ms[i].value, show), claim);
    FirstClaim(ms, i);
    CountsAsOne(ms[i].value);
    hide *;
    ReadOf(text, content, ms, ms[i].value, loads, show, claim);
  }

  lemma CountsAsOne(id: Json)
    ensures id != Null && id != Bool(false) && id != Num(0.0) && id != Str("") && id != Arr([]) && id != Obj([])
            ==> Truthy(id)
  {
  }

  lemma ReadOf(text: string, content: string, ms: seq<Member>, id: Json,
               loads: string -> Option<Json>, show: Json -> string, claim: string)
    requires content == Strip(text) && content != "" && content[0] == '{' && loads(content) == Some(Obj(ms))
    requires Lookup(ms, "claim_process_id") == Some(id) && Truthy(id) && claim == Strip(IdText(id, show)) && claim != ""
    ensures ReadJson(text, loads, show) == Ok(claim)
  {
    hide Strip, Truthy, Lookup;
  }
}
