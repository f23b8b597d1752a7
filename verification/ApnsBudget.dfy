// A relayed ciphertext fits into one APNs payload.
module ApnsBudget {
  import opened Common
  import Base64
  import opened RelayState

  // Characters that JSON text carries as they are.
  predicate Plain(c: char) {
    ' ' <= c <= '\U{7F}' && c != '"' && c != '\\' && c != '<' && c != '>' && c != '&'
  }

  const HEX := "0123456789abcdef"

  function Escaped(c: char): string {
    if Plain(c) then [c]
    else if c == '"' || c == '\\' then ['\\', c]
    else if c == '\U{8}' then "\\b"
    else if c == '\U{C}' then "\\f"
    else if c == '\n' then "\\n"
    else if c == '\r' then "\\r"
    else if c == '\t' then "\\t"
    else if c as int < 0x80 then "\\u00" + [HEX[c as int / 16], HEX[c as int % 16]]
    else if c == '\U{2028}' then "\\u2028"
    else if c == '\U{2029}' then "\\u2029"
    else [c]
  }

  function EscapedAll(s: string): string {
    if s == "" then "" else Escaped(s[0]) + EscapedAll(s[1..])
  }

  function Quoted(s: string): string {
    "\"" + EscapedAll(s) + "\""
  }

  const OPENING := "{\"aps\":{\"alert\":{\"title\":"
  const ALERT_BODY := ",\"body\":\"\"}"
  const SOUND := ",\"sound\":\"default\""
  const MUTABLE := ",\"mutable-content\":1}"
  const DATA := ",\"data\":{\"m\":"
  const SOURCE := ",\"source\":"
  const CLOSING := "}}"

  // The payload of a relayed push; the body of the alert is empty.
  function Payload(n: Note): string {
    OPENING + Quoted(n.title) + ALERT_BODY + SOUND + MUTABLE + DATA + Quoted(n.m) + SOURCE + Quoted(n.source) + CLOSING
  }

  lemma FrameLengths()
    ensures |OPENING| == 25 && |ALERT_BODY| == 11 && |SOUND| == 18 && |MUTABLE| == 21
    ensures |DATA| == 13 && |SOURCE| == 10 && |CLOSING| == 2
  {
  }

  lemma PayloadLength(n: Note)
    ensures |Payload(n)| == 106 + |EscapedAll(n.title)| + |EscapedAll(n.m)| + |EscapedAll(n.source)|
  {
    FrameLengths();
  }

  lemma {:induction false} PlainNeedsNoEscape(s: string)
    requires forall i | 0 <= i < |s| :: Plain(s[i])
    ensures EscapedAll(s) == s
  {
    if s == "" {
    } else {
      PlainNeedsNoEscape(s[1..]);
    }
  }

  lemma CiphertextIsPlain(body: seq<Byte>)
    ensures EscapedAll(Base64.Encode(body, Base64.RAW_URL)) == Base64.Encode(body, Base64.RAW_URL)
    ensures |Base64.Encode(body, Base64.RAW_URL)| == (4 * |body| + 2) / 3
  {
    Base64.EncodeUsesAlphabet(body, Base64.RAW_URL);
    PlainNeedsNoEscape(Base64.Encode(body, Base64.RAW_URL));
    Base64.RawLength(body, Base64.RAW_URL);
  }

  // Main result: the payload of a forwarded body is its base64 length plus a fixed frame,
  // and everything the relay accepts fits the limit with room to spare.
  lemma ForwardedFits(e: Endpoint, body: seq<Byte>, encoding: string)
    ensures |Payload(NoteFor(e, body))| == (4 * |body| + 2) / 3 + 122
    ensures Forwardable(body, encoding) ==> |Payload(NoteFor(e, body))| <= 4096
    ensures |Payload(NoteFor(e, body))| <= 4096 <==> |body| <= 2980
  {
    RelayedLength(e, body);
  }

  lemma RelayedLength(e: Endpoint, body: seq<Byte>)
    ensures |Payload(NoteFor(e, body))| == (4 * |body| + 2) / 3 + 122
  {
    var n := NoteFor(e, body);
    CiphertextIsPlain(body);
    FixedTexts();
    PayloadLength(n);
  }

  lemma FixedTexts()
    ensures |EscapedAll(PLACEHOLDER_TITLE)| == 9 && |EscapedAll("webpush")| == 7
  {
    PlainNeedsNoEscape(PLACEHOLDER_TITLE);
    SourceText();
  }

  lemma SourceText()
    ensures |EscapedAll("webpush")| == 7
  {
    PlainNeedsNoEscape("webpush");
  }
}
