// The VAPID Authorization header (section 3 of RFC 8292) and the check against a pinned key.
module Vapid {
  import opened Common
  import opened Strings
  import opened Base64

  datatype Error = Missing | Malformed | KeyMismatch | BadSignature

  datatype Header = Header(token: string, publicKey: string)

  // ------------------------------------------------------------------ specification

  function LowerAscii(c: char): char {
    if 'A' <= c <= 'Z' then (c as int + 32) as char else c
  }

  predicate EqualFold(s: string, t: string) {
    |s| == |t| && forall i | 0 <= i < |s| :: LowerAscii(s[i]) == LowerAscii(t[i])
  }

  // One comma-separated piece: a later t or k replaces an earlier one, anything else is skipped.
  function Absorb(h: Header, part: string): Header {
    match Cut(TrimSpace(part), '=')
    case None => h
    case Some((key, value)) =>
      if TrimSpace(key) == "t" then h.(token := TrimSpace(value))
      else if TrimSpace(key) == "k" then h.(publicKey := TrimSpace(value))
      else h
  }

  function AbsorbAll(h: Header, parts: seq<string>): Header {
    if parts == [] then h else Absorb(AbsorbAll(h, parts[..|parts| - 1]), parts[|parts| - 1])
  }

  function Parse(authorization: string): Result<Header, Error> {
    if authorization == "" then Err(Missing)
    else
      var rest := TrimSpace(authorization);
      if |rest| < 5 || !EqualFold(rest[..5], "vapid") then Err(Malformed)
      else
        var h := AbsorbAll(Header("", ""), Split(TrimSpace(rest[5..]), ','));
        if h.token == "" || h.publicKey == "" then Err(Malformed) else Ok(h)
  }

  // ParseHeader
  method ParseHeader(authorization: string) returns (r: Result<Header, Error>)
    ensures r == Parse(authorization)
    ensures r.Ok? ==> WellFormed(r.value)
    ensures r == Err(Missing) <==> authorization == ""
  {
    AcceptedIsWellFormed(authorization);
    if authorization == "" {
      return Err(Missing);
    }
    var rest := TrimSpace(authorization);
    if |rest| < 5 || !EqualFold(rest[..5], "vapid") {
      return Err(Malformed);
    }
    rest := TrimSpace(rest[5..]);
    var h := Header("", "");
    var parts := Split(rest, ',');
    for i := 0 to |parts|
      invariant h == AbsorbAll(Header("", ""), parts[..i])
    {
      assert parts[..i + 1][..i] == parts[..i];
      var cut := Cut(TrimSpace(parts[i]), '=');
      if cut.None? {
        continue;
      }
      var (key, value) := cut.value;
      if TrimSpace(key) == "t" {
        h := h.(token := TrimSpace(value));
      } else if TrimSpace(key) == "k" {
        h := h.(publicKey := TrimSpace(value));
      }
    }
    assert parts[..|parts|] == parts;
    if h.token == "" || h.publicKey == "" {
      return Err(Malformed);
    }
    return Ok(h);
  }

  // ----------------------------------------------------------------------- printing

  // White space around the name and the value of a parameter.
  datatype Spacing = Spacing(a: string, b: string, c: string, d: string) {
    predicate Ok() {
      Blank(a) && Blank(b) && Blank(c) && Blank(d)
    }
  }

  function Param(name: string, value: string, sp: Spacing): string {
    sp.a + name + sp.b + "=" + sp.c + value + sp.d
  }

  datatype Layout = Layout(before: string, scheme: string, after: string, t: Spacing, k: Spacing, keyFirst: bool) {
    predicate Ok() {
      Blank(before) && EqualFold(scheme, "vapid") && Blank(after) && t.Ok() && k.Ok()
    }
  }

  function Print(h: Header, l: Layout): string {
    var t, k := Param("t", h.token, l.t), Param("k", h.publicKey, l.k);
    l.before + l.scheme + l.after + if l.keyFirst then k + "," + t else t + "," + k
  }

  const PLAIN := Layout("", "vapid", " ", Spacing("", "", "", ""), Spacing("", "", "", ""), false)

  predicate WellFormedValue(v: string) {
    v != "" && Trimmed(v) && ',' !in v
  }

  predicate WellFormed(h: Header) {
    WellFormedValue(h.token) && WellFormedValue(h.publicKey)
  }

  // A parameter without the white space in front and behind.
  function Core(name: string, value: string, sp: Spacing): string {
    name + sp.b + "=" + sp.c + value
  }

  lemma AbsorbParam(h: Header, name: string, value: string, sp: Spacing, w: string, w': string)
    requires name == "t" || name == "k"
    requires WellFormedValue(value) && sp.Ok() && Blank(w) && Blank(w')
    ensures Absorb(h, w + Core(name, value, sp) + w') ==
      if name == "t" then h.(token := value) else h.(publicKey := value)
  {
    CoreIsTrimmed(name, value, sp);
    TrimOf(w, Core(name, value, sp), w');
    CutOfCore(name, value, sp);
  }

  lemma CoreIsTrimmed(name: string, value: string, sp: Spacing)
    requires name == "t" || name == "k"
    requires WellFormedValue(value)
    ensures Trimmed(Core(name, value, sp))
  {
    var core := Core(name, value, sp);
    assert core[0] == name[0] && core[|core| - 1] == value[|value| - 1];
  }

  lemma CutOfCore(name: string, value: string, sp: Spacing)
    requires name == "t" || name == "k"
    requires WellFormedValue(value) && sp.Ok()
    ensures Cut(Core(name, value, sp), '=') == Some((name + sp.b, sp.c + value))
    ensures TrimSpace(name + sp.b) == name && TrimSpace(sp.c + value) == value
  {
    assert Core(name, value, sp) == (name + sp.b) + ['='] + (sp.c + value);
    CutAt(name + sp.b, '=', sp.c + value);
    TrimBehind(name, sp.b);
    TrimBefore(sp.c, value);
  }

  lemma NoComma(name: string, value: string, sp: Spacing)
    requires name == "t" || name == "k"
    requires WellFormedValue(value) && sp.Ok()
    ensures ',' !in Core(name, value, sp)
  {
  }

  // Two parameters after the scheme, whatever the spacing, give back their values.
  lemma ParseTwo(before: string, scheme: string, after: string,
                 name1: string, v1: string, sp1: Spacing, name2: string, v2: string, sp2: Spacing)
    requires Blank(before) && EqualFold(scheme, "vapid") && Blank(after) && sp1.Ok() && sp2.Ok()
    requires {name1, name2} == {"t", "k"} && WellFormedValue(v1) && WellFormedValue(v2)
    ensures Parse(before + scheme + after + (Param(name1, v1, sp1) + "," + Param(name2, v2, sp2))) ==
      Ok(if name1 == "t" then Header(v1, v2) else Header(v2, v1))
  {
    var text := before + scheme + after + (Param(name1, v1, sp1) + "," + Param(name2, v2, sp2));
    var first := Core(name1, v1, sp1) + sp1.d;
    var second := sp2.a + Core(name2, v2, sp2);
    var params := first + [','] + second;
    ParamsRegrouped(name1, v1, sp1, name2, v2, sp2);
    TextRegrouped(before, scheme, after, sp1.a, params, sp2.d, text);
    CoreIsTrimmed(name1, v1, sp1);
    CoreIsTrimmed(name2, v2, sp2);
    TrimmedEnds(first, second, Core(name1, v1, sp1), sp1.d, sp2.a, Core(name2, v2, sp2));
    SchemeThenParams(before, scheme, after + sp1.a, params, sp2.d);
    NoComma(name1, v1, sp1);
    NoComma(name2, v2, sp2);
    SplitTwo(first, ',', second);
    AbsorbTwo(first, second, name1, v1, sp1, name2, v2, sp2);
  }

  lemma TextRegrouped(before: string, scheme: string, after: string, a: string, params: string, d: string, text: string)
    requires text == before + scheme + after + (a + params + d)
    ensures text == before + (scheme + (after + a) + params) + d
  {
  }

  // The two parameters without the blanks at the outer ends.
  lemma ParamsRegrouped(name1: string, v1: string, sp1: Spacing, name2: string, v2: string, sp2: Spacing)
    ensures Param(name1, v1, sp1) + "," + Param(name2, v2, sp2) ==
      sp1.a + ((Core(name1, v1, sp1) + sp1.d) + [','] + (sp2.a + Core(name2, v2, sp2))) + sp2.d
  {
    ParamIsCore(name1, v1, sp1);
    ParamIsCore(name2, v2, sp2);
  }

  lemma ParamIsCore(name: string, value: string, sp: Spacing)
    ensures Param(name, value, sp) == sp.a + Core(name, value, sp) + sp.d
  {
  }

  lemma TrimmedEnds(first: string, second: string, core1: string, d: string, a: string, core2: string)
    requires first == core1 + d && second == a + core2
    requires core1 != "" && core2 != "" && Trimmed(core1) && Trimmed(core2)
    ensures Trimmed(first + [','] + second)
  {
    var params := first + [','] + second;
    assert params[0] == core1[0] && params[|params| - 1] == core2[|core2| - 1];
  }

  // What is left after the scheme, trimmed.
  lemma SchemeThenParams(before: string, scheme: string, gap: string, params: string, behind: string)
    requires Blank(before) && EqualFold(scheme, "vapid") && Blank(gap) && Blank(behind)
    requires params != "" && Trimmed(params)
    ensures var rest := TrimSpace(before + (scheme + gap + params) + behind);
      |rest| >= 5 && EqualFold(rest[..5], "vapid") && TrimSpace(rest[5..]) == params
  {
    var rest := scheme + gap + params;
    assert rest[0] == scheme[0] && LowerAscii(scheme[0]) == 'v' && rest[|rest| - 1] == params[|params| - 1];
    TrimOf(before, rest, behind);
    assert rest[..5] == scheme && rest[5..] == gap + params + "";
    TrimOf(gap, params, "");
  }

  lemma AbsorbTwo(first: string, second: string,
                  name1: string, v1: string, sp1: Spacing, name2: string, v2: string, sp2: Spacing)
    requires sp1.Ok() && sp2.Ok()
    requires {name1, name2} == {"t", "k"} && WellFormedValue(v1) && WellFormedValue(v2)
    requires first == Core(name1, v1, sp1) + sp1.d && second == sp2.a + Core(name2, v2, sp2)
    ensures AbsorbAll(Header("", ""), [first, second]) == if name1 == "t" then Header(v1, v2) else Header(v2, v1)
  {
    assert name1 != name2 && name1 in {"t", "k"} && name2 in {"t", "k"};
    var none := Header("", "");
    assert first == "" + Core(name1, v1, sp1) + sp1.d;
    AbsorbParam(none, name1, v1, sp1, "", sp1.d);
    assert second == sp2.a + Core(name2, v2, sp2) + "";
    AbsorbParam(Absorb(none, first), name2, v2, sp2, sp2.a, "");
    AbsorbBoth(none, first, second);
  }

  lemma AbsorbBoth(h: Header, a: string, b: string)
    ensures AbsorbAll(h, [a, b]) == Absorb(Absorb(h, a), b)
  {
    assert [a, b][..1] == [a] && [a][..0] == [];
    assert AbsorbAll(h, [a]) == Absorb(h, a);
  }

  // Main result: parsing inverts printing, in any layout.
  lemma ParseInvertsPrint(h: Header, l: Layout)
    requires WellFormed(h) && l.Ok()
    ensures Parse(Print(h, l)) == Ok(h)
  {
    if l.keyFirst {
      ParseTwo(l.before, l.scheme, l.after, "k", h.publicKey, l.k, "t", h.token, l.t);
    } else {
      ParseTwo(l.before, l.scheme, l.after, "t", h.token, l.t, "k", h.publicKey, l.k);
    }
  }

  // Main result: what is accepted could have been printed.
  lemma AcceptedIsWellFormed(authorization: string)
    ensures Parse(authorization).Ok? ==>
      WellFormed(Parse(authorization).value) && Parse(Print(Parse(authorization).value, PLAIN)) == Parse(authorization)
  {
    if Parse(authorization).Ok? {
      var parts := Split(TrimSpace(TrimSpace(authorization)[5..]), ',');
      AbsorbedValues(parts);
      ParseInvertsPrint(Parse(authorization).value, PLAIN);
    }
  }

  lemma {:induction false} AbsorbedValues(parts: seq<string>)
    requires forall i | 0 <= i < |parts| :: ',' !in parts[i]
    ensures var h := AbsorbAll(Header("", ""), parts);
      EmptyOrWellFormed(h.token) && EmptyOrWellFormed(h.publicKey)
  {
    if parts == [] {
    } else {
      AbsorbedValues(parts[..|parts| - 1]);
      AbsorbedValue(AbsorbAll(Header("", ""), parts[..|parts| - 1]), parts[|parts| - 1]);
    }
  }

  predicate EmptyOrWellFormed(v: string) {
    v == "" || WellFormedValue(v)
  }

  lemma AbsorbedValue(h: Header, part: string)
    requires ',' !in part && EmptyOrWellFormed(h.token) && EmptyOrWellFormed(h.publicKey)
    ensures EmptyOrWellFormed(Absorb(h, part).token) && EmptyOrWellFormed(Absorb(h, part).publicKey)
  {
    TrimTrims(part);
    var cut := Cut(TrimSpace(part), '=');
    if cut.Some? {
      TrimTrims(cut.value.1);
      assert forall c | c in cut.value.1 :: c in TrimSpace(part);
    }
  }

  // --------------------------------------------------------------------- keys

  // The first decoder of four that accepts the trimmed text.
  function DecodeKey(s: string): Option<seq<Byte>> {
    var t := TrimSpace(s);
    if Decode(t, RAW_URL).Some? then Decode(t, RAW_URL)
    else if Decode(t, PADDED_URL).Some? then Decode(t, PADDED_URL)
    else if Decode(t, RAW_STD).Some? then Decode(t, RAW_STD)
    else Decode(t, PADDED_STD)
  }

  predicate SameKey(offered: string, pinned: string) {
    var a, b := DecodeKey(offered), DecodeKey(pinned);
    a.Some? && b.Some? && a.value == b.value
  }

  // The order of the four decoders does not matter: any that accepts gives the answer.
  lemma DecodeKeyIsAnyDecoder(s: string, e: Encoding)
    ensures Decode(TrimSpace(s), e).Some? ==> DecodeKey(s) == Decode(TrimSpace(s), e)
    ensures DecodeKey(s).None? <==> forall e' :: Decode(TrimSpace(s), e').None?
  {
    var t := TrimSpace(s);
    forall e1: Encoding, e2: Encoding | Decode(t, e1).Some? && Decode(t, e2).Some?
      ensures Decode(t, e1) == Decode(t, e2)
    {
      DecodersAgree(t, e1, e2);
    }
    forall e': Encoding
      ensures Decode(t, e').Some? ==> DecodeKey(s).Some?
    {
      match e'
      case Encoding(true, true) => assert e' == PADDED_URL;
      case Encoding(true, false) => assert e' == RAW_URL;
      case Encoding(false, true) => assert e' == PADDED_STD;
      case Encoding(false, false) => assert e' == RAW_STD;
    }
  }

  // Main result: every encoding of a key, in any white space, decodes to the key.
  lemma DecodeKeyInvertsEncode(key: seq<Byte>, e: Encoding, w: string, w': string)
    requires Blank(w) && Blank(w')
    ensures DecodeKey(w + Encode(key, e) + w') == Some(key)
  {
    EncodeUsesAlphabet(key, e);
    TrimOf(w, Encode(key, e), w');
    DecodeInvertsEncode(key, e);
    DecodeKeyIsAnyDecoder(w + Encode(key, e) + w', e);
  }

  // Main result: for every mix of encodings, comparing texts is comparing keys.
  lemma SameKeyIgnoresEncoding(a: seq<Byte>, ea: Encoding, b: seq<Byte>, eb: Encoding)
    ensures SameKey(Encode(a, ea), Encode(b, eb)) <==> a == b
  {
    assert Encode(a, ea) == "" + Encode(a, ea) + "" && Encode(b, eb) == "" + Encode(b, eb) + "";
    DecodeKeyInvertsEncode(a, ea, "", "");
    DecodeKeyInvertsEncode(b, eb, "", "");
  }

  // --------------------------------------------------------------------- the check

  // What the curve and the JWT library decide.
  datatype Crypto = Crypto(onCurve: seq<Byte> -> bool, jwtValid: (string, seq<Byte>) -> bool)

  function ParsePublicKey(encoded: string, crypto: Crypto): Option<seq<Byte>> {
    var raw := DecodeKey(encoded);
    if raw.None? || |raw.value| != 65 || raw.value[0] != 4 || !crypto.onCurve(raw.value) then None else raw
  }

  // None when the header passes.
  function Verify(authorization: string, pinnedKey: string, crypto: Crypto): Option<Error> {
    var parsed := Parse(authorization);
    if parsed.Err? then Some(parsed.error)
    else
      var h := parsed.value;
      if pinnedKey != "" && !SameKey(h.publicKey, pinnedKey) then Some(KeyMismatch)
      else
        var pub := ParsePublicKey(h.publicKey, crypto);
        if pub.None? then Some(Malformed)
        else if !crypto.jwtValid(h.token, pub.value) then Some(BadSignature)
        else None
  }

  predicate ValidPoint(key: seq<Byte>, crypto: Crypto) {
    |key| == 65 && key[0] == 4 && crypto.onCurve(key)
  }

  // Main result: a header in any layout, offering key b in any encoding, passes a pin
  // of key a in any encoding exactly when the keys are equal and b signed the token.
  lemma PinnedCheck(token: string, b: seq<Byte>, eb: Encoding, l: Layout,
                    a: seq<Byte>, ea: Encoding, crypto: Crypto)
    requires WellFormedValue(token) && l.Ok() && a != [] && b != []
    ensures Verify(Print(Header(token, Encode(b, eb)), l), Encode(a, ea), crypto).None? <==>
      a == b && ValidPoint(b, crypto) && crypto.jwtValid(token, b)
  {
    KeyText(a, ea);
    KeyText(b, eb);
    ParseInvertsPrint(Header(token, Encode(b, eb)), l);
    assert SameKey(Encode(b, eb), Encode(a, ea)) <==> a == b;
  }

  lemma KeyText(key: seq<Byte>, e: Encoding)
    requires key != []
    ensures WellFormedValue(Encode(key, e)) && DecodeKey(Encode(key, e)) == Some(key)
  {
    EncodeUsesAlphabet(key, e);
    TextCharsAreWellFormed(Encode(key, e));
    assert Encode(key, e) == "" + Encode(key, e) + "";
    DecodeKeyInvertsEncode(key, e, "", "");
  }

  lemma TextCharsAreWellFormed(s: string)
    requires s != "" && forall i | 0 <= i < |s| :: IsTextChar(s[i])
    ensures WellFormedValue(s)
  {
  }

  // Whatever passes a pin offers the pinned key, a valid point, with a token it signed.
  lemma PassedMeansPinned(authorization: string, pinnedKey: string, crypto: Crypto)
    ensures pinnedKey != "" && Verify(authorization, pinnedKey, crypto).None? ==>
      && Parse(authorization).Ok? && DecodeKey(pinnedKey).Some?
      && var h, key := Parse(authorization).value, DecodeKey(pinnedKey).value;
      && DecodeKey(h.publicKey) == Some(key) && ValidPoint(key, crypto)
      && h.token != "" && crypto.jwtValid(h.token, key)
  {
    if Parse(authorization).Ok? {
      assert Parse(authorization).value.token != "";
    }
  }
}
