// The codecs pinned to their standards: alphabets, digit values and known texts.
module Codecs {
  import opened Common
  import opened Strings
  import B58 = Base58
  import B64 = Base64
  import Utf8
  import Vapid

  // -------------------------------------------------------------------------- base58

  predicate Alphanumeric(c: char) {
    '0' <= c <= '9' || 'A' <= c <= 'Z' || 'a' <= c <= 'z'
  }

  // Main result: the alphabet is the digits and letters in the order of their codes,
  // without zero, capital i, capital o and small l.
  lemma Base58Alphabet()
    ensures |B58.ALPHABET| == 58
    ensures forall i, j | 0 <= i < j < 58 :: B58.ALPHABET[i] < B58.ALPHABET[j]
    ensures forall c :: c in B58.ALPHABET <==> Alphanumeric(c) && c != '0' && c != 'I' && c != 'O' && c != 'l'
  {
    B58.AlphabetIs(0);
    forall i, j | 0 <= i < j < 58
      ensures B58.ALPHABET[i] < B58.ALPHABET[j]
    {
      B58.AlphabetIs(i);
      B58.AlphabetIs(j);
    }
    forall c
      ensures c in B58.ALPHABET <==> Alphanumeric(c) && c != '0' && c != 'I' && c != 'O' && c != 'l'
    {
      Base58Member(c);
    }
  }

  lemma Base58Member(c: char)
    ensures c in B58.ALPHABET <==> Alphanumeric(c) && c != '0' && c != 'I' && c != 'O' && c != 'l'
  {
    if c in B58.ALPHABET {
      var i :| 0 <= i < |B58.ALPHABET| && B58.ALPHABET[i] == c;
      B58.AlphabetIs(0);
      B58.AlphabetIs(i);
    } else if Alphanumeric(c) && c != '0' && c != 'I' && c != 'O' && c != 'l' {
      var d :=
        if c <= '9' then c as int - '1' as int
        else if c <= 'H' then c as int - 'A' as int + 9
        else if c <= 'N' then c as int - 'J' as int + 17
        else if c <= 'Z' then c as int - 'P' as int + 22
        else if c <= 'k' then c as int - 'a' as int + 33
        else c as int - 'm' as int + 44;
      B58.AlphabetIs(d);
    }
  }

  // Main result: decoding keeps the number, and one leading zero byte for each leading one.
  lemma Base58KeepsValue(s: string)
    requires B58.Decode(s).Some?
    ensures var b := B58.Decode(s).value;
      && B58.Value(b, 256) == B58.Value(B58.DigitsOf(s), 58)
      && B58.LeadingZeros(b) == B58.LeadingZeros(B58.DigitsOf(s))
  {
    var ds := B58.DigitsOf(s);
    var n := B58.LeadingZeros(ds);
    B58.ValueNonNegative(ds, 58);
    var v := B58.Value(ds, 58);
    B58.ValueIgnoresZeros(n, B58.Digits(v, 256), 256);
    B58.ValueOfDigits(v, 256);
    B58.LeadingZerosOf(n, B58.Digits(v, 256));
  }

  // The value of a text of four digits, most significant first.
  lemma Base58Value(a: int, b: int, c: int, d: int)
    ensures B58.Value([a, b, c, d], 58) == a * 195112 + b * 3364 + c * 58 + d
  {
    assert [a, b, c, d][..3] == [a, b, c] && [a, b, c][..2] == [a, b] && [a, b][..1] == [a];
    assert B58.Value([a], 58) == a;
    assert B58.Value([a, b], 58) == a * 58 + b;
    assert B58.Value([a, b, c], 58) == (a * 58 + b) * 58 + c;
  }

  // -------------------------------------------------------------------------- base64

  const STANDARD: string :=
    "ABCDEFGHIJKLMNOPQRSTUVWXYZ" + "abcdefghijklmnopqrstuvwxyz" + "0123456789" + "+/"

  // Main result: the alphabet of section 4 of RFC 4648, and of section 5, which differs in
  // the last two.
  lemma Base64Alphabet(d: B64.Sextet)
    ensures |STANDARD| == 64 && B64.CharOf(d, false) == STANDARD[d]
    ensures B64.CharOf(d, true) == if d == 62 then '-' else if d == 63 then '_' else STANDARD[d]
  {
  }

  // The digit at i, or zero.
  function Sextet(s: string, i: nat, url: bool): int {
    if i < |s| && B64.DigitOf(s[i], url).Some? then B64.DigitOf(s[i], url).value else 0
  }

  function ByteAt(b: seq<Byte>, i: nat): int {
    if i < |b| then b[i] else 0
  }

  // Main result: up to three bytes are digits of the same number, most significant first,
  // missing bytes counting as zeros; a padded text has four characters, the last being '='.
  lemma Base64KeepsValue(b: seq<Byte>, e: B64.Encoding)
    requires 1 <= |b| <= 3
    ensures |B64.Encode(b, e)| == (if e.padded then 4 else |b| + 1)
    ensures forall i | 0 <= i < |B64.Encode(b, e)| ::
      if i <= |b| then B64.DigitOf(B64.Encode(b, e)[i], e.url).Some? else B64.Encode(b, e)[i] == '='
    ensures var s := B64.Encode(b, e);
      ByteAt(b, 0) * 65536 + ByteAt(b, 1) * 256 + ByteAt(b, 2) ==
        Sextet(s, 0, e.url) * 262144 + Sextet(s, 1, e.url) * 4096 + Sextet(s, 2, e.url) * 64 + Sextet(s, 3, e.url)
  {
    assert B64.DigitOf('=', e.url).None?;
    if |b| == 1 {
      OneByteText(b, e);
    } else if |b| == 2 {
      TwoByteText(b, e);
    } else {
      ThreeByteText(b, e);
    }
  }

  lemma OneByteText(b: seq<Byte>, e: B64.Encoding)
    requires |b| == 1
    ensures var s := B64.Encode(b, e);
      && B64.DigitOf(s[0], e.url) == Some(b[0] / 4) && B64.DigitOf(s[1], e.url) == Some(b[0] % 4 * 16)
      && s[2..] == if e.padded then "==" else ""
  {
    B64.DigitOfChar(b[0] / 4, e.url);
    B64.DigitOfChar(b[0] % 4 * 16, e.url);
  }

  lemma TwoByteText(b: seq<Byte>, e: B64.Encoding)
    requires |b| == 2
    ensures var s := B64.Encode(b, e);
      && B64.DigitOf(s[0], e.url) == Some(b[0] / 4) && B64.DigitOf(s[1], e.url) == Some(b[0] % 4 * 16 + b[1] / 16)
      && B64.DigitOf(s[2], e.url) == Some(b[1] % 16 * 4) && s[3..] == if e.padded then "=" else ""
  {
    B64.DigitOfChar(b[0] / 4, e.url);
    B64.DigitOfChar(b[0] % 4 * 16 + b[1] / 16, e.url);
    B64.DigitOfChar(b[1] % 16 * 4, e.url);
  }

  lemma ThreeByteText(b: seq<Byte>, e: B64.Encoding)
    requires |b| == 3
    ensures var s := B64.Encode(b, e);
      && |s| == 4
      && B64.DigitOf(s[0], e.url) == Some(b[0] / 4) && B64.DigitOf(s[1], e.url) == Some(b[0] % 4 * 16 + b[1] / 16)
      && B64.DigitOf(s[2], e.url) == Some(b[1] % 16 * 4 + b[2] / 64) && B64.DigitOf(s[3], e.url) == Some(b[2] % 64)
  {
    assert B64.Encode(b[3..], e) == "";
    B64.DigitOfChar(b[0] / 4, e.url);
    B64.DigitOfChar(b[0] % 4 * 16 + b[1] / 16, e.url);
    B64.DigitOfChar(b[1] % 16 * 4 + b[2] / 64, e.url);
    B64.DigitOfChar(b[2] % 64, e.url);
  }

  lemma Base64InGroups(b: seq<Byte>, more: seq<Byte>, e: B64.Encoding)
    requires |b| == 3
    ensures B64.Encode(b + more, e) == B64.Encode(b, e) + B64.Encode(more, e)
  {
    assert (b + more)[3..] == more && b[3..] == [];
  }

  // Main result: a line break anywhere in a text does not change what it decodes to.
  lemma LineBreaksAreIgnored(a: string, c: char, b: string, e: B64.Encoding)
    requires c == '\n' || c == '\r'
    ensures B64.Decode(a + [c] + b, e) == B64.Decode(a + b, e)
  {
    LineBreakGoes(a, c, b);
  }

  lemma {:induction false} LineBreakGoes(a: string, c: char, b: string)
    requires c == '\n' || c == '\r'
    ensures B64.WithoutLineBreaks(a + [c] + b) == B64.WithoutLineBreaks(a + b)
  {
    if a == "" {
      assert (a + [c] + b)[1..] == b && a + b == b;
    } else {
      assert (a + [c] + b)[1..] == a[1..] + [c] + b && (a + b)[1..] == a[1..] + b;
      LineBreakGoes(a[1..], c, b);
    }
  }

  // -------------------------------------------------------------------------- UTF-8

  // Main result: a text that starts with no encoded rune reads as U+FFFD of one byte.
  lemma OnlyRunesAreRead(s: seq<Byte>)
    requires s != []
    ensures var (r, w) := Utf8.DecodeRune(s);
      Utf8.Encode(r) == s[..w] || (r == '\U{FFFD}' && w == 1 && forall q :: !(Utf8.Encode(q) <= s))
  {
    var (r, w) := Utf8.DecodeRune(s);
    if s[0] < 0x80 || Utf8.TwoBytes(s) {
    } else if Utf8.ThreeBytes(s) {
      ThreeBytesAgain(s);
    } else if Utf8.FourBytes(s) {
      FourBytesAgain(s);
    } else {
      forall q | Utf8.Encode(q) <= s
        ensures false
      {
        Utf8.DecodeRuneInvertsEncode(q, s[|Utf8.Encode(q)|..]);
        assert s == Utf8.Encode(q) + s[|Utf8.Encode(q)|..];
        EncodedIsAForm(q, s);
      }
    }
  }

  lemma ThreeBytesAgain(s: seq<Byte>)
    requires Utf8.ThreeBytes(s) && s[0] >= 0x80 && !Utf8.TwoBytes(s)
    ensures Utf8.Encode(Utf8.DecodeRune(s).0) == s[..3] && Utf8.DecodeRune(s).1 == 3
  {
    var a: int, b: int, c: int := s[0] - 0xE0, s[1] - 0x80, s[2] - 0x80;
    var n := (a * 0x40 + b) * 0x40 + c;
    assert n / 0x40 == a * 0x40 + b && n % 0x40 == c;
    assert n / 0x1000 == a && n / 0x40 % 0x40 == b;
  }

  lemma FourBytesAgain(s: seq<Byte>)
    requires Utf8.FourBytes(s) && s[0] >= 0x80 && !Utf8.TwoBytes(s) && !Utf8.ThreeBytes(s)
    ensures Utf8.Encode(Utf8.DecodeRune(s).0) == s[..4] && Utf8.DecodeRune(s).1 == 4
  {
    var a: int, b: int, c: int, d: int := s[0] - 0xF0, s[1] - 0x80, s[2] - 0x80, s[3] - 0x80;
    var n := ((a * 0x40 + b) * 0x40 + c) * 0x40 + d;
    assert n / 0x40 == (a * 0x40 + b) * 0x40 + c && n % 0x40 == d;
    assert n / 0x1000 == a * 0x40 + b && n / 0x40 % 0x40 == c;
    assert n / 0x40000 == a && n / 0x1000 % 0x40 == b;
  }

  lemma EncodedIsAForm(q: char, s: seq<Byte>)
    requires Utf8.Encode(q) <= s
    ensures s[0] < 0x80 || Utf8.TwoBytes(s) || Utf8.ThreeBytes(s) || Utf8.FourBytes(s)
  {
    var e := Utf8.Encode(q);
    assert forall i | 0 <= i < |e| :: s[i] == e[i];
  }

  // ------------------------------------------------------------------- VAPID headers

  // A piece of a header that is about the parameter, and its value.
  predicate About(part: string, name: string) {
    match Cut(TrimSpace(part), '=') case None => false case Some((key, _)) => TrimSpace(key) == name
  }

  predicate Gives(part: string, name: string, value: string) {
    match Cut(TrimSpace(part), '=') case None => false case Some((key, v)) => TrimSpace(key) == name && TrimSpace(v) == value
  }

  // The last of the first n pieces that is about the parameter gives it this value.
  predicate LastGives(parts: seq<string>, n: nat, name: string, value: string)
    requires n <= |parts|
  {
    n > 0 && if About(parts[n - 1], name) then Gives(parts[n - 1], name, value) else LastGives(parts, n - 1, name, value)
  }

  lemma {:induction false} AbsorbedExactly(parts: seq<string>, n: nat, value: string)
    requires n <= |parts| && value != ""
    ensures var h := Vapid.AbsorbAll(Vapid.Header("", ""), parts[..n]);
      && (h.token == value <==> LastGives(parts, n, "t", value))
      && (h.publicKey == value <==> LastGives(parts, n, "k", value))
  {
    if n == 0 {
    } else {
      AbsorbedExactly(parts, n - 1, value);
      assert parts[..n][..n - 1] == parts[..n - 1];
      AbsorbedNext(Vapid.AbsorbAll(Vapid.Header("", ""), parts[..n - 1]), parts[n - 1], value);
    }
  }

  lemma AbsorbedNext(h: Vapid.Header, part: string, value: string)
    ensures var h' := Vapid.Absorb(h, part);
      && (h'.token == value <==> if About(part, "t") then Gives(part, "t", value) else h.token == value)
      && (h'.publicKey == value <==> if About(part, "k") then Gives(part, "k", value) else h.publicKey == value)
  {
  }

  predicate SaysVapid(s: string) {
    |s| == 5 && s[0] in "vV" && s[1] in "aA" && s[2] in "pP" && s[3] in "iI" && s[4] in "dD"
  }

  lemma FoldsToVapid(s: string)
    ensures Vapid.EqualFold(s, "vapid") <==> SaysVapid(s)
  {
    if |s| == 5 {
      assert Vapid.EqualFold(s, "vapid") <==>
        Vapid.LowerAscii(s[0]) == 'v' && Vapid.LowerAscii(s[1]) == 'a' && Vapid.LowerAscii(s[2]) == 'p'
        && Vapid.LowerAscii(s[3]) == 'i' && Vapid.LowerAscii(s[4]) == 'd';
    }
  }

  // Main result: a header is read as token and key exactly when, white space around it
  // aside, it begins with the scheme in any case, and the last pieces about t and about k
  // give them these, neither being empty.
  lemma HeaderIsReadExactly(authorization: string, token: string, key: string)
    ensures var rest := TrimSpace(authorization);
      Vapid.Parse(authorization) == Ok(Vapid.Header(token, key)) <==>
        && |rest| >= 5 && SaysVapid(rest[..5]) && token != "" && key != ""
        && var parts := Split(TrimSpace(rest[5..]), ',');
        LastGives(parts, |parts|, "t", token) && LastGives(parts, |parts|, "k", key)
  {
    var rest := TrimSpace(authorization);
    assert authorization == "" ==> rest == "";
    if |rest| >= 5 {
      FoldsToVapid(rest[..5]);
      var parts := Split(TrimSpace(rest[5..]), ',');
      assert parts[..|parts|] == parts;
      if token != "" && key != "" {
        AbsorbedExactly(parts, |parts|, token);
        AbsorbedExactly(parts, |parts|, key);
      }
    }
  }

  // The characters that trimming takes for white space: those with Unicode's White_Space
  // property, by their numbers.
  lemma WhiteSpace(c: char)
    ensures IsSpace(c) <==> var n := c as int;
      9 <= n <= 13 || n in {0x20, 0x85, 0xA0, 0x1680, 0x2028, 0x2029, 0x202F, 0x205F, 0x3000} || 0x2000 <= n <= 0x200A
  {
  }
}
