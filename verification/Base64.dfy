// Base64 as section 4 and section 5 of RFC 4648 define it, padded and raw, with the
// decoder's tolerance for line breaks and for nonzero trailing bits.
module Base64 {
  import opened Common

  // Which alphabet, and whether '=' fills the last group.
  datatype Encoding = Encoding(url: bool, padded: bool)

  const RAW_URL := Encoding(true, false)
  const PADDED_URL := Encoding(true, true)
  const RAW_STD := Encoding(false, false)
  const PADDED_STD := Encoding(false, true)

  type Sextet = d: int | 0 <= d < 64

  // --------------------------------------------------------------------- the alphabet

  function CharOf(d: Sextet, url: bool): char {
    if d < 26 then ('A' as int + d) as char
    else if d < 52 then ('a' as int + d - 26) as char
    else if d < 62 then ('0' as int + d - 52) as char
    else if d == 62 then (if url then '-' else '+')
    else (if url then '_' else '/')
  }

  function DigitOf(c: char, url: bool): (d: Option<Sextet>)
    ensures d.Some? ==> CharOf(d.value, url) == c
  {
    if 'A' <= c <= 'Z' then Some(c as int - 'A' as int)
    else if 'a' <= c <= 'z' then Some(c as int - 'a' as int + 26)
    else if '0' <= c <= '9' then Some(c as int - '0' as int + 52)
    else if c == (if url then '-' else '+') then Some(62)
    else if c == (if url then '_' else '/') then Some(63)
    else None
  }

  lemma DigitOfChar(d: Sextet, url: bool)
    ensures DigitOf(CharOf(d, url), url) == Some(d)
  {
  }

  // A digit of both alphabets means the same in both.
  lemma DigitsAgree(c: char, url: bool, url': bool)
    requires DigitOf(c, url).Some? && DigitOf(c, url').Some?
    ensures DigitOf(c, url) == DigitOf(c, url')
  {
  }

  // ------------------------------------------------------------------------- encoding

  function Encode(b: seq<Byte>, e: Encoding): (s: string) {
    if b == [] then ""
    else if |b| == 1 then
      [CharOf(b[0] / 4, e.url), CharOf(b[0] % 4 * 16, e.url)] + if e.padded then "==" else ""
    else if |b| == 2 then
      [CharOf(b[0] / 4, e.url), CharOf(b[0] % 4 * 16 + b[1] / 16, e.url), CharOf(b[1] % 16 * 4, e.url)] +
      if e.padded then "=" else ""
    else
      [CharOf(b[0] / 4, e.url), CharOf(b[0] % 4 * 16 + b[1] / 16, e.url),
       CharOf(b[1] % 16 * 4 + b[2] / 64, e.url), CharOf(b[2] % 64, e.url)] + Encode(b[3..], e)
  }

  // ------------------------------------------------------------------------- decoding

  function WithoutLineBreaks(s: string): string {
    if s == "" then ""
    else (if s[0] == '\n' || s[0] == '\r' then "" else [s[0]]) + WithoutLineBreaks(s[1..])
  }

  function Decode(s: string, e: Encoding): Option<seq<Byte>> {
    DecodeGroups(WithoutLineBreaks(s), e)
  }

  predicate StartsWithDigits(s: string, n: nat, e: Encoding) {
    n <= |s| && forall i | 0 <= i < n :: DigitOf(s[i], e.url).Some?
  }

  function DecodeGroups(s: string, e: Encoding): Option<seq<Byte>> {
    if s == "" then Some([])
    else if StartsWithDigits(s, 4, e) then
      var rest := DecodeGroups(s[4..], e);
      if rest.None? then None else Some(Group(s, 4, e) + rest.value)
    else if StartsWithDigits(s, 3, e) && s[3..] == (if e.padded then "=" else "") then Some(Group(s, 3, e))
    else if StartsWithDigits(s, 2, e) && s[2..] == (if e.padded then "==" else "") then Some(Group(s, 2, e))
    else None
  }

  // The bytes of one group of two to four digits; leftover bits are ignored.
  function Group(s: string, n: nat, e: Encoding): (b: seq<Byte>)
    requires 2 <= n <= 4 && StartsWithDigits(s, n, e)
    ensures |b| == n - 1
  {
    var d0, d1 := DigitOf(s[0], e.url).value, DigitOf(s[1], e.url).value;
    var b0 := d0 * 4 + d1 / 16;
    if n == 2 then [b0]
    else
      var d2 := DigitOf(s[2], e.url).value;
      var b1 := d1 % 16 * 16 + d2 / 4;
      if n == 3 then [b0, b1] else [b0, b1, d2 % 4 * 64 + DigitOf(s[3], e.url).value]
  }

  // --------------------------------------------------------------------- round trip

  predicate IsTextChar(c: char) {
    'A' <= c <= 'Z' || 'a' <= c <= 'z' || '0' <= c <= '9' || c in "+/-_="
  }

  lemma {:induction false} EncodeUsesAlphabet(b: seq<Byte>, e: Encoding)
    ensures forall i | 0 <= i < |Encode(b, e)| :: IsTextChar(Encode(b, e)[i])
    ensures e == RAW_URL ==>
      forall i | 0 <= i < |Encode(b, e)| :: Encode(b, e)[i] !in "+/="
    ensures b != [] ==> Encode(b, e) != ""
  {
    if |b| < 3 {
    } else {
      EncodeUsesAlphabet(b[3..], e);
    }
    CharsAreText(e.url);
  }

  lemma CharsAreText(url: bool)
    ensures forall d: Sextet :: IsTextChar(CharOf(d, url)) && (url ==> CharOf(d, url) !in "+/=")
  {
  }

  lemma {:induction false} NoLineBreaks(s: string)
    requires forall i | 0 <= i < |s| :: IsTextChar(s[i])
    ensures WithoutLineBreaks(s) == s
  {
    if s == "" {
    } else {
      NoLineBreaks(s[1..]);
    }
  }

  lemma ThreeBytes(b: seq<Byte>, e: Encoding)
    requires |b| >= 3
    ensures StartsWithDigits(Encode(b, e), 4, e) && Group(Encode(b, e), 4, e) == b[..3]
  {
    ThreeByteDigits(b, e);
    BitsRejoin(b[0], b[1], b[2]);
  }

  lemma ThreeByteDigits(b: seq<Byte>, e: Encoding)
    requires |b| >= 3
    ensures var s := Encode(b, e);
      && StartsWithDigits(s, 4, e)
      && DigitOf(s[0], e.url) == Some(b[0] / 4)
      && DigitOf(s[1], e.url) == Some(b[0] % 4 * 16 + b[1] / 16)
      && DigitOf(s[2], e.url) == Some(b[1] % 16 * 4 + b[2] / 64)
      && DigitOf(s[3], e.url) == Some(b[2] % 64)
  {
    DigitOfChar(b[0] / 4, e.url);
    DigitOfChar(b[0] % 4 * 16 + b[1] / 16, e.url);
    DigitOfChar(b[1] % 16 * 4 + b[2] / 64, e.url);
    DigitOfChar(b[2] % 64, e.url);
  }

  lemma BitsRejoin(b0: Byte, b1: Byte, b2: Byte)
    ensures var d0, d1, d2, d3 := b0 / 4, b0 % 4 * 16 + b1 / 16, b1 % 16 * 4 + b2 / 64, b2 % 64;
      d0 * 4 + d1 / 16 == b0 && d1 % 16 * 16 + d2 / 4 == b1 && d2 % 4 * 64 + d3 == b2
  {
  }

  lemma TwoBytes(b: seq<Byte>, e: Encoding)
    requires |b| == 2
    ensures DecodeGroups(Encode(b, e), e) == Some(b)
  {
    var s := Encode(b, e);
    assert s[3..] == if e.padded then "=" else "";
    assert e.padded ==> DigitOf(s[3], e.url).None?;
    TwoByteDigits(b, e);
    BitsRejoin(b[0], b[1], 0);
    assert Group(s, 3, e) == b;
  }

  lemma TwoByteDigits(b: seq<Byte>, e: Encoding)
    requires |b| == 2
    ensures var s := Encode(b, e);
      && StartsWithDigits(s, 3, e)
      && DigitOf(s[0], e.url) == Some(b[0] / 4)
      && DigitOf(s[1], e.url) == Some(b[0] % 4 * 16 + b[1] / 16)
      && DigitOf(s[2], e.url) == Some(b[1] % 16 * 4)
  {
    DigitOfChar(b[0] / 4, e.url);
    DigitOfChar(b[0] % 4 * 16 + b[1] / 16, e.url);
    DigitOfChar(b[1] % 16 * 4, e.url);
  }

  lemma OneByte(b: seq<Byte>, e: Encoding)
    requires |b| == 1
    ensures DecodeGroups(Encode(b, e), e) == Some(b)
  {
    var s := Encode(b, e);
    assert s[2..] == if e.padded then "==" else "";
    assert e.padded ==> DigitOf(s[2], e.url).None?;
    assert StartsWithDigits(s, 2, e) && !StartsWithDigits(s, 4, e) && !StartsWithDigits(s, 3, e);
    assert Group(s, 2, e) == b;
  }

  lemma {:induction false} DecodeGroupsInvertsEncode(b: seq<Byte>, e: Encoding)
    ensures DecodeGroups(Encode(b, e), e) == Some(b)
  {
    if |b| >= 3 {
      var s := Encode(b, e);
      ThreeBytes(b, e);
      assert s[4..] == Encode(b[3..], e);
      DecodeGroupsInvertsEncode(b[3..], e);
      assert b == b[..3] + b[3..];
    } else if |b| == 2 {
      TwoBytes(b, e);
    } else if |b| == 1 {
      OneByte(b, e);
    }
  }

  // Main result: every encoding is undone by its decoder.
  lemma DecodeInvertsEncode(b: seq<Byte>, e: Encoding)
    ensures Decode(Encode(b, e), e) == Some(b)
  {
    EncodeUsesAlphabet(b, e);
    NoLineBreaks(Encode(b, e));
    DecodeGroupsInvertsEncode(b, e);
  }

  // Main result: a text that two of the decoders accept means the same to both.
  lemma DecodersAgree(s: string, e: Encoding, e': Encoding)
    requires Decode(s, e).Some? && Decode(s, e').Some?
    ensures Decode(s, e) == Decode(s, e')
  {
    GroupsAgree(WithoutLineBreaks(s), e, e');
  }

  lemma {:induction false} GroupsAgree(s: string, e: Encoding, e': Encoding)
    requires DecodeGroups(s, e).Some? && DecodeGroups(s, e').Some?
    ensures DecodeGroups(s, e) == DecodeGroups(s, e')
  {
    if s == "" {
    } else {
      if StartsWithDigits(s, 4, e) && StartsWithDigits(s, 4, e') {
        GroupsAgree(s[4..], e, e');
        GroupAgrees(s, 4, e, e');
      } else {
        LastGroupsAgree(s, e, e');
      }
    }
  }

  lemma GroupAgrees(s: string, n: nat, e: Encoding, e': Encoding)
    requires 2 <= n <= 4 && StartsWithDigits(s, n, e) && StartsWithDigits(s, n, e')
    ensures Group(s, n, e) == Group(s, n, e')
  {
    DigitsAgree(s[0], e.url, e'.url);
    DigitsAgree(s[1], e.url, e'.url);
    if n >= 3 {
      DigitsAgree(s[2], e.url, e'.url);
    }
    if n == 4 {
      DigitsAgree(s[3], e.url, e'.url);
    }
  }

  // The number of digits at the start, up to four.
  function LeadingDigits(s: string, e: Encoding): (n: nat)
    ensures n <= 4 && StartsWithDigits(s, n, e) && (n < 4 ==> !StartsWithDigits(s, n + 1, e))
  {
    if StartsWithDigits(s, 4, e) then 4 else if StartsWithDigits(s, 3, e) then 3
    else if StartsWithDigits(s, 2, e) then 2 else if StartsWithDigits(s, 1, e) then 1 else 0
  }

  // A last group ends at its first fill character or with the text.
  lemma LastGroupLength(s: string, e: Encoding)
    requires s != "" && !StartsWithDigits(s, 4, e) && DecodeGroups(s, e).Some?
    ensures var n := LeadingDigits(s, e);
      2 <= n <= 3 && (|s| == n || s[n] == '=') && DecodeGroups(s, e) == Some(Group(s, n, e))
  {
    assert DigitOf('=', e.url).None?;
    if StartsWithDigits(s, 3, e) && s[3..] == (if e.padded then "=" else "") {
      assert |s| > 3 ==> s[3] == s[3..][0];
    } else {
      assert |s| > 2 ==> s[2] == s[2..][0];
    }
  }

  // A fill character is a digit of neither alphabet.
  lemma BothAtLastGroup(s: string, e: Encoding, e': Encoding)
    requires s != "" && !StartsWithDigits(s, 4, e) && DecodeGroups(s, e).Some?
    ensures !StartsWithDigits(s, LeadingDigits(s, e) + 1, e')
  {
    LastGroupLength(s, e);
    assert DigitOf('=', e'.url).None?;
  }

  lemma LastGroupsAgree(s: string, e: Encoding, e': Encoding)
    requires s != "" && !(StartsWithDigits(s, 4, e) && StartsWithDigits(s, 4, e'))
    requires DecodeGroups(s, e).Some? && DecodeGroups(s, e').Some?
    ensures DecodeGroups(s, e) == DecodeGroups(s, e')
  {
    if !StartsWithDigits(s, 4, e) {
      BothAtLastGroup(s, e, e');
      LastGroupLength(s, e);
    }
    if !StartsWithDigits(s, 4, e') {
      BothAtLastGroup(s, e', e);
      LastGroupLength(s, e');
    }
    GroupAgrees(s, LeadingDigits(s, e), e, e');
  }

  // ---------------------------------------------------------------- what is accepted

  ghost predicate AllDigits(s: string, url: bool) {
    forall i | 0 <= i < |s| :: DigitOf(s[i], url).Some?
  }

  // A raw decoder accepts exactly digit texts of a possible length, line breaks aside.
  lemma RawAccepts(s: string, e: Encoding)
    requires !e.padded
    ensures Decode(s, e).Some? <==> AllDigits(WithoutLineBreaks(s), e.url) && |WithoutLineBreaks(s)| % 4 != 1
  {
    RawGroups(WithoutLineBreaks(s), e);
  }

  lemma {:induction false} RawGroups(s: string, e: Encoding)
    requires !e.padded
    ensures DecodeGroups(s, e).Some? <==> AllDigits(s, e.url) && |s| % 4 != 1
  {
    if s == "" {
    } else if StartsWithDigits(s, 4, e) {
      RawGroups(s[4..], e);
      AllDigitsOfRest(s, e);
    } else {
      RawLastGroup(s, e);
    }
  }

  lemma AllDigitsOfRest(s: string, e: Encoding)
    requires StartsWithDigits(s, 4, e)
    ensures AllDigits(s, e.url) <==> AllDigits(s[4..], e.url)
  {
    assert s == s[..4] + s[4..];
  }

  lemma RawLastGroup(s: string, e: Encoding)
    requires !e.padded && s != "" && !StartsWithDigits(s, 4, e)
    ensures DecodeGroups(s, e).Some? <==> AllDigits(s, e.url) && |s| % 4 != 1
  {
    assert |s| >= 4 ==> !AllDigits(s, e.url);
    assert s[|s|..] == "";
    assert DecodeGroups(s, e).Some? ==> |s| == 2 || |s| == 3;
  }

  // Digits up to the last k characters, which are '='.
  ghost predicate FilledBy(s: string, k: nat, url: bool) {
    k <= |s| && forall i | 0 <= i < |s| :: if i < |s| - k then DigitOf(s[i], url).Some? else s[i] == '='
  }

  // Whole groups of four, the last one filled with at most two '='.
  ghost predicate Filled(s: string, url: bool) {
    |s| % 4 == 0 && (FilledBy(s, 0, url) || FilledBy(s, 1, url) || FilledBy(s, 2, url))
  }

  // A padded decoder accepts exactly filled groups, line breaks aside.
  lemma PaddedAccepts(s: string, e: Encoding)
    requires e.padded
    ensures Decode(s, e).Some? <==> Filled(WithoutLineBreaks(s), e.url)
  {
    PaddedGroups(WithoutLineBreaks(s), e);
  }

  lemma {:induction false} PaddedGroups(s: string, e: Encoding)
    requires e.padded
    ensures DecodeGroups(s, e).Some? <==> Filled(s, e.url)
  {
    if s == "" {
    } else if StartsWithDigits(s, 4, e) {
      PaddedGroups(s[4..], e);
      FillOfRest(s, 0, e);
      FillOfRest(s, 1, e);
      FillOfRest(s, 2, e);
    } else {
      PaddedLastGroup(s, e);
    }
  }

  lemma PaddedLastGroup(s: string, e: Encoding)
    requires e.padded && s != "" && !StartsWithDigits(s, 4, e)
    ensures DecodeGroups(s, e).Some? <==> Filled(s, e.url)
  {
    assert |s| >= 6 ==> forall k: nat | k <= 2 :: !FilledBy(s, k, e.url);
    assert DecodeGroups(s, e).Some? ==> |s| == 4;
    if |s| == 4 {
      assert s[3..] == "=" <==> s[3] == '=';
      assert s[2..] == "==" <==> s[2] == '=' && s[3] == '=';
    }
  }

  lemma FillOfRest(s: string, k: nat, e: Encoding)
    requires StartsWithDigits(s, 4, e)
    ensures FilledBy(s, k, e.url) <==> FilledBy(s[4..], k, e.url)
  {
    assert DigitOf('=', e.url).None?;
    assert s == s[..4] + s[4..];
    if k <= |s| - 4 {
      assert forall i | 4 <= i < |s| :: s[i] == s[4..][i - 4];
    } else if k <= |s| && |s| >= 4 {
      assert s[3] != '=';
    }
  }

  // Length of the raw encodings: four characters per three bytes, rounded up.
  lemma {:induction false} RawLength(b: seq<Byte>, e: Encoding)
    requires !e.padded
    ensures |Encode(b, e)| == (4 * |b| + 2) / 3
  {
    if |b| < 3 {
    } else {
      RawLength(b[3..], e);
    }
  }
}
