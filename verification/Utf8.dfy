// UTF-8 as the Go runtime decodes it: an invalid byte reads as U+FFFD and has width one.
module Utf8 {
  import opened Common

  // A Unicode scalar value.
  type Rune = char

  const RUNE_ERROR: Rune := '\U{FFFD}'

  predicate Continuation(b: Byte) {
    0x80 <= b < 0xC0
  }

  function Encode(r: Rune): (s: seq<Byte>)
    ensures 1 <= |s| <= 4
  {
    var n := r as int;
    if n < 0x80 then [n]
    else if n < 0x800 then [0xC0 + n / 0x40, 0x80 + n % 0x40]
    else if n < 0x10000 then [0xE0 + n / 0x1000, 0x80 + n / 0x40 % 0x40, 0x80 + n % 0x40]
    else [0xF0 + n / 0x40000, 0x80 + n / 0x1000 % 0x40, 0x80 + n / 0x40 % 0x40, 0x80 + n % 0x40]
  }

  // The ranges of lead and second bytes rule out overlong forms and surrogates.
  predicate TwoBytes(s: seq<Byte>) {
    |s| >= 2 && 0xC2 <= s[0] <= 0xDF && Continuation(s[1])
  }

  predicate ThreeBytes(s: seq<Byte>) {
    |s| >= 3 && 0xE0 <= s[0] <= 0xEF
    && (if s[0] == 0xE0 then 0xA0 else 0x80) <= s[1] <= (if s[0] == 0xED then 0x9F else 0xBF)
    && Continuation(s[2])
  }

  predicate FourBytes(s: seq<Byte>) {
    |s| >= 4 && 0xF0 <= s[0] <= 0xF4
    && (if s[0] == 0xF0 then 0x90 else 0x80) <= s[1] <= (if s[0] == 0xF4 then 0x8F else 0xBF)
    && Continuation(s[2]) && Continuation(s[3])
  }

  // Six more bits from a continuation byte.
  function Joined(high: int, b: int): int {
    high * 0x40 + (b - 0x80)
  }

  // The first rune and its width.
  function DecodeRune(s: seq<Byte>): (d: (Rune, nat))
    requires s != []
    ensures 1 <= d.1 <= |s|
  {
    if s[0] < 0x80 then (s[0] as char, 1)
    else if TwoBytes(s) then (Joined(s[0] - 0xC0, s[1]) as char, 2)
    else if ThreeBytes(s) then (Joined(Joined(s[0] - 0xE0, s[1]), s[2]) as char, 3)
    else if FourBytes(s) then (Joined(Joined(Joined(s[0] - 0xF0, s[1]), s[2]), s[3]) as char, 4)
    else (RUNE_ERROR, 1)
  }

  // What ranging over a text yields.
  function Runes(s: seq<Byte>): (rs: string)
    ensures s != [] ==> rs != []
  {
    if s == [] then [] else var (r, w) := DecodeRune(s); [r] + Runes(s[w..])
  }

  // Where the n-th rune of a text begins.
  function Offset(s: seq<Byte>, n: nat): (i: nat)
    requires n <= |Runes(s)|
    ensures i <= |s|
  {
    if n == 0 then 0 else var w := DecodeRune(s).1; w + Offset(s[w..], n - 1)
  }

  function EncodeAll(rs: string): seq<Byte> {
    if rs == [] then [] else Encode(rs[0]) + EncodeAll(rs[1..])
  }

  // -------------------------------------------------------------------------- results

  lemma DecodeRuneInvertsEncode(r: Rune, rest: seq<Byte>)
    ensures DecodeRune(Encode(r) + rest) == (r, |Encode(r)|)
  {
    if r as int >= 0x10000 {
      FourByteForm(r, rest);
    } else if r as int >= 0x800 {
      ThreeByteForm(r, rest);
    } else {
      assert r as int >= 0x80 ==> TwoBytes(Encode(r) + rest);
    }
  }

  lemma ThreeByteForm(r: Rune, rest: seq<Byte>)
    requires 0x800 <= r as int < 0x10000
    ensures DecodeRune(Encode(r) + rest) == (r, 3) && |Encode(r)| == 3
  {
    var s := Encode(r) + rest;
    var n := r as int;
    var h := n / 0x1000;
    var m := n / 0x40;
    assert m / 0x40 == h;
    assert s[0] == 0xE0 + h && s[1] == 0x80 + m % 0x40 && s[2] == 0x80 + n % 0x40;
    assert Joined(h, s[1]) == m && Joined(m, s[2]) == n;
    assert ThreeBytes(s);
  }

  lemma FourByteForm(r: Rune, rest: seq<Byte>)
    requires 0x10000 <= r as int
    ensures DecodeRune(Encode(r) + rest) == (r, 4) && |Encode(r)| == 4
  {
    var s := Encode(r) + rest;
    var n := r as int;
    var g := n / 0x40000;
    var h := n / 0x1000;
    var m := n / 0x40;
    assert m / 0x40 == h && h / 0x40 == g;
    assert s[0] == 0xF0 + g && s[1] == 0x80 + h % 0x40 && s[2] == 0x80 + m % 0x40 && s[3] == 0x80 + n % 0x40;
    assert Joined(g, s[1]) == h && Joined(h, s[2]) == m && Joined(m, s[3]) == n;
    assert FourBytes(s);
  }

  lemma {:induction false} RunesOfEncodeAll(rs: string)
    ensures Runes(EncodeAll(rs)) == rs
  {
    if rs == [] {
    } else {
      DecodeRuneInvertsEncode(rs[0], EncodeAll(rs[1..]));
      assert EncodeAll(rs)[|Encode(rs[0])|..] == EncodeAll(rs[1..]);
      RunesOfEncodeAll(rs[1..]);
    }
  }

  lemma {:induction false} EncodeAllAppend(a: string, b: string)
    ensures EncodeAll(a + b) == EncodeAll(a) + EncodeAll(b)
  {
    if a == "" {
      assert a + b == b;
    } else {
      assert (a + b)[1..] == a[1..] + b;
      EncodeAllAppend(a[1..], b);
    }
  }

  // Cutting an encoding at a rune boundary leaves the encoding of the runes before it.
  lemma {:induction false} CutOfEncodeAll(rs: string, n: nat)
    requires n <= |rs| == |Runes(EncodeAll(rs))|
    ensures EncodeAll(rs)[..Offset(EncodeAll(rs), n)] == EncodeAll(rs[..n])
  {
    var s := EncodeAll(rs);
    if n == 0 {
      assert rs[..0] == "";
    } else {
      var w := |Encode(rs[0])|;
      FirstOfEncodeAll(rs);
      CutOfEncodeAll(rs[1..], n - 1);
      OffsetStep(s, n);
      CutInTwo(s, w, Offset(s, n));
      assert rs[..n][1..] == rs[1..][..n - 1];
    }
  }

  lemma FirstOfEncodeAll(rs: string)
    requires rs != ""
    ensures var s, w := EncodeAll(rs), |Encode(rs[0])|;
      DecodeRune(s) == (rs[0], w) && w <= |s| && s[..w] == Encode(rs[0]) && s[w..] == EncodeAll(rs[1..])
  {
    DecodeRuneInvertsEncode(rs[0], EncodeAll(rs[1..]));
  }

  lemma CutInTwo(s: seq<Byte>, w: nat, i: nat)
    requires w <= i <= |s|
    ensures s[..i] == s[..w] + s[w..][..i - w]
  {
  }

  // A rune inside p reads the same whatever follows p, if that starts a new rune.
  lemma DecodeRuneInside(p: seq<Byte>, s: seq<Byte>, t: seq<Byte>)
    requires p != [] && DecodeRune(p + s).1 <= |p|
    requires t == [] || !Continuation(t[0])
    ensures DecodeRune(p + t) == DecodeRune(p + s)
  {
  }

  // The n-th rune of a text is the one before the n-th of the rest.
  lemma OffsetStep(s: seq<Byte>, n: nat)
    requires 1 <= n <= |Runes(s)|
    ensures var w := DecodeRune(s).1;
      var i := Offset(s, n);
      && w <= i && i - w == Offset(s[w..], n - 1)
      && s[i..] == s[w..][i - w..] && s == s[..i] + s[i..] && s[..i][w..] == s[w..][..i - w]
  {
  }

  // Cutting at a rune boundary and appending text that starts a new rune.
  lemma {:induction false} RunesOfCut(s: seq<Byte>, n: nat, t: seq<Byte>)
    requires n <= |Runes(s)|
    requires t == [] || !Continuation(t[0])
    ensures Runes(s[..Offset(s, n)] + t) == Runes(s)[..n] + Runes(t)
  {
    if n == 0 {
      assert s[..0] + t == t;
    } else {
      RunesOfCut(s[DecodeRune(s).1..], n - 1, t);
      CutAfterOne(s, n, t);
    }
  }

  lemma CutAfterOne(s: seq<Byte>, n: nat, t: seq<Byte>)
    requires 1 <= n <= |Runes(s)|
    requires t == [] || !Continuation(t[0])
    requires var rest := s[DecodeRune(s).1..];
      Runes(rest[..Offset(rest, n - 1)] + t) == Runes(rest)[..n - 1] + Runes(t)
    ensures Runes(s[..Offset(s, n)] + t) == Runes(s)[..n] + Runes(t)
  {
    OffsetStep(s, n);
    CutStep(s, Offset(s, n), DecodeRune(s).1, n, t);
  }

  // The text behind a rune boundary holds the remaining runes.
  lemma {:induction false} RunesFromOffset(s: seq<Byte>, n: nat)
    requires n <= |Runes(s)|
    ensures Runes(s[Offset(s, n)..]) == Runes(s)[n..]
  {
    if n == 0 {
      assert s[0..] == s;
    } else {
      var w := DecodeRune(s).1;
      RunesFromOffset(s[w..], n - 1);
      OffsetStep(s, n);
      assert Runes(s)[n..] == Runes(s[w..])[n - 1..];
    }
  }

  lemma CutStep(s: seq<Byte>, i: nat, w: nat, n: nat, t: seq<Byte>)
    requires s != [] && w == DecodeRune(s).1 <= i <= |s| && 1 <= n <= |Runes(s)|
    requires t == [] || !Continuation(t[0])
    requires Runes(s[w..][..i - w] + t) == Runes(s[w..])[..n - 1] + Runes(t)
    ensures Runes(s[..i] + t) == Runes(s)[..n] + Runes(t)
  {
    RunesOfCutText(s, i, w, t);
    FrontOfCons(DecodeRune(s).0, Runes(s[w..]), n, Runes(t));
  }

  lemma RunesOfCutText(s: seq<Byte>, i: nat, w: nat, t: seq<Byte>)
    requires s != [] && w == DecodeRune(s).1 <= i <= |s|
    requires t == [] || !Continuation(t[0])
    ensures Runes(s[..i] + t) == [DecodeRune(s).0] + Runes(s[w..][..i - w] + t)
  {
    HeadOfCutText(s, i, t);
    assert (s[..i] + t)[w..] == s[w..][..i - w] + t;
  }

  lemma HeadOfCutText(s: seq<Byte>, i: nat, t: seq<Byte>)
    requires s != [] && DecodeRune(s).1 <= i <= |s|
    requires t == [] || !Continuation(t[0])
    ensures DecodeRune(s[..i] + t) == DecodeRune(s)
  {
    assert s == s[..i] + s[i..];
    DecodeRuneInside(s[..i], s[i..], t);
  }

  lemma FrontOfCons(r: Rune, tail: string, n: nat, more: string)
    requires 1 <= n <= |tail| + 1
    ensures [r] + (tail[..n - 1] + more) == ([r] + tail)[..n] + more
  {
  }
}
