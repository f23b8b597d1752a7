// base58btc, as the DID resolver decodes multibase keys, and its inverse.
module Base58 {
  import opened Common
  import opened Strings

  // Written in runs of consecutive letters: no zero, capital i, capital o or small l.
  const ALPHABET: string :=
    "123456789" + "ABCDEFGH" + "JKLMN" + "PQRSTUVWXYZ" + "abcdefghijk" + "mnopqrstuvwxyz"

  type Digit = d: int | 0 <= d < 58

  // ------------------------------------------------------------ positional numbers

  ghost predicate DigitsBelow(ds: seq<int>, base: nat) {
    forall i | 0 <= i < |ds| :: 0 <= ds[i] < base
  }

  // The number a big-endian digit string denotes.
  function Value(ds: seq<int>, base: nat): (v: int) {
    if ds == [] then 0 else Value(ds[..|ds| - 1], base) * base + ds[|ds| - 1]
  }

  // The shortest big-endian digit string of a number; zero has none.
  function Digits(v: nat, base: nat): (ds: seq<int>)
    requires base >= 2
    ensures DigitsBelow(ds, base)
    ensures ds != [] ==> ds[0] != 0
    decreases v
  {
    if v == 0 then [] else Digits(v / base, base) + [v % base]
  }

  function LeadingZeros(ds: seq<int>): (n: nat)
    ensures n <= |ds|
    ensures forall i | 0 <= i < n :: ds[i] == 0
    ensures n < |ds| ==> ds[n] != 0
  {
    if ds == [] || ds[0] != 0 then 0 else 1 + LeadingZeros(ds[1..])
  }

  function Zeros(n: nat): (ds: seq<int>)
    ensures |ds| == n && forall i | 0 <= i < n :: ds[i] == 0
  {
    seq(n, _ => 0)
  }

  // Changes the base and carries every leading zero over as one leading zero.
  function Recode(ds: seq<int>, from: nat, to: nat): (r: seq<int>)
    requires from >= 2 && to >= 2 && DigitsBelow(ds, from)
    ensures DigitsBelow(r, to)
  {
    ValueNonNegative(ds, from);
    Zeros(LeadingZeros(ds)) + Digits(Value(ds, from), to)
  }

  lemma {:induction false} ValueNonNegative(ds: seq<int>, base: nat)
    requires DigitsBelow(ds, base)
    ensures Value(ds, base) >= 0
  {
    if ds == [] {
    } else {
      ValueNonNegative(ds[..|ds| - 1], base);
    }
  }

  lemma ValueOfAppended(ds: seq<int>, d: int, base: nat)
    ensures Value(ds + [d], base) == Value(ds, base) * base + d
  {
    assert (ds + [d])[..|ds|] == ds;
  }

  lemma DivisionRebuilds(v: nat, base: nat)
    requires base >= 1
    ensures (v / base) * base + v % base == v
  {
  }

  lemma {:induction false} ValueOfDigits(v: nat, base: nat)
    requires base >= 2
    ensures Value(Digits(v, base), base) == v
    decreases v
  {
    if v == 0 {
    } else {
      ValueOfDigits(v / base, base);
      ValueOfAppended(Digits(v / base, base), v % base, base);
      DivisionRebuilds(v, base);
    }
  }

  lemma {:induction false} DigitsOfStep(q: nat, d: nat, base: nat)
    requires base >= 2 && d < base && q * base + d > 0
    ensures Digits(q * base + d, base) == Digits(q, base) + [d]
  {
    var v := q * base + d;
    assert v / base == q && v % base == d by { DivModUnique(v, q, d, base); }
  }

  lemma DivModUnique(v: nat, q: nat, d: nat, base: nat)
    requires base >= 1 && d < base && v == q * base + d
    ensures v / base == q && v % base == d
  {
    var k := v / base - q;
    assert k * base == d - v % base by { assert v == (v / base) * base + v % base; }
    SmallMultiple(k, base);
  }

  lemma SmallMultiple(k: int, base: int)
    requires -base < k * base < base
    ensures k == 0
  {
    assert k >= 1 ==> (k - 1) * base >= 0;
    assert k <= -1 ==> (-k - 1) * base >= 0;
  }

  // Without leading zeros a digit string is the shortest one of its value.
  lemma {:induction false} DigitsOfValue(ds: seq<int>, base: nat)
    requires base >= 2 && DigitsBelow(ds, base)
    requires ds != [] ==> ds[0] != 0
    ensures Value(ds, base) >= 0 && Digits(Value(ds, base), base) == ds
    ensures ds != [] ==> Value(ds, base) > 0
  {
    if ds == [] {
    } else {
      var front, last := ds[..|ds| - 1], ds[|ds| - 1];
      DigitsOfValue(front, base);
      assert ds == front + [last];
      var v := Value(front, base);
      ValueOfAppended(front, last, base);
      PositiveStep(v, last, base, front != []);
      DigitsOfStep(v, last, base);
    }
  }

  lemma PositiveStep(v: nat, d: nat, base: nat, more: bool)
    requires base >= 2 && (if more then v > 0 else d > 0)
    ensures v * base + d > 0
  {
    if more {
      assert (v - 1) * base >= 0;
    }
  }

  lemma {:induction false} ValueIgnoresZeros(n: nat, ds: seq<int>, base: nat)
    ensures Value(Zeros(n) + ds, base) == Value(ds, base)
    decreases |ds|, n
  {
    var all := Zeros(n) + ds;
    if ds != [] {
      assert all[..|all| - 1] == Zeros(n) + ds[..|ds| - 1];
      ValueIgnoresZeros(n, ds[..|ds| - 1], base);
    } else if n > 0 {
      assert all[..|all| - 1] == Zeros(n - 1) + [];
      ValueIgnoresZeros(n - 1, [], base);
    }
  }

  lemma {:induction false} LeadingZerosOf(n: nat, ds: seq<int>)
    requires ds != [] ==> ds[0] != 0
    ensures LeadingZeros(Zeros(n) + ds) == n
  {
    if n == 0 {
    } else {
      assert (Zeros(n) + ds)[1..] == Zeros(n - 1) + ds;
      LeadingZerosOf(n - 1, ds);
    }
  }

  // Changing the base and back is the identity on every digit string.
  lemma {:induction false} RecodeTwice(ds: seq<int>, a: nat, b: nat)
    requires a >= 2 && b >= 2 && DigitsBelow(ds, a)
    ensures Recode(Recode(ds, a, b), b, a) == ds
  {
    var n := LeadingZeros(ds);
    var tail := ds[n..];
    assert ds == Zeros(n) + tail;
    ValueIgnoresZeros(n, tail, a);
    DigitsOfValue(tail, a);
    var v := Value(tail, a);
    var there := Digits(v, b);
    LeadingZerosOf(n, there);
    ValueIgnoresZeros(n, there, b);
    ValueOfDigits(v, b);
  }

  // ------------------------------------------------------------------- the alphabet

  // The alphabet by arithmetic on its runs.
  function AlphabetAt(d: Digit): char {
    if d < 9 then ('1' as int + d) as char
    else if d < 17 then ('A' as int + d - 9) as char
    else if d < 22 then ('J' as int + d - 17) as char
    else if d < 33 then ('P' as int + d - 22) as char
    else if d < 44 then ('a' as int + d - 33) as char
    else ('m' as int + d - 44) as char
  }

  lemma AlphabetIs(d: Digit)
    ensures |ALPHABET| == 58 && ALPHABET[d] == AlphabetAt(d)
  {
  }

  lemma IndexOfAlphabet(d: Digit)
    ensures |ALPHABET| == 58 && IndexRune(ALPHABET, ALPHABET[d]) == d
  {
    AlphabetIs(d);
    var i := IndexRune(ALPHABET, ALPHABET[d]);
    AlphabetIs(i);
  }

  // ------------------------------------------------------------------- text and bytes

  predicate InAlphabet(s: string) {
    forall i | 0 <= i < |s| :: s[i] in ALPHABET
  }

  function DigitsOf(s: string): (ds: seq<int>)
    requires InAlphabet(s)
    ensures |ds| == |s| && DigitsBelow(ds, 58)
  {
    AlphabetIs(0);
    seq(|s|, i requires 0 <= i < |s| => IndexRune(ALPHABET, s[i]))
  }

  function Chars(ds: seq<int>): (s: string)
    requires DigitsBelow(ds, 58)
    ensures |s| == |ds|
  {
    AlphabetIs(0);
    seq(|ds|, i requires 0 <= i < |ds| => ALPHABET[ds[i]])
  }

  lemma DigitsOfChars(ds: seq<int>)
    requires DigitsBelow(ds, 58)
    ensures InAlphabet(Chars(ds)) && DigitsOf(Chars(ds)) == ds
  {
    forall i | 0 <= i < |ds|
      ensures Chars(ds)[i] in ALPHABET && IndexRune(ALPHABET, Chars(ds)[i]) == ds[i]
    {
      IndexOfAlphabet(ds[i]);
    }
  }

  lemma CharsOfDigits(s: string)
    requires InAlphabet(s)
    ensures Chars(DigitsOf(s)) == s
  {
  }

  function Decode(s: string): Option<seq<Byte>> {
    if InAlphabet(s) then Some(Recode(DigitsOf(s), 58, 256)) else None
  }

  function Encode(b: seq<Byte>): string {
    Chars(Recode(b, 256, 58))
  }

  // ------------------------------------------------------------------- main results

  lemma DecodeInvertsEncode(b: seq<Byte>)
    ensures Decode(Encode(b)) == Some(b)
  {
    DigitsOfChars(Recode(b, 256, 58));
    RecodeTwice(b, 256, 58);
  }

  lemma EncodeInvertsDecode(s: string)
    requires InAlphabet(s)
    ensures Encode(Decode(s).value) == s
  {
    RecodeTwice(DigitsOf(s), 58, 256);
    CharsOfDigits(s);
  }

  lemma DigitsOfAppended(s: string, c: char)
    requires InAlphabet(s) && c in ALPHABET
    ensures InAlphabet(s + [c]) && DigitsOf(s + [c]) == DigitsOf(s) + [IndexRune(ALPHABET, c)]
  {
  }

  lemma DigitAppended(s: string, c: char)
    requires InAlphabet(s) && c in ALPHABET
    ensures InAlphabet(s + [c])
    ensures Value(DigitsOf(s + [c]), 58) == Value(DigitsOf(s), 58) * 58 + IndexRune(ALPHABET, c)
  {
    DigitsOfAppended(s, c);
    ValueOfAppended(DigitsOf(s), IndexRune(ALPHABET, c), 58);
  }

  lemma CharPrepended(d: Digit, ds: seq<int>)
    requires DigitsBelow(ds, 58)
    ensures |ALPHABET| == 58 && Chars([d] + ds) == [ALPHABET[d]] + Chars(ds)
  {
    AlphabetIs(0);
  }

  // How many times the text starts with c.
  method CountLeading<T(==)>(s: seq<T>, c: T) returns (n: nat)
    ensures n <= |s| && (forall i | 0 <= i < n :: s[i] == c)
    ensures n < |s| ==> s[n] != c
  {
    n := 0;
    while n < |s| && s[n] == c
      invariant n <= |s|
      invariant forall i | 0 <= i < n :: s[i] == c
    {
      n := n + 1;
    }
  }

  // base58Decode: big-integer accumulation, then one zero byte per leading '1'.
  method Base58Decode(s: string) returns (decoded: Option<seq<Byte>>)
    ensures decoded == Decode(s)
    ensures decoded.None? <==> exists i :: 0 <= i < |s| && s[i] !in ALPHABET
    ensures decoded.Some? ==> Encode(decoded.value) == s
  {
    var result: int := 0;
    for i := 0 to |s|
      invariant InAlphabet(s[..i]) && result == Value(DigitsOf(s[..i]), 58)
    {
      var idx := IndexRune(ALPHABET, s[i]);
      if idx < 0 {
        return None;
      }
      DigitAppended(s[..i], s[i]);
      assert s[..i + 1] == s[..i] + [s[i]];
      result := result * 58 + idx;
    }
    assert s[..|s|] == s;

    var leadingZeros := CountLeading(s, '1');
    LeadingOnes(s, leadingZeros);

    ValueNonNegative(DigitsOf(s), 58);
    var resultBytes := Digits(result, 256);
    decoded := Some(Zeros(leadingZeros) + resultBytes);
    EncodeInvertsDecode(s);
  }

  lemma LeadingOnes(s: string, n: nat)
    requires InAlphabet(s) && n <= |s|
    requires forall i | 0 <= i < n :: s[i] == '1'
    requires n < |s| ==> s[n] != '1'
    ensures LeadingZeros(DigitsOf(s)) == n
  {
    var ds := DigitsOf(s);
    forall i | 0 <= i < |s|
      ensures ds[i] == 0 <==> s[i] == '1'
    {
      AlphabetIs(ds[i]);
    }
  }

  lemma OneMoreZero(n: nat, ds: seq<int>)
    ensures [0] + (Zeros(n) + ds) == Zeros(n + 1) + ds
  {
  }

  // The encoder's first loop: repeated division.
  method EncodeNumber(n: nat) returns (text: string)
    ensures text == Chars(Digits(n, 58))
  {
    AlphabetIs(0);
    var x: nat := n;
    ghost var low: seq<int> := [];
    text := "";
    while x > 0
      invariant DigitsBelow(low, 58) && text == Chars(low)
      invariant Digits(x, 58) + low == Digits(n, 58)
    {
      CharPrepended(x % 58, low);
      text := [ALPHABET[x % 58]] + text;
      low := [x % 58] + low;
      x := x / 58;
    }
    assert Digits(x, 58) + low == low;
  }

  // The test helper's encoder: the number, then one '1' in front per leading zero byte.
  method Base58Encode(b: seq<Byte>) returns (text: string)
    ensures text == Encode(b)
    ensures Decode(text) == Some(b)
  {
    ValueNonNegative(b, 256);
    var digits := Digits(Value(b, 256), 58);
    text := EncodeNumber(Value(b, 256));
    var zeros := 0;
    while zeros < |b| && b[zeros] == 0
      invariant zeros <= LeadingZeros(b)
      invariant text == Chars(Zeros(zeros) + digits)
    {
      OnePrepended(zeros, digits);
      text := "1" + text;
      zeros := zeros + 1;
    }
    DecodeInvertsEncode(b);
  }

  lemma OnePrepended(n: nat, ds: seq<int>)
    requires DigitsBelow(ds, 58)
    ensures "1" + Chars(Zeros(n) + ds) == Chars(Zeros(n + 1) + ds)
  {
    AlphabetIs(0);
    CharPrepended(0, Zeros(n) + ds);
    OneMoreZero(n, ds);
  }
}
