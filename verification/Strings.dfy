// The few library functions on text that the parsers use.
module Strings {
  import opened Common

  // The position of the first occurrence, or -1.
  function IndexRune(s: string, c: char): (i: int)
    ensures -1 <= i < |s|
    ensures i == -1 <==> c !in s
    ensures i >= 0 ==> s[i] == c && c !in s[..i]
  {
    if s == [] then -1
    else if s[0] == c then 0
    else
      var i := IndexRune(s[1..], c);
      assert forall j | 1 <= j < |s| :: s[j] == s[1..][j - 1];
      if i < 0 then -1 else i + 1
  }

  // The position of the last occurrence, or -1.
  function LastIndex(s: string, c: char): (i: int)
    ensures -1 <= i < |s|
    ensures i == -1 <==> c !in s
    ensures i >= 0 ==> s[i] == c && c !in s[i + 1..]
  {
    if s == [] then -1
    else if s[|s| - 1] == c then |s| - 1
    else
      assert s == s[..|s| - 1] + [s[|s| - 1]];
      LastIndex(s[..|s| - 1], c)
  }

  // Unicode white space.
  predicate IsSpace(c: char) {
    || c == ' ' || '\t' <= c <= '\r'
    || c == '\U{85}' || c == '\U{A0}' || c == '\U{1680}' || '\U{2000}' <= c <= '\U{200A}'
    || c == '\U{2028}' || c == '\U{2029}' || c == '\U{202F}' || c == '\U{205F}' || c == '\U{3000}'
  }

  predicate Blank(s: string) {
    forall i | 0 <= i < |s| :: IsSpace(s[i])
  }

  // No white space at either end.
  predicate Trimmed(s: string) {
    s != "" ==> !IsSpace(s[0]) && !IsSpace(s[|s| - 1])
  }

  function TrimLeft(s: string): string {
    if s != "" && IsSpace(s[0]) then TrimLeft(s[1..]) else s
  }

  function TrimRight(s: string): string {
    if s != "" && IsSpace(s[|s| - 1]) then TrimRight(s[..|s| - 1]) else s
  }

  function TrimSpace(s: string): string {
    TrimRight(TrimLeft(s))
  }

  lemma {:induction false} TrimLeftOf(w: string, s: string)
    requires Blank(w) && (s == "" || !IsSpace(s[0]))
    ensures TrimLeft(w + s) == s
  {
    if w == "" {
      assert w + s == s;
    } else {
      assert (w + s)[1..] == w[1..] + s;
      TrimLeftOf(w[1..], s);
    }
  }

  lemma {:induction false} TrimRightOf(s: string, w: string)
    requires Blank(w) && (s == "" || !IsSpace(s[|s| - 1]))
    ensures TrimRight(s + w) == s
  {
    if w == "" {
      assert s + w == s;
    } else {
      assert (s + w)[..|s + w| - 1] == s + w[..|w| - 1];
      TrimRightOf(s, w[..|w| - 1]);
    }
  }

  // Trimming takes away exactly the white space at the ends.
  lemma TrimOf(w: string, s: string, w': string)
    requires Blank(w) && Trimmed(s) && Blank(w')
    ensures TrimSpace(w + s + w') == s
  {
    if s == "" {
      assert w + s + w' == (w + w') + "";
      TrimLeftOf(w + w', "");
    } else {
      assert w + s + w' == w + (s + w');
      TrimLeftOf(w, s + w');
      TrimRightOf(s, w');
    }
  }

  lemma {:induction false} TrimRightTrims(s: string)
    ensures TrimRight(s) <= s
    ensures TrimRight(s) != "" ==> !IsSpace(TrimRight(s)[|TrimRight(s)| - 1])
  {
    if s == "" || !IsSpace(s[|s| - 1]) {
    } else {
      TrimRightTrims(s[..|s| - 1]);
    }
  }

  lemma {:induction false} TrimLeftTrims(s: string)
    ensures TrimLeft(s) != "" ==> !IsSpace(TrimLeft(s)[0])
    ensures forall c | c in TrimLeft(s) :: c in s
  {
    if s == "" || !IsSpace(s[0]) {
    } else {
      TrimLeftTrims(s[1..]);
    }
  }

  lemma TrimTrims(s: string)
    ensures Trimmed(TrimSpace(s))
    ensures forall c | c in TrimSpace(s) :: c in s
  {
    TrimLeftTrims(s);
    TrimRightTrims(TrimLeft(s));
  }

  lemma TrimBehind(s: string, w: string)
    requires Trimmed(s) && Blank(w)
    ensures TrimSpace(s + w) == s
  {
    assert "" + s + w == s + w;
    TrimOf("", s, w);
  }

  lemma TrimBefore(w: string, s: string)
    requires Trimmed(s) && Blank(w)
    ensures TrimSpace(w + s) == s
  {
    assert w + s + "" == w + s;
    TrimOf(w, s, "");
  }

  lemma SameWhenTrimmed(s: string)
    ensures TrimSpace(s) == s <==> Trimmed(s)
  {
    TrimTrims(s);
    if Trimmed(s) {
      assert s + "" == s;
      TrimBehind(s, "");
    }
  }

  // Trimming is cutting off blanks at both ends.
  lemma {:induction false} TrimCuts(s: string) returns (i: nat, j: nat)
    ensures i <= j <= |s| && TrimSpace(s) == s[i..j] && Blank(s[..i]) && Blank(s[j..])
  {
    if s == "" {
      i, j := 0, 0;
    } else if IsSpace(s[0]) {
      var i', j' := TrimCuts(s[1..]);
      i, j := i' + 1, j' + 1;
      assert s[1..][i'..j'] == s[i..j] && s[1..][j'..] == s[j..] && s[..i] == [s[0]] + s[1..][..i'];
    } else {
      i, j := 0, |TrimRight(s)|;
      TrimRightTrims(s);
      TrimRightCuts(s);
    }
  }

  lemma BlankIfTrimmedAway(s: string)
    ensures TrimSpace(s) == "" ==> Blank(s)
  {
    var i, j := TrimCuts(s);
    assert TrimSpace(s) == "" ==> s == s[..i] + s[j..];
  }

  lemma {:induction false} TrimRightCuts(s: string)
    ensures TrimRight(s) <= s && Blank(s[|TrimRight(s)|..])
  {
    if s == "" || !IsSpace(s[|s| - 1]) {
    } else {
      TrimRightCuts(s[..|s| - 1]);
      var n := |TrimRight(s)|;
      assert s[n..] == s[..|s| - 1][n..] + [s[|s| - 1]];
    }
  }

  // The pieces between separators.
  function Split(s: string, sep: char): (parts: seq<string>)
    ensures |parts| >= 1
    ensures forall i | 0 <= i < |parts| :: sep !in parts[i]
    decreases |s|
  {
    var i := IndexRune(s, sep);
    if i < 0 then [s] else [s[..i]] + Split(s[i + 1..], sep)
  }

  // The text before and after the first separator, if there is one.
  function Cut(s: string, sep: char): (r: Option<(string, string)>)
    ensures r.None? <==> sep !in s
    ensures r.Some? ==> s == r.value.0 + [sep] + r.value.1 && sep !in r.value.0
  {
    var i := IndexRune(s, sep);
    if i < 0 then None else Some((s[..i], s[i + 1..]))
  }

  lemma {:induction false} IndexOfFirst(a: string, c: char, b: string)
    requires c !in a
    ensures IndexRune(a + [c] + b, c) == |a|
  {
    if a == "" {
    } else {
      assert (a + [c] + b)[1..] == a[1..] + [c] + b;
      IndexOfFirst(a[1..], c, b);
    }
  }

  lemma {:induction false} IndexOfLast(a: string, c: char, b: string)
    requires c !in b
    ensures LastIndex(a + [c] + b, c) == |a|
  {
    var s := a + [c] + b;
    if b != "" {
      assert s[..|s| - 1] == a + [c] + b[..|b| - 1];
      IndexOfLast(a, c, b[..|b| - 1]);
    }
  }

  lemma SplitTwo(a: string, sep: char, b: string)
    requires sep !in a && sep !in b
    ensures Split(a + [sep] + b, sep) == [a, b]
  {
    IndexOfFirst(a, sep, b);
    var s := a + [sep] + b;
    assert s[..|a|] == a && s[|a| + 1..] == b;
  }

  lemma CutAt(a: string, sep: char, b: string)
    requires sep !in a
    ensures Cut(a + [sep] + b, sep) == Some((a, b))
  {
    IndexOfFirst(a, sep, b);
    var s := a + [sep] + b;
    assert s[..|a|] == a && s[|a| + 1..] == b;
  }
}
