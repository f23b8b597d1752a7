// Making a post's text fit for a lock screen: one line, bounded length.
module PostText {
  import opened Common
  import opened Strings
  import opened Utf8

  const ELLIPSIS: seq<Byte> := [0xE2, 0x80, 0xA6]  // U+2026

  // ------------------------------------------------------------------ specification

  function Mapped(r: char): char {
    if r == '\n' || r == '\r' || r == '\t' then ' ' else r
  }

  function MapAll(rs: string): (ms: string)
    ensures |ms| == |rs| && forall i | 0 <= i < |rs| :: ms[i] == Mapped(rs[i])
  {
    seq(|rs|, i requires 0 <= i < |rs| => Mapped(rs[i]))
  }

  function DropSpaces(rs: string): (d: string)
    ensures |d| <= |rs| && (d != "" ==> d[0] != ' ')
  {
    if rs != "" && rs[0] == ' ' then DropSpaces(rs[1..]) else rs
  }

  // Every maximal run of spaces becomes one space.
  function Collapse(rs: string): string
    decreases |rs|
  {
    if rs == "" then ""
    else if rs[0] == ' ' then [' '] + Collapse(DropSpaces(rs))
    else [rs[0]] + Collapse(rs[1..])
  }

  function Sanitized(rs: string): string {
    TrimSpace(Collapse(MapAll(rs)))
  }

  function Truncated(rs: string, max: int): string {
    if max <= 0 || |rs| <= max then rs else rs[..max] + "\U{2026}"
  }

  // The two on the bytes of a text.
  function SanitizedBytes(s: seq<Byte>): seq<Byte> {
    EncodeAll(Sanitized(Runes(s)))
  }

  function TruncatedBytes(s: seq<Byte>, max: int): seq<Byte> {
    if max <= 0 || |Runes(s)| <= max then s else s[..Offset(s, max)] + ELLIPSIS
  }

  // -------------------------------------------------------------------- the functions

  // sanitizePostText: one pass with a flag; the builder holds runes.
  method SanitizePostText(s: seq<Byte>) returns (t: seq<Byte>)
    ensures t == SanitizedBytes(s) && Runes(t) == Sanitized(Runes(s))
  {
    NothingToWrite();
    if s == [] {
      return [];
    }
    var built := "";
    var prevSpace := false;
    var i := 0;
    ghost var whole := Runes(s);
    WritesFirst(s);
    while i < |s|
      invariant i <= |s| && Writes(built, prevSpace, Runes(s[i..]), whole)
    {
      WritesNext(built, prevSpace, s, i, whole);
      var (r, w) := DecodeRune(s[i..]);
      i := i + w;
      r := Mapped(r);
      if r == ' ' {
        if prevSpace {
          continue;
        }
        prevSpace := true;
      } else {
        prevSpace := false;
      }
      built := built + [r];
    }
    WritesLast(built, prevSpace, s, i);
    t := EncodeAll(TrimSpace(built));
  }

  lemma WritesFirst(s: seq<Byte>)
    ensures Writes("", false, Runes(s[0..]), Runes(s))
  {
    assert s[0..] == s;
  }

  lemma WritesLast(built: string, prevSpace: bool, s: seq<Byte>, i: nat)
    requires i == |s| && Writes(built, prevSpace, Runes(s[i..]), Runes(s))
    ensures var t := EncodeAll(TrimSpace(built)); t == SanitizedBytes(s) && Runes(t) == Sanitized(Runes(s))
  {
    NothingLeft(built, prevSpace, Runes(s));
    RunesOfEncodeAll(TrimSpace(built));
  }

  lemma NothingToWrite()
    ensures SanitizedBytes([]) == [] && Sanitized(Runes([])) == ""
  {
    assert MapAll("") == "";
  }

  // One rune further: a space after a space is not written.
  lemma WritesNext(built: string, prevSpace: bool, s: seq<Byte>, i: nat, whole: string)
    requires i < |s| && Writes(built, prevSpace, Runes(s[i..]), whole)
    ensures var (r, w) := DecodeRune(s[i..]);
      var more := Runes(s[i + w..]);
      if Mapped(r) == ' ' && prevSpace then Writes(built, true, more, whole)
      else Writes(built + [Mapped(r)], Mapped(r) == ' ', more, whole)
  {
    RunesStep(s, i);
    RestStep(prevSpace, Runes(s[i..]), built);
  }

  // What was written, followed by what is still to be written, is the collapsed text.
  ghost predicate Writes(built: string, prevSpace: bool, todo: string, whole: string) {
    built + Rest(prevSpace, MapAll(todo)) == Collapse(MapAll(whole))
  }

  lemma NothingLeft(built: string, prevSpace: bool, whole: string)
    requires Writes(built, prevSpace, "", whole)
    ensures built == Collapse(MapAll(whole))
  {
  }

  // What is still to be written, given whether a space was just written.
  function Rest(prevSpace: bool, rs: string): string {
    if prevSpace then Collapse(DropSpaces(rs)) else Collapse(rs)
  }

  lemma RestStep(prevSpace: bool, rs: string, built: string)
    requires rs != ""
    ensures var r, more := Mapped(rs[0]), MapAll(rs[1..]);
      built + Rest(prevSpace, MapAll(rs)) ==
        if r == ' ' && prevSpace then built + Rest(true, more) else (built + [r]) + Rest(r == ' ', more)
  {
    assert MapAll(rs) == [Mapped(rs[0])] + MapAll(rs[1..]);
    assert MapAll(rs)[1..] == MapAll(rs[1..]);
  }

  lemma RunesStep(s: seq<Byte>, i: nat)
    requires i < |s|
    ensures var (r, w) := DecodeRune(s[i..]);
      Runes(s[i..]) != "" && Runes(s[i..])[0] == r && Runes(s[i..])[1..] == Runes(s[i + w..])
  {
    var w := DecodeRune(s[i..]).1;
    assert s[i..][w..] == s[i + w..];
  }

  // truncatePostText: cuts where the max-th rune begins.
  method TruncatePostText(s: seq<Byte>, max: int) returns (t: seq<Byte>)
    ensures t == TruncatedBytes(s, max) && Runes(t) == Truncated(Runes(s), max)
  {
    if max <= 0 {
      return s;
    }
    if |Runes(s)| <= max {
      return s;
    }
    EllipsisIsARune();
    var count, i := 0, 0;
    assert s[0..] == s;
    while i < |s|
      invariant count <= max && i <= |s| && i == Offset(s, count)
      invariant Runes(s[i..]) == Runes(s)[count..]
    {
      if count == max {
        RunesOfCut(s, max, ELLIPSIS);
        return s[..i] + ELLIPSIS;
      }
      OffsetNext(s, count);
      RunesFromOffset(s, count + 1);
      i := i + DecodeRune(s[i..]).1;
      count := count + 1;
    }
    assert false;
  }

  lemma EllipsisIsARune()
    ensures Runes(ELLIPSIS) == "\U{2026}" && !Continuation(ELLIPSIS[0])
  {
    DecodeRuneInvertsEncode('\U{2026}', []);
    assert Encode('\U{2026}') + [] == ELLIPSIS;
    assert Runes(ELLIPSIS[3..]) == "";
  }

  lemma {:induction false} OffsetNext(s: seq<Byte>, n: nat)
    requires n < |Runes(s)|
    ensures Offset(s, n) < |s|
    ensures Offset(s, n + 1) == Offset(s, n) + DecodeRune(s[Offset(s, n)..]).1
  {
    if n == 0 {
      assert s[0..] == s;
    } else {
      OffsetNext(s[DecodeRune(s).1..], n - 1);
      OffsetStep(s, n);
    }
  }

  // -------------------------------------------------------------------------- results

  predicate OneSpaced(rs: string) {
    && (forall i | 0 <= i < |rs| :: rs[i] != '\n' && rs[i] != '\r' && rs[i] != '\t')
    && (forall i | 1 <= i < |rs| :: rs[i] == ' ' ==> rs[i - 1] != ' ')
  }

  // One line, single spaces, nothing to trim.
  predicate Clean(rs: string) {
    OneSpaced(rs) && Trimmed(rs)
  }

  // The runes that are not written as a space, white space of other kinds included.
  function Solid(rs: string): string {
    if rs == "" then "" else (if Mapped(rs[0]) == ' ' then "" else [rs[0]]) + Solid(rs[1..])
  }

  lemma {:induction false} DropSpacesKeeps(ms: string)
    ensures Solid(DropSpaces(ms)) == Solid(ms)
  {
    if ms == "" || ms[0] != ' ' {
    } else {
      DropSpacesKeeps(ms[1..]);
    }
  }

  // The spaces dropped are a prefix.
  lemma {:induction false} DropSpacesIsSuffix(ms: string)
    ensures var k := |ms| - |DropSpaces(ms)|;
      DropSpaces(ms) == ms[k..] && forall i | 0 <= i < k :: ms[i] == ' '
  {
    if ms == "" || ms[0] != ' ' {
      assert ms[0..] == ms;
    } else {
      DropSpacesIsSuffix(ms[1..]);
      var k := |ms| - |DropSpaces(ms)|;
      assert ms[1..][k - 1..] == ms[k..];
      assert forall i | 1 <= i < k :: ms[i] == ms[1..][i - 1];
    }
  }

  lemma DropSpacesEnds(ms: string)
    requires ms != ""
    ensures ms[|ms| - 1] == if DropSpaces(ms) == "" then ' ' else DropSpaces(ms)[|DropSpaces(ms)| - 1]
  {
    DropSpacesIsSuffix(ms);
  }

  // Collapsing keeps both ends and all solid runes.
  lemma {:induction false} CollapseShape(ms: string)
    ensures Solid(Collapse(ms)) == Solid(ms)
    ensures ms != "" ==> Collapse(ms) != "" && Collapse(ms)[0] == ms[0] && Collapse(ms)[|Collapse(ms)| - 1] == ms[|ms| - 1]
    decreases |ms|
  {
    if ms == "" {
    } else {
      var rest := if ms[0] == ' ' then DropSpaces(ms) else ms[1..];
      DropSpacesKeeps(ms);
      DropSpacesEnds(ms);
      CollapseShape(rest);
      assert Collapse(ms) == [ms[0]] + Collapse(rest);
      assert Collapse(ms)[1..] == Collapse(rest);
    }
  }

  lemma {:induction false} CollapseUses(ms: string)
    ensures forall c | c in Collapse(ms) :: c in ms
    decreases |ms|
  {
    if ms == "" {
    } else {
      var rest := if ms[0] == ' ' then DropSpaces(ms) else ms[1..];
      DropSpacesIsSuffix(ms);
      CollapseUses(rest);
      assert Collapse(ms) == [ms[0]] + Collapse(rest);
    }
  }

  lemma {:induction false} CollapseIsOneSpaced(ms: string)
    requires '\n' !in ms && '\r' !in ms && '\t' !in ms
    ensures OneSpaced(Collapse(ms))
    decreases |ms|
  {
    if ms == "" {
    } else {
      var rest := if ms[0] == ' ' then DropSpaces(ms) else ms[1..];
      DropSpacesIsSuffix(ms);
      CollapseIsOneSpaced(rest);
      CollapseShape(rest);
      assert Collapse(ms) == [ms[0]] + Collapse(rest);
    }
  }

  lemma {:induction false} CollapseOneSpaced(ms: string)
    requires OneSpaced(ms)
    ensures Collapse(ms) == ms
    decreases |ms|
  {
    if ms == "" {
    } else {
      assert ms[0] == ' ' ==> DropSpaces(ms) == ms[1..] by {
        assert ms[0] == ' ' && |ms| > 1 ==> ms[1] != ' ';
      }
      CollapseOneSpaced(ms[1..]);
    }
  }

  // No run of spaces crosses the border between a and b.
  predicate Border(a: string, b: string) {
    a == "" || b == "" || a[|a| - 1] != ' ' || b[0] != ' '
  }

  lemma {:induction false} DropSpacesAppend(a: string, b: string)
    requires a != "" && Border(a, b)
    ensures DropSpaces(a + b) == DropSpaces(a) + b
  {
    if a[0] != ' ' {
    } else {
      assert (a + b)[1..] == a[1..] + b;
      if |a| > 1 {
        DropSpacesAppend(a[1..], b);
      }
    }
  }

  lemma {:induction false} CollapseAppend(a: string, b: string)
    requires Border(a, b)
    ensures Collapse(a + b) == Collapse(a) + Collapse(b)
    decreases |a|
  {
    if a == "" {
      assert a + b == b;
    } else if a[0] == ' ' {
      DropSpacesAppend(a, b);
      DropSpacesEnds(a);
      CollapseAppend(DropSpaces(a), b);
    } else {
      assert (a + b)[1..] == a[1..] + b;
      CollapseAppend(a[1..], b);
    }
  }

  lemma {:induction false} SolidOfMapped(rs: string)
    ensures Solid(MapAll(rs)) == Solid(rs)
  {
    if rs == "" {
    } else {
      assert MapAll(rs)[1..] == MapAll(rs[1..]);
      SolidOfMapped(rs[1..]);
    }
  }

  lemma CollapseBlank(w: string)
    requires Blank(w)
    ensures Blank(Collapse(MapAll(w)))
  {
    var c := Collapse(MapAll(w));
    CollapseUses(MapAll(w));
    forall i | 0 <= i < |c|
      ensures IsSpace(c[i])
    {
      assert c[i] in MapAll(w);
    }
  }

  // Main result: sanitizing is trimming first and collapsing what is left.
  lemma SanitizedIsCollapsedCore(rs: string)
    ensures Sanitized(rs) == Collapse(MapAll(TrimSpace(rs)))
  {
    var i, j := TrimCuts(rs);
    TrimTrims(rs);
    if i == j {
      assert rs == rs[..i] + rs[j..];
      SanitizedBlank(rs);
    } else {
      assert rs == rs[..i] + (rs[i..j] + rs[j..]);
      SanitizedOfParts(rs[..i], rs[i..j], rs[j..]);
    }
  }

  lemma SanitizedBlank(w: string)
    requires Blank(w)
    ensures Sanitized(w) == ""
  {
    CollapseBlank(w);
    assert Collapse(MapAll(w)) == Collapse(MapAll(w)) + "" + "";
    TrimOf(Collapse(MapAll(w)), "", "");
  }

  lemma SanitizedOfParts(w: string, core: string, w': string)
    requires Blank(w) && Blank(w') && core != "" && Trimmed(core)
    ensures Sanitized(w + (core + w')) == Collapse(MapAll(core))
  {
    var c := Collapse(MapAll(core));
    CollapseBlank(w);
    CollapseBlank(w');
    CollapseShape(MapAll(core));
    CollapseOfParts(w, core, w');
    TrimOf(Collapse(MapAll(w)), c, Collapse(MapAll(w')));
  }

  lemma CollapseOfParts(w: string, core: string, w': string)
    requires core != "" && Trimmed(core)
    ensures Collapse(MapAll(w + (core + w'))) == Collapse(MapAll(w)) + Collapse(MapAll(core)) + Collapse(MapAll(w'))
  {
    MapAllOfParts(w, core, w');
    CollapseAppend(MapAll(core), MapAll(w'));
    assert (MapAll(core) + MapAll(w'))[0] == Mapped(core[0]);
    CollapseAppend(MapAll(w), MapAll(core) + MapAll(w'));
  }

  lemma MapAllOfParts(a: string, b: string, c: string)
    ensures MapAll(a + (b + c)) == MapAll(a) + (MapAll(b) + MapAll(c))
  {
  }

  // Main result: the output is clean and keeps every rune between the trimmed ends that is
  // not written as a space, in order.
  lemma SanitizedIsClean(rs: string)
    ensures Clean(Sanitized(rs))
    ensures Solid(Sanitized(rs)) == Solid(TrimSpace(rs))
  {
    SanitizedIsCollapsedCore(rs);
    TrimTrims(rs);
    CollapseShape(MapAll(TrimSpace(rs)));
    CollapseIsOneSpaced(MapAll(TrimSpace(rs)));
    SolidOfMapped(TrimSpace(rs));
  }

  // ------------------------------------------------------------ words and single spaces

  predicate IsGap(c: char) {
    c == ' ' || c == '\n' || c == '\r' || c == '\t'
  }

  function WordEnd(rs: string): (n: nat)
    ensures n <= |rs| && (forall i | 0 <= i < n :: !IsGap(rs[i])) && (n < |rs| ==> IsGap(rs[n]))
  {
    if rs == "" || IsGap(rs[0]) then 0 else 1 + WordEnd(rs[1..])
  }

  function GapEnd(rs: string): (n: nat)
    ensures n <= |rs| && (forall i | 0 <= i < n :: IsGap(rs[i])) && (n < |rs| ==> !IsGap(rs[n]))
  {
    if rs == "" || !IsGap(rs[0]) then 0 else 1 + GapEnd(rs[1..])
  }

  // The maximal pieces without a gap.
  function Words(rs: string): seq<string>
    decreases |rs|
  {
    if rs == "" then []
    else if IsGap(rs[0]) then Words(rs[GapEnd(rs)..])
    else [rs[..WordEnd(rs)]] + Words(rs[WordEnd(rs)..])
  }

  function Joined(words: seq<string>): string {
    if words == [] then "" else if |words| == 1 then words[0] else words[0] + " " + Joined(words[1..])
  }

  lemma CollapseWord(w: string)
    requires forall i | 0 <= i < |w| :: !IsGap(w[i])
    ensures Collapse(MapAll(w)) == w
  {
    assert MapAll(w) == w;
    CollapseOneSpaced(w);
  }

  lemma {:induction false} DropAll(ms: string)
    requires forall i | 0 <= i < |ms| :: ms[i] == ' '
    ensures DropSpaces(ms) == ""
  {
    if ms == "" {
    } else {
      DropAll(ms[1..]);
    }
  }

  lemma CollapseGap(g: string, rest: string)
    requires g != "" && forall i | 0 <= i < |g| :: IsGap(g[i])
    requires rest != "" && !IsGap(rest[0])
    ensures Collapse(MapAll(g + rest)) == " " + Collapse(MapAll(rest))
  {
    assert MapAll(g + rest) == MapAll(g) + MapAll(rest);
    DropAll(MapAll(g));
    assert Collapse(MapAll(g)) == " " + Collapse("");
    CollapseAppend(MapAll(g), MapAll(rest));
  }

  predicate IsWord(w: string) {
    w != "" && forall i | 0 <= i < |w| :: !IsGap(w[i])
  }

  // A word, a gap and the rest.
  predicate Pieces(w: string, g: string, more: string) {
    IsWord(w) && g != "" && (forall i | 0 <= i < |g| :: IsGap(g[i])) && more != "" && !IsGap(more[0])
  }

  lemma CollapsePieces(w: string, g: string, more: string)
    requires Pieces(w, g, more)
    ensures Collapse(MapAll(w + (g + more))) == w + (" " + Collapse(MapAll(more)))
  {
    CollapseWord(w);
    CollapseGap(g, more);
    MapAllOfParts(w, g, more);
    assert MapAll(g + more) == MapAll(g) + MapAll(more);
    CollapseAppend(MapAll(w), MapAll(g) + MapAll(more));
  }

  lemma WordsOfPieces(w: string, g: string, more: string)
    requires Pieces(w, g, more)
    ensures Words(w + (g + more)) == [w] + Words(more)
  {
    var rs := w + (g + more);
    assert rs[0] == w[0] && rs[|w|] == g[0];
    assert WordEnd(rs) == |w| && rs[..|w|] == w && rs[|w|..] == g + more;
    assert (g + more)[0] == g[0] && (g + more)[|g|] == more[0];
    assert GapEnd(g + more) == |g| && (g + more)[|g|..] == more;
  }

  lemma PiecesOf(rs: string) returns (w: string, g: string, more: string)
    requires rs != "" && !IsGap(rs[0]) && !IsGap(rs[|rs| - 1])
    ensures (IsWord(rs) && w == rs) || (rs == w + (g + more) && Pieces(w, g, more) && more[|more| - 1] == rs[|rs| - 1])
  {
    var n := WordEnd(rs);
    var rest := rs[n..];
    w := rs[..n];
    g, more := rest[..GapEnd(rest)], rest[GapEnd(rest)..];
    assert rs == w + rest && rest == g + more;
  }

  lemma {:induction false} CollapseIsJoined(rs: string)
    requires rs != "" ==> !IsGap(rs[0]) && !IsGap(rs[|rs| - 1])
    ensures Collapse(MapAll(rs)) == Joined(Words(rs))
    ensures rs != "" ==> Words(rs) != []
    decreases |rs|
  {
    if rs == "" {
      assert MapAll(rs) == "";
    } else {
      var w, g, more := PiecesOf(rs);
      if w == rs {
        CollapseWord(rs);
        OneWord(rs);
      } else {
        CollapseIsJoined(more);
        CollapsePieces(w, g, more);
        WordsOfPieces(w, g, more);
        JoinedMore(w, Words(more));
      }
    }
  }

  lemma OneWord(w: string)
    requires IsWord(w)
    ensures Words(w) == [w]
  {
    assert WordEnd(w) == |w| && w[..|w|] == w && w[|w|..] == "";
  }

  lemma JoinedMore(w: string, words: seq<string>)
    requires words != []
    ensures Joined([w] + words) == w + (" " + Joined(words))
  {
    assert ([w] + words)[1..] == words;
  }

  // Main result: the output is the words of the trimmed text with one space in between.
  lemma SanitizedIsItsWords(rs: string)
    ensures Sanitized(rs) == Joined(Words(TrimSpace(rs)))
  {
    SanitizedIsCollapsedCore(rs);
    TrimTrims(rs);
    CollapseIsJoined(TrimSpace(rs));
  }

  // Main result: truncation keeps the first max runes and puts one ellipsis behind them.
  lemma TruncatedExactly(s: seq<Byte>, max: int)
    ensures max <= 0 || |Runes(s)| <= max ==> TruncatedBytes(s, max) == s
    ensures 0 < max < |Runes(s)| ==>
      && Runes(TruncatedBytes(s, max)) == Runes(s)[..max] + "\U{2026}"
      && exists i :: 0 <= i <= |s| && TruncatedBytes(s, max) == s[..i] + [0xE2, 0x80, 0xA6]
  {
    if 0 < max < |Runes(s)| {
      EllipsisIsARune();
      RunesOfCut(s, max, ELLIPSIS);
    }
  }

  // Main result: exactly the clean texts are left alone.
  lemma SanitizedFixpoints(rs: string)
    ensures Sanitized(rs) == rs <==> Clean(rs)
  {
    if Clean(rs) {
      assert MapAll(rs) == rs;
      CollapseOneSpaced(rs);
      TrimOf("", rs, "");
      assert "" + rs + "" == rs;
    }
    SanitizedIsClean(rs);
  }

  lemma CleanWhenShort(rs: string, max: int)
    ensures var once := Truncated(Sanitized(rs), max);
      Clean(once) && Truncated(Sanitized(once), max) == once && (max > 0 ==> |once| <= max + 1)
  {
    var once := Truncated(Sanitized(rs), max);
    SanitizedIsClean(rs);
    assert Clean(once) by {
      if 0 < max < |Sanitized(rs)| {
        assert once[0] == Sanitized(rs)[0];
      }
    }
    SanitizedFixpoints(once);
  }

  // Truncating a text that is its runes' encoding is truncating the runes.
  lemma TruncateEncoded(rs: string, max: int)
    ensures TruncatedBytes(EncodeAll(rs), max) == EncodeAll(Truncated(rs, max))
  {
    RunesOfEncodeAll(rs);
    if 0 < max < |rs| {
      CutOfEncodeAll(rs, max);
      EncodeAllAppend(rs[..max], "\U{2026}");
      assert EncodeAll("\U{2026}") == ELLIPSIS;
    }
  }

  // Main result: on every byte string, truncating after sanitizing gives one clean line of
  // at most max + 1 runes, and doing both again gives the same bytes.
  lemma SanitizeTruncateTwice(s: seq<Byte>, max: int)
    ensures var once := TruncatedBytes(SanitizedBytes(s), max);
      && Runes(once) == Truncated(Sanitized(Runes(s)), max)
      && Clean(Runes(once)) && (max > 0 ==> |Runes(once)| <= max + 1)
      && TruncatedBytes(SanitizedBytes(once), max) == once
  {
    var short := Truncated(Sanitized(Runes(s)), max);
    TruncateEncoded(Sanitized(Runes(s)), max);
    RunesOfEncodeAll(short);
    CleanWhenShort(Runes(s), max);
    TruncateEncoded(Sanitized(short), max);
  }
}
