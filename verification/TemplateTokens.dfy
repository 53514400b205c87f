/** {{NAME}} tokens in a template, and how cutting and joining text affects them. */
module TemplateTokens {
  import opened Text

  predicate NameChar(c: char) { 'A' <= c <= 'Z' || c == '_' }

  lemma NameChars(c: char)
    ensures NameChar(c) <==> c in "ABCDEFGHIJKLMNOPQRSTUVWXYZ_"
  {
    assert NameChar(c) ==> c == '_' || "ABCDEFGHIJKLMNOPQRSTUVWXYZ_"[c as int - 'A' as int] == c;
  }

  /** s[i..e] is a token: two opening braces, a non-empty name, two closing braces. */
  predicate TokenAt(s: string, i: nat, e: nat) {
    && i + 5 <= e <= |s| && s[i] == '{' && s[i + 1] == '{' && s[e - 2] == '}' && s[e - 1] == '}'
    && forall k :: i + 2 <= k < e - 2 ==> NameChar(s[k])
  }

  datatype Name = Name(text: string)

  function NameOf(s: string, i: nat, e: nat): Name
    requires TokenAt(s, i, e)
  {
    Name(s[i + 2..e - 2])
  }

  function NameEnd(s: string, k: nat): (r: nat)
    requires k <= |s|
    ensures k <= r <= |s| && (forall j :: k <= j < r ==> NameChar(s[j])) && (r < |s| ==> !NameChar(s[r]))
    decreases |s| - k
  {
    if k < |s| && NameChar(s[k]) then NameEnd(s, k + 1) else k
  }

  /** The end of the token at position i, or 0 if there is none. */
  function EndOf(s: string, i: nat): nat {
    if i + 5 <= |s| && s[i] == '{' && s[i + 1] == '{' then
      var r := NameEnd(s, i + 2);
      if r > i + 2 && r + 2 <= |s| && s[r] == '}' && s[r + 1] == '}' then r + 2 else 0
    else 0
  }

  lemma EndOfIs(s: string, i: nat, e: nat)
    ensures TokenAt(s, i, e) <==> EndOf(s, i) == e && e > 0
  {
    if TokenAt(s, i, e) {
      var r := NameEnd(s, i + 2);
      assert !NameChar(s[e - 2]);
    }
  }

  /** Two tokens never overlap. */
  lemma TokensApart(s: string, i: nat, e: nat, j: nat, f: nat)
    requires TokenAt(s, i, e) && TokenAt(s, j, f) && i < j
    ensures e <= j
  {
    assert s[j] == '{' && s[j + 1] == '{' && NameChar(s[i + 2]);
  }

  /** Names of the tokens within s[a..b], in order. */
  function NamesIn(s: string, a: nat, b: nat): seq<Name>
    requires a <= b <= |s|
    decreases b - a
  {
    if a == b then [] else NameAt(s, a, b) + NamesIn(s, a + 1, b)
  }

  /** The name of the token at position i, if there is one and it ends by b. */
  function NameAt(s: string, i: nat, b: nat): seq<Name> {
    var e := EndOf(s, i);
    EndOfIs(s, i, e);
    if 0 < e <= b then [NameOf(s, i, e)] else []
  }

  /** Names of all tokens of s, in order. */
  function Names(s: string): seq<Name> { NamesIn(s, 0, |s|) }

  /** No token lies across position m. */
  ghost predicate CutsNone(s: string, m: nat) {
    forall i: nat, e: nat :: TokenAt(s, i, e) && i < m ==> e <= m
  }

  lemma Regroup<T>(x: seq<T>, y: seq<T>, z: seq<T>)
    ensures x + (y + z) == (x + y) + z
  {
  }

  lemma {:induction false} NamesSplit(s: string, a: nat, m: nat, b: nat)
    requires a <= m <= b <= |s| && CutsNone(s, m)
    ensures NamesIn(s, a, b) == NamesIn(s, a, m) + NamesIn(s, m, b)
    decreases m - a
  {
    if a < m {
      NamesSplit(s, a + 1, m, b);
      EndOfIs(s, a, EndOf(s, a));
      assert NameAt(s, a, b) == NameAt(s, a, m);
      Regroup(NameAt(s, a, m), NamesIn(s, a + 1, m), NamesIn(s, m, b));
    }
  }

  lemma TokenInSlice(s: string, a: nat, b: nat, i: nat, e: nat)
    requires a <= b <= |s|
    ensures TokenAt(s[a..b], i, e) <==> TokenAt(s, a + i, a + e) && a + e <= b
  {
    var u := s[a..b];
    if TokenAt(u, i, e) {
      forall k | a + i + 2 <= k < a + e - 2 ensures NameChar(s[k]) { assert NameChar(u[k - a]); }
    }
  }

  lemma EndInSlice(s: string, a: nat, b: nat, i: nat)
    requires a <= b <= |s| && i < b - a
    ensures var f := EndOf(s, a + i); EndOf(s[a..b], i) == if 0 < f <= b then f - a else 0
  {
    var u := s[a..b];
    var e, f := EndOf(u, i), EndOf(s, a + i);
    EndOfIs(u, i, e);
    EndOfIs(s, a + i, f);
    if 0 < f <= b {
      TokenInSlice(s, a, b, i, f - a);
      EndOfIs(u, i, f - a);
    } else {
      TokenInSlice(s, a, b, i, e);
      EndOfIs(s, a + i, a + e);
    }
  }

  lemma SliceOfSlice(s: string, a: nat, b: nat, i: nat, j: nat)
    requires a <= b <= |s| && i <= j <= b - a
    ensures s[a..b][i..j] == s[a + i..a + j]
  {
    var u := s[a..b];
    assert forall k :: 0 <= k < j - i ==> u[i..j][k] == u[i + k] == s[a + i + k];
  }

  lemma NameInSlice(s: string, a: nat, b: nat, i: nat)
    requires a <= b <= |s| && i < b - a
    ensures NameAt(s[a..b], i, b - a) == NameAt(s, a + i, b)
  {
    EndInSlice(s, a, b, i);
    var f := EndOf(s, a + i);
    EndOfIs(s, a + i, f);
    if 0 < f <= b { SliceOfSlice(s, a, b, i + 2, f - a - 2); }
  }

  lemma SameStep(u: string, i: nat, n: nat, s: string, j: nat, b: nat)
    requires i < n <= |u| && j < b <= |s|
    requires NameAt(u, i, n) == NameAt(s, j, b) && NamesIn(u, i + 1, n) == NamesIn(s, j + 1, b)
    ensures NamesIn(u, i, n) == NamesIn(s, j, b)
  {
  }

  predicate SameNameAt(u: string, j: nat, s: string, a: nat, b: nat) { NameAt(u, j, |u|) == NameAt(s, a + j, b) }

  lemma {:induction false} NamesMatch(u: string, s: string, a: nat, b: nat, i: nat)
    requires |u| == b - a && i <= b - a && b <= |s|
    requires forall j: nat :: j < b - a ==> SameNameAt(u, j, s, a, b)
    ensures NamesIn(u, i, b - a) == NamesIn(s, a + i, b)
    decreases b - a - i
  {
    if i < b - a {
      assert SameNameAt(u, i, s, a, b);
      NamesMatch(u, s, a, b, i + 1);
      SameStep(u, i, b - a, s, a + i, b);
    }
  }

  lemma NamesSlice(s: string, a: nat, b: nat, i: nat)
    requires a <= b <= |s| && i <= b - a
    ensures NamesIn(s[a..b], i, b - a) == NamesIn(s, a + i, b)
  {
    forall j: nat | j < b - a ensures SameNameAt(s[a..b], j, s, a, b) { NameInSlice(s, a, b, j); }
    NamesMatch(s[a..b], s, a, b, i);
  }

  lemma NamesOfSlice(s: string, a: nat, b: nat)
    requires a <= b <= |s|
    ensures Names(s[a..b]) == NamesIn(s, a, b)
  {
    NamesSlice(s, a, b, 0);
  }

  lemma {:induction false} NoNames(s: string, a: nat, b: nat)
    requires a <= b <= |s| && forall i: nat, e: nat :: a <= i && e <= b ==> !TokenAt(s, i, e)
    ensures NamesIn(s, a, b) == []
    decreases b - a
  {
    if a < b {
      NoNames(s, a + 1, b);
      EndOfIs(s, a, EndOf(s, a));
    }
  }

  lemma OneName(s: string, i: nat, e: nat)
    requires TokenAt(s, i, e)
    ensures NamesIn(s, i, e) == [NameOf(s, i, e)]
  {
    EndOfIs(s, i, e);
    forall j: nat, f: nat | i + 1 <= j && f <= e ensures !TokenAt(s, j, f) {
      if TokenAt(s, j, f) { TokensApart(s, i, e, j, f); }
    }
    NoNames(s, i + 1, e);
  }

  predicate TokenChar(c: char) { NameChar(c) || c == '{' || c == '}' }

  lemma InsideToken(s: string, i: nat, e: nat, m: nat)
    requires TokenAt(s, i, e) && i < m < e
    ensures TokenChar(s[m - 1]) && TokenChar(s[m])
  {
  }

  lemma CutsNoneAt(s: string, m: nat)
    requires m <= |s| && (m == 0 || m == |s| || !TokenChar(s[m - 1]) || !TokenChar(s[m]))
    ensures CutsNone(s, m)
  {
    forall i: nat, e: nat | TokenAt(s, i, e) && i < m < e ensures TokenChar(s[m - 1]) && TokenChar(s[m]) {
      InsideToken(s, i, e, m);
    }
  }

  /** Names around one character that no token contains. */
  lemma NamesApart(s: string, m: nat)
    requires m < |s| && !TokenChar(s[m])
    ensures Names(s) == Names(s[..m]) + Names(s[m + 1..])
  {
    CutsNoneAt(s, m);
    CutsNoneAt(s, m + 1);
    NamesSplit(s, 0, m, |s|);
    NamesSplit(s, m, m + 1, |s|);
    NoNames(s, m, m + 1);
    NamesOfSlice(s, 0, m);
    NamesOfSlice(s, m + 1, |s|);
    assert s[0..m] == s[..m] && s[m + 1..|s|] == s[m + 1..];
  }

  lemma NamesAround(x: string, c: char, y: string)
    requires !TokenChar(c)
    ensures Names(x + [c] + y) == Names(x) + Names(y)
  {
    var s := x + [c] + y;
    NamesApart(s, |x|);
    assert s[..|x|] == x && s[|x| + 1..] == y;
  }

  /** Dropping text before the first token and after the last changes no names. */
  lemma NamesInside(s: string, a: nat, b: nat)
    requires a <= b <= |s| && CutsNone(s, a) && CutsNone(s, b)
    requires forall i: nat, e: nat :: e <= a ==> !TokenAt(s, i, e)
    requires forall i: nat, e: nat :: b <= i ==> !TokenAt(s, i, e)
    ensures Names(s[a..b]) == Names(s)
  {
    NamesSplit(s, 0, a, |s|);
    NamesSplit(s, a, b, |s|);
    NoNames(s, 0, a);
    NoNames(s, b, |s|);
    NamesOfSlice(s, a, b);
  }

  lemma NamesTrim(s: string)
    ensures Names(Trim(s)) == Names(s)
  {
    var a := Lead(s, 0);
    var b := Tail(s, a, |s|);
    CutsNoneAt(s, a);
    CutsNoneAt(s, b);
    forall i: nat, e: nat | TokenAt(s, i, e) ensures e > a && i < b {
      assert !IsSpace(s[i]) && !IsSpace(s[e - 1]);
    }
    NamesInside(s, a, b);
  }

  // ---------- The list of tokens ----------

  datatype Token = Token(name: Name, start: nat, end: nat)

  /** The tokens of s from position i on, as a leftmost search that resumes behind each match finds them. */
  function TokensFrom(s: string, i: nat): seq<Token>
    requires i <= |s|
    decreases |s| - i
  {
    if i == |s| then []
    else
      var e := EndOf(s, i);
      EndOfIs(s, i, e);
      if e > 0 then [Token(NameOf(s, i, e), i, e)] + TokensFrom(s, e) else TokensFrom(s, i + 1)
  }

  function Tokens(s: string): seq<Token> { TokensFrom(s, 0) }

  ghost predicate Listed(ts: seq<Token>, j: nat, e: nat) { exists k :: 0 <= k < |ts| && ts[k].start == j && ts[k].end == e }

  /** The list holds exactly the tokens of s from position i on, in order. */
  ghost predicate Lists(s: string, i: nat, ts: seq<Token>) {
    && (forall k :: 0 <= k < |ts| ==>
          i <= ts[k].start && TokenAt(s, ts[k].start, ts[k].end) && ts[k].name == NameOf(s, ts[k].start, ts[k].end))
    && (forall k, l :: 0 <= k < l < |ts| ==> ts[k].end <= ts[l].start)
    && (forall j: nat, e: nat :: i <= j && TokenAt(s, j, e) ==> Listed(ts, j, e))
  }

  lemma {:induction false} TokensAreListed(s: string, i: nat)
    requires i <= |s|
    ensures Lists(s, i, TokensFrom(s, i))
    decreases |s| - i
  {
    if i < |s| {
      var e := EndOf(s, i);
      EndOfIs(s, i, e);
      if e > 0 { TokensListedOn(s, i, e); } else { TokensListedOver(s, i); }
    }
  }

  lemma TokensListedOver(s: string, i: nat)
    requires i < |s| && EndOf(s, i) == 0
    ensures Lists(s, i, TokensFrom(s, i))
    decreases |s| - i, 0
  {
    TokensAreListed(s, i + 1);
    ListsOver(s, i, TokensFrom(s, i + 1));
  }

  lemma ListsOver(s: string, i: nat, ts: seq<Token>)
    requires EndOf(s, i) == 0 && Lists(s, i + 1, ts)
    ensures Lists(s, i, ts)
  {
    forall j: nat, e: nat | i <= j && TokenAt(s, j, e) ensures Listed(ts, j, e) {
      if j == i { EndOfIs(s, i, e); }
    }
  }

  lemma TokensListedOn(s: string, i: nat, e: nat)
    requires i < |s| && e == EndOf(s, i) && TokenAt(s, i, e)
    ensures Lists(s, i, TokensFrom(s, i))
    decreases |s| - i, 0
  {
    TokensAreListed(s, e);
    ListsOn(s, i, e, TokensFrom(s, e));
  }

  lemma ListsOn(s: string, i: nat, e: nat, rest: seq<Token>)
    requires TokenAt(s, i, e) && Lists(s, e, rest)
    ensures Lists(s, i, [Token(NameOf(s, i, e), i, e)] + rest)
  {
    var ts := [Token(NameOf(s, i, e), i, e)] + rest;
    forall k | 0 < k < |ts| ensures ts[k] == rest[k - 1] && ts[0].end <= ts[k].start {}
    forall j: nat, f: nat | i <= j && TokenAt(s, j, f) ensures Listed(ts, j, f) { ListedOn(s, i, e, rest, j, f); }
  }

  lemma ListedOn(s: string, i: nat, e: nat, rest: seq<Token>, j: nat, f: nat)
    requires TokenAt(s, i, e) && Lists(s, e, rest) && i <= j && TokenAt(s, j, f)
    ensures Listed([Token(NameOf(s, i, e), i, e)] + rest, j, f)
  {
    var ts := [Token(NameOf(s, i, e), i, e)] + rest;
    if j == i {
      EndOfIs(s, i, e);
      EndOfIs(s, i, f);
      assert ts[0].start == j;
    } else {
      TokensApart(s, i, e, j, f);
      assert Listed(rest, j, f);
      var k :| 0 <= k < |rest| && rest[k].start == j && rest[k].end == f;
      assert ts[k + 1] == rest[k];
    }
  }

  /** The search of the source, as a loop. */
  method FindTokens(s: string) returns (ts: seq<Token>)
    ensures ts == Tokens(s)
  {
    ts := [];
    var i := 0;
    while i < |s|
      invariant i <= |s| && ts + TokensFrom(s, i) == Tokens(s)
      decreases |s| - i
    {
      var e := EndOf(s, i);
      EndOfIs(s, i, e);
      if e > 0 {
        ts := ts + [Token(NameOf(s, i, e), i, e)];
        i := e;
      } else {
        i := i + 1;
      }
    }
  }
}
