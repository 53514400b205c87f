/** Substring search, splitting and joining, as Go's strings package does them. */
module Text {
  /** Whether sep stands at position i of s. */
  predicate At(s: string, sep: string, i: nat) {
    i + |sep| <= |s| && forall k :: 0 <= k < |sep| ==> s[i + k] == sep[k]
  }

  /** The leftmost position of sep in s at or after i, or |s| + 1. */
  function Find(s: string, sep: string, i: nat): (r: nat)
    requires i <= |s| + 1
    ensures r == |s| + 1 || (i <= r && At(s, sep, r))
    ensures forall j: nat :: i <= j < r ==> !At(s, sep, j)
    decreases |s| + 1 - i
  {
    if i == |s| + 1 then i
    else if At(s, sep, i) then i
    else Find(s, sep, i + 1)
  }

  predicate Contains(s: string, sep: string) { Find(s, sep, 0) <= |s| }

  lemma ContainsAt(s: string, sep: string)
    ensures Contains(s, sep) <==> exists i: nat :: At(s, sep, i)
  {
    if i: nat :| At(s, sep, i) { assert i <= |s|; }
  }

  /** strings.Split for a non-empty separator. */
  function Split(s: string, sep: string): (parts: seq<string>)
    requires |sep| > 0
    ensures |parts| >= 1
  {
    var i := Find(s, sep, 0);
    if i > |s| then [s] else [s[..i]] + Split(s[i + |sep|..], sep)
  }

  function Join(parts: seq<string>, sep: string): string {
    if |parts| == 0 then ""
    else if |parts| == 1 then parts[0]
    else parts[0] + sep + Join(parts[1..], sep)
  }

  lemma JoinCons(head: string, parts: seq<string>, sep: string)
    requires |parts| >= 1
    ensures Join([head] + parts, sep) == head + sep + Join(parts, sep)
  {
    assert ([head] + parts)[1..] == parts;
  }

  /** Joining what was split gives the text back. */
  lemma {:induction false} JoinSplit(s: string, sep: string)
    requires |sep| > 0
    ensures Join(Split(s, sep), sep) == s
    decreases |s|
  {
    var i := Find(s, sep, 0);
    if i <= |s| {
      var rest := s[i + |sep|..];
      JoinSplit(rest, sep);
      JoinCons(s[..i], Split(rest, sep), sep);
      assert s == s[..i] + sep + rest;
    }
  }

  lemma FindFirst(s: string, sep: string, i: nat)
    requires At(s, sep, i) && forall j: nat :: j < i ==> !At(s, sep, j)
    ensures Find(s, sep, 0) == i
  {
    assert i <= |s|;
  }

  lemma SplitNone(s: string, sep: string)
    requires |sep| > 0 && !Contains(s, sep)
    ensures Split(s, sep) == [s]
  {
  }

  // ---------- Trimming ----------

  /** White space as Unicode defines it. */
  predicate IsSpace(c: char) {
    || '\t' <= c <= '\r' || c == ' ' || c == '\U{0085}' || c == '\U{00A0}' || c == '\U{1680}'
    || '\U{2000}' <= c <= '\U{200A}' || c in {'\U{2028}', '\U{2029}', '\U{202F}', '\U{205F}', '\U{3000}'}
  }

  /** The first position from i on that is not white space, or |s|. */
  function Lead(s: string, i: nat): (r: nat)
    requires i <= |s|
    ensures i <= r <= |s| && (forall k :: i <= k < r ==> IsSpace(s[k])) && (r < |s| ==> !IsSpace(s[r]))
    decreases |s| - i
  {
    if i < |s| && IsSpace(s[i]) then Lead(s, i + 1) else i
  }

  /** The end of the text s[i..j] without its trailing white space. */
  function Tail(s: string, i: nat, j: nat): (r: nat)
    requires i <= j <= |s|
    ensures i <= r <= j && (forall k :: r <= k < j ==> IsSpace(s[k])) && (r > i ==> !IsSpace(s[r - 1]))
  {
    if j > i && IsSpace(s[j - 1]) then Tail(s, i, j - 1) else j
  }

  /** strings.TrimSpace */
  function Trim(s: string): string { s[Lead(s, 0)..Tail(s, Lead(s, 0), |s|)] }

  predicate Trimmed(s: string) { s == "" || (!IsSpace(s[0]) && !IsSpace(s[|s| - 1])) }

  lemma TrimIsTrimmed(s: string)
    ensures Trimmed(Trim(s))
  {
  }

  lemma TrimmedStays(s: string)
    requires Trimmed(s)
    ensures Trim(s) == s
  {
  }

  // ---------- Splitting at one character ----------

  lemma FindChar(s: string, c: char, i: nat)
    requires i <= |s|
    ensures var r := Find(s, [c], i); if r <= |s| then i <= r < |s| && s[r] == c && c !in s[i..r] else c !in s[i..]
  {
    var r := Find(s, [c], i);
    forall k | i <= k < |s| && k < r ensures s[k] != c { assert !At(s, [c], k); }
    if r <= |s| { assert At(s, [c], r) && [c][0] == c; }
  }

  lemma FirstChar(s: string, c: char, n: nat)
    requires n < |s| && s[n] == c && forall k :: 0 <= k < n ==> s[k] != c
    ensures Find(s, [c], 0) == n
  {
    assert At(s, [c], n);
    forall j: nat | j < n ensures !At(s, [c], j) { assert s[j + 0] != [c][0]; }
    FindFirst(s, [c], n);
  }

  lemma {:induction false} PartsAreFree(s: string, c: char)
    ensures forall k :: 0 <= k < |Split(s, [c])| ==> c !in Split(s, [c])[k]
    decreases |s|
  {
    var r := Find(s, [c], 0);
    FindChar(s, c, 0);
    if r <= |s| { PartsAreFree(s[r + 1..], c); } else { assert s[0..] == s; }
  }

  lemma SplitFree(s: string, c: char)
    requires c !in s
    ensures Split(s, [c]) == [s]
  {
    FindChar(s, c, 0);
  }

  lemma SplitFirst(x: string, c: char, y: string)
    requires c !in x
    ensures Split(x + [c] + y, [c]) == [x] + Split(y, [c])
  {
    var s := x + [c] + y;
    FindChar(s, c, 0);
    var r := Find(s, [c], 0);
    assert At(s, [c], |x|);
    assert r <= |x|;
    assert r == |x|;
    assert s[..r] == x && s[r + 1..] == y;
  }

  lemma Reassociate<T>(a: seq<T>, b: seq<T>, c: seq<T>, d: seq<T>, e: seq<T>)
    ensures (a + b + c) + d + e == a + b + (c + d + e)
  {
  }

  lemma CutAtFirst(x: string, c: char) returns (head: string, rest: string)
    requires c in x
    ensures x == head + [c] + rest && c !in head
  {
    var r := Find(x, [c], 0);
    FindChar(x, c, 0);
    head, rest := x[..r], x[r + 1..];
    assert x[0..r] == head;
  }

  /** Splitting around a separator splits both sides. */
  lemma {:induction false} SplitApart(x: string, c: char, y: string)
    ensures Split(x + [c] + y, [c]) == Split(x, [c]) + Split(y, [c])
    decreases |x|
  {
    if c !in x {
      SplitFirst(x, c, y);
      SplitFree(x, c);
    } else {
      var head, rest := CutAtFirst(x, c);
      Reassociate(head, [c], rest, [c], y);
      SplitFirst(head, c, rest);
      SplitFirst(head, c, rest + [c] + y);
      SplitApart(rest, c, y);
      Grouped([head], Split(rest, [c]), Split(y, [c]));
    }
  }

  lemma Grouped<T>(a: seq<T>, b: seq<T>, c: seq<T>)
    ensures a + (b + c) == a + b + c
  {
  }

  lemma HeadAndTail<T>(s: seq<T>)
    requires s != []
    ensures [s[0]] + s[1..] == s
  {
  }

  /** Splitting what was joined from parts without the separator gives the parts back. */
  lemma {:induction false} SplitJoin(parts: seq<string>, c: char)
    requires parts != [] && forall k :: 0 <= k < |parts| ==> c !in parts[k]
    ensures Split(Join(parts, [c]), [c]) == parts
    decreases |parts|
  {
    if |parts| == 1 {
      SplitFree(parts[0], c);
    } else {
      var first, rest := parts[0], parts[1..];
      SplitJoin(rest, c);
      SplitFirst(first, c, Join(rest, [c]));
      HeadAndTail(parts);
    }
  }
}
