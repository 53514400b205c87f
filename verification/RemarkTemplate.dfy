/** Dropping token categories from a remark template, with the text that touches them. */
module RemarkTemplate {
  import opened Text
  import opened TemplateTokens
  import opened UiTokens

  /** The names that are not removed, in order. */
  function Without(ns: seq<Name>, remove: set<string>): seq<Name> {
    if ns == [] then [] else (if ns[0].text in remove then [] else [ns[0]]) + Without(ns[1..], remove)
  }

  lemma {:induction false} WithoutConcat(x: seq<Name>, y: seq<Name>, remove: set<string>)
    ensures Without(x + y, remove) == Without(x, remove) + Without(y, remove)
  {
    if x == [] {
      assert x + y == y;
    } else {
      assert (x + y)[1..] == x[1..] + y;
      WithoutConcat(x[1..], y, remove);
      Regroup(if x[0].text in remove then [] else [x[0]], Without(x[1..], remove), Without(y, remove));
    }
  }

  lemma {:induction false} WithoutNone(ns: seq<Name>, remove: set<string>)
    requires forall k :: 0 <= k < |ns| ==> ns[k].text !in remove
    ensures Without(ns, remove) == ns
  {
    if ns != [] {
      WithoutNone(ns[1..], remove);
      assert ns == [ns[0]] + ns[1..];
    }
  }

  lemma {:induction false} WithoutRemoves(ns: seq<Name>, remove: set<string>)
    ensures forall k :: 0 <= k < |Without(ns, remove)| ==> Without(ns, remove)[k].text !in remove
  {
    if ns != [] { WithoutRemoves(ns[1..], remove); }
  }

  /** Names of the tokens of several texts, in order. */
  function AllNames(parts: seq<string>): seq<Name> {
    if parts == [] then [] else Names(parts[0]) + AllNames(parts[1..])
  }

  lemma {:induction false} AllNamesConcat(x: seq<string>, y: seq<string>)
    ensures AllNames(x + y) == AllNames(x) + AllNames(y)
  {
    if x == [] {
      assert x + y == y;
    } else {
      assert (x + y)[1..] == x[1..] + y && (x + y)[0] == x[0];
      AllNamesConcat(x[1..], y);
      Regroup(Names(x[0]), AllNames(x[1..]), AllNames(y));
    }
  }

  lemma {:induction false} NamesOfJoin(parts: seq<string>, c: char)
    requires !TokenChar(c)
    ensures Names(Join(parts, [c])) == AllNames(parts)
  {
    if |parts| == 1 {
      assert AllNames(parts[1..]) == [];
    } else if |parts| > 1 {
      NamesOfJoin(parts[1..], c);
      NamesAround(parts[0], c, Join(parts[1..], [c]));
    }
  }

  lemma NamesOfSplit(s: string, c: char)
    requires !TokenChar(c)
    ensures AllNames(Split(s, [c])) == Names(s)
  {
    NamesOfJoin(Split(s, [c]), c);
    JoinSplit(s, [c]);
  }

  // ---------- A run of text between removed tokens ----------

  /** What is kept of a run: from its first token, if a removed one precedes it, to its last, if one follows. */
  function KeptRun(run: string, leftRemoved: bool, rightRemoved: bool): seq<string> {
    var ts := Tokens(run);
    TokensAreListed(run, 0);
    if ts == [] then []
    else
      var start := if leftRemoved then ts[0].start else 0;
      var end := if rightRemoved then ts[|ts| - 1].end else |run|;
      var frag := Trim(run[start..end]);
      if frag != "" then [frag] else []
  }

  method AppendKeptRun(runs: seq<string>, run: string, leftRemoved: bool, rightRemoved: bool) returns (r: seq<string>)
    ensures r == runs + KeptRun(run, leftRemoved, rightRemoved)
  {
    var ts := FindTokens(run);
    TokensAreListed(run, 0);
    r := runs;
    if |ts| > 0 {
      var start, end := 0, |run|;
      if leftRemoved { start := ts[0].start; }
      if rightRemoved { end := ts[|ts| - 1].end; }
      var frag := Trim(run[start..end]);
      if frag != "" { r := r + [frag]; }
    }
  }

  /** The cut positions of a run: outside all tokens, with no token beyond them. */
  lemma RunCuts(run: string, left: bool, right: bool)
    requires Tokens(run) != []
    ensures var ts := Tokens(run);
      var a, b := if left then ts[0].start else 0, if right then ts[|ts| - 1].end else |run|;
      && a <= b <= |run| && SafeCut(run, a)
      && CutsNone(run, a) && CutsNone(run, b)
      && (forall i: nat, e: nat :: e <= a ==> !TokenAt(run, i, e))
      && (forall i: nat, e: nat :: b <= i ==> !TokenAt(run, i, e))
  {
    var ts := Tokens(run);
    TokensAreListed(run, 0);
    forall i: nat, e: nat | TokenAt(run, i, e) ensures ts[0].start <= i && e <= ts[|ts| - 1].end {
      var k :| 0 <= k < |ts| && ts[k].start == i && ts[k].end == e;
    }
  }

  /** No token is lost with the text dropped from a run. */
  lemma KeptRunNames(run: string, left: bool, right: bool)
    ensures AllNames(KeptRun(run, left, right)) == Names(run)
  {
    var ts := Tokens(run);
    TokensAreListed(run, 0);
    if ts == [] {
      NoNames(run, 0, |run|);
    } else {
      RunCuts(run, left, right);
      var a, b := if left then ts[0].start else 0, if right then ts[|ts| - 1].end else |run|;
      NamesInside(run, a, b);
      NamesTrim(run[a..b]);
      FragmentNames(Trim(run[a..b]));
    }
  }

  lemma FragmentNames(frag: string)
    ensures AllNames(if frag != "" then [frag] else []) == Names(frag)
  {
    if frag != "" {
      assert [frag][1..] == [];
      assert Names(frag) + [] == Names(frag);
    }
  }

  // ---------- One segment ----------

  /** The tokens lie behind one another in a text of length n. */
  ghost predicate Spaced(ts: seq<Token>, n: nat) {
    && (forall k :: 0 <= k < |ts| ==> ts[k].start < ts[k].end <= n)
    && (forall k, l {:trigger ts[k].end, ts[l].start} :: 0 <= k < l < |ts| ==> ts[k].end <= ts[l].start)
  }

  lemma ListedAreSpaced(seg: string, ts: seq<Token>)
    requires Lists(seg, 0, ts)
    ensures Spaced(ts, |seg|)
  {
  }

  /** The kept runs of a segment from position i on, with the tokens ts[k..] still to come. */
  function RunsFrom(seg: string, ts: seq<Token>, k: nat, i: nat, leftRemoved: bool, remove: set<string>): seq<string>
    requires Spaced(ts, |seg|) && k <= |ts| && i <= |seg| && (k < |ts| ==> i <= ts[k].start)
    decreases |ts| - k
  {
    if k == |ts| then KeptRun(seg[i..], leftRemoved, false)
    else if ts[k].name.text !in remove then RunsFrom(seg, ts, k + 1, i, leftRemoved, remove)
    else KeptRun(seg[i..ts[k].start], leftRemoved, true) + RunsFrom(seg, ts, k + 1, ts[k].end, true, remove)
  }

  predicate Spared(ts: seq<Token>, remove: set<string>) { forall k :: 0 <= k < |ts| ==> ts[k].name.text !in remove }

  function FilteredSegment(seg: string, remove: set<string>): string {
    var ts := Tokens(seg);
    TokensAreListed(seg, 0);
    if Spared(ts, remove) then Trim(seg) else Join(RunsFrom(seg, ts, 0, 0, false, remove), " ")
  }

  method FilterSegment(seg: string, remove: set<string>) returns (r: string)
    ensures r == FilteredSegment(seg, remove)
  {
    var ts := FindTokens(seg);
    TokensAreListed(seg, 0);
    if Spared(ts, remove) { return Trim(seg); }
    var runs := KeepRuns(seg, ts, remove);
    r := Join(runs, " ");
  }

  method KeepRuns(seg: string, ts: seq<Token>, remove: set<string>) returns (runs: seq<string>)
    requires Lists(seg, 0, ts)
    ensures runs == RunsFrom(seg, ts, 0, 0, false, remove)
  {
    runs := [];
    ghost var all := RunsFrom(seg, ts, 0, 0, false, remove);
    assert [] + all == all;
    var runStart: nat, leftRemoved := 0, false;
    for k := 0 to |ts|
      invariant runStart <= |seg| && (k < |ts| ==> runStart <= ts[k].start)
      invariant runs + RunsFrom(seg, ts, k, runStart, leftRemoved, remove) == all
    {
      if ts[k].name.text in remove {
        Regroup(runs, KeptRun(seg[runStart..ts[k].start], leftRemoved, true), RunsFrom(seg, ts, k + 1, ts[k].end, true, remove));
        runs := AppendKeptRun(runs, seg[runStart..ts[k].start], leftRemoved, true);
        runStart, leftRemoved := ts[k].end, true;
      }
    }
    runs := AppendKeptRun(runs, seg[runStart..], leftRemoved, false);
  }

  /** All names of s[a..b] are spared if every token there is. */
  lemma {:induction false} SparedNames(s: string, a: nat, b: nat, remove: set<string>)
    requires a <= b <= |s|
    requires forall i: nat, e: nat :: TokenAt(s, i, e) && a <= i && e <= b ==> NameOf(s, i, e).text !in remove
    ensures forall k :: 0 <= k < |NamesIn(s, a, b)| ==> NamesIn(s, a, b)[k].text !in remove
    decreases b - a
  {
    if a < b {
      SparedNames(s, a + 1, b, remove);
      var e := EndOf(s, a);
      EndOfIs(s, a, e);
      var here, rest := NameAt(s, a, b), NamesIn(s, a + 1, b);
      var all: seq<Name> := here + rest;
      assert NamesIn(s, a, b) == all;
      forall k | 0 <= k < |all| ensures all[k].text !in remove {
        if k >= |here| { assert all[k] == rest[k - |here|]; }
      }
    }
  }

  /** Between position i and the token ts[k] (or the end) no removed token is left. */
  ghost predicate SparedSince(seg: string, ts: seq<Token>, k: nat, i: nat, remove: set<string>)
    requires k <= |ts|
  {
    forall j :: 0 <= j < k && i <= ts[j].start ==> ts[j].name.text !in remove
  }

  lemma RunNames(seg: string, ts: seq<Token>, k: nat, i: nat, b: nat, remove: set<string>)
    requires Lists(seg, 0, ts) && k <= |ts| && i <= b <= |seg| && SparedSince(seg, ts, k, i, remove)
    requires b == if k < |ts| then ts[k].start else |seg|
    ensures Names(seg[i..b]) == NamesIn(seg, i, b) == Without(NamesIn(seg, i, b), remove)
  {
    NamesOfSlice(seg, i, b);
    forall p: nat, e: nat | TokenAt(seg, p, e) && i <= p && e <= b ensures NameOf(seg, p, e).text !in remove {
      var j :| 0 <= j < |ts| && ts[j].start == p && ts[j].end == e;
    }
    SparedNames(seg, i, b, remove);
    WithoutNone(NamesIn(seg, i, b), remove);
  }

  lemma TokenCuts(s: string, i: nat, e: nat)
    requires TokenAt(s, i, e)
    ensures CutsNone(s, i) && CutsNone(s, e)
  {
    forall j: nat, f: nat | TokenAt(s, j, f) && j < i ensures f <= i { TokensApart(s, j, f, i, e); }
    forall j: nat, f: nat | TokenAt(s, j, f) && j < e ensures f <= e {
      if j < i { TokensApart(s, j, f, i, e); } else if j == i { SameEnd(s, i, e, f); } else { TokensApart(s, i, e, j, f); }
    }
  }

  lemma SameEnd(s: string, i: nat, e: nat, f: nat)
    requires TokenAt(s, i, e) && TokenAt(s, i, f)
    ensures e == f
  {
    EndOfIs(s, i, e);
    EndOfIs(s, i, f);
  }

  lemma WithoutMiddle(x: seq<Name>, n: Name, y: seq<Name>, remove: set<string>)
    requires n.text in remove
    ensures Without(x + ([n] + y), remove) == Without(x, remove) + Without(y, remove)
  {
    WithoutConcat(x, [n] + y, remove);
    assert ([n] + y)[1..] == y;
  }

  /** The names behind a run: a removed token and the rest. */
  lemma NamesPast(seg: string, i: nat, t: Token, remove: set<string>)
    requires TokenAt(seg, t.start, t.end) && t.name == NameOf(seg, t.start, t.end) && t.name.text in remove && i <= t.start
    ensures Without(NamesIn(seg, i, |seg|), remove) ==
      Without(NamesIn(seg, i, t.start), remove) + Without(NamesIn(seg, t.end, |seg|), remove)
  {
    TokenCuts(seg, t.start, t.end);
    NamesSplit(seg, i, t.start, |seg|);
    NamesSplit(seg, t.start, t.end, |seg|);
    OneName(seg, t.start, t.end);
    WithoutMiddle(NamesIn(seg, i, t.start), t.name, NamesIn(seg, t.end, |seg|), remove);
  }

  lemma {:induction false} RunsNames(seg: string, ts: seq<Token>, k: nat, i: nat, left: bool, remove: set<string>)
    requires Lists(seg, 0, ts) && k <= |ts| && i <= |seg| && (k < |ts| ==> i <= ts[k].start) && SparedSince(seg, ts, k, i, remove)
    ensures AllNames(RunsFrom(seg, ts, k, i, left, remove)) == Without(NamesIn(seg, i, |seg|), remove)
    decreases |ts| - k
  {
    if k == |ts| {
      RunNames(seg, ts, k, i, |seg|, remove);
      assert seg[i..|seg|] == seg[i..];
      KeptRunNames(seg[i..], left, false);
    } else if ts[k].name.text !in remove {
      RunsNames(seg, ts, k + 1, i, left, remove);
    } else {
      var run := seg[i..ts[k].start];
      RunNames(seg, ts, k, i, ts[k].start, remove);
      KeptRunNames(run, left, true);
      RunsNames(seg, ts, k + 1, ts[k].end, true, remove);
      AllNamesConcat(KeptRun(run, left, true), RunsFrom(seg, ts, k + 1, ts[k].end, true, remove));
      NamesPast(seg, i, ts[k], remove);
    }
  }

  /** A filtered segment has the tokens that are not removed, in order. */
  lemma SegmentNames(seg: string, remove: set<string>)
    ensures Names(FilteredSegment(seg, remove)) == Without(Names(seg), remove)
  {
    var ts := Tokens(seg);
    TokensAreListed(seg, 0);
    if Spared(ts, remove) {
      RunNames(seg, ts, |ts|, 0, |seg|, remove);
      NamesTrim(seg);
    } else {
      RunsNames(seg, ts, 0, 0, false, remove);
      NamesOfJoin(RunsFrom(seg, ts, 0, 0, false, remove), ' ');
    }
  }

  // ---------- The text a filtered segment keeps ----------

  /** Which tokens are not removed. */
  function Kept(ts: seq<Token>, remove: set<string>): seq<bool> {
    seq(|ts|, k requires 0 <= k < |ts| => ts[k].name.text !in remove)
  }

  /** Tokens first to last of a segment. */
  datatype Run = Run(first: nat, last: nat)

  /** A longest run of kept tokens. */
  predicate Unbroken(kept: seq<bool>, r: Run) {
    && r.first <= r.last < |kept|
    && (forall k :: r.first <= k <= r.last ==> kept[k])
    && (r.first > 0 ==> !kept[r.first - 1])
    && (r.last + 1 < |kept| ==> !kept[r.last + 1])
  }

  ghost predicate AllUnbroken(kept: seq<bool>, f: nat, rs: seq<Run>) {
    forall x :: 0 <= x < |rs| ==> Unbroken(kept, rs[x]) && f <= rs[x].first
  }

  ghost predicate InOrder(rs: seq<Run>) { forall x, y :: 0 <= x < y < |rs| ==> rs[x].last < rs[y].first }

  predicate Holds(r: Run, k: int) { r.first <= k <= r.last }

  ghost predicate CoverKept(kept: seq<bool>, f: nat, rs: seq<Run>) {
    forall k :: f <= k < |kept| && kept[k] ==> exists x :: 0 <= x < |rs| && Holds(rs[x], k)
  }

  /** The longest runs of kept tokens from token f on, all of them, in order. */
  ghost predicate KeptRuns(kept: seq<bool>, f: nat, rs: seq<Run>) {
    AllUnbroken(kept, f, rs) && InOrder(rs) && CoverKept(kept, f, rs)
  }

  /** The text of a run, trimmed: from its first token to its last with all that is between, and out to the edge of the
      segment where no token lies beyond. */
  function RunText(seg: string, ts: seq<Token>, r: Run): string
    requires Spaced(ts, |seg|) && r.first <= r.last < |ts|
  {
    Trim(seg[(if r.first == 0 then 0 else ts[r.first].start)..(if r.last == |ts| - 1 then |seg| else ts[r.last].end)])
  }

  function RunTexts(seg: string, ts: seq<Token>, rs: seq<Run>): seq<string>
    requires Spaced(ts, |seg|) && forall x :: 0 <= x < |rs| ==> rs[x].first <= rs[x].last < |ts|
  {
    if rs == [] then [] else [RunText(seg, ts, rs[0])] + RunTexts(seg, ts, rs[1..])
  }

  lemma TokenFromRun(seg: string, ts: seq<Token>, i: nat, b: nat, u: Token) returns (j: nat)
    requires Lists(seg, 0, ts) && i <= b <= |seg| && u in Tokens(seg[i..b])
    ensures j < |ts| && ts[j].start == i + u.start && ts[j].end == i + u.end <= b
  {
    TokensAreListed(seg[i..b], 0);
    var x :| 0 <= x < |Tokens(seg[i..b])| && Tokens(seg[i..b])[x] == u;
    assert TokenAt(seg[i..b], u.start, u.end);
    TokenInSlice(seg, i, b, u.start, u.end);
    var k :| 0 <= k < |ts| && ts[k].start == i + u.start && ts[k].end == i + u.end;
    j := k;
  }

  lemma TokenInRun(seg: string, ts: seq<Token>, i: nat, b: nat, j: nat) returns (x: nat)
    requires Lists(seg, 0, ts) && i <= b <= |seg| && j < |ts| && i <= ts[j].start && ts[j].end <= b
    ensures var us := Tokens(seg[i..b]); x < |us| && us[x].start == ts[j].start - i && us[x].end == ts[j].end - i
  {
    assert TokenAt(seg, ts[j].start, ts[j].end);
    TokenInSlice(seg, i, b, ts[j].start - i, ts[j].end - i);
    x := ListedAt(seg[i..b], ts[j].start - i, ts[j].end - i);
  }

  lemma ListedAt(s: string, p: nat, e: nat) returns (x: nat)
    requires TokenAt(s, p, e)
    ensures x < |Tokens(s)| && Tokens(s)[x].start == p && Tokens(s)[x].end == e
  {
    TokensAreListed(s, 0);
    var k :| 0 <= k < |Tokens(s)| && Tokens(s)[k].start == p && Tokens(s)[k].end == e;
    x := k;
  }

  /** Tokens f to k - 1 are those between positions i and b. */
  ghost predicate Fenced(ts: seq<Token>, f: nat, k: nat, i: nat, b: nat) {
    && f <= k <= |ts| && i <= b
    && (f > 0 ==> ts[f - 1].end <= i) && (k < |ts| ==> b <= ts[k].start)
    && (f < k ==> i <= ts[f].start && ts[k - 1].end <= b)
  }

  lemma FencedIs(ts: seq<Token>, n: nat, f: nat, k: nat, i: nat, b: nat, j: nat)
    requires Spaced(ts, n) && Fenced(ts, f, k, i, b) && j < |ts| && i <= ts[j].start && ts[j].end <= b
    ensures f <= j < k && ts[f].start <= ts[j].start && ts[j].end <= ts[k - 1].end
  {
  }

  lemma TokensSpaced(s: string)
    ensures Spaced(Tokens(s), |s|)
  {
    TokensAreListed(s, 0);
  }

  ghost predicate SliceHolds(seg: string, ts: seq<Token>, f: nat, k: nat, i: nat, b: nat)
    requires Fenced(ts, f, k, i, b) && b <= |seg|
  {
    var us := Tokens(seg[i..b]);
    if f == k then us == []
    else us != [] && us[0].start == ts[f].start - i && us[|us| - 1].end == ts[k - 1].end - i
  }

  lemma RunTokensWithin(seg: string, ts: seq<Token>, f: nat, k: nat, i: nat, b: nat, u: Token)
    requires Lists(seg, 0, ts) && Fenced(ts, f, k, i, b) && b <= |seg| && u in Tokens(seg[i..b])
    ensures f < k && ts[f].start - i <= u.start && u.end <= ts[k - 1].end - i
  {
    ListedAreSpaced(seg, ts);
    var j := TokenFromRun(seg, ts, i, b, u);
    FencedIs(ts, |seg|, f, k, i, b, j);
  }

  lemma RunTokensReach(seg: string, ts: seq<Token>, f: nat, k: nat, i: nat, b: nat)
    requires Lists(seg, 0, ts) && Fenced(ts, f, k, i, b) && b <= |seg| && f < k
    ensures var us := Tokens(seg[i..b]);
      us != [] && us[0].start <= ts[f].start - i && ts[k - 1].end - i <= us[|us| - 1].end
  {
    var us := Tokens(seg[i..b]);
    ListedAreSpaced(seg, ts);
    FencedEnds(ts, |seg|, f, k, i, b);
    var x := TokenInRun(seg, ts, i, b, f);
    var y := TokenInRun(seg, ts, i, b, k - 1);
    TokensSpaced(seg[i..b]);
    FirstAndLast(us, |seg[i..b]|, x);
    FirstAndLast(us, |seg[i..b]|, y);
  }

  lemma FirstAndLast(us: seq<Token>, n: nat, x: nat)
    requires Spaced(us, n) && x < |us|
    ensures us[0].start <= us[x].start && us[x].end <= us[|us| - 1].end
  {
    if x > 0 { assert us[0].end <= us[x].start; }
    if x < |us| - 1 { assert us[x].end <= us[|us| - 1].start; }
  }

  /** The tokens of a slice that cuts none are those between its ends. */
  lemma RunTokens(seg: string, ts: seq<Token>, f: nat, k: nat, i: nat, b: nat)
    requires Lists(seg, 0, ts) && Fenced(ts, f, k, i, b) && b <= |seg|
    ensures SliceHolds(seg, ts, f, k, i, b)
  {
    var us := Tokens(seg[i..b]);
    if us != [] {
      RunTokensWithin(seg, ts, f, k, i, b, us[0]);
      RunTokensWithin(seg, ts, f, k, i, b, us[|us| - 1]);
    }
    if f < k { RunTokensReach(seg, ts, f, k, i, b); }
  }

  lemma FencedEnds(ts: seq<Token>, n: nat, f: nat, k: nat, i: nat, b: nat)
    requires Spaced(ts, n) && Fenced(ts, f, k, i, b) && f < k
    ensures ts[f].end <= ts[k - 1].end <= b && i <= ts[f].start <= ts[k - 1].start
  {
  }

  lemma NotBlank(s: string, p: nat)
    requires p < |s| && !IsSpace(s[p])
    ensures Trim(s) != ""
  {
    var a := Lead(s, 0);
    assert a <= p && Tail(s, a, |s|) > p;
  }

  lemma NothingKept(run: string, left: bool, right: bool)
    requires Tokens(run) == []
    ensures KeptRun(run, left, right) == []
  {
  }

  /** What is kept of a slice, in terms of the whole text; p is where its first token begins. */
  lemma KeptSlice(s: string, i: nat, b: nat, p: nat, a: nat, e: nat, left: bool, right: bool)
    requires i <= b <= |s| && var us := Tokens(s[i..b]);
      us != [] && p == i + us[0].start && a == (if left then p else i) && e == if right then i + us[|us| - 1].end else b
    requires i <= a <= p < e <= b && !IsSpace(s[p])
    ensures KeptRun(s[i..b], left, right) == [Trim(s[a..e])]
  {
    SliceOfSlice(s, i, b, a - i, e - i);
    NotBlankIn(s, a, e, p);
    KeptRunIs(s[i..b], a - i, e - i, left, right);
  }

  lemma KeptRunIs(run: string, a: nat, e: nat, left: bool, right: bool)
    requires var us := Tokens(run); us != [] && a == (if left then us[0].start else 0) && e == if right then us[|us| - 1].end else |run|
    requires a <= e <= |run| && Trim(run[a..e]) != ""
    ensures KeptRun(run, left, right) == [Trim(run[a..e])]
  {
  }

  lemma NotBlankIn(s: string, a: nat, e: nat, p: nat)
    requires a <= p < e <= |s| && !IsSpace(s[p])
    ensures Trim(s[a..e]) != ""
  {
    NotBlank(s[a..e], p - a);
  }

  /** What slices of the segment hold, wherever they are cut between tokens. */
  ghost predicate Slices(seg: string, ts: seq<Token>) {
    && Spaced(ts, |seg|)
    && (forall j :: 0 <= j < |ts| ==> !IsSpace(seg[ts[j].start]))
    && forall f: nat, k: nat, i: nat, b: nat :: Fenced(ts, f, k, i, b) && b <= |seg| ==> SliceHolds(seg, ts, f, k, i, b)
  }

  lemma TokenStart(seg: string, ts: seq<Token>, f: nat)
    requires Lists(seg, 0, ts) && f < |ts|
    ensures ts[f].start < |seg| && !IsSpace(seg[ts[f].start])
  {
    assert TokenAt(seg, ts[f].start, ts[f].end);
  }

  lemma ListedSlices(seg: string, ts: seq<Token>)
    requires Lists(seg, 0, ts)
    ensures Slices(seg, ts)
  {
    ListedAreSpaced(seg, ts);
    forall j: nat | j < |ts| ensures !IsSpace(seg[ts[j].start]) { TokenStart(seg, ts, j); }
    forall f: nat, k: nat, i: nat, b: nat | Fenced(ts, f, k, i, b) && b <= |seg| ensures SliceHolds(seg, ts, f, k, i, b) {
      RunTokens(seg, ts, f, k, i, b);
    }
  }

  /** Position i is where a run begins: the start of the segment, or behind the removed token before token f. */
  ghost predicate BeginsAt(ts: seq<Token>, kept: seq<bool>, f: nat, i: nat, left: bool) {
    f <= |ts| == |kept| && if left then f > 0 && ts[f - 1].end == i && !kept[f - 1] else f == 0 && i == 0
  }

  lemma SliceAt(seg: string, ts: seq<Token>, f: nat, k: nat, i: nat, b: nat)
    requires Slices(seg, ts) && Fenced(ts, f, k, i, b) && b <= |seg|
    ensures SliceHolds(seg, ts, f, k, i, b)
    ensures f < k ==> i <= ts[f].start < ts[k - 1].end <= b && !IsSpace(seg[ts[f].start])
  {
    if f < k { FencedEnds(ts, |seg|, f, k, i, b); }
  }

  lemma RunBegins(seg: string, ts: seq<Token>, kept: seq<bool>, f: nat, k: nat, i: nat, b: nat, left: bool)
    requires Slices(seg, ts) && f <= k <= |ts| && i <= b && BeginsAt(ts, kept, f, i, left)
    requires b == if k < |ts| then ts[k].start else |seg|
    ensures b <= |seg| && Fenced(ts, f, k, i, b)
  {
    if f < k && k < |ts| { assert ts[k - 1].end <= ts[k].start; }
    if f > 0 && f < k { assert ts[f - 1].end <= ts[f].start; }
  }

  lemma RunEndsFull(seg: string, ts: seq<Token>, f: nat, k: nat, i: nat, b: nat, left: bool, a: nat, e: nat)
    requires Slices(seg, ts) && Fenced(ts, f, k, i, b) && b <= |seg| && f < k
    requires a == (if left then ts[f].start else i) && e == if k < |ts| then ts[k - 1].end else b
    ensures a <= e <= |seg| && KeptRun(seg[i..b], left, k < |ts|) == [Trim(seg[a..e])]
  {
    SliceAt(seg, ts, f, k, i, b);
    KeptSlice(seg, i, b, ts[f].start, a, e, left, k < |ts|);
  }

  lemma RunTextIs(seg: string, ts: seq<Token>, r: Run, a: nat, e: nat)
    requires Spaced(ts, |seg|) && r.first <= r.last < |ts| && a <= e <= |seg|
    requires a == (if r.first == 0 then 0 else ts[r.first].start) && e == if r.last == |ts| - 1 then |seg| else ts[r.last].end
    ensures RunText(seg, ts, r) == Trim(seg[a..e])
  {
  }

  /** A run that ends before the removed token k, or at the end of the segment. */
  lemma RunEnds(seg: string, ts: seq<Token>, kept: seq<bool>, f: nat, k: nat, i: nat, b: nat, left: bool)
    requires Slices(seg, ts) && f <= k <= |ts| && i <= b && BeginsAt(ts, kept, f, i, left)
    requires b == if k < |ts| then ts[k].start else |seg|
    ensures b <= |seg|
    ensures KeptRun(seg[i..b], left, k < |ts|) == if f == k then [] else [RunText(seg, ts, Run(f, k - 1))]
  {
    RunBegins(seg, ts, kept, f, k, i, b, left);
    if f == k {
      SliceAt(seg, ts, f, k, i, b);
      NothingKept(seg[i..b], left, k < |ts|);
    } else {
      var a: nat, e: nat := if left then ts[f].start else i, if k < |ts| then ts[k - 1].end else b;
      RunEndsFull(seg, ts, f, k, i, b, left, a, e);
      RunTextIs(seg, ts, Run(f, k - 1), a, e);
    }
  }

  /** The runs from a removed token on, and the one before it. */
  lemma RunsAtRemoved(seg: string, ts: seq<Token>, k: nat, i: nat, left: bool, remove: set<string>, head: seq<string>, tail: seq<string>)
    requires Spaced(ts, |seg|) && k < |ts| && i <= ts[k].start && ts[k].name.text in remove
    requires head == KeptRun(seg[i..ts[k].start], left, true)
    requires tail == RunsFrom(seg, ts, k + 1, ts[k].end, true, remove)
    ensures RunsFrom(seg, ts, k, i, left, remove) == head + tail
  {
  }

  lemma RunsAtEnd(seg: string, ts: seq<Token>, i: nat, left: bool, remove: set<string>, head: seq<string>)
    requires Spaced(ts, |seg|) && i <= |seg| && head == KeptRun(seg[i..|seg|], left, false)
    ensures RunsFrom(seg, ts, |ts|, i, left, remove) == head
  {
    assert seg[i..|seg|] == seg[i..];
  }

  /** Tokens f to k - 1 are kept and follow the beginning i of a run, which token k or the end of the segment continues. */
  ghost predicate InRun(seg: string, ts: seq<Token>, kept: seq<bool>, k: nat, f: nat, i: nat, left: bool) {
    && f <= k <= |ts| && i <= |seg| && (k < |ts| ==> i <= ts[k].start)
    && BeginsAt(ts, kept, f, i, left) && forall j :: f <= j < k ==> kept[j]
  }

  /** The runs from token f on are what the filter keeps from position i on, having come to token k. */
  ghost predicate Yields(seg: string, ts: seq<Token>, kept: seq<bool>, k: nat, f: nat, i: nat, left: bool, remove: set<string>, rs: seq<Run>)
    requires Spaced(ts, |seg|) && |kept| == |ts| && k <= |ts| && i <= |seg| && (k < |ts| ==> i <= ts[k].start)
  {
    KeptRuns(kept, f, rs) && RunsFrom(seg, ts, k, i, left, remove) == RunTexts(seg, ts, rs)
  }

  lemma LastRun(seg: string, ts: seq<Token>, kept: seq<bool>, f: nat, i: nat, left: bool, remove: set<string>) returns (rs: seq<Run>)
    requires Slices(seg, ts) && InRun(seg, ts, kept, |ts|, f, i, left)
    ensures Yields(seg, ts, kept, |ts|, f, i, left, remove, rs) == true
  {
    var n := |ts|;
    RunEnds(seg, ts, kept, f, n, i, |seg|, left);
    var head := if f == n then [] else [RunText(seg, ts, Run(f, n - 1))];
    RunsAtEnd(seg, ts, i, left, remove, head);
    RunsJoin(seg, ts, kept, f, n, []);
    assert head + [] == head;
    rs := if f == n then [] else [Run(f, n - 1)] + [];
  }

  lemma RunBefore(seg: string, ts: seq<Token>, kept: seq<bool>, k: nat, f: nat, i: nat, left: bool, remove: set<string>, later: seq<Run>)
    returns (rs: seq<Run>)
    requires Slices(seg, ts) && InRun(seg, ts, kept, k, f, i, left) && k < |ts| && !kept[k] && ts[k].name.text in remove
    requires Yields(seg, ts, kept, k + 1, k + 1, ts[k].end, true, remove, later)
    ensures Yields(seg, ts, kept, k, f, i, left, remove, rs) == true
  {
    RunEnds(seg, ts, kept, f, k, i, ts[k].start, left);
    var head := if f == k then [] else [RunText(seg, ts, Run(f, k - 1))];
    RunsAtRemoved(seg, ts, k, i, left, remove, head, RunTexts(seg, ts, later));
    RunsJoin(seg, ts, kept, f, k, later);
    rs := if f == k then later else [Run(f, k - 1)] + later;
  }

  lemma RunsAtKept(seg: string, ts: seq<Token>, kept: seq<bool>, k: nat, f: nat, i: nat, left: bool, remove: set<string>, rs: seq<Run>)
    requires Slices(seg, ts) && InRun(seg, ts, kept, k, f, i, left) && k < |ts| && kept[k] && ts[k].name.text !in remove
    ensures InRun(seg, ts, kept, k + 1, f, i, left)
    ensures Yields(seg, ts, kept, k + 1, f, i, left, remove, rs) ==> Yields(seg, ts, kept, k, f, i, left, remove, rs) == true
  {
  }

  lemma KeptIs(ts: seq<Token>, remove: set<string>, k: nat)
    requires k < |ts|
    ensures Kept(ts, remove)[k] <==> ts[k].name.text !in remove
  {
  }

  lemma NextRun(seg: string, ts: seq<Token>, kept: seq<bool>, k: nat)
    requires Slices(seg, ts) && |kept| == |ts| && k < |ts| && !kept[k]
    ensures InRun(seg, ts, kept, k + 1, k + 1, ts[k].end, true)
  {
    if k + 1 < |ts| { assert ts[k].end <= ts[k + 1].start; }
  }

  lemma {:induction false} RunsText(seg: string, ts: seq<Token>, kept: seq<bool>, k: nat, f: nat, i: nat, left: bool, remove: set<string>)
    returns (rs: seq<Run>)
    requires Slices(seg, ts) && kept == Kept(ts, remove) && InRun(seg, ts, kept, k, f, i, left)
    ensures Yields(seg, ts, kept, k, f, i, left, remove, rs) == true
    decreases |ts| - k
  {
    if k == |ts| {
      rs := LastRun(seg, ts, kept, f, i, left, remove);
    } else if kept[k] {
      KeptIs(ts, remove, k);
      RunsAtKept(seg, ts, kept, k, f, i, left, remove, []);
      rs := RunsText(seg, ts, kept, k + 1, f, i, left, remove);
      RunsAtKept(seg, ts, kept, k, f, i, left, remove, rs);
    } else {
      KeptIs(ts, remove, k);
      NextRun(seg, ts, kept, k);
      var later := RunsText(seg, ts, kept, k + 1, k + 1, ts[k].end, true, remove);
      rs := RunBefore(seg, ts, kept, k, f, i, left, remove, later);
    }
  }

  lemma RunsJoin(seg: string, ts: seq<Token>, kept: seq<bool>, f: nat, k: nat, later: seq<Run>)
    requires Spaced(ts, |seg|) && |kept| == |ts| && f <= k <= |ts| && (f > 0 ==> !kept[f - 1]) && (k < |ts| ==> !kept[k])
    requires (forall j :: f <= j < k ==> kept[j]) && KeptRuns(kept, k + 1, later)
    ensures var rs := if f == k then later else [Run(f, k - 1)] + later;
      && KeptRuns(kept, f, rs)
      && RunTexts(seg, ts, rs) == (if f == k then [] else [RunText(seg, ts, Run(f, k - 1))]) + RunTexts(seg, ts, later)
  {
    if f < k {
      RunsOn(kept, f, k, later);
      RunTextsCons(seg, ts, Run(f, k - 1), later);
    } else {
      assert [] + RunTexts(seg, ts, later) == RunTexts(seg, ts, later);
    }
  }

  lemma RunTextsCons(seg: string, ts: seq<Token>, r: Run, rs: seq<Run>)
    requires Spaced(ts, |seg|) && r.first <= r.last < |ts| && forall x :: 0 <= x < |rs| ==> rs[x].first <= rs[x].last < |ts|
    ensures forall x :: 0 <= x < |rs| + 1 ==> ([r] + rs)[x].first <= ([r] + rs)[x].last < |ts|
    ensures RunTexts(seg, ts, [r] + rs) == [RunText(seg, ts, r)] + RunTexts(seg, ts, rs)
  {
    assert ([r] + rs)[1..] == rs;
  }

  lemma RunsOn(kept: seq<bool>, f: nat, k: nat, later: seq<Run>)
    requires f < k <= |kept| && (f > 0 ==> !kept[f - 1]) && (k < |kept| ==> !kept[k])
    requires (forall j :: f <= j < k ==> kept[j]) && KeptRuns(kept, k + 1, later)
    ensures KeptRuns(kept, f, [Run(f, k - 1)] + later)
  {
    var rs := [Run(f, k - 1)] + later;
    assert Unbroken(kept, Run(f, k - 1));
    OrderOn(Run(f, k - 1), later, kept);
    CoverOn(kept, f, k, later);
  }

  lemma OrderOn(r: Run, later: seq<Run>, kept: seq<bool>)
    requires InOrder(later) && AllUnbroken(kept, r.last + 2, later)
    ensures InOrder([r] + later)
  {
  }

  lemma CoverOn(kept: seq<bool>, f: nat, k: nat, later: seq<Run>)
    requires f < k && (k < |kept| ==> !kept[k]) && CoverKept(kept, k + 1, later)
    ensures CoverKept(kept, f, [Run(f, k - 1)] + later)
  {
    var rs := [Run(f, k - 1)] + later;
    forall j | f <= j < |kept| && kept[j] ensures exists x :: 0 <= x < |rs| && Holds(rs[x], j) {
      if j < k {
        assert Holds(rs[0], j);
      } else {
        var x :| 0 <= x < |later| && Holds(later[x], j);
        assert rs[x + 1] == later[x];
      }
    }
  }

  /** What is left of a segment. Without a removed token it is only trimmed. Otherwise it is the longest runs of tokens that
      are not removed, in order, joined by one space: each with the text between its tokens, without the text next to a
      removed token, and with the text at an edge of the segment if no token lies beyond its own. */
  lemma FilteredText(seg: string, remove: set<string>) returns (ts: seq<Token>, rs: seq<Run>)
    ensures Lists(seg, 0, ts) && Spaced(ts, |seg|) && KeptRuns(Kept(ts, remove), 0, rs)
    ensures FilteredSegment(seg, remove) ==
      if forall k :: 0 <= k < |ts| ==> ts[k].name.text !in remove then Trim(seg) else Join(RunTexts(seg, ts, rs), " ")
  {
    ts := Tokens(seg);
    TokensAreListed(seg, 0);
    ListedSlices(seg, ts);
    rs := RunsText(seg, ts, Kept(ts, remove), 0, 0, 0, false, remove);
  }

  // ---------- The whole template ----------

  /** The filtered segments that have anything left. */
  function KeptSegments(segs: seq<string>, remove: set<string>): seq<string> {
    if segs == [] then []
    else
      var r := FilteredSegment(segs[0], remove);
      (if r != "" then [r] else []) + KeptSegments(segs[1..], remove)
  }

  function Filtered(template: string, remove: set<string>): string {
    Join(KeptSegments(Split(template, "|"), remove), "|")
  }

  lemma KeptSegmentsStep(segs: seq<string>, k: nat, kept: seq<string>, remove: set<string>)
    requires k < |segs|
    ensures var r := FilteredSegment(segs[k], remove);
      kept + KeptSegments(segs[k..], remove) == (if r != "" then kept + [r] else kept) + KeptSegments(segs[k + 1..], remove)
  {
    var r := FilteredSegment(segs[k], remove);
    var rest := KeptSegments(segs[k + 1..], remove);
    assert segs[k..][1..] == segs[k + 1..];
    Regroup(kept, if r != "" then [r] else [], rest);
    assert kept + [] == kept;
  }

  method FilterTemplate(template: string, remove: set<string>) returns (r: string)
    ensures r == Filtered(template, remove)
  {
    var segs := Split(template, "|");
    var kept := FilterSegments(segs, remove);
    r := Join(kept, "|");
  }

  method FilterSegments(segs: seq<string>, remove: set<string>) returns (kept: seq<string>)
    ensures kept == KeptSegments(segs, remove)
  {
    kept := [];
    ghost var all := KeptSegments(segs, remove);
    assert segs[0..] == segs && [] + all == all;
    for k := 0 to |segs|
      invariant kept + KeptSegments(segs[k..], remove) == all
    {
      KeptSegmentsStep(segs, k, kept, remove);
      var seg := FilterSegment(segs[k], remove);
      if seg != "" { kept := kept + [seg]; }
    }
    assert KeptSegments(segs[|segs|..], remove) == [] && kept + [] == kept;
  }

  /** A template of one segment is filtered as a segment. */
  lemma OneSegment(seg: string, remove: set<string>)
    requires '|' !in seg
    ensures Filtered(seg, remove) == FilteredSegment(seg, remove)
  {
    SplitFree(seg, '|');
    assert KeptSegments([seg][1..], remove) == [];
  }

  lemma {:induction false} KeptAreNotEmpty(segs: seq<string>, remove: set<string>)
    ensures forall k :: 0 <= k < |KeptSegments(segs, remove)| ==> KeptSegments(segs, remove)[k] != ""
  {
    if segs != [] { KeptAreNotEmpty(segs[1..], remove); }
  }

  lemma JoinIsEmpty(parts: seq<string>, sep: string)
    requires forall k :: 0 <= k < |parts| ==> parts[k] != ""
    ensures Join(parts, sep) == "" <==> parts == []
  {
    if parts != [] { assert parts[0] != ""; }
  }

  /** Each segment is filtered by itself; one that nothing is left of is dropped with its bar. */
  lemma SegmentsApart(x: string, y: string, remove: set<string>)
    requires '|' !in x
    ensures var first, rest := FilteredSegment(x, remove), Filtered(y, remove);
      Filtered(x + "|" + y, remove) == if first == "" then rest else if rest == "" then first else first + "|" + rest
  {
    var first, kept := FilteredSegment(x, remove), KeptSegments(Split(y, "|"), remove);
    SplitFirst(x, '|', y);
    assert ([x] + Split(y, "|"))[1..] == Split(y, "|");
    assert KeptSegments(Split(x + "|" + y, "|"), remove) == (if first != "" then [first] else []) + kept;
    KeptAreNotEmpty(Split(y, "|"), remove);
    JoinIsEmpty(kept, "|");
    if first != "" {
      if kept == [] { assert [first] + kept == [first]; } else { JoinCons(first, kept, "|"); }
    } else {
      assert [] + kept == kept;
    }
  }

  lemma {:induction false} KeptSegmentsNames(segs: seq<string>, remove: set<string>)
    ensures AllNames(KeptSegments(segs, remove)) == Without(AllNames(segs), remove)
  {
    if segs != [] {
      var r := FilteredSegment(segs[0], remove);
      var part := if r != "" then [r] else [];
      SegmentNames(segs[0], remove);
      assert AllNames([r]) == Names(r) + AllNames([]);
      KeptSegmentsNames(segs[1..], remove);
      AllNamesConcat(part, KeptSegments(segs[1..], remove));
      WithoutConcat(Names(segs[0]), AllNames(segs[1..]), remove);
    }
  }

  /** The filtered template has exactly the tokens that are not removed, in their original order. */
  lemma FilterKeepsTheRest(template: string, remove: set<string>)
    ensures Names(Filtered(template, remove)) == Without(Names(template), remove)
  {
    var segs := Split(template, "|");
    KeptSegmentsNames(segs, remove);
    NamesOfJoin(KeptSegments(segs, remove), '|');
    NamesOfSplit(template, '|');
  }

  lemma FilterLeavesNoRemoved(template: string, remove: set<string>)
    ensures forall k :: 0 <= k < |Names(Filtered(template, remove))| ==> Names(Filtered(template, remove))[k].text !in remove
  {
    FilterKeepsTheRest(template, remove);
    WithoutRemoves(Names(template), remove);
  }

  // ---------- Filtering twice ----------

  lemma {:induction false} ListedIsNamed(s: string, a: nat, b: nat, i: nat, e: nat)
    requires a <= i && e <= b <= |s| && TokenAt(s, i, e)
    ensures NameOf(s, i, e) in NamesIn(s, a, b)
    decreases i - a
  {
    if a == i { EndOfIs(s, i, e); } else { ListedIsNamed(s, a + 1, b, i, e); }
  }

  lemma SparedByNames(s: string, remove: set<string>)
    requires forall k :: 0 <= k < |Names(s)| ==> Names(s)[k].text !in remove
    ensures Spared(Tokens(s), remove)
  {
    var ts := Tokens(s);
    TokensAreListed(s, 0);
    forall k | 0 <= k < |ts| ensures ts[k].name.text !in remove {
      ListedIsNamed(s, 0, |s|, ts[k].start, ts[k].end);
      var j :| 0 <= j < |Names(s)| && Names(s)[j] == ts[k].name;
    }
  }

  /** A segment on which the filter has nothing to do. */
  ghost predicate Neat(seg: string, remove: set<string>) {
    seg != "" && Trimmed(seg) && '|' !in seg && Spared(Tokens(seg), remove)
  }

  predicate NeatRun(run: string) { run != "" && Trimmed(run) && '|' !in run }

  lemma KeptRunIsNeat(run: string, left: bool, right: bool)
    requires '|' !in run
    ensures forall k :: 0 <= k < |KeptRun(run, left, right)| ==> NeatRun(KeptRun(run, left, right)[k])
  {
    var ts := Tokens(run);
    TokensAreListed(run, 0);
    if ts != [] {
      var start := if left then ts[0].start else 0;
      var end := if right then ts[|ts| - 1].end else |run|;
      TrimIsTrimmed(run[start..end]);
      TrimFree(run, '|', start, end);
    }
  }

  lemma TrimFree(s: string, c: char, a: nat, b: nat)
    requires a <= b <= |s| && c !in s
    ensures c !in Trim(s[a..b])
  {
    assert c !in s[a..b];
  }

  lemma {:induction false} RunsAreNeat(seg: string, ts: seq<Token>, k: nat, i: nat, left: bool, remove: set<string>)
    requires Lists(seg, 0, ts) && k <= |ts| && i <= |seg| && (k < |ts| ==> i <= ts[k].start) && '|' !in seg
    ensures forall j :: 0 <= j < |RunsFrom(seg, ts, k, i, left, remove)| ==> NeatRun(RunsFrom(seg, ts, k, i, left, remove)[j])
    decreases |ts| - k
  {
    if k == |ts| {
      KeptRunIsNeat(seg[i..], left, false);
    } else if ts[k].name.text !in remove {
      RunsAreNeat(seg, ts, k + 1, i, left, remove);
    } else {
      KeptRunIsNeat(seg[i..ts[k].start], left, true);
      RunsAreNeat(seg, ts, k + 1, ts[k].end, true, remove);
    }
  }

  lemma {:induction false} JoinIsNeat(runs: seq<string>)
    requires forall k :: 0 <= k < |runs| ==> NeatRun(runs[k])
    ensures runs == [] || NeatRun(Join(runs, " "))
  {
    if |runs| > 1 {
      JoinIsNeat(runs[1..]);
      var rest := Join(runs[1..], " ");
      var u := runs[0] + " " + rest;
      assert u[0] == runs[0][0] && u[|u| - 1] == rest[|rest| - 1];
    }
  }

  lemma SegmentIsNeat(seg: string, remove: set<string>)
    requires '|' !in seg && FilteredSegment(seg, remove) != ""
    ensures Neat(FilteredSegment(seg, remove), remove)
  {
    var ts := Tokens(seg);
    TokensAreListed(seg, 0);
    if Spared(ts, remove) {
      TrimIsTrimmed(seg);
    } else {
      RunsAreNeat(seg, ts, 0, 0, false, remove);
      JoinIsNeat(RunsFrom(seg, ts, 0, 0, false, remove));
    }
    SegmentNames(seg, remove);
    WithoutRemoves(Names(seg), remove);
    SparedByNames(FilteredSegment(seg, remove), remove);
  }

  lemma {:induction false} KeptSegmentsAreNeat(segs: seq<string>, remove: set<string>)
    requires forall k :: 0 <= k < |segs| ==> '|' !in segs[k]
    ensures forall k :: 0 <= k < |KeptSegments(segs, remove)| ==> Neat(KeptSegments(segs, remove)[k], remove)
  {
    if segs != [] {
      KeptSegmentsAreNeat(segs[1..], remove);
      if FilteredSegment(segs[0], remove) != "" { SegmentIsNeat(segs[0], remove); }
    }
  }

  lemma {:induction false} NeatSegmentsStay(segs: seq<string>, remove: set<string>)
    requires forall k :: 0 <= k < |segs| ==> Neat(segs[k], remove)
    ensures KeptSegments(segs, remove) == segs
  {
    if segs != [] {
      NeatSegmentsStay(segs[1..], remove);
      TrimmedStays(segs[0]);
      assert segs == [segs[0]] + segs[1..];
    }
  }

  /** Filtering twice is filtering once. */
  lemma FilterIsIdempotent(template: string, remove: set<string>)
    ensures Filtered(Filtered(template, remove), remove) == Filtered(template, remove)
  {
    var segs := Split(template, "|");
    var kept := KeptSegments(segs, remove);
    PartsAreFree(template, '|');
    KeptSegmentsAreNeat(segs, remove);
    if kept == [] {
      SplitFree("", '|');
      EmptySegment(remove);
    } else {
      SplitJoin(kept, '|');
      NeatSegmentsStay(kept, remove);
    }
  }

  lemma EmptySegment(remove: set<string>)
    ensures KeptSegments([""], remove) == []
  {
    assert Tokens("") == [] && Trim("") == "";
    assert KeptSegments([""][1..], remove) == [];
  }

  // ---------- Translating what was translated and filtered ----------

  ghost predicate AllSettled(ui: Table, parts: seq<string>) { forall k :: 0 <= k < |parts| ==> Settled(ui, parts[k], false) }

  lemma {:induction false} SettledParts(ui: Table, s: string, c: char)
    requires NamesOnly(ui) && Settled(ui, s, false) && c != '{'
    ensures AllSettled(ui, Split(s, [c]))
    decreases |s|
  {
    var r := Find(s, [c], 0);
    FindChar(s, c, 0);
    if r <= |s| {
      SettledSlice(ui, s, 0, r);
      SettledSlice(ui, s, r + 1, |s|);
      assert s[0..r] == s[..r] && s[r + 1..|s|] == s[r + 1..];
      SettledParts(ui, s[r + 1..], c);
    }
  }

  lemma {:induction false} SettledJoin(ui: Table, parts: seq<string>, c: char)
    requires NamesOnly(ui) && AllSettled(ui, parts) && !TokenChar(c)
    ensures Settled(ui, Join(parts, [c]), false)
  {
    if |parts| > 1 {
      SettledJoin(ui, parts[1..], c);
      SettledAround(ui, parts[0], c, Join(parts[1..], [c]));
    }
  }

  lemma SettledTrim(ui: Table, s: string)
    requires NamesOnly(ui) && Settled(ui, s, false)
    ensures Settled(ui, Trim(s), false)
  {
    var a := Lead(s, 0);
    assert a > 0 ==> IsSpace(s[a - 1]);
    SettledSlice(ui, s, a, Tail(s, a, |s|));
  }

  lemma SettledRun(ui: Table, run: string, left: bool, right: bool)
    requires NamesOnly(ui) && Settled(ui, run, false)
    ensures AllSettled(ui, KeptRun(run, left, right))
  {
    var ts := Tokens(run);
    TokensAreListed(run, 0);
    if ts != [] {
      RunCuts(run, left, right);
      var a, b := if left then ts[0].start else 0, if right then ts[|ts| - 1].end else |run|;
      SettledSlice(ui, run, a, b);
      SettledTrim(ui, run[a..b]);
    }
  }

  lemma {:induction false} SettledRuns(ui: Table, seg: string, ts: seq<Token>, k: nat, i: nat, left: bool, remove: set<string>)
    requires Lists(seg, 0, ts) && k <= |ts| && i <= |seg| && (k < |ts| ==> i <= ts[k].start)
    requires NamesOnly(ui) && Settled(ui, seg, false) && SafeCut(seg, i)
    ensures AllSettled(ui, RunsFrom(seg, ts, k, i, left, remove))
    decreases |ts| - k
  {
    if k == |ts| {
      SettledSlice(ui, seg, i, |seg|);
      assert seg[i..|seg|] == seg[i..];
      SettledRun(ui, seg[i..], left, false);
    } else if ts[k].name.text !in remove {
      SettledRuns(ui, seg, ts, k + 1, i, left, remove);
    } else {
      SettledSlice(ui, seg, i, ts[k].start);
      SettledRun(ui, seg[i..ts[k].start], left, true);
      SettledRuns(ui, seg, ts, k + 1, ts[k].end, true, remove);
    }
  }

  lemma SettledSegment(ui: Table, seg: string, remove: set<string>)
    requires NamesOnly(ui) && Settled(ui, seg, false)
    ensures Settled(ui, FilteredSegment(seg, remove), false)
  {
    var ts := Tokens(seg);
    TokensAreListed(seg, 0);
    if Spared(ts, remove) {
      SettledTrim(ui, seg);
    } else {
      SettledRuns(ui, seg, ts, 0, 0, false, remove);
      SettledJoin(ui, RunsFrom(seg, ts, 0, 0, false, remove), ' ');
    }
  }

  lemma {:induction false} SettledSegments(ui: Table, segs: seq<string>, remove: set<string>)
    requires NamesOnly(ui) && AllSettled(ui, segs)
    ensures AllSettled(ui, KeptSegments(segs, remove))
  {
    if segs != [] {
      SettledSegment(ui, segs[0], remove);
      SettledSegments(ui, segs[1..], remove);
    }
  }

  /** The filter opens no new single-brace token: cut and rejoined text stays translated. */
  lemma FilterKeepsSettled(ui: Table, template: string, remove: set<string>)
    requires NamesOnly(ui) && Settled(ui, template, false)
    ensures Settled(ui, Filtered(template, remove), false)
  {
    SettledParts(ui, template, '|');
    SettledSegments(ui, Split(template, "|"), remove);
    SettledJoin(ui, KeptSegments(Split(template, "|"), remove), '|');
  }

  /** On the way from the setting to the expansion a template is translated, perhaps filtered, and translated
      again; the second translation never changes it. */
  lemma SecondTranslationIsIdle(template: string, remove: set<string>)
    ensures var once := Translated(UI_TOKENS, template, false);
      && Translated(UI_TOKENS, once, false) == once
      && Translated(UI_TOKENS, Filtered(once, remove), false) == Filtered(once, remove)
  {
    UiTokensAreNames();
    var once := Translated(UI_TOKENS, template, false);
    TranslationSettles(UI_TOKENS, template, false);
    SettledIsFixed(UI_TOKENS, once, false);
    FilterKeepsSettled(UI_TOKENS, once, remove);
    SettledIsFixed(UI_TOKENS, Filtered(once, remove), false);
  }

  // ---------- Which link of a client gets which template ----------

  const USAGE_TOKENS: set<string> := {
    "TRAFFIC_USED", "TRAFFIC_LEFT", "TRAFFIC_TOTAL", "TRAFFIC_USED_BYTES", "TRAFFIC_LEFT_BYTES", "TRAFFIC_TOTAL_BYTES",
    "UP", "DOWN", "DAYS_LEFT", "EXPIRE_DATE", "EXPIRE_UNIX", "STATUS", "STATUS_EMOJI", "USAGE_PERCENTAGE", "TIME_LEFT",
    "JALALI_EXPIRE_DATE"
  }

  const FIRST_LINK_TOKENS: set<string> := USAGE_TOKENS + {"EMAIL", "USERNAME"}

  /** The part of a subscription that remembers whose usage was shown. */
  class Subscription {
    var remarkTemplate: string
    var showIdentityOnAllLinks: bool
    var usageShown: set<string>

    constructor (template: string, showIdentity: bool)
      ensures remarkTemplate == template && showIdentityOnAllLinks == showIdentity && usageShown == {}
    {
      remarkTemplate, showIdentityOnAllLinks, usageShown := template, showIdentity, {};
    }

    /** The template for a client's next link: in full the first time, later without usage tokens and, unless
        asked for, without identity tokens; always fully translated. */
    method EffectiveTemplate(key: string) returns (r: string)
      modifies this`usageShown
      ensures usageShown == old(usageShown) + {key}
      ensures Settled(UI_TOKENS, r, false)
      ensures r == if key !in old(usageShown) then Translated(UI_TOKENS, remarkTemplate, false)
        else Filtered(Translated(UI_TOKENS, remarkTemplate, false), if showIdentityOnAllLinks then USAGE_TOKENS else FIRST_LINK_TOKENS)
      ensures Names(r) ==
        var all := Names(Translated(UI_TOKENS, remarkTemplate, false));
        if key !in old(usageShown) then all
        else Without(all, if showIdentityOnAllLinks then USAGE_TOKENS else USAGE_TOKENS + {"EMAIL", "USERNAME"})
    {
      var translated := Translate(UI_TOKENS, remarkTemplate);
      UiTokensAreNames();
      TranslationSettles(UI_TOKENS, remarkTemplate, false);
      if key in usageShown {
        var remove := FIRST_LINK_TOKENS;
        if showIdentityOnAllLinks { remove := USAGE_TOKENS; }
        r := FilterTemplate(translated, remove);
        FilterKeepsTheRest(translated, remove);
        FilterKeepsSettled(UI_TOKENS, translated, remove);
      } else {
        usageShown := usageShown + {key};
        r := translated;
      }
    }
  }
}
