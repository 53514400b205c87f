/** Names of the proxies in a profile: none empty, none used twice. */
module ProxyNames {
  import opened Numbers

  /** A proxy entry; a name or type that is missing or no text reads as "". */
  datatype Proxy = Proxy(name: string, kind: string, server: string, port: string)

  function FallbackName(p: Proxy, idx: nat): string {
    if p.kind != "" && p.server != "" then p.kind + "-" + p.server + "-" + p.port else "proxy-" + Itoa(idx + 1)
  }

  function Base(p: Proxy, idx: nat): (r: string)
    ensures r != ""
  {
    if p.name == "" then FallbackName(p, idx) else p.name
  }

  /** The candidates for a name, in order: the base, then the base with -2, -3 and so on. */
  function Candidate(base: string, n: nat): string { if n <= 1 then base else base + "-" + Itoa(n) }

  lemma CandidatesDiffer(base: string, m: nat, n: nat)
    requires 1 <= m < n
    ensures Candidate(base, m) != Candidate(base, n)
  {
    var c := Candidate(base, n);
    assert c[|base| + 1..] == Itoa(n);
    if m > 1 {
      assert Candidate(base, m)[|base| + 1..] == Itoa(m);
      PrintedValue(m);
      PrintedValue(n);
    }
  }

  /** If the first n - 1 candidates are all taken, at least n - 1 names are: so the search for a free one ends. */
  lemma {:induction false} TakenAreMany(base: string, n: nat, seen: set<string>)
    requires 1 <= n && forall m :: 1 <= m < n ==> Candidate(base, m) in seen
    ensures n - 1 <= |seen|
  {
    if n > 1 {
      var last := Candidate(base, n - 1);
      forall m | 1 <= m < n - 1 ensures Candidate(base, m) in seen - {last} { CandidatesDiffer(base, m, n - 1); }
      TakenAreMany(base, n - 1, seen - {last});
    }
  }

  /** The name is the first candidate that is not taken. */
  predicate FirstFree(name: string, base: string, n: nat, seen: set<string>) {
    1 <= n && name == Candidate(base, n) && name !in seen && forall m :: 1 <= m < n ==> Candidate(base, m) in seen
  }

  method FreeName(base: string, seen: set<string>) returns (name: string)
    ensures exists n :: FirstFree(name, base, n, seen)
  {
    name := base;
    ghost var n := 1;
    var next := 2;
    while name in seen
      invariant 1 <= n == next - 1 && name == Candidate(base, n)
      invariant forall m :: 1 <= m < n ==> Candidate(base, m) in seen
      decreases |seen| + 1 - n
    {
      TakenAreMany(base, n + 1, seen);
      name := base + "-" + Itoa(next);
      n := next;
      next := next + 1;
    }
    assert FirstFree(name, base, n, seen);
  }

  predicate DistinctNames(ps: seq<Proxy>) { forall i, k :: 0 <= i < k < |ps| ==> ps[i].name != ps[k].name }

  predicate NoEmptyNames(ps: seq<Proxy>) { forall i :: 0 <= i < |ps| ==> ps[i].name != "" }

  function NamesOf(ps: seq<Proxy>): set<string> { set i | 0 <= i < |ps| :: ps[i].name }

  /** The name is the first candidate for proxy p, at position i, that no earlier proxy has. */
  ghost predicate Chosen(name: string, p: Proxy, i: nat, earlier: set<string>) { exists n :: FirstFree(name, Base(p, i), n, earlier) }

  /** Every proxy keeps everything but its name, which becomes the first candidate that no earlier proxy has. */
  ghost predicate Renamed(before: seq<Proxy>, after: seq<Proxy>) {
    && |before| == |after|
    && forall i :: 0 <= i < |after| ==>
         && after[i] == before[i].(name := after[i].name)
         && Chosen(after[i].name, before[i], i, NamesOf(after[..i]))
  }

  method EnsureUniqueProxyNames(proxies: array<Proxy>)
    modifies proxies
    ensures Renamed(old(proxies[..]), proxies[..])
    ensures NoEmptyNames(proxies[..]) && DistinctNames(proxies[..])
    ensures NoEmptyNames(old(proxies[..])) && DistinctNames(old(proxies[..])) ==> proxies[..] == old(proxies[..])
  {
    ghost var before := proxies[..];
    var seen: set<string> := {};
    for i := 0 to proxies.Length
      invariant proxies[i..] == before[i..] && seen == NamesOf(proxies[..i])
      invariant Renamed(before[..i], proxies[..i])
    {
      var base := Base(proxies[i], i);
      ghost var done := proxies[..i];
      var name := FreeName(base, seen);
      ghost var n :| FirstFree(name, base, n, seen);
      seen := seen + {name};
      proxies[i] := proxies[i].(name := name);
      RenamedOn(before, done, i, name, n);
      assert proxies[..i + 1] == done + [before[i].(name := name)];
    }
    assert before[..proxies.Length] == before && proxies[..proxies.Length] == proxies[..];
    RenamedIsUnique(before, proxies[..]);
    RenamedKeepsGood(before, proxies[..]);
  }

  lemma RenamedOn(before: seq<Proxy>, done: seq<Proxy>, i: nat, name: string, n: nat)
    requires i < |before| && Renamed(before[..i], done) && FirstFree(name, Base(before[i], i), n, NamesOf(done))
    ensures Renamed(before[..i + 1], done + [before[i].(name := name)])
    ensures NamesOf(done + [before[i].(name := name)]) == NamesOf(done) + {name}
  {
    var after := done + [before[i].(name := name)];
    assert after[..i] == done;
    forall j | 0 <= j < |after|
      ensures after[j] == before[..i + 1][j].(name := after[j].name)
      ensures Chosen(after[j].name, before[..i + 1][j], j, NamesOf(after[..j]))
    {
      if j == i {
        assert FirstFree(name, Base(before[i], i), n, NamesOf(done));
      } else {
        assert after[..j] == done[..j] && after[j] == done[j] && before[..i][j] == before[j];
      }
    }
    forall x ensures x in NamesOf(after) <==> x in NamesOf(done) + {name} {
      if x in NamesOf(done) {
        var j :| 0 <= j < |done| && done[j].name == x;
        assert after[j].name == x;
      }
      if x == name { assert after[i].name == x; }
    }
  }

  /** Names so chosen are not empty and all different. */
  lemma RenamedIsUnique(before: seq<Proxy>, after: seq<Proxy>)
    requires Renamed(before, after)
    ensures NoEmptyNames(after) && DistinctNames(after)
  {
    forall i, k | 0 <= i < k < |after| ensures after[i].name != after[k].name {
      assert after[..k][i] == after[i];
      assert after[i].name in NamesOf(after[..k]);
    }
  }

  /** The name is `asked` with number n, the least from 2 on that no earlier proxy has. */
  predicate Numbered(name: string, asked: string, n: nat, earlier: set<string>) {
    && n >= 2 && name == asked + "-" + Itoa(n) && name !in earlier
    && forall m: nat :: 2 <= m < n ==> asked + "-" + Itoa(m) in earlier
  }

  /** The name a proxy asks for is its own, or made of its type, server and port, or of its position; it gets it if no
      earlier proxy has it, and else with the least number from 2 on that makes it new. */
  lemma NamesAre(before: seq<Proxy>, after: seq<Proxy>, i: nat)
    requires Renamed(before, after) && i < |after|
    ensures var p, earlier := before[i], NamesOf(after[..i]);
      var asked :=
        if p.name != "" then p.name
        else if p.kind == "" || p.server == "" then "proxy-" + Itoa(i + 1)
        else p.kind + "-" + p.server + "-" + p.port;
      if asked !in earlier then after[i].name == asked
      else exists n :: Numbered(after[i].name, asked, n, earlier)
  {
    var earlier := NamesOf(after[..i]);
    assert Chosen(after[i].name, before[i], i, earlier);
    var n: nat :| FirstFree(after[i].name, Base(before[i], i), n, earlier);
    assert Candidate(Base(before[i], i), 1) == Base(before[i], i);
    forall m: nat | 2 <= m < n ensures Base(before[i], i) + "-" + Itoa(m) in earlier { assert Candidate(Base(before[i], i), m) in earlier; }
    assert n > 1 ==> Numbered(after[i].name, Base(before[i], i), n, earlier);
  }

  /** Names that were good already are all kept. */
  lemma RenamedKeepsGood(before: seq<Proxy>, after: seq<Proxy>)
    requires Renamed(before, after)
    ensures NoEmptyNames(before) && DistinctNames(before) ==> after == before
  {
    if NoEmptyNames(before) && DistinctNames(before) { KeepsFirst(before, after, |after|); }
  }

  lemma {:induction false} KeepsFirst(before: seq<Proxy>, after: seq<Proxy>, k: nat)
    requires Renamed(before, after) && NoEmptyNames(before) && DistinctNames(before) && k <= |after|
    ensures forall i :: 0 <= i < k ==> after[i] == before[i]
  {
    if k > 0 {
      var i := k - 1;
      KeepsFirst(before, after, i);
      var n :| FirstFree(after[i].name, Base(before[i], i), n, NamesOf(after[..i]));
      assert after[..i] == before[..i];
      forall j | 0 <= j < i ensures before[..i][j].name != before[i].name {}
      assert Candidate(before[i].name, 1) !in NamesOf(after[..i]);
    }
  }
}
