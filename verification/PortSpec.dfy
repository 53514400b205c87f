/** Forwarded-port texts: which ports they cover, and their expansion under a cap. */
module PortSpec {
  import opened Options
  import opened Text
  import opened Numbers

  const MAX_PORTS := 100

  /** A port, or an inclusive range of ports. */
  datatype Spec = Spec(start: int, end: int)

  function AsPort(n: Option<int>): Option<int> { if n.None? || n.value < 1 || n.value > 65535 then None else n }

  function ParsePort(s: string): Option<int> { AsPort(ParseInt(s)) }

  function ParseToken(tok: string): Option<Spec> {
    var cut := Find(tok, "-", 0);
    if cut <= |tok| then
      (FindChar(tok, '-', 0);
       var start, end := ParsePort(Trim(tok[..cut])), ParsePort(Trim(tok[cut + 1..]));
       if start.None? || end.None? || start.value > end.value then None else Some(Spec(start.value, end.value)))
    else
      var p := ParsePort(tok);
      if p.None? then None else Some(Spec(p.value, p.value))
  }

  function Commas(s: string): string { seq(|s|, i requires 0 <= i < |s| => if s[i] == ';' then ',' else s[i]) }

  /** The tokens of a text: between commas or semicolons, trimmed. */
  function TokensOf(input: string): seq<string> { Split(Commas(input), ",") }

  function SpecOf(tok: string): Option<Spec> { if Trim(tok) == "" then None else ParseToken(Trim(tok)) }

  // ---------- First occurrences ----------

  /** The elements in the order of their first occurrence. */
  function Distinct<T(==)>(xs: seq<T>): seq<T> {
    if xs == [] then []
    else
      var rest, x := xs[..|xs| - 1], xs[|xs| - 1];
      if x in rest then Distinct(rest) else Distinct(rest) + [x]
  }

  lemma {:induction false} DistinctHolds<T(!new)>(xs: seq<T>)
    ensures forall x :: x in Distinct(xs) <==> x in xs
    ensures forall i, k :: 0 <= i < k < |Distinct(xs)| ==> Distinct(xs)[i] != Distinct(xs)[k]
  {
    if xs != [] {
      var rest, x := xs[..|xs| - 1], xs[|xs| - 1];
      DistinctHolds(rest);
      assert xs == rest + [x];
    }
  }

  lemma DistinctAdd<T>(xs: seq<T>, x: T)
    ensures Distinct(xs + [x]) == if x in xs then Distinct(xs) else Distinct(xs) + [x]
  {
    assert (xs + [x])[..|xs|] == xs;
  }

  lemma {:induction false} DistinctPrefix<T>(xs: seq<T>, ys: seq<T>)
    ensures Distinct(xs) <= Distinct(xs + ys)
    decreases |ys|
  {
    if ys == [] {
      assert xs + ys == xs;
    } else {
      var front, y := ys[..|ys| - 1], ys[|ys| - 1];
      DistinctPrefix(xs, front);
      assert xs + ys == xs + front + [y];
      DistinctAdd(xs + front, y);
    }
  }

  lemma {:induction false} DistinctSize<T>(r: seq<T>, all: set<T>)
    requires forall i, k :: 0 <= i < k < |r| ==> r[i] != r[k]
    requires forall x :: x in r <==> x in all
    ensures |r| == |all|
  {
    if r == [] {
      assert all == {};
    } else {
      var n := |r| - 1;
      DistinctSize(r[..n], all - {r[n]});
    }
  }

  // ---------- Parsing ----------

  /** What each token of a text says, if it is acceptable. */
  function Readings(input: string): seq<Option<Spec>> {
    var toks := TokensOf(input);
    seq(|toks|, i requires 0 <= i < |toks| => SpecOf(toks[i]))
  }

  function Accepted(readings: seq<Option<Spec>>): seq<Spec> {
    if readings == [] then []
    else
      var rest, last := Accepted(readings[..|readings| - 1]), readings[|readings| - 1];
      if last.Some? then rest + [last.value] else rest
  }

  function Specs(input: string): seq<Spec> { Distinct(Accepted(Readings(input))) }

  lemma AcceptedAdd(readings: seq<Option<Spec>>, k: nat)
    requires k < |readings|
    ensures Accepted(readings[..k + 1]) ==
      if readings[k].Some? then Accepted(readings[..k]) + [readings[k].value] else Accepted(readings[..k])
  {
    assert readings[..k + 1][..k] == readings[..k];
  }

  method ReadToken(tok: string) returns (spec: Option<Spec>)
    ensures spec == SpecOf(tok)
  {
    var t := Trim(tok);
    spec := None;
    if t != "" { spec := ParseToken(t); }
  }

  method ParseForwardedPorts(input: string) returns (specs: seq<Spec>)
    ensures specs == Specs(input)
  {
    specs := [];
    var toks := TokensOf(input);
    ghost var readings := Readings(input);
    var seen: set<Spec> := {};
    for k := 0 to |toks|
      invariant specs == Distinct(Accepted(readings[..k])) && forall s :: s in seen <==> s in specs
    {
      AcceptedAdd(readings, k);
      DistinctHolds(Accepted(readings[..k]));
      var spec := ReadToken(toks[k]);
      assert spec == readings[k];
      if spec.Some? {
        DistinctAdd(Accepted(readings[..k]), spec.value);
        if spec.value !in seen {
          seen := seen + {spec.value};
          specs := specs + [spec.value];
        }
      }
    }
    assert readings[..|toks|] == readings;
  }

  // ---------- Coverage ----------

  predicate InSpec(s: Spec, p: int) { s.start <= p <= s.end }

  predicate AnyIn(specs: seq<Spec>, p: int) { exists k :: 0 <= k < |specs| && InSpec(specs[k], p) }

  predicate AnyCovers(readings: seq<Option<Spec>>, p: int) {
    exists k :: 0 <= k < |readings| && readings[k].Some? && InSpec(readings[k].value, p)
  }

  /** Some token of the text covers the port. */
  predicate Covers(input: string, p: int) { AnyCovers(Readings(input), p) }

  /** All ports a text covers. */
  function Covered(input: string): set<int> { set p | 1 <= p <= 65535 && Covers(input, p) }

  lemma {:induction false} AcceptedAre(readings: seq<Option<Spec>>, s: Spec)
    ensures s in Accepted(readings) <==> Some(s) in readings
  {
    if readings != [] {
      var n := |readings| - 1;
      AcceptedAre(readings[..n], s);
      assert readings == readings[..n] + [readings[n]];
    }
  }

  lemma SpecIsInBounds(tok: string)
    ensures SpecOf(tok).Some? ==> 1 <= SpecOf(tok).value.start <= SpecOf(tok).value.end <= 65535
  {
  }

  lemma ReadingIsInBounds(input: string, s: Spec)
    requires Some(s) in Readings(input)
    ensures 1 <= s.start <= s.end <= 65535
  {
    var k :| 0 <= k < |Readings(input)| && Readings(input)[k] == Some(s);
    SpecIsInBounds(TokensOf(input)[k]);
  }

  lemma CoveredByAccepted(readings: seq<Option<Spec>>, p: int)
    ensures AnyCovers(readings, p) <==> AnyIn(Distinct(Accepted(readings)), p)
  {
    var specs := Distinct(Accepted(readings));
    DistinctHolds(Accepted(readings));
    if k :| 0 <= k < |readings| && readings[k].Some? && InSpec(readings[k].value, p) {
      AcceptedAre(readings, readings[k].value);
      assert readings[k].value in specs;
    }
    if k :| 0 <= k < |specs| && InSpec(specs[k], p) {
      AcceptedAre(readings, specs[k]);
      var j :| 0 <= j < |readings| && readings[j] == Some(specs[k]);
      assert readings[j].Some? && InSpec(readings[j].value, p);
    }
  }

  lemma CoversInBounds(input: string, p: int)
    requires Covers(input, p)
    ensures 1 <= p <= 65535
  {
    var k :| 0 <= k < |Readings(input)| && Readings(input)[k].Some? && InSpec(Readings(input)[k].value, p);
    ReadingIsInBounds(input, Readings(input)[k].value);
  }

  lemma CoveredBySpecs(input: string, p: int)
    ensures p in Covered(input) <==> AnyIn(Specs(input), p)
  {
    CoveredByAccepted(Readings(input), p);
    if Covers(input, p) { CoversInBounds(input, p); }
  }

  // ---------- What a text covers ----------

  /** Commas and semicolons separate: the text covers what its parts cover. */
  lemma CoverageSplits(x: string, c: char, y: string, p: int)
    requires c in {',', ';'}
    ensures Covers(x + [c] + y, p) <==> Covers(x, p) || Covers(y, p)
  {
    TokensSplit(x, c, y);
    assert Readings(x + [c] + y) == Readings(x) + Readings(y);
    CoveredByEither(Readings(x), Readings(y), p);
  }

  lemma TokensSplit(x: string, c: char, y: string)
    requires c in {',', ';'}
    ensures TokensOf(x + [c] + y) == TokensOf(x) + TokensOf(y)
  {
    assert Commas(x + [c] + y) == Commas(x) + [','] + Commas(y);
    SplitApart(Commas(x), ',', Commas(y));
  }

  lemma CoveredByEither(a: seq<Option<Spec>>, b: seq<Option<Spec>>, p: int)
    ensures AnyCovers(a + b, p) <==> AnyCovers(a, p) || AnyCovers(b, p)
  {
    if k :| 0 <= k < |a| && a[k].Some? && InSpec(a[k].value, p) { assert (a + b)[k] == a[k]; }
    if k :| 0 <= k < |b| && b[k].Some? && InSpec(b[k].value, p) { assert (a + b)[|a| + k] == b[k]; }
  }

  lemma OneToken(tok: string, p: int)
    requires ',' !in tok && ';' !in tok
    ensures Covers(tok, p) <==> SpecOf(tok).Some? && InSpec(SpecOf(tok).value, p)
  {
    assert Commas(tok) == tok;
    SplitFree(tok, ',');
    assert Readings(tok) == [SpecOf(tok)];
    assert Readings(tok)[0] == SpecOf(tok);
  }

  /** A token without a hyphen covers the port it is the number of. */
  lemma PortCovers(tok: string, p: int)
    requires ',' !in tok && ';' !in tok && '-' !in Trim(tok)
    ensures Covers(tok, p) <==> ParseInt(Trim(tok)) == Some(p) && 1 <= p <= 65535
  {
    OneToken(tok, p);
    SinglePort(Trim(tok), p);
  }

  lemma SinglePort(t: string, p: int)
    requires '-' !in t
    ensures (t != "" && ParseToken(t).Some? && InSpec(ParseToken(t).value, p)) <==> ParseInt(t) == Some(p) && 1 <= p <= 65535
  {
    FindChar(t, '-', 0);
    NoPortIsBlank(t);
  }

  lemma NoPortIsBlank(t: string)
    ensures t == "" ==> ParseInt(t) == None
  {
  }

  /** A token with a hyphen covers the ports between the numbers before and behind the first one, bounds included, if
      both are ports; white space around them does not matter. */
  lemma RangeCovers(tok: string, x: string, y: string, p: int)
    requires ',' !in tok && ';' !in tok && Trim(tok) == x + "-" + y && '-' !in x
    ensures Covers(tok, p) <==>
      var a, b := ParseInt(Trim(x)), ParseInt(Trim(y));
      a.Some? && b.Some? && 1 <= a.value <= p <= b.value <= 65535
  {
    OneToken(tok, p);
    RangeOfPorts(x, y, p);
  }

  lemma RangeOfPorts(x: string, y: string, p: int)
    requires '-' !in x
    ensures (ParseToken(x + "-" + y).Some? && InSpec(ParseToken(x + "-" + y).value, p)) <==>
      var a, b := ParseInt(Trim(x)), ParseInt(Trim(y));
      a.Some? && b.Some? && 1 <= a.value <= p <= b.value <= 65535
  {
    RangeIsRead(x, y);
    InPorts(ParseInt(Trim(x)), ParseInt(Trim(y)), p);
  }

  lemma InPorts(a: Option<int>, b: Option<int>, p: int)
    ensures var start, end := AsPort(a), AsPort(b);
      (start.Some? && end.Some? && start.value <= p <= end.value) <==> a.Some? && b.Some? && 1 <= a.value <= p <= b.value <= 65535
  {
  }

  lemma RangeIsRead(x: string, y: string)
    requires '-' !in x
    ensures var start, end := ParsePort(Trim(x)), ParsePort(Trim(y));
      ParseToken(x + "-" + y) ==
        if start.None? || end.None? || start.value > end.value then None else Some(Spec(start.value, end.value))
  {
    var t := x + "-" + y;
    FirstChar(t, '-', |x|);
    assert t[..|x|] == x && t[|x| + 1..] == y;
  }

  lemma DigitsOnly(s: string, c: char)
    requires AllDigits(s) && !IsDigit(c)
    ensures c !in s
  {
  }

  /** A printed port covers itself, a printed range its ports. */
  lemma PrintedCovers(a: nat, b: nat, p: int)
    requires a <= INT64_MAX && b <= INT64_MAX
    ensures Covers(Itoa(a), p) <==> p == a && 1 <= a <= 65535
    ensures Covers(Itoa(a) + "-" + Itoa(b), p) <==> 1 <= a <= p <= b <= 65535
  {
    var x, y := Itoa(a), Itoa(b);
    var tok := x + "-" + y;
    PrintedIsTrimmed(a);
    PrintedIsTrimmed(b);
    ParsePrinted(a);
    ParsePrinted(b);
    assert IsDigit(tok[0]) && tok[|tok| - 1] == y[|y| - 1];
    TrimmedStays(tok);
    forall c | c in {',', ';', '-'} ensures c !in x && c !in y {
      DigitsOnly(x, c);
      DigitsOnly(y, c);
    }
    PortCovers(x, p);
    RangeCovers(tok, x, y, p);
  }

  method ForwardedPortsInclude(input: string, port: int) returns (found: bool)
    ensures found <==> port in Covered(input)
  {
    var specs := ParseForwardedPorts(input);
    CoveredBySpecs(input, port);
    found := AnyIncludes(specs, port);
  }

  method AnyIncludes(specs: seq<Spec>, port: int) returns (found: bool)
    ensures found <==> AnyIn(specs, port)
  {
    for k := 0 to |specs|
      invariant forall j :: 0 <= j < k ==> !InSpec(specs[j], port)
    {
      if port >= specs[k].start && port <= specs[k].end { return true; }
    }
    found := false;
  }

  // ---------- Expansion ----------

  function PortsOf(a: int, b: int): (r: seq<int>)
    ensures forall p :: p in r <==> a <= p <= b
    decreases b - a
  {
    if a > b then [] else PortsOf(a, b - 1) + [b]
  }

  /** The ports of the specs, one spec after another. */
  function AllPorts(specs: seq<Spec>): seq<int> {
    if specs == [] then [] else AllPorts(specs[..|specs| - 1]) + PortsOf(specs[|specs| - 1].start, specs[|specs| - 1].end)
  }

  lemma {:induction false} AllPortsCover(specs: seq<Spec>, p: int)
    ensures p in AllPorts(specs) <==> AnyIn(specs, p)
  {
    if specs != [] {
      var n := |specs| - 1;
      AllPortsCover(specs[..n], p);
      AnyInLast(specs, p);
    }
  }

  lemma AnyInLast(specs: seq<Spec>, p: int)
    requires specs != []
    ensures var n := |specs| - 1; AnyIn(specs, p) <==> AnyIn(specs[..n], p) || InSpec(specs[n], p)
  {
    var n := |specs| - 1;
    if k :| 0 <= k < n && InSpec(specs[k], p) { assert InSpec(specs[..n][k], p); }
    if k :| 0 <= k < n && InSpec(specs[..n][k], p) { assert InSpec(specs[k], p); }
  }

  function Insert(x: int, s: seq<int>): seq<int> {
    if s == [] || x <= s[0] then [x] + s else [s[0]] + Insert(x, s[1..])
  }

  function Sort(s: seq<int>): seq<int> { if s == [] then [] else Insert(s[0], Sort(s[1..])) }

  predicate Ascending(s: seq<int>) { forall i, k :: 0 <= i < k < |s| ==> s[i] < s[k] }

  lemma {:induction false} InsertSorted(x: int, s: seq<int>)
    requires Ascending(s) && x !in s
    ensures Ascending(Insert(x, s)) && |Insert(x, s)| == |s| + 1 && forall y :: y in Insert(x, s) <==> y == x || y in s
  {
    if s != [] && x > s[0] {
      InsertSorted(x, s[1..]);
      var r := Insert(x, s[1..]);
      assert forall y :: y in s <==> y == s[0] || y in s[1..];
      forall k | 0 <= k < |r| ensures s[0] < r[k] { assert r[k] in r; }
    }
  }

  lemma {:induction false} Sorted(s: seq<int>)
    requires forall i, k :: 0 <= i < k < |s| ==> s[i] != s[k]
    ensures Ascending(Sort(s)) && |Sort(s)| == |s| && forall y :: y in Sort(s) <==> y in s
  {
    if s != [] {
      Sorted(s[1..]);
      InsertSorted(s[0], Sort(s[1..]));
      assert forall y :: y in s <==> y == s[0] || y in s[1..];
    }
  }

  function Min(a: nat, b: nat): nat { if a <= b then a else b }

  /** The first `limit` different ports in the order of the text. */
  function FirstPorts(input: string, limit: nat): seq<int> {
    var all := Distinct(AllPorts(Specs(input)));
    all[..Min(limit, |all|)]
  }

  /** Expansion that stops as soon as the limit is reached. */
  method Expand(input: string, limit: nat) returns (ports: seq<int>)
    ensures ports == Sort(FirstPorts(input, limit))
    ensures Ascending(ports) && |ports| == Min(limit, |Covered(input)|)
    ensures forall p :: p in ports ==> p in Covered(input)
  {
    var specs := ParseForwardedPorts(input);
    var found := Collect(specs, limit);
    ExpansionCovers(input, limit);
    ports := Sort(found);
    Sorted(found);
  }

  method Collect(specs: seq<Spec>, limit: nat) returns (ports: seq<int>)
    ensures var all := Distinct(AllPorts(specs)); ports == all[..Min(limit, |all|)]
  {
    ports := [];
    var seen: set<int> := {};
    var full := false;
    var i := 0;
    while i < |specs| && !full
      invariant i <= |specs| && |ports| <= limit && forall q :: q in seen <==> q in ports
      invariant if full then |ports| == limit && ports <= Distinct(AllPorts(specs)) else ports == Distinct(AllPorts(specs[..i]))
      decreases |specs| - i, !full
    {
      ghost var before := AllPorts(specs[..i]);
      AllPortsStep(specs, i);
      ghost var p;
      ports, seen, full, p := CollectSpec(ports, seen, specs[i], limit, before);
      if full {
        PortsSplit(specs[i].start, p, specs[i].end);
        Regroup(before, PortsOf(specs[i].start, p), PortsOf(p + 1, specs[i].end));
        RestOfPorts(specs, i, before + PortsOf(specs[i].start, p), PortsOf(p + 1, specs[i].end));
      } else {
        i := i + 1;
      }
    }
    assert specs[..|specs|] == specs;
  }

  /** The ports of one spec, until the limit is reached; those up to `p` were looked at. */
  method CollectSpec(found: seq<int>, known: set<int>, spec: Spec, limit: nat, ghost before: seq<int>)
    returns (ports: seq<int>, seen: set<int>, full: bool, ghost p: int)
    requires found == Distinct(before) && |found| <= limit && forall q :: q in known <==> q in found
    ensures |ports| <= limit && forall q :: q in seen <==> q in ports
    ensures if full then |ports| == limit && spec.start - 1 <= p <= spec.end && ports == Distinct(before + PortsOf(spec.start, p))
            else ports == Distinct(before + PortsOf(spec.start, spec.end))
  {
    ports, seen, full, p := found, known, false, spec.start - 1;
    var next := spec.start;
    assert before + PortsOf(spec.start, p) == before;
    while next <= spec.end && !full
      invariant |ports| <= limit && p == next - 1 && spec.start <= next && forall q :: q in seen <==> q in ports
      invariant next <= spec.end + 1 || next == spec.start
      invariant ports == Distinct(before + PortsOf(spec.start, p))
      invariant full ==> |ports| == limit && next <= spec.end
      decreases spec.end - next, !full
    {
      if |ports| >= limit {
        full := true;
      } else {
        NextPort(before, spec.start, next);
        if next !in seen {
          seen := seen + {next};
          ports := ports + [next];
        }
        p, next := next, next + 1;
      }
    }
    if !full { PortsEnd(spec.start, p, spec.end); }
  }

  lemma NextPort(before: seq<int>, a: int, next: int)
    requires a <= next
    ensures var d := Distinct(before + PortsOf(a, next - 1));
      Distinct(before + PortsOf(a, next)) == if next in d then d else d + [next]
  {
    var xs := before + PortsOf(a, next - 1);
    Regroup(before, PortsOf(a, next - 1), [next]);
    DistinctHolds(xs);
    DistinctAdd(xs, next);
  }

  lemma Regroup(x: seq<int>, y: seq<int>, z: seq<int>)
    ensures x + (y + z) == (x + y) + z
  {
  }

  lemma AllPortsStep(specs: seq<Spec>, i: nat)
    requires i < |specs|
    ensures AllPorts(specs[..i + 1]) == AllPorts(specs[..i]) + PortsOf(specs[i].start, specs[i].end)
  {
    assert specs[..i + 1][..i] == specs[..i];
  }

  lemma PortsEnd(a: int, p: int, b: int)
    requires p >= b && (a <= b ==> p == b) && (a > b ==> p == a - 1)
    ensures PortsOf(a, p) == PortsOf(a, b)
  {
  }

  lemma {:induction false} PortsSplit(a: int, p: int, b: int)
    requires a - 1 <= p <= b
    ensures PortsOf(a, b) == PortsOf(a, p) + PortsOf(p + 1, b)
    decreases b - p
  {
    if p < b {
      PortsSplit(a, p, b - 1);
      assert PortsOf(a, p) + (PortsOf(p + 1, b - 1) + [b]) == (PortsOf(a, p) + PortsOf(p + 1, b - 1)) + [b];
    }
  }

  /** What was collected is the beginning of everything there is to collect. */
  lemma RestOfPorts(specs: seq<Spec>, i: nat, done: seq<int>, left: seq<int>)
    requires i < |specs| && done + left == AllPorts(specs[..i + 1])
    ensures Distinct(done) <= Distinct(AllPorts(specs))
  {
    var rest := AllPortsFrom(specs, i + 1);
    assert done + (left + rest) == AllPorts(specs);
    DistinctPrefix(done, left + rest);
  }

  lemma {:induction false} AllPortsFrom(specs: seq<Spec>, i: nat) returns (rest: seq<int>)
    requires i <= |specs|
    ensures AllPorts(specs[..i]) + rest == AllPorts(specs)
    decreases |specs| - i
  {
    if i == |specs| {
      rest := [];
      assert specs[..i] == specs;
    } else {
      var more := AllPortsFrom(specs, i + 1);
      AllPortsStep(specs, i);
      rest := PortsOf(specs[i].start, specs[i].end) + more;
    }
  }

  lemma ExpansionCovers(input: string, limit: nat)
    ensures var r := FirstPorts(input, limit);
      && |r| == Min(limit, |Covered(input)|) && (forall p :: p in r ==> p in Covered(input))
      && (forall i, k :: 0 <= i < k < |r| ==> r[i] != r[k])
  {
    var all := Distinct(AllPorts(Specs(input)));
    DistinctHolds(AllPorts(Specs(input)));
    forall p ensures p in all <==> p in Covered(input) {
      AllPortsCover(Specs(input), p);
      CoveredBySpecs(input, p);
    }
    DistinctSize(all, Covered(input));
  }

  /** Equal sets, in ascending order, are equal lists. */
  lemma {:induction false} AscendingIsUnique(a: seq<int>, b: seq<int>)
    requires Ascending(a) && Ascending(b) && forall p :: p in a <==> p in b
    ensures a == b
  {
    var all := set p | p in a;
    forall p ensures (p in a <==> p in all) && (p in b <==> p in all) {}
    DistinctSize(a, all);
    DistinctSize(b, all);
    if a != [] {
      assert a[0] in b && b[0] in a;
      var i :| 0 <= i < |b| && b[i] == a[0];
      var k :| 0 <= k < |a| && a[k] == b[0];
      forall p ensures p in a[1..] <==> p in b[1..] {
        assert p in a <==> p == a[0] || p in a[1..];
        assert p in b <==> p == b[0] || p in b[1..];
      }
      AscendingIsUnique(a[1..], b[1..]);
      assert a == [a[0]] + a[1..] && b == [b[0]] + b[1..];
    }
  }

  /** Under the cap, texts that cover the same ports expand to the same list, whatever their order. */
  lemma ExpansionIsByCoverage(x: string, y: string)
    requires Covered(x) == Covered(y) && |Covered(x)| <= MAX_PORTS
    ensures Sort(FirstPorts(x, MAX_PORTS)) == Sort(FirstPorts(y, MAX_PORTS))
  {
    var a, b := FirstPorts(x, MAX_PORTS), FirstPorts(y, MAX_PORTS);
    ExpansionCovers(x, MAX_PORTS);
    ExpansionCovers(y, MAX_PORTS);
    Sorted(a);
    Sorted(b);
    FullListCovers(Sort(a), Covered(x));
    FullListCovers(Sort(b), Covered(x));
    AscendingIsUnique(Sort(a), Sort(b));
  }

  /** The ports a client's text opens: all it covers, unless they are too many. */
  method ExpandForwardedPorts(input: string) returns (ports: seq<int>)
    ensures Ascending(ports) && |ports| == Min(100, |Covered(input)|)
    ensures forall p :: p in ports ==> p in Covered(input)
    ensures |Covered(input)| <= 100 ==> forall p :: p in ports <==> p in Covered(input)
    ensures ports == Sort(FirstPorts(input, MAX_PORTS))
  {
    ports := Expand(input, MAX_PORTS);
    if |Covered(input)| <= MAX_PORTS { FullListCovers(ports, Covered(input)); }
  }

  lemma FullListCovers(ports: seq<int>, all: set<int>)
    requires Ascending(ports) && |ports| == |all| && forall p :: p in ports ==> p in all
    ensures forall p :: p in ports <==> p in all
  {
    var s := set p | p in ports;
    DistinctSize(ports, s);
    SubsetOfSameSize(s, all);
  }

  lemma SubsetOfSameSize(s: set<int>, all: set<int>)
    requires s <= all && |s| == |all|
    ensures s == all
  {
    assert |all - s| == |all| - |s|;
  }

  method ExceedsForwardedPortsCap(input: string) returns (over: bool)
    ensures over <==> |Covered(input)| > 100
  {
    var probe := Expand(input, MAX_PORTS + 1);
    over := |probe| > MAX_PORTS;
  }
}
