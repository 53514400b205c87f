/** The names of the proxy's traffic counters, and how the sampler takes them apart. */
module StatKeys {
  import opened Options
  import opened Text

  const SEP := ">>>"
  const UPLINK := "uplink"
  const DOWNLINK := "downlink"

  datatype Stat = UserStat(email: string, direction: string) | InboundStat(tag: string, direction: string)

  function Key(stat: Stat): string {
    match stat
    case UserStat(email, direction) => "user" + SEP + (email + SEP + ("traffic" + SEP + direction))
    case InboundStat(tag, direction) => "inbound" + SEP + (tag + SEP + ("traffic" + SEP + direction))
  }

  /** The sampler's reading of a counter name; names of any other form are skipped. */
  function Parse(key: string): Option<Stat> {
    var parts := Split(key, SEP);
    if |parts| != 4 || parts[2] != "traffic" then None
    else if parts[0] == "user" then Some(UserStat(parts[1], parts[3]))
    else if parts[0] == "inbound" then Some(InboundStat(parts[1], parts[3]))
    else None
  }

  /** A name that survives in the middle of a counter name. */
  predicate Plain(name: string) {
    !Contains(name, SEP) && (name != "" ==> name[|name| - 1] != '>')
  }

  predicate AngleAt(s: string, i: nat) {
    i + 3 <= |s| && s[i] == '>' && s[i + 1] == '>' && s[i + 2] == '>'
  }

  lemma AtAngles(s: string, i: nat)
    ensures At(s, SEP, i) <==> AngleAt(s, i)
  {
    if At(s, SEP, i) { assert s[i + 0] == SEP[0] && s[i + 1] == SEP[1] && s[i + 2] == SEP[2]; }
  }

  lemma FindPlain(p: string, rest: string)
    requires Plain(p)
    ensures Find(p + SEP + rest, SEP, 0) == |p|
  {
    var s := p + SEP + rest;
    AtAngles(s, |p|);
    ContainsAt(p, SEP);
    forall j: nat | j < |p| ensures !At(s, SEP, j) {
      AtAngles(s, j);
      AtAngles(p, j);
      assert !At(p, SEP, j);
      assert s[|p| - 1] == p[|p| - 1];
    }
    FindFirst(s, SEP, |p|);
  }

  lemma SplitPlain(p: string, rest: string)
    requires Plain(p)
    ensures Split(p + SEP + rest, SEP) == [p] + Split(rest, SEP)
  {
    FindPlain(p, rest);
    var s := p + SEP + rest;
    assert s[..|p|] == p && s[|p| + 3..] == rest;
  }

  lemma NotContains(w: string)
    requires forall i :: 0 <= i < |w| ==> w[i] != '>'
    ensures !Contains(w, SEP) && Plain(w)
  {
    forall i: nat ensures !At(w, SEP, i) {
      AtAngles(w, i);
    }
    ContainsAt(w, SEP);
  }

  /** The last two parts of every counter name. */
  lemma SplitTail(direction: string)
    requires direction in {UPLINK, DOWNLINK}
    ensures Split("traffic" + SEP + direction, SEP) == ["traffic", direction]
  {
    NotContains("traffic");
    NotContains(direction);
    SplitPlain("traffic", direction);
    SplitNone(direction, SEP);
  }

  /** A part that ends at a separator is plain. */
  lemma HeadPlain(s: string)
    requires Find(s, SEP, 0) <= |s|
    ensures Plain(Split(s, SEP)[0])
  {
    var i := Find(s, SEP, 0);
    var p := s[..i];
    AtAngles(s, i);
    ContainsAt(p, SEP);
    if Contains(p, SEP) {
      var j: nat :| At(p, SEP, j);
      AtAngles(p, j);
      AtAngles(s, j);
    } else if i > 0 {
      AtAngles(s, i - 1);
    }
  }

  lemma JoinFour(a: string, b: string, c: string, d: string)
    ensures Join([a, b, c, d], SEP) == a + SEP + (b + SEP + (c + SEP + d))
  {
    JoinCons(c, [d], SEP);
    JoinCons(b, [c, d], SEP);
    JoinCons(a, [b, c, d], SEP);
    assert [c] + [d] == [c, d] && [b] + [c, d] == [b, c, d] && [a] + [b, c, d] == [a, b, c, d];
  }

  /** Where a stat key comes from: a parsed name is plain, and the key is the only one that parses so. */
  lemma ParsedKey(key: string)
    requires Parse(key).Some?
    ensures Key(Parse(key).value) == key
    ensures Plain(if Parse(key).value.UserStat? then Parse(key).value.email else Parse(key).value.tag)
  {
    var parts := Split(key, SEP);
    JoinSplit(key, SEP);
    JoinFour(parts[0], parts[1], parts[2], parts[3]);
    assert parts == [parts[0], parts[1], "traffic", parts[3]];
    var i := Find(key, SEP, 0);
    assert parts[1..] == Split(key[i + 3..], SEP);
    HeadPlain(key[i + 3..]);
  }

  function NameOf(stat: Stat): string { if stat.UserStat? then stat.email else stat.tag }

  lemma SplitFour(kind: string, name: string, tail: string, last: string)
    requires Plain(kind) && Plain(name) && Split(tail, SEP) == ["traffic", last]
    ensures var parts := Split(kind + SEP + (name + SEP + tail), SEP);
      |parts| == 4 && parts[0] == kind && parts[1] == name && parts[2] == "traffic" && parts[3] == last
  {
    SplitPlain(name, tail);
    SplitPlain(kind, name + SEP + tail);
  }

  /** The sampler recovers the counter of a user or inbound if and only if its name is plain. */
  lemma ParseRecovers(stat: Stat)
    requires stat.direction in {UPLINK, DOWNLINK}
    ensures Parse(Key(stat)) == Some(stat) <==> Plain(NameOf(stat))
  {
    if Plain(NameOf(stat)) {
      NotContains("user");
      NotContains("inbound");
      SplitTail(stat.direction);
      SplitFour(if stat.UserStat? then "user" else "inbound", NameOf(stat), "traffic" + SEP + stat.direction, stat.direction);
    } else if Parse(Key(stat)) == Some(stat) {
      ParsedKey(Key(stat));
    }
  }

  /** A name that holds the separator or ends in a closing angle bracket is never recovered from any counter name, so
      none of its own traffic is ever seen; an email may end so without holding the separator. */
  lemma NeverMetered(name: string)
    requires !Plain(name)
    ensures forall key :: Parse(key).Some? ==> NameOf(Parse(key).value) != name
    ensures !Contains("a>", SEP) && !Plain("a>")
  {
    forall i: nat ensures !At("a>", SEP, i) {}
    ContainsAt("a>", SEP);
    forall key | Parse(key).Some? ensures NameOf(Parse(key).value) != name { ParsedKey(key); }
  }
}
